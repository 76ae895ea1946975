/**
 * The records the core passes around (types.ts). Numbers that the source keeps
 * as fractions between 0 and 1 (confidence, similarity) are integer hundredths.
 */
module Model {
  import opened Text

  /** The result of an operation that either returns a value or throws an error with a message. */
  datatype Outcome<+T> = Ok(value: T) | Failure(message: string)

  datatype ViewState = Auth | Scanning | SenderGroups | SenderDetail | EmailDetailView | Success

  datatype EmailCategory = Promotional | Notification | Newsletter | Social | Finance | Personal | Spam

  datatype ProviderType = Google | Yahoo

  /** One message as listed by a provider. Identity is `id`. */
  datatype Email = Email(
    id: string,
    subject: string,
    sender: string,
    senderEmail: string,
    snippet: string,
    date: string,
    isRead: bool)

  datatype SuggestedAction = ArchiveIt | DeleteIt | KeepIt | MarkRead

  datatype RiskLevel = LowRisk | MediumRisk | HighRisk

  datatype AIAnalysisResult = AIAnalysisResult(
    emailId: string,
    category: EmailCategory,
    confidence: nat,
    reasoning: string,
    suggestedAction: SuggestedAction,
    riskLevel: RiskLevel)

  datatype SimilarEmailResult = SimilarEmailResult(emailId: string, similarityScore: nat, matchReason: string)

  /** The outcome of a bulk move-to-trash: reported in-band, never thrown. */
  datatype TrashOperationResult = TrashOperationResult(
    success: bool,
    trashedCount: nat,
    failedIds: seq<string>,
    errorMessage: Option<string>)

  datatype Recommendation = RecommendKeep | RecommendArchive | RecommendDelete | RecommendReview

  datatype SenderGroupAnalysis = SenderGroupAnalysis(
    category: EmailCategory,
    recommendation: Recommendation,
    summary: string,
    confidence: nat)

  /** All listed emails of one sender address, with the figures derived from them. */
  datatype SenderGroup = SenderGroup(
    senderEmail: string,
    senderName: string,
    emailCount: nat,
    emails: seq<Email>,
    unreadCount: nat,
    oldestDate: string,
    newestDate: string,
    analysis: Option<SenderGroupAnalysis>)

  datatype EmailAttachment = EmailAttachment(id: string, filename: string, mimeType: string, size: nat)

  /**
   * An email with its content. An absent `attachments` list is the empty list
   * (every reader only asks for its length).
   */
  datatype EmailDetail = EmailDetail(
    email: Email,
    body: string,
    bodyText: string,
    attachments: seq<EmailAttachment>,
    replyTo: Option<string>,
    cc: Option<seq<string>>,
    bcc: Option<seq<string>>)

  datatype EmailActionType = Reply | Forward | Delete | Archive | Star | Snooze | Unsubscribe | MarkSpam

  datatype ActionPriority = Primary | Secondary | Tertiary

  datatype EmailAction = EmailAction(
    kind: EmailActionType,
    caption: string,
    description: string,
    priority: ActionPriority,
    draftContent: Option<string>)

  datatype Sentiment = Positive | Neutral | Negative | Urgent

  datatype Urgency = LowUrgency | MediumUrgency | HighUrgency | Critical

  /** Extracted items; an empty list stands for a key the source leaves unset. */
  datatype ExtractedInfo = ExtractedInfo(dates: seq<string>, amounts: seq<string>, links: seq<string>)

  datatype EmailAIAnalysis = EmailAIAnalysis(
    emailId: string,
    summary: string,
    keyPoints: seq<string>,
    sentiment: Sentiment,
    category: EmailCategory,
    urgency: Urgency,
    suggestedActions: seq<EmailAction>,
    requiresResponse: bool,
    extractedInfo: Option<ExtractedInfo>)

  /** The display name of a category, as the source spells it. */
  function CategoryName(c: EmailCategory): string
  {
    match c
    case Promotional => "Promotional"
    case Notification => "Notification"
    case Newsletter => "Newsletter"
    case Social => "Social"
    case Finance => "Finance"
    case Personal => "Personal"
    case Spam => "Spam"
  }
}
