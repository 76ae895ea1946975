/**
 * The rule-based analyses the AI service falls back to when no API key is set
 * or the model call fails (services/geminiService.ts): keyword tables over the
 * sender, the address, the subject and the body. Fractions between 0 and 1
 * (confidence, similarity) are integer hundredths.
 */
module Fallbacks {
  import opened Text
  import opened Model
  import opened Sorting
  import opened Seqs

  // ------------------------------------------------------------ mockAnalysis

  /** The category, action and risk `mockAnalysis` gives a sender name (matching is case-sensitive). */
  datatype Verdict = Verdict(category: EmailCategory, action: SuggestedAction, risk: RiskLevel)

  function SenderVerdict(sender: string): (v: Verdict)
    ensures Contains(sender, "Amazon") || Contains(sender, "Uber") ==> v == Verdict(Notification, ArchiveIt, MediumRisk)
    ensures !(Contains(sender, "Amazon") || Contains(sender, "Uber")) ==>
      Contains(sender, "Netflix") || Contains(sender, "Spotify") || Contains(sender, "Old Navy") ==>
      v == Verdict(Promotional, DeleteIt, LowRisk)
    ensures !(Contains(sender, "Amazon") || Contains(sender, "Uber")) ==>
      !(Contains(sender, "Netflix") || Contains(sender, "Spotify") || Contains(sender, "Old Navy")) ==>
      Contains(sender, "LinkedIn") ==>
      v == Verdict(Social, ArchiveIt, LowRisk)
    ensures v.category == Notification <==> Contains(sender, "Amazon") || Contains(sender, "Uber")
    ensures v.action == DeleteIt <==> v.category == Promotional
    ensures v.risk == HighRisk <==> v.category == Personal
    ensures v.category == Personal <==>
      !(Contains(sender, "Amazon") || Contains(sender, "Uber") || Contains(sender, "Netflix")
        || Contains(sender, "Spotify") || Contains(sender, "Old Navy") || Contains(sender, "LinkedIn"))
    ensures v.category == Personal ==> v == Verdict(Personal, KeepIt, HighRisk)
  {
    if Contains(sender, "Amazon") || Contains(sender, "Uber") then Verdict(Notification, ArchiveIt, MediumRisk)
    else if Contains(sender, "Netflix") || Contains(sender, "Spotify") then Verdict(Promotional, DeleteIt, LowRisk)
    else if Contains(sender, "Old Navy") then Verdict(Promotional, DeleteIt, LowRisk)
    else if Contains(sender, "LinkedIn") then Verdict(Social, ArchiveIt, LowRisk)
    else Verdict(Personal, KeepIt, HighRisk)
  }

  /** The earlier rule wins: a sender naming both Uber and Netflix is a notification to archive. */
  lemma SenderVerdictFirstRuleWins(sender: string)
    requires Contains(sender, "Uber") && Contains(sender, "Netflix")
    ensures SenderVerdict(sender) == Verdict(Notification, ArchiveIt, MediumRisk)
  {
  }

  /** The analysis `mockAnalysis` gives one email. */
  function EmailVerdict(email: Email): AIAnalysisResult
  {
    var v := SenderVerdict(email.sender);
    AIAnalysisResult(email.id, v.category, 95, "Matched pattern for " + CategoryName(v.category) + " emails.",
                     v.action, v.risk)
  }

  /** `mockAnalysis`: one result per email, in order, each naming its email. */
  function MockAnalysis(emails: seq<Email>): (r: seq<AIAnalysisResult>)
    ensures |r| == |emails|
    ensures forall i :: 0 <= i < |r| ==> r[i].emailId == emails[i].id && r[i].confidence == 95
    ensures forall i :: 0 <= i < |r| ==>
      Verdict(r[i].category, r[i].suggestedAction, r[i].riskLevel) == SenderVerdict(emails[i].sender)
  {
    seq(|emails|, i requires 0 <= i < |emails| => EmailVerdict(emails[i]))
  }

  /** Analysing a list in batches gives the analyses of the whole list. */
  lemma MockAnalysisAppend(a: seq<Email>, b: seq<Email>)
    ensures MockAnalysis(a + b) == MockAnalysis(a) + MockAnalysis(b)
  {
  }

  // -------------------------------------------------- mockSenderGroupAnalysis

  predicate PromotionalSender(emailLower: string, nameLower: string)
  {
    Contains(emailLower, "promo") || Contains(emailLower, "marketing") || Contains(emailLower, "newsletter")
    || Contains(emailLower, "deals") || Contains(nameLower, "old navy") || Contains(nameLower, "groupon")
    || Contains(nameLower, "linkedin")
  }

  predicate NotificationSender(emailLower: string, nameLower: string)
  {
    Contains(emailLower, "noreply") || Contains(emailLower, "notification") || Contains(nameLower, "amazon")
    || Contains(nameLower, "uber") || Contains(nameLower, "netflix")
  }

  predicate FinanceSender(emailLower: string, nameLower: string)
  {
    Contains(nameLower, "bank") || Contains(nameLower, "paypal") || Contains(nameLower, "venmo")
    || Contains(emailLower, "billing")
  }

  /**
   * `mockSenderGroupAnalysis`: the promotional patterns are checked first,
   * then the notification and finance ones, on the lower-cased address and
   * name; the group's emails are not looked at.
   */
  function MockSenderGroupAnalysis(senderEmail: string, senderName: string, emails: seq<Email>): (r: SenderGroupAnalysis)
    ensures var e := Lower(senderEmail); var n := Lower(senderName);
      && (r.category == Promotional <==> PromotionalSender(e, n))
      && (r.category == Notification <==> !PromotionalSender(e, n) && NotificationSender(e, n))
      && (r.category == Finance <==> !PromotionalSender(e, n) && !NotificationSender(e, n) && FinanceSender(e, n))
      && (r.category == Personal <==> !PromotionalSender(e, n) && !NotificationSender(e, n) && !FinanceSender(e, n))
  {
    var emailLower := Lower(senderEmail);
    var senderLower := Lower(senderName);
    if PromotionalSender(emailLower, senderLower) then
      SenderGroupAnalysis(Promotional, RecommendDelete, "Promotional emails - safe to delete", 85)
    else if NotificationSender(emailLower, senderLower) then
      SenderGroupAnalysis(Notification, RecommendArchive, "Service notifications - safe to archive", 80)
    else if FinanceSender(emailLower, senderLower) then
      SenderGroupAnalysis(Finance, RecommendKeep, "Financial emails - recommend keeping", 90)
    else
      SenderGroupAnalysis(Personal, RecommendReview, "Mixed content - review emails individually", 60)
  }

  /**
   * Each category comes with one recommendation and one confidence: delete
   * promotions (85), archive notifications (80), keep finance (90), review the
   * rest (60); delete is only ever recommended for promotions.
   */
  lemma SenderGroupRecommendation(senderEmail: string, senderName: string, emails: seq<Email>)
    ensures var r := MockSenderGroupAnalysis(senderEmail, senderName, emails);
      && r.category in {Promotional, Notification, Finance, Personal}
      && (r.recommendation == RecommendDelete <==> r.category == Promotional)
      && (r.recommendation == RecommendArchive <==> r.category == Notification)
      && (r.recommendation == RecommendKeep <==> r.category == Finance)
      && (r.recommendation == RecommendReview <==> r.category == Personal)
      && r.confidence == (match r.category case Promotional => 85 case Notification => 80 case Finance => 90 case _ => 60)
  {
  }

  /** The letter case of the address and the name makes no difference. */
  lemma {:induction false} SenderGroupIgnoresCase(senderEmail: string, senderName: string, emails: seq<Email>, others: seq<Email>)
    ensures MockSenderGroupAnalysis(Lower(senderEmail), Lower(senderName), emails)
         == MockSenderGroupAnalysis(senderEmail, senderName, others)
  {
    LowerIdempotent(senderEmail);
    LowerIdempotent(senderName);
  }

  // ------------------------------------------------------- mockSimilarEmails

  const PromoPatterns := ["sale", "off", "discount", "deal", "offer", "free", "save"]
  const NotificationPatterns := ["shipped", "delivered", "order", "receipt", "confirmation", "update"]
  const KeepThreshold := 60

  /** `patterns.some(p => s.includes(p))` */
  predicate AnyContained(s: string, patterns: seq<string>)
    decreases |patterns|
  {
    patterns != [] && (Contains(s, patterns[0]) || AnyContained(s, patterns[1..]))
  }

  /** The words of a subject longer than three characters, lower-cased, in order. */
  function LongWords(subject: string): seq<string>
  {
    LongerThanThree(Words(Lower(subject)))
  }

  function LongerThanThree(ws: seq<string>): (r: seq<string>)
    ensures |r| <= |ws|
    ensures forall i :: 0 <= i < |r| ==> |r[i]| > 3
  {
    if ws == [] then []
    else LongerThanThree(ws[..|ws| - 1]) + (if |ws[|ws| - 1]| > 3 then [ws[|ws| - 1]] else [])
  }

  /** The long words are exactly the words of more than three characters, in their order. */
  lemma {:induction false} LongerThanThreeExact(ws: seq<string>)
    ensures forall w :: w in LongerThanThree(ws) <==> w in ws && |w| > 3
    ensures IsSubsequence(LongerThanThree(ws), ws)
  {
    if ws != [] {
      var p := ws[..|ws| - 1];
      LongerThanThreeExact(p);
      SplitLast(ws);
      SubsequenceSnoc(LongerThanThree(p), p, ws[|ws| - 1]);
      if |ws[|ws| - 1]| > 3 {
        assert LongerThanThree(ws) == LongerThanThree(p) + [ws[|ws| - 1]];
      } else {
        assert LongerThanThree(ws) == LongerThanThree(p);
      }
    }
  }

  /** How many of the source's words (repeats counted) occur among the candidate's. */
  function CommonCount(sourceWords: seq<string>, candidateWords: seq<string>): (k: nat)
    ensures k <= |sourceWords|
  {
    if sourceWords == [] then 0
    else CommonCount(sourceWords[..|sourceWords| - 1], candidateWords)
         + (if sourceWords[|sourceWords| - 1] in candidateWords then 1 else 0)
  }

  /** The count is the number of positions of the source's words whose word the candidate has. */
  lemma {:induction false} CommonCountExact(sourceWords: seq<string>, candidateWords: seq<string>)
    ensures CommonCount(sourceWords, candidateWords)
         == |set i | 0 <= i < |sourceWords| && sourceWords[i] in candidateWords|
  {
    if sourceWords != [] {
      var n := |sourceWords| - 1;
      var p := sourceWords[..n];
      CommonCountExact(p, candidateWords);
      var before := set i | 0 <= i < |p| && p[i] in candidateWords;
      var after := set i | 0 <= i < |sourceWords| && sourceWords[i] in candidateWords;
      if sourceWords[n] in candidateWords {
        assert after == before + {n};
      } else {
        assert after == before;
      }
    }
  }

  predicate SameSender(source: Email, candidate: Email)
  {
    Lower(candidate.sender) == Lower(source.sender) || candidate.senderEmail == source.senderEmail
  }

  function SharedWords(source: Email, candidate: Email): nat
  {
    CommonCount(LongWords(source.subject), LongWords(candidate.subject))
  }

  predicate BothPromotional(source: Email, candidate: Email)
  {
    AnyContained(Lower(source.subject), PromoPatterns) && AnyContained(Lower(candidate.subject), PromoPatterns)
  }

  predicate BothNotifications(source: Email, candidate: Email)
  {
    AnyContained(Lower(source.subject), NotificationPatterns) && AnyContained(Lower(candidate.subject), NotificationPatterns)
  }

  /** The subject-word part of the score: 15 per shared word, at most 40. */
  function WordScore(k: nat): (s: nat)
    ensures k == 0 <==> s == 0
    ensures s <= 40 && s <= 15 * k
  {
    if 15 * k < 40 then 15 * k else 40
  }

  /** The similarity score of a candidate, in hundredths, before the cap at 100. */
  function Score(source: Email, candidate: Email): (s: nat)
    ensures s <= 130
  {
    (if SameSender(source, candidate) then 50 else 0)
    + WordScore(SharedWords(source, candidate))
    + (if BothPromotional(source, candidate) then 20 else 0)
    + (if BothNotifications(source, candidate) then 20 else 0)
  }

  /** The explanation built along the score; the first reason found is kept. */
  function Reason(source: Email, candidate: Email): string
  {
    var r1 := if SameSender(source, candidate) then "Same sender" else "";
    var r2 := if SharedWords(source, candidate) > 0 then (if r1 != "" then r1 + ", similar subject" else "Similar subject keywords") else r1;
    var r3 := if BothPromotional(source, candidate) then OrElse(r2, "Both promotional emails") else r2;
    if BothNotifications(source, candidate) then OrElse(r3, "Both notification emails") else r3
  }

  /** Any positive score comes with a reason, so the "Similar content pattern" default is never used. */
  lemma ReasonOfPositiveScore(source: Email, candidate: Email)
    requires Score(source, candidate) > 0
    ensures Reason(source, candidate) != ""
  {
  }

  /** The result a kept candidate gets. */
  function Similar(source: Email, candidate: Email): (r: SimilarEmailResult)
    ensures r.emailId == candidate.id && r.similarityScore <= 100
  {
    var s := Score(source, candidate);
    SimilarEmailResult(candidate.id, if s < 100 then s else 100, OrElse(Reason(source, candidate), "Similar content pattern"))
  }

  /** The candidates scoring at least 60, in order, with their results. */
  function Matches(source: Email, candidates: seq<Email>): (r: seq<SimilarEmailResult>)
    ensures |r| <= |candidates|
  {
    if candidates == [] then []
    else
      var c := candidates[|candidates| - 1];
      Matches(source, candidates[..|candidates| - 1]) + (if Score(source, c) >= KeepThreshold then [Similar(source, c)] else [])
  }

  /** The order of the results: greatest similarity first. */
  function ScoreKey(r: SimilarEmailResult): int
  {
    r.similarityScore
  }

  /**
   * `mockSimilarEmails`: each candidate is scored, those reaching 60 are kept
   * with their score capped at 100, and the results are sorted by descending
   * score (stably).
   */
  method MockSimilarEmails(source: Email, candidates: seq<Email>) returns (results: seq<SimilarEmailResult>)
    ensures results == SortDesc(Matches(source, candidates), ScoreKey)
    ensures forall i, j :: 0 <= i < j < |results| ==> results[i].similarityScore >= results[j].similarityScore
  {
    var found: seq<SimilarEmailResult> := [];
    for i := 0 to |candidates|
      invariant found == Matches(source, candidates[..i])
    {
      var candidate := candidates[i];
      var score, reason := ScoreCandidate(source, candidate);
      assert candidates[..i + 1][..i] == candidates[..i];
      if score >= KeepThreshold {
        found := found + [SimilarEmailResult(candidate.id, if score < 100 then score else 100, OrElse(reason, "Similar content pattern"))];
      }
    }
    assert candidates[..|candidates|] == candidates;
    SortDescSorted(found, ScoreKey);
    results := SortDesc(found, ScoreKey);
  }

  /** The body of the loop of `mockSimilarEmails`: the score and the reason, built up rule by rule. */
  method ScoreCandidate(source: Email, candidate: Email) returns (score: nat, reason: string)
    ensures score == Score(source, candidate) && reason == Reason(source, candidate)
  {
    score := 0;
    reason := "";
    if SameSender(source, candidate) {
      score := score + 50;
      reason := "Same sender";
    }
    var common := SharedWords(source, candidate);
    if common > 0 {
      score := score + WordScore(common);
      reason := if reason != "" then reason + ", similar subject" else "Similar subject keywords";
    }
    if BothPromotional(source, candidate) {
      score := score + 20;
      reason := if reason != "" then reason else "Both promotional emails";
    }
    if BothNotifications(source, candidate) {
      score := score + 20;
      reason := if reason != "" then reason else "Both notification emails";
    }
  }

  /**
   * The matches are exactly the candidates scoring at least 60: every match is
   * the result of such a candidate, with a score between 60 and 100, and every
   * such candidate has its result among the matches.
   */
  lemma {:induction false} MatchesExact(source: Email, candidates: seq<Email>)
    ensures forall r :: r in Matches(source, candidates) ==>
      KeepThreshold <= r.similarityScore <= 100 && exists c :: c in candidates && r == Similar(source, c)
    ensures forall c :: c in candidates && Score(source, c) >= KeepThreshold ==> Similar(source, c) in Matches(source, candidates)
  {
    if candidates != [] {
      var init := candidates[..|candidates| - 1];
      MatchesExact(source, init);
      assert candidates == init + [candidates[|candidates| - 1]];
    }
  }

  /** The same sender and one shared subject word are enough to be kept; the same sender alone is not. */
  lemma SameSenderScores(source: Email, candidate: Email)
    requires SameSender(source, candidate)
    ensures SharedWords(source, candidate) > 0 ==> Score(source, candidate) >= KeepThreshold
    ensures SharedWords(source, candidate) == 0 && !BothPromotional(source, candidate) && !BothNotifications(source, candidate)
      ==> Score(source, candidate) < KeepThreshold
  {
  }

  /** A different sender is kept only with shared subject words or both subject patterns. */
  lemma OtherSenderScores(source: Email, candidate: Email)
    requires !SameSender(source, candidate)
    ensures Score(source, candidate) >= KeepThreshold <==>
      var w := WordScore(SharedWords(source, candidate));
      var p := if BothPromotional(source, candidate) then 20 else 0;
      var n := if BothNotifications(source, candidate) then 20 else 0;
      w + p + n >= 60
    ensures !BothPromotional(source, candidate) && !BothNotifications(source, candidate) ==> Score(source, candidate) < KeepThreshold
  {
  }

  /**
   * `findSimilarEmails` without a usable model reply: the source itself is
   * filtered out, no candidates give no results, and otherwise the rules
   * decide. `reply` is the model's answer when an API key is set (None when it
   * is not); a reply that fails falls back to the rules, a good one is
   * filtered to scores of at least 60.
   */
  method FindSimilarEmails(source: Email, allEmails: seq<Email>, reply: Option<Outcome<seq<SimilarEmailResult>>>)
    returns (r: seq<SimilarEmailResult>)
    ensures var candidates := Candidates(source, allEmails);
      && (candidates == [] ==> r == [])
      && (candidates != [] && (reply.None? || reply.value.Failure?) ==> r == SortDesc(Matches(source, candidates), ScoreKey))
      && (candidates != [] && reply.Some? && reply.value.Ok? ==> r == AtLeast(reply.value.value, KeepThreshold))
  {
    var candidates := Candidates(source, allEmails);
    if candidates == [] {
      return [];
    }
    if reply.None? || reply.value.Failure? {
      r := MockSimilarEmails(source, candidates);
      return;
    }
    r := AtLeast(reply.value.value, KeepThreshold);
  }

  /** The emails other than the source, by id, in order. */
  function Candidates(source: Email, allEmails: seq<Email>): (r: seq<Email>)
    ensures |r| <= |allEmails|
    ensures forall i :: 0 <= i < |r| ==> r[i].id != source.id
  {
    if allEmails == [] then []
    else Candidates(source, allEmails[..|allEmails| - 1])
         + (if allEmails[|allEmails| - 1].id != source.id then [allEmails[|allEmails| - 1]] else [])
  }

  /** The results with a score of at least `threshold`, in order. */
  function AtLeast(results: seq<SimilarEmailResult>, threshold: nat): (r: seq<SimilarEmailResult>)
    ensures |r| <= |results|
    ensures forall i :: 0 <= i < |r| ==> r[i].similarityScore >= threshold
  {
    if results == [] then []
    else AtLeast(results[..|results| - 1], threshold)
         + (if results[|results| - 1].similarityScore >= threshold then [results[|results| - 1]] else [])
  }

  /** The candidates are exactly the emails whose id differs from the source's, in their order. */
  lemma {:induction false} CandidatesExact(source: Email, allEmails: seq<Email>)
    ensures forall e :: e in Candidates(source, allEmails) <==> e in allEmails && e.id != source.id
    ensures IsSubsequence(Candidates(source, allEmails), allEmails)
  {
    if allEmails != [] {
      var p := allEmails[..|allEmails| - 1];
      CandidatesExact(source, p);
      SplitLast(allEmails);
      SubsequenceSnoc(Candidates(source, p), p, allEmails[|allEmails| - 1]);
      if allEmails[|allEmails| - 1].id != source.id {
        assert Candidates(source, allEmails) == Candidates(source, p) + [allEmails[|allEmails| - 1]];
      } else {
        assert Candidates(source, allEmails) == Candidates(source, p);
      }
    }
  }

  /** The kept results are exactly those scoring at least the threshold, in their order. */
  lemma {:induction false} AtLeastExact(results: seq<SimilarEmailResult>, threshold: nat)
    ensures forall x :: x in AtLeast(results, threshold) <==> x in results && x.similarityScore >= threshold
    ensures IsSubsequence(AtLeast(results, threshold), results)
  {
    if results != [] {
      var p := results[..|results| - 1];
      AtLeastExact(p, threshold);
      SplitLast(results);
      SubsequenceSnoc(AtLeast(p, threshold), p, results[|results| - 1]);
      if results[|results| - 1].similarityScore >= threshold {
        assert AtLeast(results, threshold) == AtLeast(p, threshold) + [results[|results| - 1]];
      } else {
        assert AtLeast(results, threshold) == AtLeast(p, threshold);
      }
    }
  }

  /** The rules never offer the source email as similar to itself. */
  lemma {:induction false} RulesExcludeSource(source: Email, allEmails: seq<Email>)
    ensures forall r :: r in SortDesc(Matches(source, Candidates(source, allEmails)), ScoreKey) ==> r.emailId != source.id
  {
    var candidates := Candidates(source, allEmails);
    MatchesExact(source, candidates);
    CandidatesExact(source, allEmails);
    forall r | r in SortDesc(Matches(source, candidates), ScoreKey)
      ensures r.emailId != source.id
    {
      assert r in multiset(SortDesc(Matches(source, candidates), ScoreKey));
      assert r in Matches(source, candidates);
      var c :| c in candidates && r == Similar(source, c);
    }
  }

  // ------------------------------------------------- mockEmailDetailAnalysis

  /** The classification of `mockEmailDetailAnalysis`. */
  datatype DetailClass = DetailClass(category: EmailCategory, sentiment: Sentiment, urgency: Urgency, requiresResponse: bool)

  predicate PromotionalDetail(subjectLower: string, bodyLower: string)
  {
    Contains(subjectLower, "sale") || Contains(subjectLower, "off") || Contains(subjectLower, "deal")
    || Contains(subjectLower, "promo") || Contains(bodyLower, "unsubscribe")
  }

  predicate UrgentSubject(subjectLower: string)
  {
    Contains(subjectLower, "urgent") || Contains(subjectLower, "asap") || CriticalSubject(subjectLower)
  }

  predicate CriticalSubject(subjectLower: string)
  {
    Contains(subjectLower, "immediately") || Contains(subjectLower, "action required")
  }

  predicate FinanceDetail(subjectLower: string, senderLower: string)
  {
    Contains(senderLower, "bank") || Contains(senderLower, "paypal") || Contains(subjectLower, "payment")
    || Contains(subjectLower, "invoice") || Contains(subjectLower, "receipt")
  }

  predicate NotificationDetail(subjectLower: string)
  {
    Contains(subjectLower, "shipped") || Contains(subjectLower, "delivered") || Contains(subjectLower, "order")
    || Contains(subjectLower, "confirmation")
  }

  predicate QuestionBody(bodyLower: string)
  {
    Contains(bodyLower, "?") || Contains(bodyLower, "let me know") || Contains(bodyLower, "please reply")
    || Contains(bodyLower, "get back to")
  }

  /**
   * The rule chain on the lower-cased subject, body text and sender:
   * promotional, then urgent, finance, notification and question patterns.
   */
  function Classify(subjectLower: string, bodyLower: string, senderLower: string): (c: DetailClass)
    ensures PromotionalDetail(subjectLower, bodyLower) ==> c == DetailClass(Promotional, Neutral, LowUrgency, false)
    ensures !PromotionalDetail(subjectLower, bodyLower) && UrgentSubject(subjectLower) ==>
      && c.sentiment == Urgent && c.requiresResponse && c.category == Personal
      && (c.urgency == Critical <==> CriticalSubject(subjectLower))
      && (c.urgency == HighUrgency <==> !CriticalSubject(subjectLower))
    ensures !PromotionalDetail(subjectLower, bodyLower) ==> !UrgentSubject(subjectLower) ==>
      FinanceDetail(subjectLower, senderLower) ==>
      c == DetailClass(Finance, Neutral, MediumUrgency, false)
    ensures !PromotionalDetail(subjectLower, bodyLower) ==> !UrgentSubject(subjectLower) ==>
      !FinanceDetail(subjectLower, senderLower) ==> NotificationDetail(subjectLower) ==>
      c == DetailClass(Notification, Neutral, LowUrgency, false)
    ensures !PromotionalDetail(subjectLower, bodyLower) ==> !UrgentSubject(subjectLower) ==>
      !FinanceDetail(subjectLower, senderLower) ==> !NotificationDetail(subjectLower) ==>
      c.category == Personal && c.sentiment == Neutral
      && (c.requiresResponse <==> QuestionBody(bodyLower))
      && (c.urgency == MediumUrgency <==> QuestionBody(bodyLower))
      && (c.urgency == LowUrgency <==> !QuestionBody(bodyLower))
    ensures c.sentiment == Urgent <==> c.urgency in {HighUrgency, Critical}
    ensures c.category == Promotional ==> !c.requiresResponse
    ensures c.sentiment in {Neutral, Urgent}
  {
    if PromotionalDetail(subjectLower, bodyLower) then DetailClass(Promotional, Neutral, LowUrgency, false)
    else if UrgentSubject(subjectLower) then
      DetailClass(Personal, Urgent, if CriticalSubject(subjectLower) then Critical else HighUrgency, true)
    else if FinanceDetail(subjectLower, senderLower) then DetailClass(Finance, Neutral, MediumUrgency, false)
    else if NotificationDetail(subjectLower) then DetailClass(Notification, Neutral, LowUrgency, false)
    else if QuestionBody(bodyLower) then DetailClass(Personal, Neutral, MediumUrgency, true)
    else DetailClass(Personal, Neutral, LowUrgency, false)
  }

  /** The reply draft: a greeting to the sender's first word and the subject quoted. */
  function ReplyDraft(sender: string, subject: string): string
  {
    "Hi " + BeforeFirstSpace(sender) + ",\n\nThank you for your email. I wanted to follow up regarding \""
    + subject + "\".\n\n[Your response here]\n\nBest regards"
  }

  predicate Has(actions: seq<EmailAction>, kind: EmailActionType)
  {
    exists i :: 0 <= i < |actions| && actions[i].kind == kind
  }

  /** The suggested actions of a classification, in the order they are pushed. */
  function ActionsFor(c: DetailClass, sender: string, subject: string): seq<EmailAction>
  {
    var second := if c.requiresResponse then Secondary else Primary;
    var reply := if c.requiresResponse
      then [EmailAction(Reply, "Reply", "Send a response to this email", Primary, Some(ReplyDraft(sender, subject)))]
      else [];
    var main := if c.category == Promotional
      then reply + [EmailAction(Unsubscribe, "Unsubscribe", "Unsubscribe from this mailing list", second, None)]
                 + [EmailAction(Delete, "Delete", "Move this email to trash", Secondary, None)]
      else reply + [EmailAction(Archive, "Archive", "Archive this email for later reference", second, None)];
    var starred := if c.urgency == HighUrgency || c.urgency == Critical
      then main + [EmailAction(Star, "Star", "Mark as important", Secondary, None)]
      else main;
    starred + [EmailAction(Forward, "Forward", "Forward to someone else", Tertiary, None)]
  }

  /**
   * Two to four actions: a reply first exactly when a response is needed;
   * unsubscribe then delete for promotions, archive otherwise; a star exactly
   * for high or critical urgency.
   */
  lemma ActionsForKinds(c: DetailClass, sender: string, subject: string)
    requires c.category == Promotional ==> !c.requiresResponse
    ensures var actions := ActionsFor(c, sender, subject);
      && 2 <= |actions| <= 4
      && (actions[0].kind == Reply <==> c.requiresResponse)
      && (c.requiresResponse ==> actions[0].draftContent == Some(ReplyDraft(sender, subject)))
      && (c.category == Promotional ==>
          actions[0].kind == Unsubscribe && actions[1].kind == Delete && !Has(actions, Archive))
      && (c.category != Promotional ==>
          Has(actions, Archive) && !Has(actions, Unsubscribe) && !Has(actions, Delete))
      && (Has(actions, Star) <==> c.urgency in {HighUrgency, Critical})
  {
    var actions := ActionsFor(c, sender, subject);
    if c.category != Promotional {
      assert actions[if c.requiresResponse then 1 else 0].kind == Archive;
    }
    if c.urgency == HighUrgency || c.urgency == Critical {
      assert actions[|actions| - 2].kind == Star;
    }
  }

  /** A tertiary forward comes last, and only the first action is primary. */
  lemma ActionsForPriorities(c: DetailClass, sender: string, subject: string)
    ensures var actions := ActionsFor(c, sender, subject);
      && actions[|actions| - 1].kind == Forward && actions[|actions| - 1].priority == Tertiary
      && forall i :: 0 <= i < |actions| ==> (actions[i].priority == Primary <==> i == 0)
  {
  }

  /**
   * The suggested actions, pushed in order: a reply first when a response is
   * needed; unsubscribe then delete for promotions, archive otherwise; star
   * for high or critical urgency; and always a forward last. The first action
   * is the only primary one.
   */
  method SuggestActions(c: DetailClass, sender: string, subject: string) returns (actions: seq<EmailAction>)
    requires c.category == Promotional ==> !c.requiresResponse
    ensures actions == ActionsFor(c, sender, subject)
    ensures 2 <= |actions| <= 4
    ensures actions[0].kind == Reply <==> c.requiresResponse
    ensures c.requiresResponse ==> actions[0].draftContent == Some(ReplyDraft(sender, subject))
    ensures c.category == Promotional ==>
      actions[0].kind == Unsubscribe && actions[1].kind == Delete && !Has(actions, Archive)
    ensures c.category != Promotional ==>
      Has(actions, Archive) && !Has(actions, Unsubscribe) && !Has(actions, Delete)
    ensures Has(actions, Star) <==> c.urgency in {HighUrgency, Critical}
    ensures actions[|actions| - 1].kind == Forward && actions[|actions| - 1].priority == Tertiary
    ensures forall i :: 0 <= i < |actions| ==> (actions[i].priority == Primary <==> i == 0)
  {
    actions := [];
    if c.requiresResponse {
      actions := actions + [EmailAction(Reply, "Reply", "Send a response to this email", Primary, Some(ReplyDraft(sender, subject)))];
    }
    var second := if c.requiresResponse then Secondary else Primary;
    if c.category == Promotional {
      actions := actions + [EmailAction(Unsubscribe, "Unsubscribe", "Unsubscribe from this mailing list", second, None)];
      actions := actions + [EmailAction(Delete, "Delete", "Move this email to trash", Secondary, None)];
    } else {
      actions := actions + [EmailAction(Archive, "Archive", "Archive this email for later reference", second, None)];
    }
    if c.urgency == HighUrgency || c.urgency == Critical {
      actions := actions + [EmailAction(Star, "Star", "Mark as important", Secondary, None)];
    }
    actions := actions + [EmailAction(Forward, "Forward", "Forward to someone else", Tertiary, None)];
    ActionsForKinds(c, sender, subject);
    ActionsForPriorities(c, sender, subject);
  }

  /** `list.slice(0, 5)` */
  function FirstFive(s: seq<string>): (r: seq<string>)
    ensures |r| <= 5 && |r| <= |s| && r == s[..|r|]
    ensures |s| >= 5 ==> |r| == 5
    ensures |s| < 5 ==> r == s
  {
    if |s| <= 5 then s else s[..5]
  }

  /** The key points that apply, in the order they are pushed, before the fallback. */
  function PointsFor(c: DetailClass, dates: seq<string>, amounts: seq<string>, attachments: nat): seq<string>
  {
    var response := if c.requiresResponse then ["Requires your response"] else [];
    var finance := if c.category == Finance then response + ["Contains financial information"] else response;
    var withDates := if dates != [] then finance + ["Mentions dates: " + Join(dates, ", ")] else finance;
    var withAmounts := if amounts != [] then withDates + ["Mentions amounts: " + Join(amounts, ", ")] else withDates;
    if attachments > 0 then withAmounts + ["Has " + NatToString(attachments) + " attachment(s)"] else withAmounts
  }

  /** `keyPoints`: the points that apply, or the single fallback when none does. */
  function KeyPointsOf(c: DetailClass, dates: seq<string>, amounts: seq<string>, attachments: nat): seq<string>
  {
    var p := PointsFor(c, dates, amounts, attachments);
    if p == [] then ["No urgent action items detected"] else p
  }

  /**
   * Never empty and at most five; the single fallback exactly when nothing is
   * noted; the response point first exactly when a response is needed.
   */
  lemma KeyPointsShape(c: DetailClass, dates: seq<string>, amounts: seq<string>, attachments: nat)
    ensures var k := KeyPointsOf(c, dates, amounts, attachments);
      && k != [] && |k| <= 5
      && (k == ["No urgent action items detected"] <==>
          !c.requiresResponse && c.category != Finance && dates == [] && amounts == [] && attachments == 0)
      && (c.requiresResponse <==> k[0] == "Requires your response")
  {
    var p := PointsFor(c, dates, amounts, attachments);
    if p != [] {
      assert p[0][0] != 'N';
      assert !c.requiresResponse ==> p[0][0] != 'R';
    }
  }

  /** The points that apply, pushed one by one. */
  method NotedPoints(c: DetailClass, dates: seq<string>, amounts: seq<string>, attachments: nat) returns (points: seq<string>)
    ensures points == PointsFor(c, dates, amounts, attachments)
  {
    points := [];
    if c.requiresResponse {
      points := points + ["Requires your response"];
    }
    if c.category == Finance {
      points := points + ["Contains financial information"];
    }
    if dates != [] {
      points := points + ["Mentions dates: " + Join(dates, ", ")];
    }
    if amounts != [] {
      points := points + ["Mentions amounts: " + Join(amounts, ", ")];
    }
    if attachments > 0 {
      points := points + ["Has " + NatToString(attachments) + " attachment(s)"];
    }
  }

  /**
   * The key points: those that apply, in order, or the single
   * "No urgent action items detected" when none does.
   */
  method KeyPoints(c: DetailClass, dates: seq<string>, amounts: seq<string>, attachments: nat) returns (points: seq<string>)
    ensures points == KeyPointsOf(c, dates, amounts, attachments)
    ensures points != []
    ensures points == ["No urgent action items detected"] <==>
      !c.requiresResponse && c.category != Finance && dates == [] && amounts == [] && attachments == 0
    ensures c.requiresResponse <==> points[0] == "Requires your response"
    ensures |points| <= 5
  {
    points := NotedPoints(c, dates, amounts, attachments);
    if |points| == 0 {
      points := points + ["No urgent action items detected"];
    }
    KeyPointsShape(c, dates, amounts, attachments);
  }

  /** The closing sentence of the summary. */
  function SummaryTail(c: DetailClass): string
  {
    if c.requiresResponse then "This email appears to require a response."
    else if c.category == Promotional then "This appears to be a promotional email."
    else if c.category == Finance then "This is a financial notification."
    else if c.category == Notification then "This is a notification email."
    else "Review the content for any action items."
  }

  /**
   * `mockEmailDetailAnalysis`. The dates and amounts found in the lower-cased
   * body text and the links found in the body text are given (the patterns
   * are not part of this model); at most five of each are kept, and the
   * extracted info is absent when all three are empty.
   */
  method MockEmailDetailAnalysis(email: EmailDetail, datesFound: seq<string>, amountsFound: seq<string>, linksFound: seq<string>)
    returns (r: EmailAIAnalysis)
    ensures var c := Classify(Lower(email.email.subject), Lower(email.bodyText), Lower(email.email.sender));
      && r.emailId == email.email.id
      && DetailClass(r.category, r.sentiment, r.urgency, r.requiresResponse) == c
      && r.summary == "Email from " + email.email.sender + " about \"" + email.email.subject + "\". " + SummaryTail(c)
      && r.suggestedActions == ActionsFor(c, email.email.sender, email.email.subject)
      && r.keyPoints == KeyPointsOf(c, FirstFive(datesFound), FirstFive(amountsFound), |email.attachments|)
    ensures r.keyPoints != [] && r.suggestedActions != []
    ensures r.suggestedActions[0].kind == Reply <==> r.requiresResponse
    ensures r.keyPoints[0] == "Requires your response" <==> r.requiresResponse
    ensures r.extractedInfo.None? <==> datesFound == [] && amountsFound == [] && linksFound == []
    ensures r.extractedInfo.Some? ==>
      r.extractedInfo.value == ExtractedInfo(FirstFive(datesFound), FirstFive(amountsFound), FirstFive(linksFound))
  {
    var subjectLower := Lower(email.email.subject);
    var bodyLower := Lower(email.bodyText);
    var senderLower := Lower(email.email.sender);
    var c := Classify(subjectLower, bodyLower, senderLower);
    var actions := SuggestActions(c, email.email.sender, email.email.subject);
    var info := ExtractedInfo(FirstFive(datesFound), FirstFive(amountsFound), FirstFive(linksFound));
    var summary := "Email from " + email.email.sender + " about \"" + email.email.subject + "\". " + SummaryTail(c);
    var points := KeyPoints(c, info.dates, info.amounts, |email.attachments|);
    var extracted := if info.dates != [] || info.amounts != [] || info.links != [] then Some(info) else None;
    r := EmailAIAnalysis(email.email.id, summary, points, c.sentiment, c.category, c.urgency, actions, c.requiresResponse, extracted);
  }
}
