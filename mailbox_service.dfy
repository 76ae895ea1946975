/**
 * The client-side mailbox service (services/mailboxService.ts): one object that
 * remembers which provider the user signed in to and routes every mailbox
 * operation to the Gmail API, the Yahoo backend or the built-in mock data.
 *
 * What the outside world answers (the Google sign-in popup, the backend's JSON
 * replies, the Gmail API's per-message outcomes) is passed in as a parameter;
 * the model decides what the service does with each answer.
 */
module Mailbox {
  import opened Text
  import opened Model
  import opened Seqs

  const DefaultGoogleClientId := "580373285034-ckli1oefnfr46set1p62t9teeq9h7qvb.apps.googleusercontent.com"
  const PlaceholderClientId := "YOUR_GOOGLE_CLIENT_ID_HERE"
  const PlaceholderMarker := "YOUR_GOOGLE"
  const GmailName := "Google Gmail"
  const YahooName := "Yahoo Mail"
  const MockProviderName := "MockProvider"

  const NotAuthenticated := "User not authenticated. Please login first."
  const UseConnectYahoo := "Use connectYahoo() for Yahoo Mail authentication"
  const YahooConnectFailed := "Failed to connect to Yahoo Mail"
  const YahooTrashFailed := "Failed to trash Yahoo emails"
  const GmailTrashFailed := "Failed to move emails to trash"
  const YahooFetchFailed := "Failed to fetch Yahoo emails"

  /** Messages go to the Gmail API this many at a time, with a pause between batches. */
  const TrashBatchSize := 5

  /** The display name `PROVIDER_CONFIG[provider].name`. */
  function ProviderName(p: ProviderType): string
  {
    match p
    case Google => GmailName
    case Yahoo => YahooName
  }

  /** Whether a client id is one to sign in with rather than a placeholder. */
  predicate IsRealConfigured(clientId: string)
  {
    clientId != PlaceholderClientId && !Contains(clientId, PlaceholderMarker)
  }

  /** Where a mailbox operation is served from. */
  datatype Route = GmailApi | YahooBackend | MockData

  /** The backend's answer to a connect request: the HTTP status was OK, the body's `success` and `error`. */
  datatype ConnectReply = ConnectReply(ok: bool, success: bool, error: Option<string>)

  /** The backend's answer to a trash request. An absent `failedIds` is None. */
  datatype YahooTrashReply = YahooTrashReply(
    ok: bool,
    success: bool,
    trashedCount: nat,
    failedIds: Option<seq<string>>,
    error: Option<string>)

  /** The backend's answer to a content request, with the fields of its `email` object. */
  datatype YahooContentReply = YahooContentReply(
    ok: bool,
    success: bool,
    body: Option<string>,
    bodyText: Option<string>,
    attachments: Option<seq<EmailAttachment>>,
    replyTo: Option<string>,
    cc: Option<seq<string>>,
    bcc: Option<seq<string>>)

  /**
   * A Gmail message payload: either with MIME parts, of which the HTML and the
   * plain-text bodies found and the attachment parts are kept, or a single body
   * (its decoded data, None when absent).
   */
  datatype GmailPayload =
    | WithParts(html: string, text: string, attachments: seq<EmailAttachment>)
    | SingleBody(data: Option<string>)

  /** The per-message error text of a partial trash. */
  function FailedMessage(n: nat): string
  {
    "Failed to trash " + NatToString(n) + " email(s)"
  }

  /** The ids whose trash request was rejected, in request order (`ok[k]` is the outcome of `ids[k]`). */
  function Failed(ids: seq<string>, ok: seq<bool>): (r: seq<string>)
    requires |ids| == |ok|
    ensures |r| <= |ids|
  {
    if ids == [] then [] else (if ok[0] then [] else [ids[0]]) + Failed(ids[1..], ok[1..])
  }

  /** The number of fulfilled requests. */
  function CountFulfilled(ok: seq<bool>): (n: nat)
    ensures n <= |ok|
  {
    if ok == [] then 0 else (if ok[0] then 1 else 0) + CountFulfilled(ok[1..])
  }

  lemma {:induction false} FailedAppend(ids: seq<string>, ok: seq<bool>, x: string, b: bool)
    requires |ids| == |ok|
    ensures Failed(ids + [x], ok + [b]) == Failed(ids, ok) + (if b then [] else [x])
    ensures CountFulfilled(ok + [b]) == CountFulfilled(ok) + (if b then 1 else 0)
  {
    if ids == [] {
      assert (ids + [x])[1..] == [] && (ok + [b])[1..] == [];
    } else {
      assert (ids + [x])[1..] == ids[1..] + [x];
      assert (ok + [b])[1..] == ok[1..] + [b];
      FailedAppend(ids[1..], ok[1..], x, b);
    }
  }

  /**
   * Every request is counted once: as trashed or as failed. The failed ids are
   * the ids of the rejected requests, in order, and none failed exactly when
   * every request was fulfilled.
   */
  lemma {:induction false} FailedAccounting(ids: seq<string>, ok: seq<bool>)
    requires |ids| == |ok|
    ensures |Failed(ids, ok)| + CountFulfilled(ok) == |ids|
    ensures IsSubsequence(Failed(ids, ok), ids)
    ensures forall k :: 0 <= k < |ids| && !ok[k] ==> ids[k] in Failed(ids, ok)
    ensures forall x :: x in Failed(ids, ok) ==> exists k :: 0 <= k < |ids| && !ok[k] && ids[k] == x
    ensures Failed(ids, ok) == [] <==> forall k :: 0 <= k < |ok| ==> ok[k]
  {
    if ids != [] {
      FailedAccounting(ids[1..], ok[1..]);
      var rest := Failed(ids[1..], ok[1..]);
      if ok[0] {
        assert Failed(ids, ok) == rest;
        assert ids == [ids[0]] + ids[1..];
        SubsequenceOfTail(rest, ids[1..], ids[0]);
      } else {
        assert Failed(ids, ok) == [ids[0]] + rest;
        assert ([ids[0]] + rest)[1..] == rest;
      }
      forall x | x in Failed(ids, ok)
        ensures exists k :: 0 <= k < |ids| && !ok[k] && ids[k] == x
      {
        if x in rest {
          var k :| 0 <= k < |ids[1..]| && !ok[1..][k] && ids[1..][k] == x;
          assert !ok[k + 1] && ids[k + 1] == x;
        } else {
          assert !ok[0] && ids[0] == x;
        }
      }
      forall k | 0 <= k < |ids| && !ok[k]
        ensures ids[k] in Failed(ids, ok)
      {
        if k > 0 {
          assert ids[1..][k - 1] in rest;
        }
      }
    }
  }

  /**
   * The result of a trash in which every request was answered: `ok[k]` says
   * whether the request for `ids[k]` was fulfilled.
   */
  function SettledResult(ids: seq<string>, ok: seq<bool>): (r: TrashOperationResult)
    requires |ids| == |ok|
    ensures r.trashedCount + |r.failedIds| == |ids|
    ensures r.success <==> r.failedIds == []
    ensures r.success <==> forall k :: 0 <= k < |ok| ==> ok[k]
  {
    FailedAccounting(ids, ok);
    var failed := Failed(ids, ok);
    TrashOperationResult(failed == [], CountFulfilled(ok), failed,
      if |failed| > 0 then Some(FailedMessage(|failed|)) else None)
  }

  /** A settled trash reports no error exactly when it reports success, and lists every rejected id in order. */
  lemma SettledResultCorrect(ids: seq<string>, ok: seq<bool>)
    requires |ids| == |ok|
    ensures var r := SettledResult(ids, ok);
      && (r.success <==> r.errorMessage == None)
      && IsSubsequence(r.failedIds, ids)
      && (forall k :: 0 <= k < |ids| && !ok[k] ==> ids[k] in r.failedIds)
  {
    FailedAccounting(ids, ok);
  }

  /** The result a trash of ids through the Yahoo backend reports, for the backend's answer. */
  function YahooTrashResult(ids: seq<string>, reply: Outcome<YahooTrashReply>): (r: TrashOperationResult)
    ensures reply.Failure? || !reply.value.ok ==>
      !r.success && r.trashedCount == 0 && r.failedIds == ids && r.errorMessage.Some? && r.errorMessage.value != ""
    ensures reply.Ok? && reply.value.ok ==>
      r.success == reply.value.success && r.trashedCount == reply.value.trashedCount
      && (reply.value.failedIds.Some? ==> r.failedIds == reply.value.failedIds.value)
      && (reply.value.failedIds.None? ==> r.failedIds == [])
      && (r.errorMessage.Some? <==> r.failedIds != [])
  {
    match reply
    case Failure(m) => TrashOperationResult(false, 0, ids, Some(OrElse(m, YahooTrashFailed)))
    case Ok(data) =>
      if !data.ok then TrashOperationResult(false, 0, ids, Some(OptOrElse(data.error, YahooTrashFailed)))
      else
        var failed := if data.failedIds.Some? then data.failedIds.value else [];
        TrashOperationResult(data.success, data.trashedCount, failed,
          if |failed| > 0 then Some(FailedMessage(|failed|)) else None)
  }

  /** The content shown when a provider's content request fails: the listing's snippet. */
  function SnippetDetail(basic: Email): (d: EmailDetail)
    ensures d.email == basic && d.body == basic.snippet && d.bodyText == basic.snippet
    ensures d.attachments == [] && d.replyTo == None && d.cc == None && d.bcc == None
  {
    EmailDetail(basic, basic.snippet, basic.snippet, [], None, None, None)
  }

  /**
   * The content of a Gmail message: the HTML body is preferred for display and
   * the plain text for reading, each standing in for the other when missing.
   */
  function GmailDetail(basic: Email, message: Outcome<GmailPayload>): (d: EmailDetail)
    ensures d.email == basic
    ensures message.Failure? ==> d == SnippetDetail(basic)
    ensures message.Ok? && message.value.WithParts? ==>
      var p := message.value;
      && (d.body == "" <==> p.html == "" && p.text == "")
      && (d.bodyText == "" <==> d.body == "")
      && (p.html != "" ==> d.body == p.html)
      && (p.html == "" ==> d.body == p.text)
      && (p.text != "" ==> d.bodyText == p.text)
      && (p.text == "" ==> d.bodyText == p.html)
      && d.attachments == p.attachments
    ensures message.Ok? && message.value.SingleBody? ==>
      && d.body == d.bodyText && d.attachments == []
      && d.body == (if message.value.data.Some? then message.value.data.value else "")
  {
    match message
    case Failure(_) => SnippetDetail(basic)
    case Ok(WithParts(html, text, attachments)) =>
      EmailDetail(basic, OrElse(html, text), OrElse(text, html), attachments, None, None, None)
    case Ok(SingleBody(data)) =>
      var b := if data.Some? then data.value else "";
      EmailDetail(basic, b, b, [], None, None, None)
  }

  /** The content of a Yahoo message; a missing body falls back to the snippet. */
  function YahooDetail(basic: Email, reply: Outcome<YahooContentReply>): (d: EmailDetail)
    ensures d.email == basic
    ensures reply.Failure? || !reply.value.ok || !reply.value.success ==> d == SnippetDetail(basic)
    ensures basic.snippet != "" ==> d.body != "" && d.bodyText != ""
    ensures reply.Ok? && reply.value.ok && reply.value.success ==>
      && d.body == (if reply.value.body.Some? && reply.value.body.value != "" then reply.value.body.value else basic.snippet)
      && d.bodyText == (if reply.value.bodyText.Some? && reply.value.bodyText.value != "" then reply.value.bodyText.value else basic.snippet)
      && d.attachments == (if reply.value.attachments.Some? then reply.value.attachments.value else [])
      && d.replyTo == reply.value.replyTo && d.cc == reply.value.cc && d.bcc == reply.value.bcc
  {
    match reply
    case Failure(_) => SnippetDetail(basic)
    case Ok(data) =>
      if !data.ok || !data.success then SnippetDetail(basic)
      else
        EmailDetail(basic, OptOrElse(data.body, basic.snippet), OptOrElse(data.bodyText, basic.snippet),
          if data.attachments.Some? then data.attachments.value else [],
          data.replyTo, data.cc, data.bcc)
  }

  /** The mock content: a generated HTML page, the snippet as text, no attachments. */
  function MockDetail(basic: Email, mockBody: string): (d: EmailDetail)
    ensures d.email == basic && d.body == mockBody && d.bodyText == basic.snippet && d.attachments == []
  {
    EmailDetail(basic, mockBody, basic.snippet, [], None, None, None)
  }

  class MailboxService {
    var providerName: string
    var isAuthenticated: bool
    var useMock: bool
    var clientId: string
    /** The Yahoo address signed in through the backend; it counts only when non-empty. */
    var yahooEmail: Option<string>
    /** The pauses taken between Gmail trash batches. */
    ghost var pauses: nat
    /** The batches of ids sent to the Gmail API for trashing, in order. */
    ghost var trashBatches: seq<seq<string>>

    constructor()
      ensures providerName == MockProviderName && !isAuthenticated && useMock
      ensures clientId == DefaultGoogleClientId && yahooEmail == None
      ensures pauses == 0 && trashBatches == []
    {
      providerName := MockProviderName;
      isAuthenticated := false;
      useMock := true;
      clientId := DefaultGoogleClientId;
      yahooEmail := None;
      pauses := 0;
      trashBatches := [];
    }

    /** A Yahoo address is remembered (a non-empty string is truthy). */
    predicate YahooActive()
      reads this
    {
      Truthy(yahooEmail)
    }

    /** Where listing, content and trash requests go. */
    function DataRoute(): (r: Route)
      reads this
      ensures r == GmailApi <==> !useMock && providerName == GmailName
      ensures r == YahooBackend <==> !useMock && providerName == YahooName && YahooActive()
    {
      if !useMock && providerName == GmailName then GmailApi
      else if !useMock && providerName == YahooName && YahooActive() then YahooBackend
      else MockData
    }

    /** Where searches by sender go: there is no Yahoo search, so Yahoo accounts search the mock data. */
    function SearchRoute(): (r: Route)
      reads this
      ensures r != YahooBackend
      ensures r == (if DataRoute() == YahooBackend then MockData else DataRoute())
    {
      if !useMock && providerName == GmailName then GmailApi else MockData
    }

    /**
     * `connect(provider, customClientId)`. Google signs in for real unless the
     * client id is a placeholder; `googleAuth` is the popup's answer (None when an
     * access token came back, the error otherwise). Yahoo is refused here.
     */
    method Connect(provider: ProviderType, customClientId: Option<string>, googleAuth: Option<string>)
      returns (r: Outcome<()>)
      modifies this
      ensures providerName == ProviderName(provider)
      ensures clientId == (if customClientId.Some? && !IsBlank(customClientId.value) then customClientId.value else old(clientId))
      ensures yahooEmail == old(yahooEmail) && pauses == old(pauses) && trashBatches == old(trashBatches)
      ensures provider == Yahoo ==>
        r == Failure(UseConnectYahoo) && useMock == old(useMock) && isAuthenticated == old(isAuthenticated)
      ensures provider == Google && IsRealConfigured(clientId) ==>
        && !useMock
        && (r.Ok? <==> googleAuth.None?)
        && (googleAuth.Some? ==> r == Failure(googleAuth.value))
        && isAuthenticated == (googleAuth.None? || old(isAuthenticated))
      ensures provider == Google && !IsRealConfigured(clientId) ==> useMock && isAuthenticated && r.Ok?
      ensures provider == Google && r.Ok? ==> isAuthenticated && DataRoute() == (if useMock then MockData else GmailApi)
    {
      providerName := ProviderName(provider);
      if customClientId.Some? && !IsBlank(customClientId.value) {
        clientId := customClientId.value;
      }
      var isRealConfigured := clientId != PlaceholderClientId && !Contains(clientId, PlaceholderMarker);
      if provider == Google && isRealConfigured {
        useMock := false;
        if googleAuth.None? {
          isAuthenticated := true;
          r := Ok(());
        } else {
          r := Failure(googleAuth.value);
        }
      } else if provider == Yahoo {
        r := Failure(UseConnectYahoo);
      } else {
        useMock := true;
        isAuthenticated := true;
        r := Ok(());
      }
    }

    /** `connectYahoo(email, appPassword)`: `reply` is the backend's verdict on the credentials. */
    method ConnectYahoo(email: string, reply: Outcome<ConnectReply>) returns (r: Outcome<()>)
      modifies this
      ensures providerName == YahooName
      ensures clientId == old(clientId) && pauses == old(pauses) && trashBatches == old(trashBatches)
      ensures r.Ok? <==> reply.Ok? && reply.value.ok && reply.value.success
      ensures r.Ok? ==> yahooEmail == Some(email) && !useMock && isAuthenticated
      ensures r.Ok? && email != "" ==> DataRoute() == YahooBackend
      ensures r.Failure? ==>
        && r.message != ""
        && yahooEmail == old(yahooEmail) && useMock == old(useMock) && isAuthenticated == old(isAuthenticated)
    {
      providerName := YahooName;
      match reply
      case Failure(m) =>
        r := Failure(OrElse(m, YahooConnectFailed));
      case Ok(data) =>
        if !data.ok || !data.success {
          r := Failure(OrElse(OptOrElse(data.error, YahooConnectFailed), YahooConnectFailed));
        } else {
          yahooEmail := Some(email);
          useMock := false;
          isAuthenticated := true;
          r := Ok(());
        }
    }

    /** `disconnectYahoo()`: forgets the Yahoo session and signs out; backend errors are ignored. */
    method DisconnectYahoo()
      modifies this
      ensures !old(YahooActive()) ==> unchanged(this)
      ensures old(YahooActive()) ==>
        && yahooEmail == None && !isAuthenticated
        && providerName == old(providerName) && useMock == old(useMock) && clientId == old(clientId)
        && pauses == old(pauses) && trashBatches == old(trashBatches)
    {
      if !YahooActive() {
        return;
      }
      yahooEmail := None;
      isAuthenticated := false;
    }

    /**
     * `fetchUnreadEmails(limit)`: refused when signed out, otherwise the listing of
     * the route's source (`gmail`, `yahoo` or `mock`, as each would answer).
     */
    function FetchUnreadEmails(gmail: Outcome<seq<Email>>, yahoo: Outcome<seq<Email>>, mock: seq<Email>): (r: Outcome<seq<Email>>)
      reads this
      ensures !isAuthenticated ==> r == Failure(NotAuthenticated)
      ensures isAuthenticated && DataRoute() == MockData ==> r == Ok(mock)
      ensures isAuthenticated && DataRoute() == YahooBackend ==>
        (r.Ok? <==> yahoo.Ok?) && (r.Failure? ==> r.message != "")
      ensures isAuthenticated && DataRoute() == YahooBackend && yahoo.Ok? ==> r == yahoo
      ensures isAuthenticated && DataRoute() == YahooBackend && yahoo.Failure? ==>
        r == Failure(OrElse(yahoo.message, YahooFetchFailed))
      ensures isAuthenticated && DataRoute() == GmailApi ==> r == gmail
    {
      if !isAuthenticated then Failure(NotAuthenticated)
      else match DataRoute()
        case GmailApi => gmail
        case YahooBackend => (if yahoo.Ok? then yahoo else Failure(OrElse(yahoo.message, YahooFetchFailed)))
        case MockData => Ok(mock)
    }

    /** `searchEmailsBySender(senderEmail, limit)`: the Gmail search, or the mock data's messages. */
    function SearchEmailsBySender(gmail: Outcome<seq<Email>>, mock: seq<Email>): (r: Outcome<seq<Email>>)
      reads this
      ensures !isAuthenticated ==> r == Failure(NotAuthenticated)
      ensures isAuthenticated ==> r == (if SearchRoute() == GmailApi then gmail else Ok(mock))
    {
      if !isAuthenticated then Failure(NotAuthenticated)
      else if !useMock && providerName == GmailName then gmail
      else Ok(mock)
    }

    /**
     * `fetchEmailContent(emailId, basicEmail)`: refused when signed out; a
     * provider failure shows the snippet instead of failing.
     */
    function FetchEmailContent(basic: Email, gmail: Outcome<GmailPayload>, yahoo: Outcome<YahooContentReply>, mockBody: string): (r: Outcome<EmailDetail>)
      reads this
      ensures r.Failure? <==> !isAuthenticated
      ensures r.Failure? ==> r.message == NotAuthenticated
      ensures r.Ok? ==> r.value.email == basic
      ensures r.Ok? && DataRoute() == GmailApi ==> r.value == GmailDetail(basic, gmail)
      ensures r.Ok? && DataRoute() == YahooBackend ==> r.value == YahooDetail(basic, yahoo)
      ensures r.Ok? && DataRoute() == MockData ==> r.value == MockDetail(basic, mockBody)
    {
      if !isAuthenticated then Failure(NotAuthenticated)
      else match DataRoute()
        case GmailApi => Ok(GmailDetail(basic, gmail))
        case YahooBackend => Ok(YahooDetail(basic, yahoo))
        case MockData => Ok(MockDetail(basic, mockBody))
    }

    /**
     * What `trashEmails(ids)` reports. `outcomes[k]` is whether the request for
     * `ids[k]` is fulfilled (by the Gmail API, or by the mock's draw);
     * `gmailClientError` is the error thrown when the Gmail client is unusable;
     * `yahoo` is the backend's answer.
     */
    function TrashOutcome(ids: seq<string>, outcomes: seq<bool>, gmailClientError: Option<string>, yahoo: Outcome<YahooTrashReply>): (r: TrashOperationResult)
      requires |outcomes| == |ids|
      reads this
      ensures !isAuthenticated ==> r == TrashOperationResult(false, 0, ids, Some(NotAuthenticated))
      ensures isAuthenticated && ids == [] ==> r == TrashOperationResult(true, 0, [], None)
      ensures r.trashedCount + |r.failedIds| == |ids| || DataRoute() == YahooBackend
      ensures r.success ==> r.failedIds == [] || DataRoute() == YahooBackend
    {
      if !isAuthenticated then TrashOperationResult(false, 0, ids, Some(NotAuthenticated))
      else if ids == [] then TrashOperationResult(true, 0, [], None)
      else match DataRoute()
        case GmailApi =>
          if gmailClientError.Some? then TrashOperationResult(false, 0, ids, Some(OptOrElse(gmailClientError, GmailTrashFailed)))
          else SettledResult(ids, outcomes)
        case YahooBackend => YahooTrashResult(ids, yahoo)
        case MockData => SettledResult(ids, outcomes)
    }

    /** `trashEmails(ids)`: the same report, with the Gmail path sending the ids batch by batch. */
    method TrashEmails(ids: seq<string>, outcomes: seq<bool>, gmailClientError: Option<string>, yahoo: Outcome<YahooTrashReply>)
      returns (r: TrashOperationResult)
      requires |outcomes| == |ids|
      modifies this
      ensures r == old(TrashOutcome(ids, outcomes, gmailClientError, yahoo))
      ensures providerName == old(providerName) && isAuthenticated == old(isAuthenticated) && useMock == old(useMock)
      ensures clientId == old(clientId) && yahooEmail == old(yahooEmail)
      ensures old(isAuthenticated) && ids != [] && old(DataRoute()) == GmailApi && gmailClientError.None? ==>
        trashBatches == old(trashBatches) + Chunks(ids, TrashBatchSize)
        && pauses == old(pauses) + |Chunks(ids, TrashBatchSize)| - 1
      ensures !(old(isAuthenticated) && ids != [] && old(DataRoute()) == GmailApi && gmailClientError.None?) ==>
        trashBatches == old(trashBatches) && pauses == old(pauses)
    {
      if !isAuthenticated {
        return TrashOperationResult(false, 0, ids, Some(NotAuthenticated));
      }
      if ids == [] {
        return TrashOperationResult(true, 0, [], None);
      }
      var route := DataRoute();
      if route == GmailApi {
        r := TrashRealGmail(ids, outcomes, gmailClientError);
      } else if route == YahooBackend {
        r := YahooTrashResult(ids, yahoo);
      } else {
        r := SettledResult(ids, outcomes);
      }
    }

    /**
     * The answers of one batch, `ids[start..end]`, added to the tally in order:
     * a fulfilled request counts as trashed, a rejected one adds its id to the failures.
     */
    static method TallyBatch(ids: seq<string>, outcomes: seq<bool>, start: nat, end: nat, failedIds: seq<string>, trashedCount: nat)
      returns (failed: seq<string>, trashed: nat)
      requires |outcomes| == |ids| && start <= end <= |ids|
      requires failedIds == Failed(ids[..start], outcomes[..start])
      requires trashedCount == CountFulfilled(outcomes[..start])
      ensures failed == Failed(ids[..end], outcomes[..end])
      ensures trashed == CountFulfilled(outcomes[..end])
    {
      failed, trashed := failedIds, trashedCount;
      var k := start;
      while k < end
        invariant start <= k <= end
        invariant failed == Failed(ids[..k], outcomes[..k])
        invariant trashed == CountFulfilled(outcomes[..k])
      {
        FailedAppend(ids[..k], outcomes[..k], ids[k], outcomes[k]);
        assert ids[..k + 1] == ids[..k] + [ids[k]];
        assert outcomes[..k + 1] == outcomes[..k] + [outcomes[k]];
        if outcomes[k] {
          trashed := trashed + 1;
        } else {
          failed := failed + [ids[k]];
        }
        k := k + 1;
      }
    }

    /**
     * `trashRealGmailEmails(ids)`: batches of five requests, every answer of a
     * batch awaited, then a pause unless this was the last batch.
     */
    method TrashRealGmail(ids: seq<string>, outcomes: seq<bool>, clientError: Option<string>)
      returns (r: TrashOperationResult)
      requires |outcomes| == |ids|
      modifies this`pauses, this`trashBatches
      ensures clientError.Some? ==>
        r == TrashOperationResult(false, 0, ids, Some(OptOrElse(clientError, GmailTrashFailed)))
        && pauses == old(pauses) && trashBatches == old(trashBatches)
      ensures clientError.None? ==>
        && r == SettledResult(ids, outcomes)
        && trashBatches == old(trashBatches) + Chunks(ids, TrashBatchSize)
        && pauses == old(pauses) + (if ids == [] then 0 else |Chunks(ids, TrashBatchSize)| - 1)
    {
      if clientError.Some? {
        return TrashOperationResult(false, 0, ids, Some(OptOrElse(clientError, GmailTrashFailed)));
      }
      var failedIds: seq<string> := [];
      var trashedCount: nat := 0;
      var i := 0;
      ghost var done := 0;
      ghost var sent: seq<seq<string>> := [];
      while i < |ids|
        invariant 0 <= i && (i == 0 || i < |ids| + TrashBatchSize)
        invariant i == TrashBatchSize * |sent|
        invariant done == (if i < |ids| then i else |ids|)
        invariant failedIds == Failed(ids[..done], outcomes[..done])
        invariant trashedCount == CountFulfilled(outcomes[..done])
        invariant sent + Chunks(ids[done..], TrashBatchSize) == Chunks(ids, TrashBatchSize)
        invariant trashBatches == old(trashBatches) + sent
        invariant pauses == old(pauses) + |sent| - (if i >= |ids| && i > 0 then 1 else 0)
      {
        var end := if i + TrashBatchSize < |ids| then i + TrashBatchSize else |ids|;
        var batch := ids[i..end];
        NextBatch(ids, TrashBatchSize, i, end, sent);
        sent := sent + [batch];
        trashBatches := trashBatches + [batch];
        failedIds, trashedCount := TallyBatch(ids, outcomes, i, end, failedIds, trashedCount);
        if i + TrashBatchSize < |ids| {
          pauses := pauses + 1;
        }
        i := i + TrashBatchSize;
        done := end;
      }
      assert ids[..|ids|] == ids && outcomes[..|outcomes|] == outcomes;
      AllBatchesSent(ids, TrashBatchSize, sent);
      r := TrashOperationResult(failedIds == [], trashedCount, failedIds,
        if |failedIds| > 0 then Some(FailedMessage(|failedIds|)) else None);
    }
  }
}
