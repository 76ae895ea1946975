/**
 * The state the application screen keeps (App.tsx) and the handlers that change
 * it: the sender groups on display, the selected sender, the cache of per-email
 * analyses and the current view.
 *
 * Each handler is one atomic step: the asynchronous provider and AI calls are
 * parameters that give their answer for the request made, and the handler's
 * state updates are applied to the state the step starts from (the source reads
 * the latest groups through a ref and updates them with functional setters, so
 * nothing interleaves within a step). The effect that leaves a sender's page
 * when its group has disappeared runs at the end of every step.
 */
module Coordinator {
  import opened Text
  import opened Model
  import opened Seqs
  import opened Grouping
  import Mailbox

  /** Emails go to the analyser this many at a time. */
  const AnalysisBatchSize := 10
  /** The error shown when a failed scan carries no message: `startScanning`, `handleYahooLogin`, `startScanningAfterAuth`. */
  const ScanFailed := "An unexpected error occurred during connection."
  const YahooFailed := "Failed to connect to Yahoo Mail"
  const GmailAfterAuthFailed := "Failed to connect to Gmail after authentication"

  /** `groups.find(g => g.senderEmail === senderEmail)`: the first group with exactly that address. */
  function FindBySender(groups: seq<SenderGroup>, senderEmail: string): (r: Option<SenderGroup>)
    ensures r.Some? ==> r.value in groups && r.value.senderEmail == senderEmail
  {
    if groups == [] then None
    else if groups[0].senderEmail == senderEmail then Some(groups[0])
    else FindBySender(groups[1..], senderEmail)
  }

  /** Like `find`, the search returns the first group with the address: no earlier group has it. */
  lemma {:induction false} FindBySenderFirst(groups: seq<SenderGroup>, senderEmail: string)
    ensures FindBySender(groups, senderEmail).Some? ==>
      exists i :: 0 <= i < |groups| && groups[i] == FindBySender(groups, senderEmail).value
        && forall j :: 0 <= j < i ==> groups[j].senderEmail != senderEmail
  {
    if groups != [] && groups[0].senderEmail != senderEmail {
      FindBySenderFirst(groups[1..], senderEmail);
      if FindBySender(groups[1..], senderEmail).Some? {
        var i :| 0 <= i < |groups[1..]| && groups[1..][i] == FindBySender(groups[1..], senderEmail).value
          && forall j :: 0 <= j < i ==> groups[1..][j].senderEmail != senderEmail;
        assert groups[i + 1] == FindBySender(groups, senderEmail).value;
        assert forall j :: 0 <= j < i + 1 ==> groups[j].senderEmail != senderEmail by {
          forall j | 0 <= j < i + 1
            ensures groups[j].senderEmail != senderEmail
          {
            if j > 0 { assert groups[j] == groups[1..][j - 1]; }
          }
        }
      }
    }
  }

  /** The search finds nothing exactly when no group has the address. */
  lemma {:induction false} FindBySenderNone(groups: seq<SenderGroup>, senderEmail: string)
    ensures FindBySender(groups, senderEmail).None? <==> forall i :: 0 <= i < |groups| ==> groups[i].senderEmail != senderEmail
  {
    if groups != [] && groups[0].senderEmail != senderEmail {
      FindBySenderNone(groups[1..], senderEmail);
      assert forall i :: 1 <= i < |groups| ==> groups[i] == groups[1..][i - 1];
    }
  }

  /** The group of the selected sender; no sender selected finds none. */
  function SelectedGroup(groups: seq<SenderGroup>, selected: Option<string>): (r: Option<SenderGroup>)
    ensures r.Some? ==> selected.Some? && r.value in groups && r.value.senderEmail == selected.value
  {
    if selected.Some? then FindBySender(groups, selected.value) else None
  }

  /** `emails.find(e => e.id === id)`: the same first-match search as FindBySender, over a group's emails by id. */
  function FindEmail(es: seq<Email>, id: string): (r: Option<Email>)
    ensures r.Some? ==> r.value in es && r.value.id == id
  {
    if es == [] then None
    else if es[0].id == id then Some(es[0])
    else FindEmail(es[1..], id)
  }

  /** `emails.map(e => e.id)` */
  function Ids(es: seq<Email>): seq<string>
  {
    seq(|es|, i requires 0 <= i < |es| => es[i].id)
  }

  /** `ids.filter(id => !failed.includes(id))`: the requested ids that were trashed. */
  function Succeeded(ids: seq<string>, failed: seq<string>): (r: seq<string>)
    ensures |r| <= |ids|
  {
    if ids == [] then []
    else (if ids[0] in failed then [] else [ids[0]]) + Succeeded(ids[1..], failed)
  }

  /** The trashed ids are exactly the requested ids that are not reported as failed. */
  lemma {:induction false} SucceededExact(ids: seq<string>, failed: seq<string>)
    ensures forall x :: x in Succeeded(ids, failed) <==> x in ids && x !in failed
  {
    if ids != [] {
      SucceededExact(ids[1..], failed);
      assert ids == [ids[0]] + ids[1..];
    }
  }

  /** The cache without the entries of the given ids. */
  function Forget(cache: map<string, AIAnalysisResult>, ids: seq<string>): map<string, AIAnalysisResult>
  {
    map k | k in cache && k !in ids :: cache[k]
  }

  /** The groups after a trash request for `ids` answered with `res`: untouched unless something was trashed. */
  function AfterTrashGroups(groups: seq<SenderGroup>, ids: seq<string>, res: TrashOperationResult): seq<SenderGroup>
  {
    if res.trashedCount > 0 then RemoveTrashedEmailsFromGroups(groups, Succeeded(ids, res.failedIds)) else groups
  }

  /** The analysis cache after a trash request for `ids` answered with `res`. */
  function AfterTrashCache(cache: map<string, AIAnalysisResult>, ids: seq<string>, res: TrashOperationResult): map<string, AIAnalysisResult>
  {
    if res.trashedCount > 0 then Forget(cache, Succeeded(ids, res.failedIds)) else cache
  }

  /** The ids of the emails of every listed sender that still has a group, sender by sender. */
  function CollectIds(groups: seq<SenderGroup>, senders: seq<string>): seq<string>
  {
    if senders == [] then []
    else
      var found := FindBySender(groups, senders[|senders| - 1]);
      CollectIds(groups, senders[..|senders| - 1]) + (if found.Some? then Ids(found.value.emails) else [])
  }

  /** x is the id of an email of the group of one of the senders. */
  predicate IdOfSenders(groups: seq<SenderGroup>, senders: seq<string>, x: string)
  {
    exists i :: 0 <= i < |senders| && FindBySender(groups, senders[i]).Some?
      && x in Ids(FindBySender(groups, senders[i]).value.emails)
  }

  /**
   * The collected ids are the ids of the emails of the listed senders' groups:
   * senders without a group contribute nothing.
   */
  lemma {:induction false} CollectIdsExact(groups: seq<SenderGroup>, senders: seq<string>)
    ensures forall x :: x in CollectIds(groups, senders) <==> IdOfSenders(groups, senders, x)
  {
    if senders != [] {
      var p := senders[..|senders| - 1];
      var s := senders[|senders| - 1];
      CollectIdsExact(groups, p);
      forall x
        ensures x in CollectIds(groups, senders) <==> IdOfSenders(groups, senders, x)
      {
        if IdOfSenders(groups, senders, x) {
          var i :| 0 <= i < |senders| && FindBySender(groups, senders[i]).Some?
            && x in Ids(FindBySender(groups, senders[i]).value.emails);
          if i < |p| {
            assert senders[i] == p[i];
            assert IdOfSenders(groups, p, x);
          }
        }
        if IdOfSenders(groups, p, x) {
          var i :| 0 <= i < |p| && FindBySender(groups, p[i]).Some?
            && x in Ids(FindBySender(groups, p[i]).value.emails);
          assert senders[i] == p[i];
        }
      }
    }
  }

  /** Nothing is collected exactly when none of the senders has a group (groups are never empty). */
  lemma CollectIdsEmpty(groups: seq<SenderGroup>, senders: seq<string>)
    requires forall i :: 0 <= i < |groups| ==> Consistent(groups[i])
    ensures CollectIds(groups, senders) == [] <==> forall i :: 0 <= i < |senders| ==> FindBySender(groups, senders[i]).None?
  {
    CollectIdsExact(groups, senders);
    if exists i :: 0 <= i < |senders| && FindBySender(groups, senders[i]).Some? {
      var i :| 0 <= i < |senders| && FindBySender(groups, senders[i]).Some?;
      var g := FindBySender(groups, senders[i]).value;
      var k :| 0 <= k < |groups| && groups[k] == g;
      assert Ids(g.emails)[0] in Ids(g.emails);
      assert IdOfSenders(groups, senders, Ids(g.emails)[0]);
    }
  }

  /** `emails.filter(e => !cache.has(e.id))`: the emails with no cached analysis, in order. */
  function Unanalyzed(es: seq<Email>, cache: map<string, AIAnalysisResult>): (r: seq<Email>)
    ensures |r| <= |es|
  {
    if es == [] then []
    else (if es[0].id in cache then [] else [es[0]]) + Unanalyzed(es[1..], cache)
  }

  /** The emails left to analyse are exactly the emails without a cached analysis, in order. */
  lemma {:induction false} UnanalyzedExact(es: seq<Email>, cache: map<string, AIAnalysisResult>)
    ensures forall e :: e in Unanalyzed(es, cache) <==> e in es && e.id !in cache
    ensures IsSubsequence(Unanalyzed(es, cache), es)
  {
    if es != [] {
      UnanalyzedExact(es[1..], cache);
      assert es == [es[0]] + es[1..];
      var rest := Unanalyzed(es[1..], cache);
      if es[0].id in cache {
        assert Unanalyzed(es, cache) == rest;
        SubsequenceOfTail(rest, es[1..], es[0]);
      } else {
        assert ([es[0]] + rest)[1..] == rest;
      }
    }
  }

  /** `results.forEach(r => cache.set(r.emailId, r))`: each result stored under its email id, later ones winning. */
  function WithResults(cache: map<string, AIAnalysisResult>, results: seq<AIAnalysisResult>): map<string, AIAnalysisResult>
  {
    if results == [] then cache
    else WithResults(cache, results[..|results| - 1])[results[|results| - 1].emailId := results[|results| - 1]]
  }

  /**
   * Storing results never drops an entry: the keys afterwards are the old keys
   * and the results' email ids, and an entry no result names keeps its value.
   */
  lemma {:induction false} WithResultsKeeps(cache: map<string, AIAnalysisResult>, results: seq<AIAnalysisResult>)
    ensures WithResults(cache, results).Keys == cache.Keys + (set j | 0 <= j < |results| :: results[j].emailId)
    ensures forall k :: k in cache && (forall j :: 0 <= j < |results| ==> results[j].emailId != k) ==>
      WithResults(cache, results)[k] == cache[k]
  {
    if results != [] {
      var p := results[..|results| - 1];
      WithResultsKeeps(cache, p);
      assert forall j :: 0 <= j < |p| ==> p[j] == results[j];
      assert (set j | 0 <= j < |results| :: results[j].emailId)
          == (set j | 0 <= j < |p| :: p[j].emailId) + {results[|results| - 1].emailId};
      forall k | k in cache && (forall j :: 0 <= j < |results| ==> results[j].emailId != k)
        ensures WithResults(cache, results)[k] == cache[k]
      {
        assert forall j :: 0 <= j < |p| ==> p[j] == results[j];
      }
    }
  }

  /** The cache after each batch in turn has been analysed and its results stored. */
  function ApplyBatches(cache: map<string, AIAnalysisResult>, batches: seq<seq<Email>>, ai: seq<Email> -> seq<AIAnalysisResult>): map<string, AIAnalysisResult>
  {
    if batches == [] then cache
    else WithResults(ApplyBatches(cache, batches[..|batches| - 1], ai), ai(batches[|batches| - 1]))
  }

  /** Analysing in batches only adds to the cache. */
  lemma {:induction false} ApplyBatchesKeeps(cache: map<string, AIAnalysisResult>, batches: seq<seq<Email>>, ai: seq<Email> -> seq<AIAnalysisResult>)
    ensures cache.Keys <= ApplyBatches(cache, batches, ai).Keys
  {
    if batches != [] {
      ApplyBatchesKeeps(cache, batches[..|batches| - 1], ai);
      WithResultsKeeps(ApplyBatches(cache, batches[..|batches| - 1], ai), ai(batches[|batches| - 1]));
    }
  }

  /**
   * The batches sent by "analyse all": they cover the emails without a cached
   * analysis exactly, in order, at most ten at a time, and none of them holds an
   * email that was already analysed.
   */
  lemma AnalyzeAllBatches(es: seq<Email>, cache: map<string, AIAnalysisResult>)
    ensures var u := Unanalyzed(es, cache);
      && Flatten(Chunks(u, AnalysisBatchSize)) == u
      && (forall b :: b in Chunks(u, AnalysisBatchSize) ==> 0 < |b| <= AnalysisBatchSize)
      && (forall e :: e in u ==> e in es && e.id !in cache)
  {
    var u := Unanalyzed(es, cache);
    ChunksCorrect(u, AnalysisBatchSize);
    UnanalyzedExact(es, cache);
  }

  /** `prev.map(g => g.senderEmail === senderEmail ? {...g, analysis} : g)` */
  function SetAnalysis(groups: seq<SenderGroup>, senderEmail: string, analysis: SenderGroupAnalysis): (r: seq<SenderGroup>)
    ensures |r| == |groups|
    ensures forall i :: 0 <= i < |groups| && groups[i].senderEmail == senderEmail ==>
      r[i].analysis == Some(analysis) && r[i].(analysis := groups[i].analysis) == groups[i]
    ensures forall i :: 0 <= i < |groups| && groups[i].senderEmail != senderEmail ==> r[i] == groups[i]
  {
    seq(|groups|, i requires 0 <= i < |groups| =>
      if groups[i].senderEmail == senderEmail then groups[i].(analysis := Some(analysis)) else groups[i])
  }

  /** Attaching an analysis changes no email, no figure and no address, so consistency is kept. */
  lemma SetAnalysisKeeps(groups: seq<SenderGroup>, senderEmail: string, analysis: SenderGroupAnalysis)
    requires forall i :: 0 <= i < |groups| ==> Consistent(groups[i])
    ensures var r := SetAnalysis(groups, senderEmail, analysis);
      forall i :: 0 <= i < |r| ==> Consistent(r[i]) && r[i].emails == groups[i].emails && r[i].senderEmail == groups[i].senderEmail
  {
  }

  /** Attaching an analysis does not change which addresses have a group. */
  lemma {:induction false} SetAnalysisFind(groups: seq<SenderGroup>, senderEmail: string, analysis: SenderGroupAnalysis, s: string)
    ensures FindBySender(SetAnalysis(groups, senderEmail, analysis), s).Some? <==> FindBySender(groups, s).Some?
  {
    if groups != [] && groups[0].senderEmail != s {
      assert SetAnalysis(groups, senderEmail, analysis)[1..] == SetAnalysis(groups[1..], senderEmail, analysis);
      SetAnalysisFind(groups[1..], senderEmail, analysis, s);
    }
  }

  /**
   * A partial failure does not roll back what succeeded, and what failed stays:
   * an email whose id was not trashed is still in some group afterwards.
   */
  lemma {:induction false} UntrashedStay(groups: seq<SenderGroup>, gone: seq<string>, i: nat, e: Email)
    requires i < |groups| && e in groups[i].emails && e.id !in gone
    ensures exists j :: 0 <= j < |RemoveTrashedEmailsFromGroups(groups, gone)| && e in RemoveTrashedEmailsFromGroups(groups, gone)[j].emails
  {
    var r := RemoveTrashedEmailsFromGroups(groups, gone);
    var rest := RemoveTrashedEmailsFromGroups(groups[1..], gone);
    var offset := if RemainingGroup(groups[0], gone).Some? then 1 else 0;
    assert r[offset..] == rest;
    if i == 0 {
      WithoutExact(groups[0].emails, gone);
      var k :| 0 <= k < |groups[0].emails| && groups[0].emails[k] == e;
      assert e in Without(groups[0].emails, gone);
      assert r[0].emails == Without(groups[0].emails, gone);
    } else {
      assert groups[i] == groups[1..][i - 1];
      UntrashedStay(groups[1..], gone, i - 1, e);
      var j :| 0 <= j < |rest| && e in rest[j].emails;
      assert r[j + offset] == rest[j];
    }
  }

  /** The selected sender's page is open but that sender has no group any more. */
  predicate Stale(view: ViewState, selected: Option<string>, groups: seq<SenderGroup>)
  {
    view == SenderDetail && Truthy(selected) && FindBySender(groups, selected.value).None?
  }

  class AppState {
    var view: ViewState
    var senderGroups: seq<SenderGroup>
    var selectedSenderEmail: Option<string>
    var selectedEmailId: Option<string>
    var analysisCache: map<string, AIAnalysisResult>
    var authError: Option<string>
    /** The one mailbox service the screen talks to. */
    const mailbox: Mailbox.MailboxService
    /** The id lists handed to the mailbox for trashing, in order. */
    ghost var trashRequests: seq<seq<string>>
    /** The email lists handed to the analyser, in order. */
    ghost var analysisRequests: seq<seq<Email>>

    /**
     * The screen's invariant: the page of a sender is only shown while that
     * sender has a group, and every group's figures agree with its emails.
     */
    predicate Valid()
      reads this
    {
      && !Stale(view, selectedSenderEmail, senderGroups)
      && forall i :: 0 <= i < |senderGroups| ==> Consistent(senderGroups[i])
    }

    constructor(mailbox: Mailbox.MailboxService)
      ensures Valid()
      ensures this.mailbox == mailbox
      ensures view == Auth && senderGroups == [] && selectedSenderEmail == None && selectedEmailId == None
      ensures analysisCache == map[] && authError == None
      ensures trashRequests == [] && analysisRequests == []
    {
      view := Auth;
      senderGroups := [];
      selectedSenderEmail := None;
      selectedEmailId := None;
      analysisCache := map[];
      authError := None;
      this.mailbox := mailbox;
      trashRequests := [];
      analysisRequests := [];
    }

    /** The effect: on a sender's page whose group is gone, clear the selection and go back to the list. */
    method LeaveStalePage()
      modifies this`view, this`selectedSenderEmail
      ensures !Stale(view, selectedSenderEmail, senderGroups)
      ensures old(Stale(view, selectedSenderEmail, senderGroups)) ==> view == SenderGroups && selectedSenderEmail == None
      ensures !old(Stale(view, selectedSenderEmail, senderGroups)) ==> view == old(view) && selectedSenderEmail == old(selectedSenderEmail)
    {
      if view == SenderDetail && Truthy(selectedSenderEmail) {
        var current := FindBySender(senderGroups, selectedSenderEmail.value);
        if current.None? {
          selectedSenderEmail := None;
          view := SenderGroups;
        }
      }
    }

    /**
     * The end of a scan: a fetched listing grouped by sender and shown as the
     * list of groups, or a failure shown on the sign-in page with its message,
     * `fallback` when it has none.
     */
    method ShowScanResult(fetched: Outcome<seq<Email>>, fallback: string)
      requires Valid()
      modifies this
      ensures Valid()
      ensures fetched.Ok? ==> senderGroups == Grouped(fetched.value) && view == SenderGroups && authError == old(authError)
      ensures fetched.Failure? ==>
        && view == Auth && senderGroups == old(senderGroups)
        && authError == Some(if fetched.message != "" then fetched.message else fallback)
      ensures selectedSenderEmail == old(selectedSenderEmail) && selectedEmailId == old(selectedEmailId)
      ensures analysisCache == old(analysisCache)
      ensures trashRequests == old(trashRequests) && analysisRequests == old(analysisRequests)
    {
      match fetched
      case Ok(emails) =>
        var groups := GroupEmailsBySender(emails);
        GroupedConsistent(emails);
        senderGroups := groups;
        view := SenderGroups;
      case Failure(m) =>
        authError := Some(if m != "" then m else fallback);
        view := Auth;
    }

    /** `handleLogin` then `startScanning`: the error is cleared, then the scan's outcome is shown. */
    method Login(fetched: Outcome<seq<Email>>)
      requires Valid()
      modifies this
      ensures Valid()
      ensures fetched.Ok? ==> senderGroups == Grouped(fetched.value) && view == SenderGroups && authError == None
      ensures fetched.Failure? ==>
        && view == Auth && senderGroups == old(senderGroups)
        && authError == Some(if fetched.message != "" then fetched.message else ScanFailed)
      ensures selectedSenderEmail == old(selectedSenderEmail) && selectedEmailId == old(selectedEmailId)
      ensures analysisCache == old(analysisCache)
      ensures trashRequests == old(trashRequests) && analysisRequests == old(analysisRequests)
    {
      authError := None;
      ShowScanResult(fetched, ScanFailed);
    }

    /** `handleYahooLogin`: the error is cleared, then the Yahoo scan's outcome is shown. */
    method YahooLogin(fetched: Outcome<seq<Email>>)
      requires Valid()
      modifies this
      ensures Valid()
      ensures fetched.Ok? ==> senderGroups == Grouped(fetched.value) && view == SenderGroups && authError == None
      ensures fetched.Failure? ==>
        && view == Auth && senderGroups == old(senderGroups)
        && authError == Some(if fetched.message != "" then fetched.message else YahooFailed)
      ensures selectedSenderEmail == old(selectedSenderEmail) && selectedEmailId == old(selectedEmailId)
      ensures analysisCache == old(analysisCache)
      ensures trashRequests == old(trashRequests) && analysisRequests == old(analysisRequests)
    {
      authError := None;
      ShowScanResult(fetched, YahooFailed);
    }

    /** `startScanningAfterAuth`: the scan that follows a Google redirect; an earlier error stays unless it fails. */
    method ScanAfterAuth(fetched: Outcome<seq<Email>>)
      requires Valid()
      modifies this
      ensures Valid()
      ensures fetched.Ok? ==> senderGroups == Grouped(fetched.value) && view == SenderGroups && authError == old(authError)
      ensures fetched.Failure? ==>
        && view == Auth && senderGroups == old(senderGroups)
        && authError == Some(if fetched.message != "" then fetched.message else GmailAfterAuthFailed)
      ensures selectedSenderEmail == old(selectedSenderEmail) && selectedEmailId == old(selectedEmailId)
      ensures analysisCache == old(analysisCache)
      ensures trashRequests == old(trashRequests) && analysisRequests == old(analysisRequests)
    {
      ShowScanResult(fetched, GmailAfterAuthFailed);
    }

    /** `handleSelectSender`: open the page of a sender. */
    method SelectSender(senderEmail: string)
      requires Valid()
      modifies this`view, this`selectedSenderEmail
      ensures Valid()
      ensures Stale(SenderDetail, Some(senderEmail), senderGroups) ==> view == SenderGroups && selectedSenderEmail == None
      ensures !Stale(SenderDetail, Some(senderEmail), senderGroups) ==> view == SenderDetail && selectedSenderEmail == Some(senderEmail)
    {
      selectedSenderEmail := Some(senderEmail);
      view := SenderDetail;
      LeaveStalePage();
    }

    /** `handleBackToGroups`: back to the list, nothing selected. */
    method BackToGroups()
      requires Valid()
      modifies this`view, this`selectedSenderEmail
      ensures Valid()
      ensures view == SenderGroups && selectedSenderEmail == None
    {
      selectedSenderEmail := None;
      view := SenderGroups;
    }

    /** `handleLogout`: the mailbox is signed out and everything the screen holds is cleared. */
    method Logout()
      modifies this, mailbox
      ensures Valid()
      ensures view == Auth && senderGroups == [] && selectedSenderEmail == None
      ensures analysisCache == map[] && authError == None
      ensures !mailbox.isAuthenticated
      ensures mailbox.providerName == old(mailbox.providerName) && mailbox.useMock == old(mailbox.useMock)
      ensures mailbox.clientId == old(mailbox.clientId) && mailbox.yahooEmail == old(mailbox.yahooEmail)
      ensures selectedEmailId == old(selectedEmailId)
      ensures trashRequests == old(trashRequests) && analysisRequests == old(analysisRequests)
    {
      mailbox.isAuthenticated := false;
      view := Auth;
      senderGroups := [];
      selectedSenderEmail := None;
      analysisCache := map[];
      authError := None;
    }

    /**
     * `handleTrashEmails(ids)`: `provider` is what the mailbox reports for a
     * request. When anything was trashed, exactly the requested ids not
     * reported as failed leave the groups and the cache.
     */
    method TrashEmails(ids: seq<string>, provider: seq<string> -> TrashOperationResult)
      requires Valid()
      modifies this`senderGroups, this`analysisCache, this`view, this`selectedSenderEmail, this`trashRequests
      ensures Valid()
      ensures ids == [] ==> unchanged(this)
      ensures ids != [] ==> trashRequests == old(trashRequests) + [ids]
      ensures ids != [] ==>
        && senderGroups == AfterTrashGroups(old(senderGroups), ids, provider(ids))
        && analysisCache == AfterTrashCache(old(analysisCache), ids, provider(ids))
      ensures Stale(old(view), old(selectedSenderEmail), senderGroups) ==> view == SenderGroups && selectedSenderEmail == None
      ensures !Stale(old(view), old(selectedSenderEmail), senderGroups) ==>
        view == old(view) && selectedSenderEmail == old(selectedSenderEmail)
    {
      if ids == [] {
        return;
      }
      trashRequests := trashRequests + [ids];
      var result := provider(ids);
      if result.trashedCount > 0 {
        var gone := Succeeded(ids, result.failedIds);
        senderGroups := RemoveTrashedEmailsFromGroups(senderGroups, gone);
        analysisCache := DeleteIds(analysisCache, gone);
      }
      LeaveStalePage();
    }

    /** `ids.forEach(id => cache.delete(id))` on a copy of the cache. */
    static method DeleteIds(cache: map<string, AIAnalysisResult>, ids: seq<string>) returns (r: map<string, AIAnalysisResult>)
      ensures r == Forget(cache, ids)
      ensures forall k :: k in ids ==> k !in r
      ensures forall k :: k in cache && k !in ids ==> k in r && r[k] == cache[k]
    {
      r := cache;
      for k := 0 to |ids|
        invariant r == Forget(cache, ids[..k])
      {
        assert ids[..k + 1] == ids[..k] + [ids[k]];
        r := r - {ids[k]};
      }
      assert ids[..|ids|] == ids;
    }

    /** `handleTrashGroup(senderEmail)`: trash every email of the sender's group, if it still exists. */
    method TrashGroup(senderEmail: string, provider: seq<string> -> TrashOperationResult)
      requires Valid()
      modifies this`senderGroups, this`analysisCache, this`view, this`selectedSenderEmail, this`trashRequests
      ensures Valid()
      ensures FindBySender(old(senderGroups), senderEmail).None? ==> unchanged(this)
      ensures FindBySender(old(senderGroups), senderEmail).Some? ==>
        var ids := Ids(FindBySender(old(senderGroups), senderEmail).value.emails);
        && trashRequests == old(trashRequests) + [ids]
        && senderGroups == AfterTrashGroups(old(senderGroups), ids, provider(ids))
        && analysisCache == AfterTrashCache(old(analysisCache), ids, provider(ids))
      ensures Stale(old(view), old(selectedSenderEmail), senderGroups) ==> view == SenderGroups && selectedSenderEmail == None
      ensures !Stale(old(view), old(selectedSenderEmail), senderGroups) ==>
        view == old(view) && selectedSenderEmail == old(selectedSenderEmail)
    {
      var group := FindBySender(senderGroups, senderEmail);
      if group.None? {
        return;
      }
      var k :| 0 <= k < |senderGroups| && senderGroups[k] == group.value;
      assert Consistent(group.value);
      TrashEmails(Ids(group.value.emails), provider);
    }

    /**
     * `handleTrashMultipleGroups(senders)`: the ids of every listed sender that
     * still has a group, collected sender by sender and trashed in one request;
     * no request when there is nothing to trash.
     */
    method TrashMultipleGroups(senders: seq<string>, provider: seq<string> -> TrashOperationResult)
      requires Valid()
      modifies this`senderGroups, this`analysisCache, this`view, this`selectedSenderEmail, this`trashRequests
      ensures Valid()
      ensures CollectIds(old(senderGroups), senders) == [] ==> unchanged(this)
      ensures CollectIds(old(senderGroups), senders) != [] ==>
        var ids := CollectIds(old(senderGroups), senders);
        && trashRequests == old(trashRequests) + [ids]
        && senderGroups == AfterTrashGroups(old(senderGroups), ids, provider(ids))
        && analysisCache == AfterTrashCache(old(analysisCache), ids, provider(ids))
      ensures Stale(old(view), old(selectedSenderEmail), senderGroups) ==> view == SenderGroups && selectedSenderEmail == None
      ensures !Stale(old(view), old(selectedSenderEmail), senderGroups) ==>
        view == old(view) && selectedSenderEmail == old(selectedSenderEmail)
    {
      if senders == [] {
        return;
      }
      var allEmailIds: seq<string> := [];
      for i := 0 to |senders|
        invariant allEmailIds == CollectIds(senderGroups, senders[..i])
      {
        assert senders[..i + 1][..i] == senders[..i];
        var group := FindBySender(senderGroups, senders[i]);
        if group.Some? {
          allEmailIds := allEmailIds + Ids(group.value.emails);
        }
      }
      assert senders[..|senders|] == senders;
      if allEmailIds != [] {
        TrashEmails(allEmailIds, provider);
      }
    }

    /** `handleViewEmailDetail(emailId)`: open an email of the selected sender's group, if it is there. */
    method ViewEmailDetail(emailId: string)
      requires Valid()
      modifies this`view, this`selectedEmailId
      ensures Valid()
      ensures var group := SelectedGroup(senderGroups, selectedSenderEmail);
        if group.None? || FindEmail(group.value.emails, emailId).None? then
          view == old(view) && selectedEmailId == old(selectedEmailId)
        else
          view == EmailDetailView && selectedEmailId == Some(emailId)
    {
      var group := SelectedGroup(senderGroups, selectedSenderEmail);
      if group.None? {
        return;
      }
      var basicEmail := FindEmail(group.value.emails, emailId);
      if basicEmail.None? {
        return;
      }
      selectedEmailId := Some(emailId);
      view := EmailDetailView;
    }

    /** `handleBackToSenderDetail`: close the email and show its sender's page again. */
    method BackToSenderDetail()
      requires Valid()
      modifies this`view, this`selectedSenderEmail, this`selectedEmailId
      ensures Valid()
      ensures selectedEmailId == None
      ensures Stale(SenderDetail, old(selectedSenderEmail), senderGroups) ==> view == SenderGroups && selectedSenderEmail == None
      ensures !Stale(SenderDetail, old(selectedSenderEmail), senderGroups) ==> view == SenderDetail && selectedSenderEmail == old(selectedSenderEmail)
    {
      selectedEmailId := None;
      view := SenderDetail;
      LeaveStalePage();
    }

    /**
     * `handleTrashFromEmailDetail`: trash the open email, then return to its
     * sender's page, which gives way to the list if that was the sender's last email.
     */
    method TrashFromEmailDetail(provider: seq<string> -> TrashOperationResult)
      requires Valid()
      modifies this`senderGroups, this`analysisCache, this`view, this`selectedSenderEmail, this`selectedEmailId, this`trashRequests
      ensures Valid()
      ensures !Truthy(old(selectedEmailId)) ==> unchanged(this)
      ensures Truthy(old(selectedEmailId)) ==>
        && trashRequests == old(trashRequests) + [[old(selectedEmailId).value]]
        && senderGroups == AfterTrashGroups(old(senderGroups), [old(selectedEmailId).value], provider([old(selectedEmailId).value]))
        && analysisCache == AfterTrashCache(old(analysisCache), [old(selectedEmailId).value], provider([old(selectedEmailId).value]))
        && selectedEmailId == None
        && (view == SenderDetail || (view == SenderGroups && selectedSenderEmail == None))
      ensures Truthy(old(selectedEmailId)) && old(view) != SenderDetail ==>
        (view == SenderGroups <==> Stale(SenderDetail, old(selectedSenderEmail), senderGroups))
    {
      if !Truthy(selectedEmailId) {
        return;
      }
      TrashEmails([selectedEmailId.value], provider);
      BackToSenderDetail();
    }

    /**
     * `handleAnalyzeEmail(emailId)`: analyse one email of the selected group
     * unless its analysis is cached; the first result is cached under the id.
     */
    method AnalyzeEmail(emailId: string, ai: seq<Email> -> seq<AIAnalysisResult>)
      requires Valid()
      modifies this`analysisCache, this`analysisRequests
      ensures Valid()
      ensures var group := SelectedGroup(senderGroups, selectedSenderEmail);
        if emailId in old(analysisCache) || group.None? || FindEmail(group.value.emails, emailId).None? then
          analysisCache == old(analysisCache) && analysisRequests == old(analysisRequests)
        else
          var email := FindEmail(group.value.emails, emailId).value;
          && analysisRequests == old(analysisRequests) + [[email]]
          && analysisCache == (if ai([email]) == [] then old(analysisCache) else old(analysisCache)[emailId := ai([email])[0]])
    {
      if emailId in analysisCache {
        return;
      }
      var group := SelectedGroup(senderGroups, selectedSenderEmail);
      if group.None? {
        return;
      }
      var email := FindEmail(group.value.emails, emailId);
      if email.None? {
        return;
      }
      analysisRequests := analysisRequests + [[email.value]];
      var results := ai([email.value]);
      if |results| > 0 {
        analysisCache := analysisCache[emailId := results[0]];
      }
    }

    /**
     * `handleAnalyzeAllEmails`: the selected group's emails without a cached
     * analysis, sent to the analyser ten at a time; each batch's results are
     * added to the cache as they arrive.
     */
    method AnalyzeAllEmails(ai: seq<Email> -> seq<AIAnalysisResult>)
      requires Valid()
      modifies this`analysisCache, this`analysisRequests
      ensures Valid()
      ensures var group := SelectedGroup(senderGroups, selectedSenderEmail);
        if group.None? then
          analysisCache == old(analysisCache) && analysisRequests == old(analysisRequests)
        else
          var batches := Chunks(Unanalyzed(group.value.emails, old(analysisCache)), AnalysisBatchSize);
          && analysisRequests == old(analysisRequests) + batches
          && analysisCache == ApplyBatches(old(analysisCache), batches, ai)
    {
      var group := SelectedGroup(senderGroups, selectedSenderEmail);
      if group.None? {
        return;
      }
      var unanalyzed := Unanalyzed(group.value.emails, analysisCache);
      if unanalyzed == [] {
        return;
      }
      var cache, sent := AnalyzeInBatches(analysisCache, unanalyzed, ai);
      analysisCache := cache;
      analysisRequests := analysisRequests + sent;
    }

    /**
     * The loop of `handleAnalyzeAllEmails`: consecutive slices of ten sent in
     * order, each batch's results stored as it comes back. `sent` records the
     * batches sent.
     */
    static method AnalyzeInBatches(start: map<string, AIAnalysisResult>, unanalyzed: seq<Email>, ai: seq<Email> -> seq<AIAnalysisResult>)
      returns (cache: map<string, AIAnalysisResult>, ghost sent: seq<seq<Email>>)
      ensures sent == Chunks(unanalyzed, AnalysisBatchSize)
      ensures cache == ApplyBatches(start, sent, ai)
    {
      cache := start;
      ghost var done := 0;
      sent := [];
      var i := 0;
      while i < |unanalyzed|
        invariant 0 <= i && (i == 0 || i < |unanalyzed| + AnalysisBatchSize)
        invariant i == AnalysisBatchSize * |sent|
        invariant done == (if i < |unanalyzed| then i else |unanalyzed|)
        invariant sent + Chunks(unanalyzed[done..], AnalysisBatchSize) == Chunks(unanalyzed, AnalysisBatchSize)
        invariant cache == ApplyBatches(start, sent, ai)
      {
        var end := if i + AnalysisBatchSize < |unanalyzed| then i + AnalysisBatchSize else |unanalyzed|;
        var batch := unanalyzed[i..end];
        NextBatch(unanalyzed, AnalysisBatchSize, i, end, sent);
        var results := ai(batch);
        cache := StoreResults(cache, results);
        assert (sent + [batch])[..|sent|] == sent;
        sent := sent + [batch];
        i := i + AnalysisBatchSize;
        done := end;
      }
      AllBatchesSent(unanalyzed, AnalysisBatchSize, sent);
    }

    /** `results.forEach(r => newCache.set(r.emailId, r))` on a copy of the cache. */
    static method StoreResults(cache: map<string, AIAnalysisResult>, results: seq<AIAnalysisResult>) returns (r: map<string, AIAnalysisResult>)
      ensures r == WithResults(cache, results)
    {
      r := cache;
      for k := 0 to |results|
        invariant r == WithResults(cache, results[..k])
      {
        assert results[..k + 1][..k] == results[..k];
        r := r[results[k].emailId := results[k]];
      }
      assert results[..|results|] == results;
    }

    /**
     * `handleAnalyzeGroup(senderEmail)`: analyse a sender's group unless it is
     * missing or already analysed; the analysis is attached to every group with
     * exactly that address.
     */
    method AnalyzeGroup(senderEmail: string, groupAi: (string, string, seq<Email>) -> SenderGroupAnalysis)
      requires Valid()
      modifies this`senderGroups, this`view, this`selectedSenderEmail
      ensures Valid()
      ensures var group := FindBySender(old(senderGroups), senderEmail);
        if group.None? || group.value.analysis.Some? then
          senderGroups == old(senderGroups)
        else
          senderGroups == SetAnalysis(old(senderGroups), senderEmail, groupAi(senderEmail, group.value.senderName, group.value.emails))
      ensures view == old(view) && selectedSenderEmail == old(selectedSenderEmail)
    {
      var group := FindBySender(senderGroups, senderEmail);
      if group.None? || group.value.analysis.Some? {
        return;
      }
      var analysis := groupAi(senderEmail, group.value.senderName, group.value.emails);
      SetAnalysisKeeps(senderGroups, senderEmail, analysis);
      if selectedSenderEmail.Some? {
        SetAnalysisFind(senderGroups, senderEmail, analysis, selectedSenderEmail.value);
      }
      senderGroups := SetAnalysis(senderGroups, senderEmail, analysis);
    }
  }
}
