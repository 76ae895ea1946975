/**
 * The server-side IMAP session manager for Yahoo Mail
 * (server/services/yahooImapService.ts).
 *
 * A registry maps the lower-cased address to one session: its connection, the
 * address, the app password and a `connected` flag that the connection's
 * events clear. The network is abstracted away: each handshake, each open of
 * the INBOX and each MOVE is an outcome given as a parameter, and the INBOX
 * is a sequence of stored messages in sequence-number order (message n is
 * `inbox[n - 1]`, as in section 2.3.1.2 of RFC 3501).
 *
 * Message ids have the form "yahoo-<number>". The code as written puts the
 * message's sequence number there and moves messages to Trash by sequence
 * number, one at a time. Every MOVE expunges the message and renumbers all
 * later ones (section 7.4.1 of RFC 3501), so later ids of the same request
 * name the wrong messages: `TrashBySeqNo` models that and
 * `SeqNoTrashMovesWrongMessage` exhibits it. The rest of the model uses the
 * corrected protocol, in which the number is the message's UID, which stays
 * fixed while other messages are expunged (section 2.3.1.1 of RFC 3501).
 */
module ImapSessions {
  import opened Text
  import opened Model
  import opened Sorting
  import Seqs

  const IdPrefix := "yahoo-"
  const NoSession := "No session found. Please connect first."
  const ReconnectionFailed := "Reconnection failed: "
  const OpenInboxFailed := "Failed to open inbox: "
  const FetchFailed := "Fetch error: "
  const InvalidMessageId := "Invalid message ID: "

  // ------------------------------------------------------------ session keys

  /** `getSessionId`: sessions are keyed by the lower-cased address. */
  function SessionId(email: string): (r: string)
    ensures |r| == |email|
    ensures forall i :: 0 <= i < |r| ==> !('A' <= r[i] <= 'Z')
  {
    Lower(email)
  }

  /** Two addresses that differ only in letter case name the same session. */
  lemma SessionIdIgnoresCase(a: string, b: string)
    requires Lower(a) == Lower(b)
    ensures SessionId(a) == SessionId(b)
    ensures SessionId(a) == SessionId(SessionId(b))
  {
    LowerIdempotent(b);
  }

  /**
   * One registered session. `connection` identifies the IMAP connection object
   * (a serial number given when it was created).
   */
  datatype Session = Session(connection: nat, email: string, appPassword: string, connected: bool)

  /** The reply of `connect`: errors are reported in-band, never thrown. */
  datatype ConnectReply = ConnectReply(success: bool, error: Option<string>)

  /**
   * The registry after `connect(email, appPassword)` whose handshake has the
   * given outcome: any old session under the key is removed first; a ready
   * connection is stored as connected with the given password; on error no
   * session is left under the key. Every other key is untouched.
   */
  function AfterConnect(sessions: map<string, Session>, serial: nat, email: string, appPassword: string, handshake: Outcome<()>): (r: map<string, Session>)
    ensures handshake.Ok? ==> SessionId(email) in r && r[SessionId(email)] == Session(serial, email, appPassword, true)
    ensures handshake.Failure? ==> SessionId(email) !in r
    ensures forall k :: k != SessionId(email) ==> (k in r <==> k in sessions)
    ensures forall k :: k != SessionId(email) && k in r ==> r[k] == sessions[k]
  {
    var key := SessionId(email);
    if handshake.Ok? then sessions[key := Session(serial, email, appPassword, true)] else sessions - {key}
  }

  /** What `ensureConnected` produces: the connection to use or the error it throws, and the registry after it. */
  datatype Ensured = Ensured(connection: Outcome<nat>, sessions: map<string, Session>, created: nat)

  /**
   * `ensureConnected(email)`, where `authenticated` is whether the stored
   * connection's state is `authenticated` and `handshake` is the outcome of the
   * reconnection attempt if one is made; `created` counts the connections made
   * so far.
   */
  function EnsureConnection(sessions: map<string, Session>, created: nat, email: string, authenticated: bool, handshake: Outcome<()>): Ensured
  {
    var key := SessionId(email);
    if key !in sessions then Ensured(Failure(NoSession), sessions, created)
    else if sessions[key].connected && authenticated then Ensured(Ok(sessions[key].connection), sessions, created)
    else
      var after := AfterConnect(sessions, created, email, sessions[key].appPassword, handshake);
      if handshake.Failure? then Ensured(Failure(ReconnectionFailed + handshake.message), after, created + 1)
      else Ensured(Ok(created), after, created + 1)
  }

  /** Without a session, `ensureConnected` throws "No session found..." and changes nothing. */
  lemma EnsureWithoutSession(sessions: map<string, Session>, created: nat, email: string, authenticated: bool, handshake: Outcome<()>)
    requires SessionId(email) !in sessions
    ensures EnsureConnection(sessions, created, email, authenticated, handshake) == Ensured(Failure(NoSession), sessions, created)
  {
  }

  /** A connected, authenticated session is returned as it is, without a new connection. */
  lemma EnsureKeepsLiveSession(sessions: map<string, Session>, created: nat, email: string, handshake: Outcome<()>)
    requires SessionId(email) in sessions && sessions[SessionId(email)].connected
    ensures var e := EnsureConnection(sessions, created, email, true, handshake);
      e.connection == Ok(sessions[SessionId(email)].connection) && e.sessions == sessions && e.created == created
  {
  }

  /**
   * A session that is not connected, or whose connection is not authenticated,
   * is reconnected exactly once with the stored app password. On success the
   * new connection is returned and stored as connected; on failure the error
   * reads "Reconnection failed: <error>" and the session is gone.
   */
  lemma EnsureReconnectsOnce(sessions: map<string, Session>, created: nat, email: string, authenticated: bool, handshake: Outcome<()>)
    requires SessionId(email) in sessions
    requires !(sessions[SessionId(email)].connected && authenticated)
    ensures var e := EnsureConnection(sessions, created, email, authenticated, handshake);
      var key := SessionId(email);
      && e.created == created + 1
      && (handshake.Ok? ==>
            && e.connection == Ok(created)
            && key in e.sessions
            && e.sessions[key] == Session(created, email, sessions[key].appPassword, true))
      && (handshake.Failure? ==>
            && e.connection == Failure(ReconnectionFailed + handshake.message)
            && key !in e.sessions)
  {
  }

  /**
   * Once `ensureConnected` has succeeded, a second call while the connection is
   * still authenticated hands back the same connection and changes nothing.
   */
  lemma {:induction false} EnsureSettles(sessions: map<string, Session>, created: nat, email: string, authenticated: bool, first: Outcome<()>, second: Outcome<()>)
    requires EnsureConnection(sessions, created, email, authenticated, first).connection.Ok?
    ensures var e := EnsureConnection(sessions, created, email, authenticated, first);
      var e2 := EnsureConnection(e.sessions, e.created, email, true, second);
      e2 == Ensured(e.connection, e.sessions, e.created)
  {
    var key := SessionId(email);
    assert key in sessions;
    if !(sessions[key].connected && authenticated) {
      EnsureReconnectsOnce(sessions, created, email, authenticated, first);
    }
  }

  // ------------------------------------------------------------- message ids

  /** The id the listing gives a message: "yahoo-" followed by its number. */
  function EncodeId(n: nat): (r: string)
    ensures |r| > |IdPrefix| && r[..|IdPrefix|] == IdPrefix
  {
    IdPrefix + NatToString(n)
  }

  /**
   * The number an id names: the first "yahoo-" is removed and the rest is read
   * with `parseInt(_, 10)`; NaN is None.
   */
  function DecodeId(id: string): Option<int>
  {
    ParseInt(ReplaceFirst(id, IdPrefix, ""))
  }

  /**
   * An id whose part after "yahoo-" starts with neither a digit, a sign nor
   * white space is not a number: `fetchEmailDetail` rejects it.
   */
  lemma DecodeRejectsNonNumber(rest: string)
    requires rest == [] || (!IsDigit(rest[0]) && !IsSpace(rest[0]) && rest[0] != '-' && rest[0] != '+')
    ensures DecodeId(IdPrefix + rest) == None
  {
    assert (IdPrefix + rest)[..|IdPrefix|] == IdPrefix;
    assert ReplaceFirst(IdPrefix + rest, IdPrefix, "") == rest;
  }

  /** Decoding an id the listing produced gives back its number. */
  lemma DecodeEncode(n: nat)
    ensures DecodeId(EncodeId(n)) == Some(n)
  {
    var s := EncodeId(n);
    assert ReplaceFirst(s, IdPrefix, "") == NatToString(n);
    ParseIntOfNatToString(n);
  }

  /** Different numbers get different ids. */
  lemma EncodeIdInjective(m: nat, n: nat)
    requires EncodeId(m) == EncodeId(n)
    ensures m == n
  {
    DecodeEncode(m);
    DecodeEncode(n);
  }

  /** `fetchEmailDetail`'s reading of its id: a non-numeric id is rejected with "Invalid message ID: <id>". */
  function DetailNumber(messageId: string): (r: Outcome<int>)
    ensures r.Failure? <==> DecodeId(messageId).None?
    ensures r.Failure? ==> r.message == InvalidMessageId + messageId
    ensures r.Ok? ==> Some(r.value) == DecodeId(messageId)
  {
    match DecodeId(messageId)
    case None => Failure(InvalidMessageId + messageId)
    case Some(n) => Ok(n)
  }

  /** Every id of a listing names its own message when the detail is fetched. */
  lemma DetailOfListedId(n: nat)
    ensures DetailNumber(EncodeId(n)) == Ok(n)
  {
    DecodeEncode(n);
  }

  // ------------------------------------------------------------- fetch range

  /**
   * The sequence numbers `fetchEmails(email, limit)` asks for, as the pair
   * (first, last): none for an empty INBOX, otherwise from
   * `max(1, total - limit + 1)` up to `total`. For a positive limit these are
   * the last `min(limit, total)` messages; a limit below 1 gives a first
   * number past the last one.
   */
  function FetchRange(total: nat, limit: int): (r: Option<(int, int)>)
    ensures r.None? <==> total == 0
    ensures r.Some? ==> r.value.1 == total && r.value.0 >= 1
    ensures r.Some? && limit >= 1 ==>
      && r.value.0 <= total
      && total - r.value.0 + 1 == (if limit < total then limit else total)
    ensures r.Some? && limit < 1 ==> r.value.0 > total
  {
    if total == 0 then None else Some((FirstFetched(total, limit), total))
  }

  /** `Math.max(1, total - limit + 1)` */
  function FirstFetched(total: nat, limit: int): (r: int)
    ensures r >= 1
    ensures limit >= 1 && total >= 1 ==> r <= total
  {
    if total - limit + 1 > 1 then total - limit + 1 else 1
  }

  // ---------------------------------------------------------------- listing

  /**
   * A message in the INBOX: its UID and the fields its headers give
   * (sender, subject, date, snippet, read flag); the header parsing itself is
   * not part of this model, and `parsed.id` is not used.
   */
  datatype StoredMessage = StoredMessage(uid: nat, parsed: Email)

  /** The listed email of a message: its parsed fields under the id of its UID. */
  function Labelled(m: StoredMessage): (e: Email)
    ensures e.id == EncodeId(m.uid)
    ensures e.senderEmail == m.parsed.senderEmail && e.date == m.parsed.date
  {
    m.parsed.(id := EncodeId(m.uid))
  }

  /** The listed emails of ms, in order, leaving out those without a sender address. */
  function Kept(ms: seq<StoredMessage>): (r: seq<Email>)
    ensures |r| <= |ms|
  {
    if ms == [] then []
    else Kept(ms[..|ms| - 1]) + (if ms[|ms| - 1].parsed.senderEmail != "" then [Labelled(ms[|ms| - 1])] else [])
  }

  /** Kept(ms) holds exactly the listed emails of the messages of ms that have a sender. */
  lemma {:induction false} KeptExact(ms: seq<StoredMessage>)
    ensures forall e :: e in Kept(ms) ==> e.senderEmail != ""
    ensures forall e :: e in Kept(ms) ==> exists k :: 0 <= k < |ms| && e == Labelled(ms[k])
    ensures forall k :: 0 <= k < |ms| && ms[k].parsed.senderEmail != "" ==> Labelled(ms[k]) in Kept(ms)
  {
    if ms != [] {
      var init := ms[..|ms| - 1];
      KeptExact(init);
      forall e | e in Kept(ms)
        ensures exists k :: 0 <= k < |ms| && e == Labelled(ms[k])
      {
        if e in Kept(init) {
          var k :| 0 <= k < |init| && e == Labelled(init[k]);
          assert ms[k] == init[k];
        } else {
          assert e == Labelled(ms[|ms| - 1]);
        }
      }
      forall k | 0 <= k < |ms| && ms[k].parsed.senderEmail != ""
        ensures Labelled(ms[k]) in Kept(ms)
      {
        if k < |ms| - 1 {
          assert ms[k] == init[k];
        }
      }
    }
  }

  /** The sort key of the listing: newest first, with `new Date(d).getTime()` given as `time`. */
  function DateKey(time: string -> int): Email -> int
  {
    (e: Email) => time(e.date)
  }

  /**
   * What `fetchEmails` returns for the INBOX, a positive limit and a
   * successful fetch: the listed emails of the last `limit` messages that have
   * a sender, sorted newest first (stably).
   */
  function Listing(inbox: seq<StoredMessage>, limit: int, time: string -> int): (r: seq<Email>)
    requires limit >= 1
    ensures |r| <= limit
    ensures forall i, j :: 0 <= i < j < |r| ==> time(r[i].date) >= time(r[j].date)
  {
    if inbox == [] then []
    else
      var window := inbox[FirstFetched(|inbox|, limit) - 1..];
      SortDescSorted(Kept(window), DateKey(time));
      SortDesc(Kept(window), DateKey(time))
  }

  /**
   * The listing holds exactly the emails with a sender among the last `limit`
   * messages: every listed email is one of them, and each of them is listed.
   */
  lemma ListingWindow(inbox: seq<StoredMessage>, limit: int, time: string -> int)
    requires limit >= 1
    ensures forall e :: e in Listing(inbox, limit, time) ==> e.senderEmail != ""
    ensures forall e :: e in Listing(inbox, limit, time) ==>
      exists k :: |inbox| - limit <= k < |inbox| && 0 <= k && e == Labelled(inbox[k])
    ensures forall k :: |inbox| - limit <= k < |inbox| && 0 <= k && inbox[k].parsed.senderEmail != "" ==>
      Labelled(inbox[k]) in Listing(inbox, limit, time)
  {
    if inbox != [] {
      var start := FirstFetched(|inbox|, limit) - 1;
      var window := inbox[start..];
      var r := Listing(inbox, limit, time);
      ListingHoldsKept(inbox, limit, time);
      KeptExact(window);
      forall e | e in r
        ensures exists k :: |inbox| - limit <= k < |inbox| && 0 <= k && e == Labelled(inbox[k])
      {
        var j :| 0 <= j < |window| && e == Labelled(window[j]);
        assert window[j] == inbox[start + j];
      }
      forall k | |inbox| - limit <= k < |inbox| && 0 <= k && inbox[k].parsed.senderEmail != ""
        ensures Labelled(inbox[k]) in r
      {
        assert inbox[k] == window[k - start];
      }
    }
  }

  /** The sort only reorders: the listing holds the kept emails of the window. */
  lemma ListingHoldsKept(inbox: seq<StoredMessage>, limit: int, time: string -> int)
    requires limit >= 1 && inbox != []
    ensures forall e :: e in Listing(inbox, limit, time) <==> e in Kept(inbox[FirstFetched(|inbox|, limit) - 1..])
  {
    var kept := Kept(inbox[FirstFetched(|inbox|, limit) - 1..]);
    var r := Listing(inbox, limit, time);
    assert r == SortDesc(kept, DateKey(time));
    assert multiset(r) == multiset(kept);
    forall e
      ensures e in r <==> e in kept
    {
      assert e in r <==> e in multiset(r);
      assert e in kept <==> e in multiset(kept);
    }
  }

  // ---------------------------------------------------- trash, as written

  /**
   * The state of a bulk move to Trash: the INBOX as it stands, and the ids
   * moved and the ids that failed, each in the order they were tried.
   */
  datatype Tally<M> = Tally(inbox: seq<M>, trashed: seq<string>, failed: seq<string>)

  /** The reply of `trashEmails`: success iff nothing failed. */
  datatype TrashReply = TrashReply(success: bool, trashedCount: nat, failedIds: seq<string>)

  function ReplyOf<M>(t: Tally<M>): (r: TrashReply)
    ensures r.success <==> r.failedIds == []
  {
    TrashReply(|t.failed| == 0, |t.trashed|, t.failed)
  }

  /**
   * One id of the loop as written: a non-numeric id fails; otherwise message
   * number n is moved by sequence number, which succeeds when the server
   * accepts and n is a message of the INBOX as it now stands, and renumbers
   * every later message.
   */
  function SeqNoStep<M>(t: Tally<M>, id: string, accepted: bool): Tally<M>
  {
    match DecodeId(id)
    case None => t.(failed := t.failed + [id])
    case Some(n) =>
      if accepted && 1 <= n <= |t.inbox| then t.(inbox := t.inbox[..n - 1] + t.inbox[n..], trashed := t.trashed + [id])
      else t.(failed := t.failed + [id])
  }

  /** `trashEmails` as written: the ids tried in order by sequence number; `accepted[i]` is the server's answer to the i-th MOVE. */
  function TrashBySeqNo<M>(inbox: seq<M>, ids: seq<string>, accepted: seq<bool>): (t: Tally<M>)
    requires |accepted| == |ids|
    ensures |t.trashed| + |t.failed| == |ids|
    decreases |ids|
  {
    if ids == [] then Tally(inbox, [], [])
    else SeqNoStep(TrashBySeqNo(inbox, ids[..|ids| - 1], accepted[..|ids| - 1]), ids[|ids| - 1], accepted[|ids| - 1])
  }

  /**
   * The listing named the messages of the INBOX [10, 20, 30] (by UID) with the
   * ids of their sequence numbers 1, 2 and 3. Trashing the first two listed
   * ids, both accepted, reports success for both, yet moves 10 and 30: after
   * the first MOVE, message 20 has number 1 and message 30 number 2.
   */
  lemma SeqNoTrashMovesWrongMessage()
    ensures var t := TrashBySeqNo([10, 20, 30], [EncodeId(1), EncodeId(2)], [true, true]);
      && ReplyOf(t) == TrashReply(true, 2, [])
      && t.inbox == [20]
  {
    DecodeEncode(1);
    DecodeEncode(2);
    var ids := [EncodeId(1), EncodeId(2)];
    assert ids[..1] == [EncodeId(1)];
    assert [EncodeId(1)][..0] == [];
    var t1 := TrashBySeqNo([10, 20, 30], ids[..1], [true]);
    assert t1 == Tally([20, 30], [EncodeId(1)], []);
  }

  // ---------------------------------------------------- trash, corrected

  /** The UIDs of the messages, in order. */
  function Uids(inbox: seq<StoredMessage>): (r: seq<nat>)
    ensures |r| == |inbox|
    ensures forall i :: 0 <= i < |inbox| ==> r[i] == inbox[i].uid
  {
    seq(|inbox|, i requires 0 <= i < |inbox| => inbox[i].uid)
  }

  /** The INBOX without the message(s) of UID u, order kept. */
  function RemoveUid(inbox: seq<StoredMessage>, u: int): (r: seq<StoredMessage>)
    ensures |r| <= |inbox|
  {
    if inbox == [] then []
    else RemoveUid(inbox[..|inbox| - 1], u) + (if inbox[|inbox| - 1].uid != u then [inbox[|inbox| - 1]] else [])
  }

  lemma {:induction false} RemoveUidExact(inbox: seq<StoredMessage>, u: int)
    ensures forall m :: m in RemoveUid(inbox, u) <==> m in inbox && m.uid != u
  {
    if inbox != [] {
      RemoveUidExact(inbox[..|inbox| - 1], u);
      assert inbox == inbox[..|inbox| - 1] + [inbox[|inbox| - 1]];
    }
  }

  /** One id of the corrected loop: message UID n is moved when the server accepts and it is still in the INBOX. */
  function UidStep(t: Tally<StoredMessage>, id: string, accepted: bool): (r: Tally<StoredMessage>)
    ensures || (r.trashed == t.trashed + [id] && r.failed == t.failed)
            || (r.trashed == t.trashed && r.failed == t.failed + [id] && r.inbox == t.inbox)
  {
    match DecodeId(id)
    case None => t.(failed := t.failed + [id])
    case Some(n) =>
      if accepted && n in Uids(t.inbox) then t.(inbox := RemoveUid(t.inbox, n), trashed := t.trashed + [id])
      else t.(failed := t.failed + [id])
  }

  /** `trashEmails` with ids that carry UIDs: every id tried in order, none stopping the rest. */
  function TrashByUid(inbox: seq<StoredMessage>, ids: seq<string>, accepted: seq<bool>): Tally<StoredMessage>
    requires |accepted| == |ids|
    decreases |ids|
  {
    if ids == [] then Tally(inbox, [], [])
    else UidStep(TrashByUid(inbox, ids[..|ids| - 1], accepted[..|ids| - 1]), ids[|ids| - 1], accepted[|ids| - 1])
  }

  /** The numbers the ids name, leaving out the ids that do not decode. */
  function Targets(ids: seq<string>): (r: seq<int>)
    ensures |r| <= |ids|
  {
    if ids == [] then []
    else Targets(ids[..|ids| - 1]) + (match DecodeId(ids[|ids| - 1]) case None => [] case Some(n) => [n])
  }

  /** Every number an id decodes to is a target. */
  lemma {:induction false} TargetsComplete(ids: seq<string>)
    ensures forall i :: 0 <= i < |ids| && DecodeId(ids[i]).Some? ==> DecodeId(ids[i]).value in Targets(ids)
  {
    if ids != [] {
      var p := ids[..|ids| - 1];
      TargetsComplete(p);
      forall i | 0 <= i < |p| && DecodeId(ids[i]).Some?
        ensures DecodeId(ids[i]).value in Targets(ids)
      {
        assert p[i] == ids[i];
      }
    }
  }

  /** Every target is the number of one of the ids. */
  lemma {:induction false} TargetsSound(ids: seq<string>)
    ensures forall n :: n in Targets(ids) ==> exists i :: 0 <= i < |ids| && DecodeId(ids[i]) == Some(n)
  {
    if ids != [] {
      var p := ids[..|ids| - 1];
      TargetsSound(p);
      forall n | n in Targets(ids)
        ensures exists i :: 0 <= i < |ids| && DecodeId(ids[i]) == Some(n)
      {
        if n in Targets(p) {
          var i :| 0 <= i < |p| && DecodeId(p[i]) == Some(n);
          assert p[i] == ids[i];
        } else {
          assert DecodeId(ids[|ids| - 1]) == Some(n);
        }
      }
    }
  }

  /** A number is a target exactly when some id decodes to it. */
  lemma TargetsExact(ids: seq<string>)
    ensures forall n :: n in Targets(ids) <==> exists i :: 0 <= i < |ids| && DecodeId(ids[i]) == Some(n)
  {
    TargetsComplete(ids);
    TargetsSound(ids);
    forall n | exists i :: 0 <= i < |ids| && DecodeId(ids[i]) == Some(n)
      ensures n in Targets(ids)
    {
      var i :| 0 <= i < |ids| && DecodeId(ids[i]) == Some(n);
    }
  }

  /** Targets keep the order of their ids: the targets of a concatenation are the targets of each part in turn. */
  lemma {:induction false} TargetsAppend(a: seq<string>, b: seq<string>)
    ensures Targets(a + b) == Targets(a) + Targets(b)
    decreases |b|
  {
    if b != [] {
      var n := |b| - 1;
      TargetsAppend(a, b[..n]);
      assert (a + b)[..|a + b| - 1] == a + b[..n];
      assert (a + b)[|a + b| - 1] == b[n];
    } else {
      assert a + b == a;
    }
  }

  /** Every id ends up in exactly one of the two lists: together they are the ids, duplicates included. */
  lemma {:induction false} TrashByUidAccounting(inbox: seq<StoredMessage>, ids: seq<string>, accepted: seq<bool>)
    requires |accepted| == |ids|
    ensures var t := TrashByUid(inbox, ids, accepted);
      multiset(t.trashed) + multiset(t.failed) == multiset(ids)
  {
    if ids != [] {
      var n := |ids| - 1;
      TrashByUidAccounting(inbox, ids[..n], accepted[..n]);
      assert ids == ids[..n] + [ids[n]];
    }
  }

  /** Both lists keep the order of the ids: the failed ids are reported in the order they were given. */
  lemma {:induction false} TrashByUidInOrder(inbox: seq<StoredMessage>, ids: seq<string>, accepted: seq<bool>)
    requires |accepted| == |ids|
    ensures Seqs.IsSubsequence(TrashByUid(inbox, ids, accepted).trashed, ids)
    ensures Seqs.IsSubsequence(TrashByUid(inbox, ids, accepted).failed, ids)
  {
    if ids == [] {
      Seqs.SubsequenceReflexive(ids);
    } else {
      var n := |ids| - 1;
      var p := TrashByUid(inbox, ids[..n], accepted[..n]);
      TrashByUidInOrder(inbox, ids[..n], accepted[..n]);
      assert ids == ids[..n] + [ids[n]];
      Seqs.SubsequenceSnoc(p.trashed, ids[..n], ids[n]);
      Seqs.SubsequenceSnoc(p.failed, ids[..n], ids[n]);
    }
  }


  /**
   * The corrected loop moves exactly the messages its moved ids name: a message
   * stays in the INBOX iff no moved id names its UID. Every moved id names a
   * message that was in the INBOX before.
   */
  lemma {:induction false} TrashByUidMovesNamed(inbox: seq<StoredMessage>, ids: seq<string>, accepted: seq<bool>)
    requires |accepted| == |ids|
    ensures var t := TrashByUid(inbox, ids, accepted);
      forall m :: m in t.inbox <==> m in inbox && m.uid !in Targets(t.trashed)
    ensures var t := TrashByUid(inbox, ids, accepted);
      forall u :: u in Targets(t.trashed) ==> u in Uids(inbox)
    ensures var t := TrashByUid(inbox, ids, accepted);
      |Targets(t.trashed)| == |t.trashed|
  {
    if ids != [] {
      var n := |ids| - 1;
      TrashByUidMovesNamed(inbox, ids[..n], accepted[..n]);
      var p := TrashByUid(inbox, ids[..n], accepted[..n]);
      var t := TrashByUid(inbox, ids, accepted);
      assert t == UidStep(p, ids[n], accepted[n]);
      match DecodeId(ids[n])
      case None =>
      case Some(u) =>
        if accepted[n] && u in Uids(p.inbox) {
          RemoveUidExact(p.inbox, u);
          assert t.trashed[..|t.trashed| - 1] == p.trashed;
          assert Targets(t.trashed) == Targets(p.trashed) + [u];
          var k :| 0 <= k < |p.inbox| && Uids(p.inbox)[k] == u;
          assert p.inbox[k] in inbox;
        }
    }
  }

  /** When nothing failed, no message named by any of the ids is left in the INBOX. */
  lemma TrashByUidSuccess(inbox: seq<StoredMessage>, ids: seq<string>, accepted: seq<bool>, m: StoredMessage)
    requires |accepted| == |ids|
    requires TrashByUid(inbox, ids, accepted).failed == []
    requires m.uid in Targets(ids)
    ensures m !in TrashByUid(inbox, ids, accepted).inbox
  {
    var t := TrashByUid(inbox, ids, accepted);
    TrashByUidAccounting(inbox, ids, accepted);
    assert multiset(t.trashed) == multiset(ids);
    assert t.trashed == ids by {
      FailedFreeIsAll(inbox, ids, accepted);
    }
    TrashByUidMovesNamed(inbox, ids, accepted);
  }

  /** With no failure, the moved ids are all the ids, in order. */
  lemma {:induction false} FailedFreeIsAll(inbox: seq<StoredMessage>, ids: seq<string>, accepted: seq<bool>)
    requires |accepted| == |ids|
    requires TrashByUid(inbox, ids, accepted).failed == []
    ensures TrashByUid(inbox, ids, accepted).trashed == ids
  {
    if ids != [] {
      var n := |ids| - 1;
      var p := TrashByUid(inbox, ids[..n], accepted[..n]);
      assert TrashByUid(inbox, ids, accepted) == UidStep(p, ids[n], accepted[n]);
      StepWithoutFailure(p, ids[n], accepted[n]);
      FailedFreeIsAll(inbox, ids[..n], accepted[..n]);
      Seqs.SplitLast(ids);
    }
  }

  /** A step after which nothing has failed moved its id and had no failure before. */
  lemma StepWithoutFailure(t: Tally<StoredMessage>, id: string, accepted: bool)
    requires UidStep(t, id, accepted).failed == []
    ensures t.failed == [] && UidStep(t, id, accepted).trashed == t.trashed + [id]
  {
    var r := UidStep(t, id, accepted);
    assert |r.failed| == 0;
  }

  // ------------------------------------------------------- the session manager

  /** The module-level session registry and the operations on it. */
  class SessionManager {
    var sessions: map<string, Session>
    /** How many connection objects have been created: the serial of the next one. */
    var created: nat

    constructor()
      ensures sessions == map[] && created == 0
    {
      sessions := map[];
      created := 0;
    }

    /** `isConnected`: a session exists for the address, whatever its `connected` flag. */
    predicate IsConnected(email: string)
      reads this
    {
      SessionId(email) in sessions
    }

    /** `disconnect`: the session under the address is ended and removed; without one, nothing happens. */
    method Disconnect(email: string)
      modifies this`sessions
      ensures sessions == old(sessions) - {SessionId(email)}
      ensures !IsConnected(email)
    {
      var key := SessionId(email);
      if key in sessions {
        sessions := sessions - {key};
      }
    }

    /**
     * `connect`: any existing session for the address is disconnected, then a
     * new connection is made; `handshake` is whether it became ready or the
     * error it raised.
     */
    method Connect(email: string, appPassword: string, handshake: Outcome<()>) returns (r: ConnectReply)
      modifies this
      ensures sessions == AfterConnect(old(sessions), old(created), email, appPassword, handshake)
      ensures created == old(created) + 1
      ensures r.success <==> handshake.Ok?
      ensures r.success <==> IsConnected(email)
      ensures handshake.Failure? ==> r.error == Some(handshake.message)
      ensures handshake.Ok? ==> r.error == None
    {
      var key := SessionId(email);
      if key in sessions {
        Disconnect(email);
      }
      var serial := created;
      created := created + 1;
      if handshake.Ok? {
        sessions := sessions[key := Session(serial, email, appPassword, true)];
        r := ConnectReply(true, None);
      } else {
        // The error handler looks the key up, but the session was removed above.
        r := ConnectReply(false, Some(handshake.message));
      }
    }

    /** The `end`, `close` and `error` events: the session now under the address is marked not connected. */
    method ConnectionLost(email: string)
      modifies this`sessions
      ensures var key := SessionId(email);
        sessions == if key in old(sessions) then old(sessions)[key := old(sessions)[key].(connected := false)] else old(sessions)
      ensures IsConnected(email) == old(IsConnected(email))
    {
      var key := SessionId(email);
      if key in sessions {
        sessions := sessions[key := sessions[key].(connected := false)];
      }
    }

    /**
     * `ensureConnected`: `authenticated` is whether the stored connection's
     * state is `authenticated`, `handshake` the outcome of a reconnection.
     */
    method EnsureConnected(email: string, authenticated: bool, handshake: Outcome<()>) returns (r: Outcome<nat>)
      modifies this
      ensures Ensured(r, sessions, created) == EnsureConnection(old(sessions), old(created), email, authenticated, handshake)
    {
      var key := SessionId(email);
      if key !in sessions {
        r := Failure(NoSession);
        return;
      }
      var session := sessions[key];
      if !session.connected || !authenticated {
        var result := Connect(email, session.appPassword, handshake);
        if !result.success {
          r := Failure(ReconnectionFailed + result.error.value);
          return;
        }
        // A successful connect always leaves a session under the key.
        r := Ok(sessions[key].connection);
        return;
      }
      r := Ok(session.connection);
    }

    /**
     * `fetchEmails` for a positive limit: `openBox` and `transfer` are the
     * outcomes of opening the INBOX and of the fetch, which an empty INBOX
     * does not make.
     */
    method FetchEmails(email: string, limit: int, authenticated: bool, handshake: Outcome<()>,
                       openBox: Outcome<()>, transfer: Outcome<()>, inbox: seq<StoredMessage>, time: string -> int)
      returns (r: Outcome<seq<Email>>)
      requires limit >= 1
      modifies this
      ensures var e := EnsureConnection(old(sessions), old(created), email, authenticated, handshake);
        && sessions == e.sessions && created == e.created
        && r == (if e.connection.Failure? then Failure(e.connection.message)
                 else if openBox.Failure? then Failure(OpenInboxFailed + openBox.message)
                 else if transfer.Failure? && inbox != [] then Failure(FetchFailed + transfer.message)
                 else Ok(Listing(inbox, limit, time)))
    {
      var connection := EnsureConnected(email, authenticated, handshake);
      if connection.Failure? {
        r := Failure(connection.message);
        return;
      }
      if openBox.Failure? {
        r := Failure(OpenInboxFailed + openBox.message);
        return;
      }
      var total := |inbox|;
      if total == 0 {
        r := Ok([]);
        return;
      }
      var emails := CollectFrom(inbox, FirstFetched(total, limit));
      if transfer.Failure? {
        r := Failure(FetchFailed + transfer.message);
        return;
      }
      r := Ok(SortDesc(emails, DateKey(time)));
    }

    /**
     * The fetch's `message` handler over sequence numbers start..total: each
     * message with a sender becomes an email, in INBOX order.
     */
    static method CollectFrom(inbox: seq<StoredMessage>, start: int) returns (emails: seq<Email>)
      requires 1 <= start <= |inbox|
      ensures emails == Kept(inbox[start - 1..])
    {
      var total := |inbox|;
      emails := [];
      var n := start;
      while n <= total
        invariant start <= n <= total + 1
        invariant emails == Kept(inbox[start - 1..n - 1])
      {
        var m := inbox[n - 1];
        assert inbox[start - 1..n] == inbox[start - 1..n - 1] + [m];
        if m.parsed.senderEmail != "" {
          emails := emails + [Labelled(m)];
        }
        n := n + 1;
      }
      assert inbox[start - 1..n - 1] == inbox[start - 1..];
    }

    /**
     * `trashEmails`: after the connection and the INBOX are ready, every id is
     * tried in order and a failure never stops the rest; `accepted[i]` is the
     * server's answer to the i-th MOVE. Returns the reply and the INBOX after.
     */
    method TrashEmails(email: string, messageIds: seq<string>, authenticated: bool, handshake: Outcome<()>,
                       openBox: Outcome<()>, inbox: seq<StoredMessage>, accepted: seq<bool>)
      returns (r: Outcome<TrashReply>, after: seq<StoredMessage>)
      requires |accepted| == |messageIds|
      modifies this
      ensures var e := EnsureConnection(old(sessions), old(created), email, authenticated, handshake);
        && sessions == e.sessions && created == e.created
        && (e.connection.Failure? ==> r == Failure(e.connection.message) && after == inbox)
        && (e.connection.Ok? && openBox.Failure? ==> r == Failure(OpenInboxFailed + openBox.message) && after == inbox)
        && (e.connection.Ok? && openBox.Ok? ==>
              var t := TrashByUid(inbox, messageIds, accepted);
              r == Ok(ReplyOf(t)) && after == t.inbox)
    {
      after := inbox;
      var connection := EnsureConnected(email, authenticated, handshake);
      if connection.Failure? {
        r := Failure(connection.message);
        return;
      }
      if openBox.Failure? {
        r := Failure(OpenInboxFailed + openBox.message);
        return;
      }
      var t := MoveToTrash(inbox, messageIds, accepted);
      r := Ok(TrashReply(|t.failed| == 0, |t.trashed|, t.failed));
      after := t.inbox;
    }

    /** The loop of `trashEmails`, one MOVE by UID per id. */
    static method MoveToTrash(inbox: seq<StoredMessage>, messageIds: seq<string>, accepted: seq<bool>)
      returns (t: Tally<StoredMessage>)
      requires |accepted| == |messageIds|
      ensures t == TrashByUid(inbox, messageIds, accepted)
    {
      var current := inbox;
      var trashedIds: seq<string> := [];
      var failedIds: seq<string> := [];
      for i := 0 to |messageIds|
        invariant Tally(current, trashedIds, failedIds) == TrashByUid(inbox, messageIds[..i], accepted[..i])
      {
        var msgId := messageIds[i];
        assert messageIds[..i + 1][..i] == messageIds[..i];
        assert accepted[..i + 1][..i] == accepted[..i];
        var number := DecodeId(msgId);
        if number.None? {
          failedIds := failedIds + [msgId];
          continue;
        }
        if accepted[i] && number.value in Uids(current) {
          current := RemoveUid(current, number.value);
          trashedIds := trashedIds + [msgId];
        } else {
          failedIds := failedIds + [msgId];
        }
      }
      assert messageIds[..|messageIds|] == messageIds;
      assert accepted[..|accepted|] == accepted;
      t := Tally(current, trashedIds, failedIds);
    }
  }

  /** After connect succeeds for an address, the session is there under any spelling of it, and disconnect removes it. */
  lemma ConnectIgnoresCase(sessions: map<string, Session>, serial: nat, a: string, b: string, appPassword: string)
    requires Lower(a) == Lower(b)
    ensures SessionId(b) in AfterConnect(sessions, serial, a, appPassword, Ok(()))
    ensures SessionId(a) !in AfterConnect(sessions, serial, a, appPassword, Ok(())) - {SessionId(b)}
  {
    SessionIdIgnoresCase(a, b);
  }
}
