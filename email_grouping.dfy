/**
 * Sender grouping (utils/emailGrouping.ts): the grouping of a mailbox listing
 * by sender address, the list views over the groups (sort and search), and the
 * recomputation of the groups after emails were moved to the trash.
 *
 * Dates are compared as strings with `<` and `>`, as the source does.
 */
module Grouping {
  import opened Text
  import opened Model
  import opened Seqs
  import opened Sorting

  /** The grouping key: the sender address, lower-cased. */
  function KeyOf(e: Email): string
  {
    Lower(e.senderEmail)
  }

  function GroupKey(g: SenderGroup): string
  {
    Lower(g.senderEmail)
  }

  function CountKey(g: SenderGroup): int
  {
    g.emailCount
  }

  function Count(g: SenderGroup): nat
  {
    g.emailCount
  }

  // ---------------------------------------------------------------- dates

  /** One step of the oldest-date reduction: the new date replaces the current one when it is smaller. */
  function EarlierDate(current: string, d: string): string
  {
    if Less(d, current) then d else current
  }

  /** One step of the newest-date reduction: the new date replaces the current one when it is greater. */
  function LaterDate(current: string, d: string): string
  {
    if Less(current, d) then d else current
  }

  /** The oldest-date reduction over es, from the date `start`. */
  function FoldOldest(start: string, es: seq<Email>): (r: string)
    ensures r == start || exists i :: 0 <= i < |es| && es[i].date == r
    ensures !Less(start, r)
    ensures forall i :: 0 <= i < |es| ==> !Less(es[i].date, r)
  {
    if es == [] then
      LessIrreflexive(start);
      start
    else
      var p := FoldOldest(start, es[..|es| - 1]);
      var d := es[|es| - 1].date;
      assert forall i :: 0 <= i < |es| - 1 ==> es[i] == es[..|es| - 1][i];
      if Less(d, p) then
        LessIrreflexive(d);
        LessAsymmetric(d, p);
        assert !Less(start, d) by {
          if Less(start, d) { LessTransitive(start, d, p); }
        }
        assert forall i :: 0 <= i < |es| - 1 ==> !Less(es[i].date, d) by {
          forall i | 0 <= i < |es| - 1
            ensures !Less(es[i].date, d)
          {
            if Less(es[i].date, d) { LessTransitive(es[i].date, d, p); }
          }
        }
        d
      else
        p
  }

  /** The newest-date reduction over es, from the date `start`. */
  function FoldNewest(start: string, es: seq<Email>): (r: string)
    ensures r == start || exists i :: 0 <= i < |es| && es[i].date == r
    ensures !Less(r, start)
    ensures forall i :: 0 <= i < |es| ==> !Less(r, es[i].date)
  {
    if es == [] then
      LessIrreflexive(start);
      start
    else
      var p := FoldNewest(start, es[..|es| - 1]);
      var d := es[|es| - 1].date;
      assert forall i :: 0 <= i < |es| - 1 ==> es[i] == es[..|es| - 1][i];
      if Less(p, d) then
        LessIrreflexive(d);
        LessAsymmetric(p, d);
        assert !Less(d, start) by {
          if Less(d, start) { LessTransitive(p, d, start); }
        }
        assert forall i :: 0 <= i < |es| - 1 ==> !Less(d, es[i].date) by {
          forall i | 0 <= i < |es| - 1
            ensures !Less(d, es[i].date)
          {
            if Less(d, es[i].date) { LessTransitive(p, d, es[i].date); }
          }
        }
        d
      else
        p
  }

  /** The smallest date of a non-empty list: a date of one of its emails, and no date is below it. */
  function OldestDate(es: seq<Email>): (r: string)
    requires es != []
    ensures exists i :: 0 <= i < |es| && es[i].date == r
    ensures forall i :: 0 <= i < |es| ==> !Less(es[i].date, r)
  {
    FoldOldest(es[0].date, es)
  }

  /** The greatest date of a non-empty list: a date of one of its emails, and no date is above it. */
  function NewestDate(es: seq<Email>): (r: string)
    requires es != []
    ensures exists i :: 0 <= i < |es| && es[i].date == r
    ensures forall i :: 0 <= i < |es| ==> !Less(r, es[i].date)
  {
    FoldNewest(es[0].date, es)
  }

  /** Dates are totally ordered, so the oldest date is at or below every date of the list. */
  lemma OldestDateAtMost(es: seq<Email>)
    requires es != []
    ensures forall i :: 0 <= i < |es| ==> es[i].date == OldestDate(es) || Less(OldestDate(es), es[i].date)
  {
    forall i | 0 <= i < |es|
      ensures es[i].date == OldestDate(es) || Less(OldestDate(es), es[i].date)
    {
      LessTotal(es[i].date, OldestDate(es));
    }
  }

  /** Dates are totally ordered, so the newest date is at or above every date of the list. */
  lemma NewestDateAtLeast(es: seq<Email>)
    requires es != []
    ensures forall i :: 0 <= i < |es| ==> es[i].date == NewestDate(es) || Less(es[i].date, NewestDate(es))
  {
    forall i | 0 <= i < |es|
      ensures es[i].date == NewestDate(es) || Less(es[i].date, NewestDate(es))
    {
      LessTotal(es[i].date, NewestDate(es));
    }
  }

  /** The number of unread emails. */
  function CountUnread(es: seq<Email>): (n: nat)
    ensures n <= |es|
  {
    if es == [] then 0
    else CountUnread(es[..|es| - 1]) + (if !es[|es| - 1].isRead then 1 else 0)
  }

  lemma {:induction false} FoldSnoc(start: string, es: seq<Email>, e: Email)
    ensures FoldOldest(start, es + [e]) == EarlierDate(FoldOldest(start, es), e.date)
    ensures FoldNewest(start, es + [e]) == LaterDate(FoldNewest(start, es), e.date)
    ensures CountUnread(es + [e]) == CountUnread(es) + (if !e.isRead then 1 else 0)
  {
    assert (es + [e])[..|es|] == es;
  }

  // ------------------------------------------------------- group contents

  /** Every figure of the group agrees with its list of emails. */
  predicate Consistent(g: SenderGroup)
  {
    && g.emails != []
    && g.emailCount == |g.emails|
    && g.unreadCount == CountUnread(g.emails)
    && g.oldestDate == OldestDate(g.emails)
    && g.newestDate == NewestDate(g.emails)
  }

  /** The emails of es whose grouping key is k, in their order in es. */
  function KeyMembers(es: seq<Email>, k: string): (r: seq<Email>)
    ensures |r| <= |es|
  {
    if es == [] then []
    else KeyMembers(es[..|es| - 1], k) + (if KeyOf(es[|es| - 1]) == k then [es[|es| - 1]] else [])
  }

  /** Some email of es has the key k. */
  predicate KeyOccurs(es: seq<Email>, k: string)
  {
    exists i :: 0 <= i < |es| && KeyOf(es[i]) == k
  }

  /** KeyMembers(es, k) holds the emails of es with key k, and only those. */
  lemma {:induction false} KeyMembersExact(es: seq<Email>, k: string)
    ensures forall e :: e in KeyMembers(es, k) ==> e in es && KeyOf(e) == k
    ensures forall i :: 0 <= i < |es| && KeyOf(es[i]) == k ==> es[i] in KeyMembers(es, k)
    ensures KeyOccurs(es, k) <==> KeyMembers(es, k) != []
  {
    if es != [] {
      var p := es[..|es| - 1];
      KeyMembersExact(p, k);
      assert forall i :: 0 <= i < |es| - 1 ==> es[i] == p[i];
      if KeyMembers(es, k) != [] {
        var m := KeyMembers(es, k)[0];
        assert m in KeyMembers(es, k);
      }
    }
  }

  /** The position of the first email of es whose key is k. */
  function FirstIndex(es: seq<Email>, k: string): (i: nat)
    requires KeyOccurs(es, k)
    ensures i < |es| && KeyOf(es[i]) == k
  {
    if KeyOf(es[0]) == k then 0
    else
      var j :| 0 <= j < |es| && KeyOf(es[j]) == k;
      assert es[1..][j - 1] == es[j];
      1 + FirstIndex(es[1..], k)
  }

  /**
   * The distinct keys of es in the order of their first occurrence: the
   * iteration order of a `Map` filled in the order of es.
   */
  function DistinctKeys(es: seq<Email>): (r: seq<string>)
    ensures forall a, b :: 0 <= a < b < |r| ==> r[a] != r[b]
    ensures forall i :: 0 <= i < |es| ==> KeyOf(es[i]) in r
    ensures forall j :: 0 <= j < |r| ==> KeyOccurs(es, r[j])
  {
    if es == [] then []
    else
      var p := es[..|es| - 1];
      var r := DistinctKeys(p);
      assert forall i :: 0 <= i < |es| - 1 ==> es[i] == p[i];
      if KeyOf(es[|es| - 1]) in r then r else r + [KeyOf(es[|es| - 1])]
  }

  /** The keys of d are listed in the order in which they first occur in es. */
  ghost predicate InFirstOccurrenceOrder(es: seq<Email>, d: seq<string>)
    requires forall j :: 0 <= j < |d| ==> KeyOccurs(es, d[j])
  {
    forall a, b :: 0 <= a < b < |d| ==> FirstIndex(es, d[a]) < FirstIndex(es, d[b])
  }

  /** The keys are listed in the order in which they first occur in the listing. */
  lemma {:induction false} DistinctKeysFirstOccurrence(es: seq<Email>)
    ensures forall a, b :: 0 <= a < b < |DistinctKeys(es)| ==> FirstIndex(es, DistinctKeys(es)[a]) < FirstIndex(es, DistinctKeys(es)[b])
  {
    if es != [] {
      var p := es[..|es| - 1];
      DistinctKeysFirstOccurrence(p);
      if KeyOf(es[|es| - 1]) in DistinctKeys(p) {
        FirstOccurrenceKnownKey(es, DistinctKeys(p));
      } else {
        FirstOccurrenceNewKey(es, DistinctKeys(p));
      }
      assert InFirstOccurrenceOrder(es, DistinctKeys(es));
    }
  }

  lemma FirstOccurrenceKnownKey(es: seq<Email>, r: seq<string>)
    requires es != [] && r == DistinctKeys(es[..|es| - 1]) && KeyOf(es[|es| - 1]) in r
    requires InFirstOccurrenceOrder(es[..|es| - 1], r)
    ensures InFirstOccurrenceOrder(es, DistinctKeys(es))
  {
    assert DistinctKeys(es) == r;
    PrefixKeysKeepFirstIndex(es, r);
    PrefixOrderKept(es, r);
  }

  lemma FirstOccurrenceNewKey(es: seq<Email>, r: seq<string>)
    requires es != [] && r == DistinctKeys(es[..|es| - 1]) && KeyOf(es[|es| - 1]) !in r
    requires InFirstOccurrenceOrder(es[..|es| - 1], r)
    ensures InFirstOccurrenceOrder(es, DistinctKeys(es))
  {
    var p := es[..|es| - 1];
    var k := KeyOf(es[|es| - 1]);
    assert DistinctKeys(es) == r + [k];
    PrefixKeysKeepFirstIndex(es, r);
    PrefixOrderKept(es, r);
    forall j | 0 <= j < |p|
      ensures KeyOf(es[j]) in r
    {
      assert es[j] == p[j];
    }
    NewKeyFirstIndex(es, r);
    AppendKeyKeepsOrder(es, r, k);
  }

  /** The order of first occurrences in a prefix survives appending an email. */
  lemma PrefixOrderKept(es: seq<Email>, r: seq<string>)
    requires es != [] && forall j :: 0 <= j < |r| ==> KeyOccurs(es[..|es| - 1], r[j])
    requires forall j :: 0 <= j < |r| ==> KeyOccurs(es, r[j]) && FirstIndex(es, r[j]) == FirstIndex(es[..|es| - 1], r[j])
    requires InFirstOccurrenceOrder(es[..|es| - 1], r)
    ensures InFirstOccurrenceOrder(es, r)
  {
    var p := es[..|es| - 1];
    forall a, b | 0 <= a < b < |r|
      ensures FirstIndex(es, r[a]) < FirstIndex(es, r[b])
    {
      assert FirstIndex(p, r[a]) < FirstIndex(p, r[b]);
    }
  }

  /** A key occurring first after every key of r may follow them. */
  lemma AppendKeyKeepsOrder(es: seq<Email>, r: seq<string>, k: string)
    requires forall j :: 0 <= j < |r| ==> KeyOccurs(es, r[j])
    requires KeyOccurs(es, k) && InFirstOccurrenceOrder(es, r)
    requires forall j :: 0 <= j < |r| ==> FirstIndex(es, r[j]) < FirstIndex(es, k)
    ensures InFirstOccurrenceOrder(es, r + [k])
  {
    var d := r + [k];
    forall a, b | 0 <= a < b < |d|
      ensures FirstIndex(es, d[a]) < FirstIndex(es, d[b])
    {
      assert d[a] == r[a];
      if b < |r| {
        assert d[b] == r[b];
      }
    }
  }

  /** Appending an email moves the first occurrence of none of the earlier keys. */
  lemma PrefixKeysKeepFirstIndex(es: seq<Email>, r: seq<string>)
    requires es != [] && forall j :: 0 <= j < |r| ==> KeyOccurs(es[..|es| - 1], r[j])
    ensures forall j :: 0 <= j < |r| ==> KeyOccurs(es, r[j]) && FirstIndex(es, r[j]) == FirstIndex(es[..|es| - 1], r[j]) < |es| - 1
  {
    forall j | 0 <= j < |r|
      ensures KeyOccurs(es, r[j]) && FirstIndex(es, r[j]) == FirstIndex(es[..|es| - 1], r[j]) < |es| - 1
    {
      FirstIndexInPrefix(es, r[j]);
    }
  }

  /** A key that first appears in the last email has its first occurrence there. */
  lemma NewKeyFirstIndex(es: seq<Email>, r: seq<string>)
    requires es != [] && KeyOf(es[|es| - 1]) !in r
    requires forall j :: 0 <= j < |es| - 1 ==> KeyOf(es[j]) in r
    ensures KeyOccurs(es, KeyOf(es[|es| - 1])) && FirstIndex(es, KeyOf(es[|es| - 1])) == |es| - 1
  {
    var k := KeyOf(es[|es| - 1]);
    forall j | 0 <= j < |es| - 1
      ensures KeyOf(es[j]) != k
    {
      assert KeyOf(es[j]) in r;
    }
    FirstIndexIs(es, k, |es| - 1);
  }

  /** No email before FirstIndex(es, k) has key k. */
  lemma {:induction false} FirstIndexIsFirst(es: seq<Email>, k: string)
    requires KeyOccurs(es, k)
    ensures forall j :: 0 <= j < FirstIndex(es, k) ==> KeyOf(es[j]) != k
  {
    if KeyOf(es[0]) != k {
      var j :| 0 <= j < |es| && KeyOf(es[j]) == k;
      assert es[1..][j - 1] == es[j];
      FirstIndexIsFirst(es[1..], k);
      forall j | 1 <= j < FirstIndex(es, k)
        ensures KeyOf(es[j]) != k
      {
        assert es[j] == es[1..][j - 1];
      }
    }
  }

  /** FirstIndex is the one position holding k with no k before it. */
  lemma FirstIndexIs(es: seq<Email>, k: string, i: nat)
    requires i < |es| && KeyOf(es[i]) == k
    requires forall j :: 0 <= j < i ==> KeyOf(es[j]) != k
    ensures KeyOccurs(es, k) && FirstIndex(es, k) == i
  {
    assert KeyOf(es[i]) == k;
    FirstIndexIsFirst(es, k);
  }

  /** Appending an email does not move the first occurrence of a key already present. */
  lemma FirstIndexInPrefix(es: seq<Email>, k: string)
    requires es != [] && KeyOccurs(es[..|es| - 1], k)
    ensures KeyOccurs(es, k) && FirstIndex(es, k) == FirstIndex(es[..|es| - 1], k)
  {
    var p := es[..|es| - 1];
    var f := FirstIndex(p, k);
    FirstIndexIsFirst(p, k);
    forall j | 0 <= j < f
      ensures KeyOf(es[j]) != k
    {
      assert es[j] == p[j];
    }
    assert es[f] == p[f];
    FirstIndexIs(es, k, f);
  }

  /**
   * The group the source builds for key k: its emails are all the emails of
   * that key in listing order, the header comes from the first of them.
   */
  function GroupFor(es: seq<Email>, k: string): SenderGroup
    requires KeyOccurs(es, k)
  {
    KeyMembersExact(es, k);
    GroupOfMembers(KeyMembers(es, k))
  }

  function GroupOfMembers(members: seq<Email>): SenderGroup
    requires members != []
  {
    SenderGroup(
      members[0].senderEmail, members[0].sender, |members|, members,
      CountUnread(members), OldestDate(members), NewestDate(members), None)
  }

  /** g is the group of its key over the listing es. */
  predicate IsGroupOf(es: seq<Email>, g: SenderGroup)
  {
    && g.emails == KeyMembers(es, GroupKey(g))
    && Consistent(g)
    && g.senderEmail == g.emails[0].senderEmail
    && g.senderName == g.emails[0].sender
    && g.analysis == None
  }

  lemma GroupForIsGroupOf(es: seq<Email>, k: string)
    requires KeyOccurs(es, k)
    ensures GroupKey(GroupFor(es, k)) == k
    ensures IsGroupOf(es, GroupFor(es, k))
  {
    KeyMembersExact(es, k);
    assert KeyMembers(es, k)[0] in KeyMembers(es, k);
  }

  // ------------------------------------------------ the grouping reduction

  /** A new group for the first email of a sender: no email counted yet, both dates that email's. */
  function NewGroup(e: Email): SenderGroup
  {
    SenderGroup(e.senderEmail, e.sender, 0, [], 0, e.date, e.date, None)
  }

  /** One email appended to its group, with count, unread count and date range updated. */
  function AddEmail(g: SenderGroup, e: Email): SenderGroup
  {
    g.(emails := g.emails + [e],
       emailCount := g.emailCount + 1,
       unreadCount := if !e.isRead then g.unreadCount + 1 else g.unreadCount,
       oldestDate := EarlierDate(g.oldestDate, e.date),
       newestDate := LaterDate(g.newestDate, e.date))
  }

  /** The position of the group with key k, or |gs| when there is none. */
  function FindKey(gs: seq<SenderGroup>, k: string): (i: nat)
    ensures i <= |gs|
    ensures i < |gs| ==> GroupKey(gs[i]) == k
    ensures forall j :: 0 <= j < i ==> GroupKey(gs[j]) != k
  {
    if gs == [] then 0
    else if GroupKey(gs[0]) == k then 0
    else 1 + FindKey(gs[1..], k)
  }

  /** One iteration of the grouping loop over the groups in `Map` order. */
  function Insert(gs: seq<SenderGroup>, e: Email): seq<SenderGroup>
  {
    var i := FindKey(gs, KeyOf(e));
    if i == |gs| then gs + [AddEmail(NewGroup(e), e)]
    else gs[i := AddEmail(gs[i], e)]
  }

  /** The groups after the grouping loop has visited every email of es, in `Map` order. */
  function Accumulate(es: seq<Email>): seq<SenderGroup>
  {
    if es == [] then [] else Insert(Accumulate(es[..|es| - 1]), es[|es| - 1])
  }

  /** The value of `groupEmailsBySender`: the groups, most emails first, stably. */
  function Grouped(es: seq<Email>): seq<SenderGroup>
  {
    SortDesc(Accumulate(es), CountKey)
  }

  lemma {:induction false} KeyMembersSnoc(es: seq<Email>, k: string)
    requires es != []
    ensures KeyOf(es[|es| - 1]) == k ==> KeyMembers(es, k) == KeyMembers(es[..|es| - 1], k) + [es[|es| - 1]]
    ensures KeyOf(es[|es| - 1]) != k ==> KeyMembers(es, k) == KeyMembers(es[..|es| - 1], k)
  {
    assert KeyMembers(es[..|es| - 1], k) + [] == KeyMembers(es[..|es| - 1], k);
  }

  /** Adding the next email of a sender to the group built so far gives the group over the longer list. */
  lemma {:induction false} AddEmailToMembers(m: seq<Email>, e: Email)
    requires m != []
    ensures AddEmail(GroupOfMembers(m), e) == GroupOfMembers(m + [e])
  {
    FoldSnoc(m[0].date, m, e);
    assert (m + [e])[0] == m[0];
  }

  /** The first email of a sender makes the group that NewGroup followed by AddEmail builds. */
  lemma {:induction false} AddEmailToNew(e: Email)
    ensures AddEmail(NewGroup(e), e) == GroupOfMembers([e])
  {
    FoldSnoc(e.date, [], e);
    assert [] + [e] == [e];
    LessIrreflexive(e.date);
  }

  /** An email of another sender leaves the group of k as it was. */
  lemma {:induction false} GroupForOtherKey(p: seq<Email>, e: Email, k: string)
    requires KeyOccurs(p, k) && KeyOf(e) != k
    ensures KeyOccurs(p + [e], k)
    ensures GroupFor(p + [e], k) == GroupFor(p, k)
  {
    var es := p + [e];
    assert es[..|es| - 1] == p;
    assert forall i :: 0 <= i < |p| ==> es[i] == p[i];
    KeyMembersSnoc(es, k);
  }

  /** The groups built from es are one per distinct key, each the group of its key. */
  predicate MatchesReference(es: seq<Email>)
  {
    && |Accumulate(es)| == |DistinctKeys(es)|
    && forall j :: 0 <= j < |Accumulate(es)| ==> Accumulate(es)[j] == GroupFor(es, DistinctKeys(es)[j])
  }

  /** The loop step for an email whose sender already has a group. */
  lemma {:induction false} AccumulateStepKnown(p: seq<Email>, e: Email, j0: nat)
    requires MatchesReference(p)
    requires j0 < |DistinctKeys(p)| && DistinctKeys(p)[j0] == KeyOf(e)
    ensures MatchesReference(p + [e])
  {
    var es := p + [e];
    assert es[..|es| - 1] == p;
    var k := KeyOf(e);
    var acc := Accumulate(p);
    var dk := DistinctKeys(p);
    KnownKeyPosition(p, e, j0);
    var out := acc[j0 := AddEmail(acc[j0], e)];
    assert Accumulate(es) == out by {
      AccumulateSnoc(p, e);
    }
    assert DistinctKeys(es) == dk;
    KnownKeyGroup(p, e);
    forall j | 0 <= j < |out|
      ensures out[j] == GroupFor(es, dk[j])
    {
      if j != j0 {
        OtherGroupKept(p, e, j0, j);
      }
    }
  }

  /** The group of another sender is the same over the longer list. */
  lemma OtherGroupKept(p: seq<Email>, e: Email, j0: nat, j: nat)
    requires j0 < |DistinctKeys(p)| && DistinctKeys(p)[j0] == KeyOf(e)
    requires j < |DistinctKeys(p)| && j != j0
    ensures KeyOccurs(p + [e], DistinctKeys(p)[j])
    ensures GroupFor(p + [e], DistinctKeys(p)[j]) == GroupFor(p, DistinctKeys(p)[j])
  {
    GroupForOtherKey(p, e, DistinctKeys(p)[j]);
  }



  lemma AccumulateSnoc(p: seq<Email>, e: Email)
    ensures Accumulate(p + [e]) == Insert(Accumulate(p), e)
  {
    assert (p + [e])[..|p|] == p;
  }

  /** The group of a known sender sits where its key sits among the distinct keys. */
  lemma KnownKeyPosition(p: seq<Email>, e: Email, j0: nat)
    requires MatchesReference(p)
    requires j0 < |DistinctKeys(p)| && DistinctKeys(p)[j0] == KeyOf(e)
    ensures FindKey(Accumulate(p), KeyOf(e)) == j0
  {
    var acc := Accumulate(p);
    var dk := DistinctKeys(p);
    forall j | 0 <= j < |acc|
      ensures GroupKey(acc[j]) == dk[j]
    {
      GroupKeyOfReference(p, dk[j]);
    }
    FindKeyAt(acc, dk, j0);
  }

  /** In groups whose keys are distinct, the search for the key at j0 stops at j0. */
  lemma FindKeyAt(gs: seq<SenderGroup>, keys: seq<string>, j0: nat)
    requires |gs| == |keys| && j0 < |keys|
    requires forall j :: 0 <= j < |gs| ==> GroupKey(gs[j]) == keys[j]
    requires forall a, b :: 0 <= a < b < |keys| ==> keys[a] != keys[b]
    ensures FindKey(gs, keys[j0]) == j0
  {
    assert GroupKey(gs[j0]) == keys[j0];
  }


  /** The reference group of a key carries that key. */
  lemma GroupKeyOfReference(es: seq<Email>, k: string)
    requires KeyOccurs(es, k)
    ensures GroupKey(GroupFor(es, k)) == k
  {
    KeyMembersExact(es, k);
    assert KeyMembers(es, k)[0] in KeyMembers(es, k);
  }


  /** Adding an email to its sender's group gives that sender's group over the longer list. */
  lemma KnownKeyGroup(p: seq<Email>, e: Email)
    requires KeyOccurs(p, KeyOf(e))
    ensures KeyOccurs(p + [e], KeyOf(e))
    ensures AddEmail(GroupFor(p, KeyOf(e)), e) == GroupFor(p + [e], KeyOf(e))
  {
    var es := p + [e];
    assert es[..|es| - 1] == p;
    assert es[|es| - 1] == e;
    KeyMembersSnoc(es, KeyOf(e));
    KeyMembersExact(p, KeyOf(e));
    AddEmailToMembers(KeyMembers(p, KeyOf(e)), e);
  }

  /** The loop step for the first email of a sender. */
  lemma {:induction false} AccumulateStepNew(p: seq<Email>, e: Email)
    requires MatchesReference(p)
    requires KeyOf(e) !in DistinctKeys(p)
    ensures MatchesReference(p + [e])
  {
    var es := p + [e];
    assert es[..|es| - 1] == p;
    var k := KeyOf(e);
    var acc := Accumulate(p);
    var dk := DistinctKeys(p);
    forall j | 0 <= j < |acc|
      ensures GroupKey(acc[j]) == dk[j]
    {
      GroupForIsGroupOf(p, dk[j]);
    }
    assert FindKey(acc, k) == |acc|;
    var out := acc + [AddEmail(NewGroup(e), e)];
    assert Accumulate(es) == out;
    assert DistinctKeys(es) == dk + [k];
    KeyMembersExact(p, k);
    assert KeyMembers(p, k) == [];
    forall j | 0 <= j < |out|
      ensures out[j] == GroupFor(es, (dk + [k])[j])
    {
      KeyMembersSnoc(es, (dk + [k])[j]);
      if j == |acc| {
        assert KeyMembers(es, k) == [e];
        AddEmailToNew(e);
      }
    }
  }

  /**
   * The grouping loop builds exactly one group per distinct key, in order of
   * first occurrence, and each is the group of its key over the whole listing.
   */
  lemma {:induction false} AccumulateIsReference(es: seq<Email>)
    ensures |Accumulate(es)| == |DistinctKeys(es)|
    ensures forall j :: 0 <= j < |Accumulate(es)| ==> Accumulate(es)[j] == GroupFor(es, DistinctKeys(es)[j])
  {
    if es != [] {
      var p := es[..|es| - 1];
      var e := es[|es| - 1];
      assert es == p + [e];
      AccumulateIsReference(p);
      if KeyOf(e) in DistinctKeys(p) {
        var j0 :| 0 <= j0 < |DistinctKeys(p)| && DistinctKeys(p)[j0] == KeyOf(e);
        AccumulateStepKnown(p, e, j0);
      } else {
        AccumulateStepNew(p, e);
      }
    }
  }

  /** The number of emails over all groups is the number of emails of the listing. */
  lemma {:induction false} AccumulateSum(es: seq<Email>)
    ensures SumBy(Accumulate(es), Count) == |es|
  {
    if es != [] {
      var acc := Accumulate(es[..|es| - 1]);
      var e := es[|es| - 1];
      AccumulateSum(es[..|es| - 1]);
      var i := FindKey(acc, KeyOf(e));
      if i == |acc| {
        SumByAppend(acc, AddEmail(NewGroup(e), e), Count);
      } else {
        SumByUpdate(acc, i, AddEmail(acc[i], e), Count);
      }
    }
  }

  /**
   * What `groupEmailsBySender` promises: one group per sender address (compared
   * without case), each holding exactly that sender's emails in listing order
   * with its figures computed from them, every email in one group, and the
   * groups ordered by email count, greatest first.
   */
  lemma GroupingCorrect(es: seq<Email>)
    ensures forall g :: g in Grouped(es) ==> IsGroupOf(es, g)
    ensures DistinctBy(Grouped(es), GroupKey)
    ensures forall i :: 0 <= i < |es| ==> exists j :: 0 <= j < |Grouped(es)| && GroupKey(Grouped(es)[j]) == KeyOf(es[i])
    ensures SortedDesc(Grouped(es), CountKey)
    ensures SumBy(Grouped(es), Count) == |es|
  {
    var acc := Accumulate(es);
    var out := Grouped(es);
    var dk := DistinctKeys(es);
    AccumulateIsReference(es);
    forall j | 0 <= j < |acc| ensures GroupKey(acc[j]) == dk[j] && IsGroupOf(es, acc[j]) {
      GroupForIsGroupOf(es, dk[j]);
    }
    forall g | g in out ensures IsGroupOf(es, g) {
      assert g in multiset(out);
      assert g in acc;
    }
    SortDescDistinct(acc, CountKey, GroupKey);
    forall i | 0 <= i < |es|
      ensures exists j :: 0 <= j < |out| && GroupKey(out[j]) == KeyOf(es[i])
    {
      var a :| 0 <= a < |dk| && dk[a] == KeyOf(es[i]);
      assert acc[a] in multiset(out);
      var j :| 0 <= j < |out| && out[j] == acc[a];
    }
    SortDescSorted(acc, CountKey);
    AccumulateSum(es);
    SortDescSum(acc, CountKey, Count);
  }

  /** Every group produced by the grouping has figures that agree with its emails. */
  lemma GroupedConsistent(es: seq<Email>)
    ensures forall i :: 0 <= i < |Grouped(es)| ==> Consistent(Grouped(es)[i])
  {
    GroupingCorrect(es);
    assert forall i :: 0 <= i < |Grouped(es)| ==> Grouped(es)[i] in Grouped(es);
  }

  /**
   * Groups with the same email count keep the order of the loop, which is the
   * order in which their senders first appear in the listing.
   */
  lemma GroupingStable(es: seq<Email>, c: int)
    ensures KeyRun(Grouped(es), CountKey, c) == KeyRun(Accumulate(es), CountKey, c)
    ensures |Accumulate(es)| == |DistinctKeys(es)|
    ensures forall j :: 0 <= j < |Accumulate(es)| ==> GroupKey(Accumulate(es)[j]) == DistinctKeys(es)[j]
  {
    SortDescStable(Accumulate(es), CountKey, c);
    AccumulateIsReference(es);
    forall j | 0 <= j < |Accumulate(es)| ensures GroupKey(Accumulate(es)[j]) == DistinctKeys(es)[j] {
      GroupForIsGroupOf(es, DistinctKeys(es)[j]);
    }
  }

  /**
   * `groupEmailsBySender`: one pass over the listing that fills a `Map` from
   * lower-cased sender address to group (insertion-ordered), then the map's
   * values sorted by email count, greatest first.
   */
  method GroupEmailsBySender(emails: seq<Email>) returns (groups: seq<SenderGroup>)
    ensures groups == Grouped(emails)
  {
    var groupMap: map<string, SenderGroup> := map[];
    var order: seq<string> := [];
    ghost var acc: seq<SenderGroup> := [];
    for i := 0 to |emails|
      invariant acc == Accumulate(emails[..i])
      invariant Tracks(groupMap, order, acc)
    {
      assert emails[..i + 1][..i] == emails[..i];
      groupMap, order := Visit(groupMap, order, acc, emails[i]);
      acc := Insert(acc, emails[i]);
    }
    assert emails[..|emails|] == emails;
    var values := seq(|order|, j requires 0 <= j < |order| => groupMap[order[j]]);
    assert values == acc;
    groups := SortDesc(values, CountKey);
  }

  /**
   * The `Map` of the grouping loop, read in insertion order `order`, holds the
   * groups `acc`: one key per group, each key once.
   */
  ghost predicate Tracks(groupMap: map<string, SenderGroup>, order: seq<string>, acc: seq<SenderGroup>)
  {
    && |order| == |acc|
    && (forall j :: 0 <= j < |order| ==> order[j] in groupMap && groupMap[order[j]] == acc[j])
    && (forall j :: 0 <= j < |acc| ==> GroupKey(acc[j]) == order[j])
    && (forall key :: key in groupMap ==> key in order)
    && (forall j, k :: 0 <= j < k < |order| ==> order[j] != order[k])
  }

  /** The body of the grouping loop: a new sender gets a fresh group, then the email is added to its group. */
  method Visit(groupMap: map<string, SenderGroup>, order: seq<string>, ghost acc: seq<SenderGroup>, email: Email)
    returns (groupMap': map<string, SenderGroup>, order': seq<string>)
    requires Tracks(groupMap, order, acc)
    ensures Tracks(groupMap', order', Insert(acc, email))
  {
    var key := Lower(email.senderEmail);
    var group;
    if key !in groupMap {
      group := NewGroup(email);
      order' := order + [key];
      TracksNewKey(groupMap, order, acc, email);
    } else {
      group := groupMap[key];
      order' := order;
      TracksKnownKey(groupMap, order, acc, email);
    }
    groupMap' := groupMap[key := AddEmail(group, email)];
  }

  lemma TracksNewKey(groupMap: map<string, SenderGroup>, order: seq<string>, acc: seq<SenderGroup>, email: Email)
    requires Tracks(groupMap, order, acc) && KeyOf(email) !in groupMap
    ensures Tracks(groupMap[KeyOf(email) := AddEmail(NewGroup(email), email)], order + [KeyOf(email)], Insert(acc, email))
  {
    assert FindKey(acc, KeyOf(email)) == |acc|;
  }

  lemma TracksKnownKey(groupMap: map<string, SenderGroup>, order: seq<string>, acc: seq<SenderGroup>, email: Email)
    requires Tracks(groupMap, order, acc) && KeyOf(email) in groupMap
    ensures Tracks(groupMap[KeyOf(email) := AddEmail(groupMap[KeyOf(email)], email)], order, Insert(acc, email))
  {
    var j :| 0 <= j < |order| && order[j] == KeyOf(email);
    assert FindKey(acc, KeyOf(email)) == j;
  }

  // ------------------------------------------------------------- search

  /** A group matches a lower-cased term when its name or its address, lower-cased, contains it. */
  predicate Matches(g: SenderGroup, term: string)
  {
    Contains(Lower(g.senderName), term) || Contains(Lower(g.senderEmail), term)
  }

  /** The groups that match the term, in their order. */
  function MatchingGroups(groups: seq<SenderGroup>, term: string): (r: seq<SenderGroup>)
    ensures IsSubsequence(r, groups)
    ensures forall g :: g in r ==> Matches(g, term)
    ensures forall i :: 0 <= i < |groups| && Matches(groups[i], term) ==> groups[i] in r
  {
    if groups == [] then []
    else
      var rest := MatchingGroups(groups[1..], term);
      assert groups == [groups[0]] + groups[1..];
      assert forall i :: 1 <= i < |groups| ==> groups[i] == groups[1..][i - 1];
      if Matches(groups[0], term) then [groups[0]] + rest
      else
        SubsequenceOfTail(rest, groups[1..], groups[0]);
        rest
  }

  /**
   * `filterSenderGroups`: a blank search term keeps every group; otherwise the
   * groups whose name or address contains the lower-cased term (which is not
   * trimmed), in their order.
   */
  function FilterSenderGroups(groups: seq<SenderGroup>, searchTerm: string): (r: seq<SenderGroup>)
    ensures IsSubsequence(r, groups)
    ensures IsBlank(searchTerm) ==> r == groups
    ensures !IsBlank(searchTerm) ==> forall g :: g in r ==> Matches(g, Lower(searchTerm))
    ensures !IsBlank(searchTerm) ==> forall i :: 0 <= i < |groups| && Matches(groups[i], Lower(searchTerm)) ==> groups[i] in r
  {
    if IsBlank(searchTerm) then
      SubsequenceReflexive(groups);
      groups
    else MatchingGroups(groups, Lower(searchTerm))
  }

  lemma {:induction false} MatchingGroupsIdempotent(groups: seq<SenderGroup>, term: string)
    ensures MatchingGroups(MatchingGroups(groups, term), term) == MatchingGroups(groups, term)
  {
    if groups != [] {
      MatchingGroupsIdempotent(groups[1..], term);
      var rest := MatchingGroups(groups[1..], term);
      if Matches(groups[0], term) {
        assert ([groups[0]] + rest)[1..] == rest;
      }
    }
  }

  /** Searching the result of a search again with the same term changes nothing. */
  lemma FilterIdempotent(groups: seq<SenderGroup>, searchTerm: string)
    ensures FilterSenderGroups(FilterSenderGroups(groups, searchTerm), searchTerm) == FilterSenderGroups(groups, searchTerm)
  {
    if !IsBlank(searchTerm) {
      MatchingGroupsIdempotent(groups, Lower(searchTerm));
    }
  }

  // --------------------------------------------------------------- sort

  /**
   * The sort key of each option of `sortSenderGroups`, as a key sorted greatest
   * first: `localeCompare` on names is a rank given by `nameRank`, and
   * `new Date(d).getTime()` is `time(d)`. An unknown option has no key.
   */
  function SortKey(sortBy: string, nameRank: string -> int, time: string -> int): (r: Option<SenderGroup -> int>)
    ensures r.None? <==> sortBy !in {"count", "name", "newest", "oldest"}
    ensures sortBy == "count" ==> r == Some(CountKey)
  {
    if sortBy == "count" then Some(CountKey)
    else if sortBy == "name" then Some((g: SenderGroup) => -nameRank(g.senderName))
    else if sortBy == "newest" then Some((g: SenderGroup) => time(g.newestDate))
    else if sortBy == "oldest" then Some((g: SenderGroup) => -time(g.oldestDate))
    else None
  }

  /**
   * `sortSenderGroups`: a sorted copy of the groups: by count and by newest date
   * greatest first, by name and by oldest date smallest first; any other option
   * returns the copy unsorted.
   */
  function SortSenderGroups(groups: seq<SenderGroup>, sortBy: string, nameRank: string -> int, time: string -> int): (r: seq<SenderGroup>)
    ensures multiset(r) == multiset(groups)
    ensures sortBy == "count" ==> forall i, j :: 0 <= i < j < |r| ==> r[i].emailCount >= r[j].emailCount
    ensures sortBy == "name" ==> forall i, j :: 0 <= i < j < |r| ==> nameRank(r[i].senderName) <= nameRank(r[j].senderName)
    ensures sortBy == "newest" ==> forall i, j :: 0 <= i < j < |r| ==> time(r[i].newestDate) >= time(r[j].newestDate)
    ensures sortBy == "oldest" ==> forall i, j :: 0 <= i < j < |r| ==> time(r[i].oldestDate) <= time(r[j].oldestDate)
    ensures SortKey(sortBy, nameRank, time).None? ==> r == groups
  {
    match SortKey(sortBy, nameRank, time)
    case None => groups
    case Some(key) =>
      SortDescSorted(groups, key);
      SortDesc(groups, key)
  }

  /** Groups that tie under the chosen order keep their relative order (the built-in sort is stable). */
  lemma SortSenderGroupsStable(groups: seq<SenderGroup>, sortBy: string, nameRank: string -> int, time: string -> int, c: int)
    requires SortKey(sortBy, nameRank, time).Some?
    ensures KeyRun(SortSenderGroups(groups, sortBy, nameRank, time), SortKey(sortBy, nameRank, time).value, c)
         == KeyRun(groups, SortKey(sortBy, nameRank, time).value, c)
  {
    SortDescStable(groups, SortKey(sortBy, nameRank, time).value, c);
  }

  // ------------------------------------------------- removal after trash

  /** The emails of es whose id is not among ids, in order. */
  function Without(es: seq<Email>, ids: seq<string>): (r: seq<Email>)
    ensures |r| <= |es|
  {
    if es == [] then []
    else Without(es[..|es| - 1], ids) + (if es[|es| - 1].id !in ids then [es[|es| - 1]] else [])
  }

  /** Without(es, ids) keeps exactly the emails of es whose id is not listed. */
  lemma {:induction false} WithoutExact(es: seq<Email>, ids: seq<string>)
    ensures forall e :: e in Without(es, ids) ==> e in es && e.id !in ids
    ensures forall i :: 0 <= i < |es| && es[i].id !in ids ==> es[i] in Without(es, ids)
  {
    if es != [] {
      WithoutExact(es[..|es| - 1], ids);
      assert forall i :: 0 <= i < |es| - 1 ==> es[i] == es[..|es| - 1][i];
    }
  }

  /** The emails left keep their order. */
  lemma {:induction false} WithoutInOrder(es: seq<Email>, ids: seq<string>)
    ensures IsSubsequence(Without(es, ids), es)
  {
    if es != [] {
      var p := es[..|es| - 1];
      WithoutInOrder(p, ids);
      SplitLast(es);
      SubsequenceSnoc(Without(p, ids), p, es[|es| - 1]);
      if es[|es| - 1].id !in ids {
        assert Without(es, ids) == Without(p, ids) + [es[|es| - 1]];
      } else {
        assert Without(es, ids) == Without(p, ids);
      }
    }
  }

  /** The group with its emails replaced by the remaining ones and its figures recomputed from them. */
  function Recount(g: SenderGroup, remaining: seq<Email>): (r: SenderGroup)
    requires remaining != []
    ensures Consistent(r)
  {
    g.(emails := remaining,
       emailCount := |remaining|,
       unreadCount := CountUnread(remaining),
       oldestDate := OldestDate(remaining),
       newestDate := NewestDate(remaining))
  }

  /** What is left of one group once the emails with the given ids are gone, if anything. */
  function RemainingGroup(g: SenderGroup, ids: seq<string>): Option<SenderGroup>
  {
    var remaining := Without(g.emails, ids);
    if remaining == [] then None else Some(Recount(g, remaining))
  }

  /** No email of the group has one of the ids. */
  predicate Untouched(g: SenderGroup, ids: seq<string>)
  {
    forall e :: e in g.emails ==> e.id !in ids
  }

  /**
   * `removeTrashedEmailsFromGroups`: every group loses the emails whose id was
   * trashed and has its figures recomputed; a group left empty disappears.
   * Order, headers and analysis of the other groups are kept.
   */
  function RemoveTrashedEmailsFromGroups(groups: seq<SenderGroup>, trashedIds: seq<string>): (r: seq<SenderGroup>)
    ensures |r| <= |groups|
    ensures forall j :: 0 <= j < |r| ==> Consistent(r[j]) && Untouched(r[j], trashedIds)
  {
    if groups == [] then []
    else
      var rest := RemoveTrashedEmailsFromGroups(groups[1..], trashedIds);
      WithoutExact(groups[0].emails, trashedIds);
      match RemainingGroup(groups[0], trashedIds)
      case None => rest
      case Some(g) => [g] + rest
  }

  /** Each remaining group is an input group with the trashed emails taken out (header and analysis kept). */
  lemma {:induction false} RemoveTrashedFromInput(groups: seq<SenderGroup>, trashedIds: seq<string>)
    ensures forall j :: 0 <= j < |RemoveTrashedEmailsFromGroups(groups, trashedIds)| ==>
      exists i :: 0 <= i < |groups| && RemainingGroup(groups[i], trashedIds) == Some(RemoveTrashedEmailsFromGroups(groups, trashedIds)[j])
  {
    if groups != [] {
      var r := RemoveTrashedEmailsFromGroups(groups, trashedIds);
      var rest := RemoveTrashedEmailsFromGroups(groups[1..], trashedIds);
      RemoveTrashedFromInput(groups[1..], trashedIds);
      var skip := if RemainingGroup(groups[0], trashedIds).Some? then 1 else 0;
      if skip == 1 {
        assert r == [RemainingGroup(groups[0], trashedIds).value] + rest;
      } else {
        assert r == rest;
      }
      forall j | 0 <= j < |r|
        ensures exists i :: 0 <= i < |groups| && RemainingGroup(groups[i], trashedIds) == Some(r[j])
      {
        if j < skip {
          assert RemainingGroup(groups[0], trashedIds) == Some(r[j]);
        } else {
          assert r[j] == rest[j - skip];
          var i :| 0 <= i < |groups[1..]| && RemainingGroup(groups[1..][i], trashedIds) == Some(rest[j - skip]);
          assert groups[i + 1] == groups[1..][i];
        }
      }
    } else {
      assert RemoveTrashedEmailsFromGroups(groups, trashedIds) == [];
    }
  }

  /** The values of the present entries, in order. */
  function Somes<T>(os: seq<Option<T>>): seq<T>
  {
    if os == [] then [] else (if os[0].Some? then [os[0].value] else []) + Somes(os[1..])
  }

  /** The positions of the present entries, counted from `base`, in order. */
  function SomeIndices<T>(os: seq<Option<T>>, base: nat): seq<nat>
  {
    if os == [] then [] else (if os[0].Some? then [base] else []) + SomeIndices(os[1..], base + 1)
  }

  /** The j-th present value sits at the j-th present position. */
  lemma {:induction false} SomesAt<T>(os: seq<Option<T>>, base: nat)
    ensures var idx := SomeIndices(os, base);
      && |idx| == |Somes(os)|
      && forall j :: 0 <= j < |idx| ==> base <= idx[j] < base + |os| && os[idx[j] - base] == Some(Somes(os)[j])
  {
    if os != [] {
      SomesAt(os[1..], base + 1);
      var idx := SomeIndices(os, base);
      var tail := SomeIndices(os[1..], base + 1);
      var rest := Somes(os[1..]);
      if os[0].Some? {
        assert idx == [base] + tail;
        assert Somes(os) == [os[0].value] + rest;
        forall j | 1 <= j < |idx|
          ensures base <= idx[j] < base + |os| && os[idx[j] - base] == Some(Somes(os)[j])
        {
          assert idx[j] == tail[j - 1];
          assert os[1..][tail[j - 1] - (base + 1)] == os[idx[j] - base];
        }
      } else {
        assert idx == tail;
        assert Somes(os) == rest;
        forall j | 0 <= j < |idx|
          ensures base <= idx[j] < base + |os| && os[idx[j] - base] == Some(Somes(os)[j])
        {
          assert os[1..][tail[j] - (base + 1)] == os[idx[j] - base];
        }
      }
    }
  }

  predicate Increasing(s: seq<nat>)
  {
    forall j, k :: 0 <= j < k < |s| ==> s[j] < s[k]
  }

  predicate AllAtLeast(s: seq<nat>, low: nat)
  {
    forall j :: 0 <= j < |s| ==> low <= s[j]
  }

  /** Putting a smaller number in front of an increasing sequence keeps it increasing. */
  lemma IncreasingCons(x: nat, s: seq<nat>)
    requires Increasing(s) && AllAtLeast(s, x + 1)
    ensures Increasing([x] + s) && AllAtLeast([x] + s, x)
  {
    var t := [x] + s;
    forall j, k | 0 <= j < k < |t|
      ensures t[j] < t[k]
    {
      assert t[k] == s[k - 1];
      if j > 0 {
        assert t[j] == s[j - 1];
      }
    }
  }

  /** The present positions lie from `base` on and increase. */
  lemma {:induction false} SomeIndicesIncrease<T>(os: seq<Option<T>>, base: nat)
    ensures Increasing(SomeIndices(os, base)) && AllAtLeast(SomeIndices(os, base), base)
  {
    if os != [] {
      var tail := SomeIndices(os[1..], base + 1);
      SomeIndicesIncrease(os[1..], base + 1);
      if os[0].Some? {
        assert SomeIndices(os, base) == [base] + tail;
        IncreasingCons(base, tail);
      } else {
        assert SomeIndices(os, base) == tail;
      }
    }
  }

  /** Every present entry's position is among the present positions. */
  lemma {:induction false} SomeIndicesCover<T>(os: seq<Option<T>>, base: nat)
    ensures forall i :: 0 <= i < |os| && os[i].Some? ==> base + i in SomeIndices(os, base)
  {
    if os != [] {
      SomeIndicesCover(os[1..], base + 1);
      var idx := SomeIndices(os, base);
      var tail := SomeIndices(os[1..], base + 1);
      if os[0].Some? {
        assert idx == [base] + tail;
      } else {
        assert idx == tail;
      }
      forall i | 1 <= i < |os| && os[i].Some?
        ensures base + i in idx
      {
        assert os[1..][i - 1] == os[i];
        assert (base + 1) + (i - 1) in tail;
      }
    }
  }

  /** What is left of each group, position by position. */
  function Remainders(groups: seq<SenderGroup>, trashedIds: seq<string>): (os: seq<Option<SenderGroup>>)
    ensures |os| == |groups|
  {
    seq(|groups|, i requires 0 <= i < |groups| => RemainingGroup(groups[i], trashedIds))
  }

  /** The remaining groups are what is left of the groups that keep an email, in input order. */
  lemma {:induction false} RemoveTrashedAsSomes(groups: seq<SenderGroup>, trashedIds: seq<string>)
    ensures RemoveTrashedEmailsFromGroups(groups, trashedIds) == Somes(Remainders(groups, trashedIds))
  {
    if groups != [] {
      RemoveTrashedAsSomes(groups[1..], trashedIds);
      assert Remainders(groups, trashedIds)[1..] == Remainders(groups[1..], trashedIds);
    }
  }

  /**
   * The remaining groups keep their order: the j-th one is what is left of the
   * input group at the j-th surviving position, those positions increase, and
   * every group that keeps an email has one.
   */
  lemma RemoveTrashedInOrder(groups: seq<SenderGroup>, trashedIds: seq<string>)
    ensures var r := RemoveTrashedEmailsFromGroups(groups, trashedIds);
      var idx := SomeIndices(Remainders(groups, trashedIds), 0);
      && |idx| == |r|
      && (forall j :: 0 <= j < |idx| ==> idx[j] < |groups| && RemainingGroup(groups[idx[j]], trashedIds) == Some(r[j]))
      && (forall j, k :: 0 <= j < k < |idx| ==> idx[j] < idx[k])
      && (forall i :: 0 <= i < |groups| && RemainingGroup(groups[i], trashedIds).Some? ==> i in idx)
  {
    var os := Remainders(groups, trashedIds);
    RemoveTrashedAsSomes(groups, trashedIds);
    SomesAt(os, 0);
    SomeIndicesIncrease(os, 0);
    SomeIndicesCover(os, 0);
    forall i | 0 <= i < |groups| && RemainingGroup(groups[i], trashedIds).Some?
      ensures i in SomeIndices(os, 0)
    {
      assert os[i] == RemainingGroup(groups[i], trashedIds);
    }
  }

  /** Every input group with an email left is among the remaining groups. */
  lemma {:induction false} RemoveTrashedKeepsRemaining(groups: seq<SenderGroup>, trashedIds: seq<string>)
    ensures forall i :: 0 <= i < |groups| && RemainingGroup(groups[i], trashedIds).Some? ==>
      RemainingGroup(groups[i], trashedIds).value in RemoveTrashedEmailsFromGroups(groups, trashedIds)
  {
    if groups != [] {
      var r := RemoveTrashedEmailsFromGroups(groups, trashedIds);
      var rest := RemoveTrashedEmailsFromGroups(groups[1..], trashedIds);
      RemoveTrashedKeepsRemaining(groups[1..], trashedIds);
      if RemainingGroup(groups[0], trashedIds).Some? {
        assert r == [RemainingGroup(groups[0], trashedIds).value] + rest;
      } else {
        assert r == rest;
      }
      forall i | 0 <= i < |groups| && RemainingGroup(groups[i], trashedIds).Some?
        ensures RemainingGroup(groups[i], trashedIds).value in r
      {
        if i > 0 {
          assert groups[i] == groups[1..][i - 1];
        }
      }
    }
  }

  lemma {:induction false} WithoutAppend(es: seq<Email>, e: Email, ids: seq<string>)
    ensures Without(es + [e], ids) == Without(es, ids) + (if e.id !in ids then [e] else [])
  {
    assert (es + [e])[..|es|] == es;
  }

  lemma {:induction false} KeyMembersAppend(es: seq<Email>, e: Email, k: string)
    ensures KeyMembers(es + [e], k) == KeyMembers(es, k) + (if KeyOf(e) == k then [e] else [])
  {
    assert (es + [e])[..|es|] == es;
  }

  /** Taking out two lists of ids one after the other is taking out their concatenation. */
  lemma {:induction false} WithoutWithout(es: seq<Email>, a: seq<string>, b: seq<string>)
    ensures Without(Without(es, a), b) == Without(es, a + b)
  {
    if es != [] {
      var p := es[..|es| - 1];
      var e := es[|es| - 1];
      WithoutWithout(p, a, b);
      if e.id !in a {
        WithoutAppend(Without(p, a), e, b);
      } else {
        assert Without(es, a) == Without(p, a) + [] == Without(p, a);
        assert e.id in a + b;
        assert Without(es, a + b) == Without(p, a + b) + [] == Without(p, a + b);
      }
    }
  }

  /** Only which ids are listed matters, not their order or repetition. */
  lemma {:induction false} WithoutSameIds(es: seq<Email>, a: seq<string>, b: seq<string>)
    requires forall x :: x in a <==> x in b
    ensures Without(es, a) == Without(es, b)
  {
    if es != [] {
      WithoutSameIds(es[..|es| - 1], a, b);
    }
  }

  /** Removing ids no email carries keeps the list. */
  lemma {:induction false} WithoutNone(es: seq<Email>, ids: seq<string>)
    requires forall e :: e in es ==> e.id !in ids
    ensures Without(es, ids) == es
  {
    if es != [] {
      var p := es[..|es| - 1];
      assert forall e :: e in p ==> e in es;
      WithoutNone(p, ids);
      assert es[|es| - 1] in es;
      assert p + [es[|es| - 1]] == es;
    }
  }

  /** Filtering by id and selecting one sender's emails can be done in either order. */
  lemma {:induction false} WithoutKeyMembers(es: seq<Email>, k: string, ids: seq<string>)
    ensures Without(KeyMembers(es, k), ids) == KeyMembers(Without(es, ids), k)
  {
    if es != [] {
      var p := es[..|es| - 1];
      var e := es[|es| - 1];
      WithoutKeyMembers(p, k, ids);
      var kept := if e.id !in ids && KeyOf(e) == k then [e] else [];
      if KeyOf(e) == k {
        WithoutAppend(KeyMembers(p, k), e, ids);
        assert Without(KeyMembers(es, k), ids) == Without(KeyMembers(p, k), ids) + kept;
      } else {
        KeyMembersSnoc(es, k);
        assert Without(KeyMembers(es, k), ids) == Without(KeyMembers(p, k), ids) + kept;
      }
      if e.id !in ids {
        KeyMembersAppend(Without(p, ids), e, k);
        assert KeyMembers(Without(es, ids), k) == KeyMembers(Without(p, ids), k) + kept;
      } else {
        assert Without(es, ids) == Without(p, ids) + [] == Without(p, ids);
        assert KeyMembers(Without(es, ids), k) == KeyMembers(Without(p, ids), k) + kept;
      }
    }
  }

  /** Removing the ids a and then the ids b is removing a + b at once. */
  lemma {:induction false} RemoveTrashedCompose(groups: seq<SenderGroup>, a: seq<string>, b: seq<string>)
    ensures RemoveTrashedEmailsFromGroups(RemoveTrashedEmailsFromGroups(groups, a), b)
         == RemoveTrashedEmailsFromGroups(groups, a + b)
  {
    if groups != [] {
      var g := groups[0];
      RemoveTrashedCompose(groups[1..], a, b);
      WithoutWithout(g.emails, a, b);
      var ra := RemoveTrashedEmailsFromGroups(groups, a);
      match RemainingGroup(g, a)
      case None =>
        assert Without(g.emails, a + b) == [];
      case Some(h) =>
        assert ra == [h] + RemoveTrashedEmailsFromGroups(groups[1..], a);
        assert ra[1..] == RemoveTrashedEmailsFromGroups(groups[1..], a);
    }
  }

  lemma {:induction false} RemoveTrashedSameIds(groups: seq<SenderGroup>, a: seq<string>, b: seq<string>)
    requires forall x :: x in a <==> x in b
    ensures RemoveTrashedEmailsFromGroups(groups, a) == RemoveTrashedEmailsFromGroups(groups, b)
  {
    if groups != [] {
      RemoveTrashedSameIds(groups[1..], a, b);
      WithoutSameIds(groups[0].emails, a, b);
    }
  }

  /** Removing the same ids a second time changes nothing. */
  lemma RemoveTrashedIdempotent(groups: seq<SenderGroup>, ids: seq<string>)
    ensures RemoveTrashedEmailsFromGroups(RemoveTrashedEmailsFromGroups(groups, ids), ids)
         == RemoveTrashedEmailsFromGroups(groups, ids)
  {
    RemoveTrashedCompose(groups, ids, ids);
    RemoveTrashedSameIds(groups, ids + ids, ids);
  }

  /** When no email of consistent groups was trashed, the groups come back unchanged. */
  lemma {:induction false} RemoveTrashedNothing(groups: seq<SenderGroup>, ids: seq<string>)
    requires forall i :: 0 <= i < |groups| ==> Consistent(groups[i]) && Untouched(groups[i], ids)
    ensures RemoveTrashedEmailsFromGroups(groups, ids) == groups
  {
    if groups != [] {
      var rest := groups[1..];
      forall i | 0 <= i < |rest|
        ensures Consistent(rest[i]) && Untouched(rest[i], ids)
      {
        assert rest[i] == groups[i + 1];
      }
      RemoveTrashedNothing(rest, ids);
      UntouchedRemains(groups[0], ids);
      assert RemoveTrashedEmailsFromGroups(groups, ids) == [groups[0]] + RemoveTrashedEmailsFromGroups(rest, ids);
      assert groups == [groups[0]] + rest;
    }
  }

  /** A consistent group none of whose emails is trashed comes back unchanged. */
  lemma UntouchedRemains(g: SenderGroup, ids: seq<string>)
    requires Consistent(g) && Untouched(g, ids)
    ensures RemainingGroup(g, ids) == Some(g)
  {
    WithoutNone(g.emails, ids);
  }

  /** A group of its sender's emails, with some left after a trash, holds the sender's remaining emails. */
  lemma {:induction false} RemainingGroupOfKey(es: seq<Email>, g: SenderGroup, ids: seq<string>)
    requires g.emails == KeyMembers(es, GroupKey(g))
    requires RemainingGroup(g, ids).Some?
    ensures GroupKey(RemainingGroup(g, ids).value) == GroupKey(g)
    ensures RemainingGroup(g, ids).value.emails == KeyMembers(Without(es, ids), GroupKey(g))
  {
    WithoutKeyMembers(es, GroupKey(g), ids);
  }

  /** After grouping and a trash, every remaining group holds exactly the remaining emails of its sender, in listing order. */
  lemma RemoveTrashedAfterGrouping(es: seq<Email>, ids: seq<string>)
    ensures forall j :: 0 <= j < |RemoveTrashedEmailsFromGroups(Grouped(es), ids)| ==>
      var g := RemoveTrashedEmailsFromGroups(Grouped(es), ids)[j];
      g.emails == KeyMembers(Without(es, ids), GroupKey(g))
  {
    var groups := Grouped(es);
    var r := RemoveTrashedEmailsFromGroups(groups, ids);
    assert forall g :: g in groups ==> g.emails == KeyMembers(es, GroupKey(g)) by {
      GroupingCorrect(es);
    }
    RemoveTrashedFromInput(groups, ids);
    forall j | 0 <= j < |r|
      ensures r[j].emails == KeyMembers(Without(es, ids), GroupKey(r[j]))
    {
      var i :| 0 <= i < |groups| && RemainingGroup(groups[i], ids) == Some(r[j]);
      assert groups[i] in groups;
      RemainingGroupOfKey(es, groups[i], ids);
    }
  }

  /** Some group of groups has the key k. */
  predicate HasGroup(groups: seq<SenderGroup>, k: string)
  {
    exists j :: 0 <= j < |groups| && GroupKey(groups[j]) == k
  }

  /** After grouping and a trash, every email that was not trashed still has the group of its sender. */
  lemma RemainingEmailsKeepGroup(es: seq<Email>, ids: seq<string>)
    ensures forall i :: 0 <= i < |es| && es[i].id !in ids ==>
      HasGroup(RemoveTrashedEmailsFromGroups(Grouped(es), ids), KeyOf(es[i]))
  {
    var groups := Grouped(es);
    assert forall g :: g in groups ==> g.emails == KeyMembers(es, GroupKey(g)) by {
      GroupingCorrect(es);
    }
    assert forall i :: 0 <= i < |es| ==> HasGroup(groups, KeyOf(es[i])) by {
      GroupingCorrect(es);
    }
    forall i | 0 <= i < |es| && es[i].id !in ids
      ensures HasGroup(RemoveTrashedEmailsFromGroups(groups, ids), KeyOf(es[i]))
    {
      var a :| 0 <= a < |groups| && GroupKey(groups[a]) == KeyOf(es[i]);
      assert groups[a] in groups;
      RemainingEmailKeepsGroup(es, groups, ids, i, a);
    }
  }

  /** An email that was not trashed keeps its group, when the groups hold their senders' emails. */
  lemma {:induction false} RemainingEmailKeepsGroup(es: seq<Email>, groups: seq<SenderGroup>, ids: seq<string>, i: nat, a: nat)
    requires i < |es| && es[i].id !in ids
    requires a < |groups| && GroupKey(groups[a]) == KeyOf(es[i])
    requires groups[a].emails == KeyMembers(es, GroupKey(groups[a]))
    ensures HasGroup(RemoveTrashedEmailsFromGroups(groups, ids), KeyOf(es[i]))
  {
    var r := RemoveTrashedEmailsFromGroups(groups, ids);
    KeyMembersExact(es, KeyOf(es[i]));
    WithoutExact(groups[a].emails, ids);
    assert RemainingGroup(groups[a], ids).Some?;
    RemainingGroupOfKey(es, groups[a], ids);
    RemoveTrashedKeepsRemaining(groups, ids);
    var j :| 0 <= j < |r| && r[j] == RemainingGroup(groups[a], ids).value;
  }
}
