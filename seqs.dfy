/** Sequence helpers: concatenation of a list of lists, consecutive batches, subsequences. */
module Seqs {

  /** The concatenation of all the lists in order. */
  function Flatten<T>(ss: seq<seq<T>>): seq<T>
  {
    if ss == [] then [] else ss[0] + Flatten(ss[1..])
  }

  /** A non-empty list is its front followed by its last element. */
  lemma SplitLast<T>(s: seq<T>)
    requires s != []
    ensures s == s[..|s| - 1] + [s[|s| - 1]]
  {
  }

  /**
   * The consecutive slices `s[i..i + size]` for i = 0, size, 2 * size, ...
   * that a `for (i = 0; i < n; i += size)` loop over `s.slice(i, i + size)` visits.
   */
  function Chunks<T>(s: seq<T>, size: nat): seq<seq<T>>
    requires size > 0
    decreases |s|
  {
    if s == [] then []
    else if |s| <= size then [s]
    else [s[..size]] + Chunks(s[size..], size)
  }

  /**
   * The batches cover the list exactly, in order; none is empty, none exceeds
   * the size, all but the last are full, so there are ceil(|s| / size) of them.
   */
  lemma {:induction false} ChunksCorrect<T>(s: seq<T>, size: nat)
    requires size > 0
    ensures var r := Chunks(s, size);
      && Flatten(r) == s
      && (forall i :: 0 <= i < |r| ==> 0 < |r[i]| <= size)
      && (forall i :: 0 <= i < |r| - 1 ==> |r[i]| == size)
      && |r| * size < |s| + size && |s| <= |r| * size
    decreases |s|
  {
    if |s| > size {
      ChunksCorrect(s[size..], size);
      var r := Chunks(s, size);
      var t := Chunks(s[size..], size);
      assert r == [s[..size]] + t;
      assert r[1..] == t;
      assert s == s[..size] + s[size..];
    }
  }

  /** The first batch of a non-empty list is its first `size` elements (or all of it), the rest are the batches of what follows. */
  lemma ChunksStep<T>(s: seq<T>, size: nat)
    requires size > 0 && s != []
    ensures var n := if |s| < size then |s| else size;
      Chunks(s, size) == [s[..n]] + Chunks(s[n..], size)
  {
    if |s| <= size {
      assert s[..|s|] == s;
      assert s[|s|..] == [];
      assert Chunks(s[|s|..], size) == [];
    }
  }

  /**
   * In a loop over the batches of ids, handling the batch that starts at i
   * moves it from the batches to come to the batches done.
   */
  lemma NextBatch<T>(ids: seq<T>, size: nat, i: nat, end: nat, done: seq<seq<T>>)
    requires size > 0 && i < |ids| && end == (if i + size < |ids| then i + size else |ids|)
    requires done + Chunks(ids[i..], size) == Chunks(ids, size)
    ensures (done + [ids[i..end]]) + Chunks(ids[end..], size) == Chunks(ids, size)
  {
    var rest := ids[i..];
    ChunksStep(rest, size);
    assert rest[..end - i] == ids[i..end];
    assert rest[end - i..] == ids[end..];
    var batch := ids[i..end];
    var later := Chunks(ids[end..], size);
    assert Chunks(rest, size) == [batch] + later;
    assert (done + [batch]) + later == done + ([batch] + later);
  }

  /** Once the loop has passed the end of ids, every batch is done. */
  lemma AllBatchesSent<T>(ids: seq<T>, size: nat, done: seq<seq<T>>)
    requires size > 0
    requires done + Chunks(ids[|ids|..], size) == Chunks(ids, size)
    ensures done == Chunks(ids, size)
  {
    assert ids[|ids|..] == [];
  }

  /** a is a subsequence of b: b with some elements left out, order kept. */
  predicate IsSubsequence<T(==)>(a: seq<T>, b: seq<T>)
    decreases |b|
  {
    a == [] || (b != [] && if a[0] == b[0] then IsSubsequence(a[1..], b[1..]) else IsSubsequence(a, b[1..]))
  }

  /** A subsequence of b is a subsequence of b with any element put in front. */
  lemma {:induction false} SubsequenceOfTail<T>(a: seq<T>, b: seq<T>, x: T)
    requires IsSubsequence(a, b)
    ensures IsSubsequence(a, [x] + b)
    decreases |b|, 1
  {
    assert ([x] + b)[1..] == b;
    if a != [] && a[0] == x {
      SubsequenceDropFront(a, b);
    }
  }

  /** If a is a subsequence of b, then so is a without its first element. */
  lemma {:induction false} SubsequenceDropFront<T>(a: seq<T>, b: seq<T>)
    requires a != [] && IsSubsequence(a, b)
    ensures IsSubsequence(a[1..], b)
    decreases |b|, 0
  {
    assert [b[0]] + b[1..] == b;
    if a[0] == b[0] {
      SubsequenceOfTail(a[1..], b[1..], b[0]);
    } else {
      SubsequenceDropFront(a, b[1..]);
      SubsequenceOfTail(a[1..], b[1..], b[0]);
    }
  }

  lemma {:induction false} SubsequenceReflexive<T>(a: seq<T>)
    ensures IsSubsequence(a, a)
    decreases |a|
  {
    if a != [] {
      SubsequenceReflexive(a[1..]);
    }
  }

  /** Putting the same element after both keeps a subsequence, and so does putting one after b alone. */
  lemma {:induction false} SubsequenceSnoc<T>(a: seq<T>, b: seq<T>, x: T)
    requires IsSubsequence(a, b)
    ensures IsSubsequence(a, b + [x])
    ensures IsSubsequence(a + [x], b + [x])
    decreases |b|
  {
    if b == [] {
      assert a == [];
      assert ([] + [x])[1..] == [];
    } else {
      assert (b + [x])[0] == b[0] && (b + [x])[1..] == b[1..] + [x];
      if a == [] {
        SubsequenceSnoc(a, b[1..], x);
        assert [] + [x] == [x];
      } else if a[0] == b[0] {
        SubsequenceSnoc(a[1..], b[1..], x);
        assert (a + [x])[0] == a[0] && (a + [x])[1..] == a[1..] + [x];
      } else {
        SubsequenceSnoc(a, b[1..], x);
        assert (a + [x])[0] == a[0];
      }
    }
  }
}
