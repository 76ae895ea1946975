/**
 * `Array.prototype.sort` with a comparator of the form `(a, b) => key(b) - key(a)`,
 * which every sort in the core uses (an ascending order is the descending order
 * of the negated key). The built-in sort is stable, so the result is the unique
 * stable descending arrangement; it is defined here as an insertion sort and
 * proved sorted, a permutation and stable.
 */
module Sorting {

  predicate SortedDesc<T>(s: seq<T>, key: T -> int)
  {
    forall i, j :: 0 <= i < j < |s| ==> key(s[i]) >= key(s[j])
  }

  /**
   * x put in front of the first element whose key is not greater than its own,
   * so that it follows every element with a greater key and precedes the rest.
   */
  function InsertDesc<T>(x: T, s: seq<T>, key: T -> int): (r: seq<T>)
    ensures |r| == |s| + 1
    ensures multiset(r) == multiset(s) + multiset{x}
  {
    if s == [] || key(s[0]) <= key(x) then [x] + s
    else
      assert s == [s[0]] + s[1..];
      [s[0]] + InsertDesc(x, s[1..], key)
  }

  /** The stable sort of s by key, greatest key first. */
  function SortDesc<T>(s: seq<T>, key: T -> int): (r: seq<T>)
    ensures |r| == |s|
    ensures multiset(r) == multiset(s)
  {
    if s == [] then []
    else
      assert s == [s[0]] + s[1..];
      InsertDesc(s[0], SortDesc(s[1..], key), key)
  }

  /** The elements of s whose key is c, in their order in s. */
  function KeyRun<T>(s: seq<T>, key: T -> int, c: int): seq<T>
  {
    if s == [] then []
    else (if key(s[0]) == c then [s[0]] else []) + KeyRun(s[1..], key, c)
  }

  lemma {:induction false} InsertDescSorted<T>(x: T, s: seq<T>, key: T -> int)
    requires SortedDesc(s, key)
    ensures SortedDesc(InsertDesc(x, s, key), key)
  {
    if s != [] && key(s[0]) > key(x) {
      InsertDescSorted(x, s[1..], key);
      var rest := InsertDesc(x, s[1..], key);
      assert multiset(rest) == multiset(s[1..]) + multiset{x};
      forall k | 0 <= k < |rest|
        ensures key(s[0]) >= key(rest[k])
      {
        assert rest[k] in multiset(rest);
        if rest[k] != x {
          assert rest[k] in multiset(s[1..]);
          var m :| 0 <= m < |s[1..]| && s[1..][m] == rest[k];
          assert s[m + 1] == rest[k];
        }
      }
    }
  }

  /** The result of the sort is ordered by key, greatest first. */
  lemma {:induction false} SortDescSorted<T>(s: seq<T>, key: T -> int)
    ensures SortedDesc(SortDesc(s, key), key)
  {
    if s != [] {
      SortDescSorted(s[1..], key);
      InsertDescSorted(s[0], SortDesc(s[1..], key), key);
    }
  }

  lemma {:induction false} InsertDescKeyRun<T>(x: T, s: seq<T>, key: T -> int, c: int)
    ensures KeyRun(InsertDesc(x, s, key), key, c) == (if key(x) == c then [x] else []) + KeyRun(s, key, c)
  {
    var r := InsertDesc(x, s, key);
    var xs := if key(x) == c then [x] else [];
    if s == [] || key(s[0]) <= key(x) {
      assert r[0] == x && r[1..] == s;
    } else {
      var rest := InsertDesc(x, s[1..], key);
      var h := if key(s[0]) == c then [s[0]] else [];
      calc {
        KeyRun(r, key, c);
      == { assert r[0] == s[0] && r[1..] == rest; }
        h + KeyRun(rest, key, c);
      == { InsertDescKeyRun(x, s[1..], key, c); }
        h + (xs + KeyRun(s[1..], key, c));
      == { assert h == [] || xs == []; }  // key(s[0]) > key(x): not both equal c
        xs + (h + KeyRun(s[1..], key, c));
      }
    }
  }

  /**
   * Stability: for every key value, the elements carrying it appear in the
   * result in the order they had in the input.
   */
  lemma {:induction false} SortDescStable<T>(s: seq<T>, key: T -> int, c: int)
    ensures KeyRun(SortDesc(s, key), key, c) == KeyRun(s, key, c)
  {
    if s != [] {
      SortDescStable(s[1..], key, c);
      InsertDescKeyRun(s[0], SortDesc(s[1..], key), key, c);
    }
  }

  /** The sum of f over the elements of s. */
  function SumBy<T>(s: seq<T>, f: T -> nat): nat
  {
    if s == [] then 0 else f(s[0]) + SumBy(s[1..], f)
  }

  lemma {:induction false} InsertDescSum<T>(x: T, s: seq<T>, key: T -> int, f: T -> nat)
    ensures SumBy(InsertDesc(x, s, key), f) == f(x) + SumBy(s, f)
  {
    var r := InsertDesc(x, s, key);
    if s == [] || key(s[0]) <= key(x) {
      assert r[1..] == s;
    } else {
      assert r[1..] == InsertDesc(x, s[1..], key);
      InsertDescSum(x, s[1..], key, f);
    }
  }

  /** Sorting does not change a total. */
  lemma {:induction false} SortDescSum<T>(s: seq<T>, key: T -> int, f: T -> nat)
    ensures SumBy(SortDesc(s, key), f) == SumBy(s, f)
  {
    if s != [] {
      SortDescSum(s[1..], key, f);
      InsertDescSum(s[0], SortDesc(s[1..], key), key, f);
    }
  }

  lemma {:induction false} SumByAppend<T>(s: seq<T>, x: T, f: T -> nat)
    ensures SumBy(s + [x], f) == SumBy(s, f) + f(x)
  {
    if s != [] {
      assert (s + [x])[1..] == s[1..] + [x];
      SumByAppend(s[1..], x, f);
    }
  }

  lemma {:induction false} SumByUpdate<T>(s: seq<T>, i: nat, x: T, f: T -> nat)
    requires i < |s|
    ensures SumBy(s[i := x], f) + f(s[i]) == SumBy(s, f) + f(x)
  {
    if i > 0 {
      assert s[i := x][1..] == s[1..][i - 1 := x];
      SumByUpdate(s[1..], i - 1, x, f);
    } else {
      assert s[i := x][1..] == s[1..];
    }
  }

  /** No two elements of s share a value of p. */
  predicate DistinctBy<T, K(==)>(s: seq<T>, p: T -> K)
  {
    forall i, j :: 0 <= i < j < |s| ==> p(s[i]) != p(s[j])
  }

  lemma {:induction false} InsertDescDistinct<T, K>(x: T, s: seq<T>, key: T -> int, p: T -> K)
    requires DistinctBy(s, p)
    requires forall i :: 0 <= i < |s| ==> p(s[i]) != p(x)
    ensures DistinctBy(InsertDesc(x, s, key), p)
  {
    var r := InsertDesc(x, s, key);
    if s == [] || key(s[0]) <= key(x) {
      assert r[1..] == s;
    } else {
      var rest := InsertDesc(x, s[1..], key);
      assert r[1..] == rest;
      InsertDescDistinct(x, s[1..], key, p);
      forall k | 0 <= k < |rest|
        ensures p(s[0]) != p(rest[k])
      {
        assert rest[k] in multiset(rest);
        if rest[k] != x {
          assert rest[k] in multiset(s[1..]);
          var m :| 0 <= m < |s[1..]| && s[1..][m] == rest[k];
          assert s[m + 1] == rest[k];
        }
      }
    }
  }

  /** Sorting keeps a projection free of duplicates. */
  lemma {:induction false} SortDescDistinct<T, K>(s: seq<T>, key: T -> int, p: T -> K)
    requires DistinctBy(s, p)
    ensures DistinctBy(SortDesc(s, key), p)
  {
    if s != [] {
      SortDescDistinct(s[1..], key, p);
      var t := SortDesc(s[1..], key);
      forall i | 0 <= i < |t|
        ensures p(t[i]) != p(s[0])
      {
        assert t[i] in multiset(t);
        assert t[i] in multiset(s[1..]);
        var m :| 0 <= m < |s[1..]| && s[1..][m] == t[i];
        assert s[m + 1] == t[i];
      }
      InsertDescDistinct(s[0], t, key, p);
    }
  }
}
