/**
 * The library orderings the roof engine leans on, written out: Python's
 * stable `sorted`, `sorted(..., key=k)[-1]`, `max(..., key=k)` and
 * numpy's `median`.
 */
module Sorting {

  /** `le` compares every two elements and chains: a total preorder. */
  ghost predicate TotalPreorder<T(!new)>(le: (T, T) -> bool)
  {
    && (forall a, b :: le(a, b) || le(b, a))
    && (forall a, b, c :: le(a, b) && le(b, c) ==> le(a, c))
  }

  predicate SortedBy<T>(s: seq<T>, le: (T, T) -> bool)
  {
    forall i, j :: 0 <= i < j < |s| ==> le(s[i], s[j])
  }

  /**
   * Puts x in front of the first element it is `le` to. Inserting the
   * earlier element of a tie in front of the later one keeps the sort stable.
   */
  function Insert<T>(x: T, s: seq<T>, le: (T, T) -> bool): (r: seq<T>)
    ensures |r| == |s| + 1
    ensures multiset(r) == multiset(s) + multiset{x}
  {
    if s == [] || le(x, s[0]) then [x] + s
    else
      assert s == [s[0]] + s[1..];
      [s[0]] + Insert(x, s[1..], le)
  }

  /** Stable insertion sort, the model of Python's `sorted`. */
  function Sort<T>(s: seq<T>, le: (T, T) -> bool): (r: seq<T>)
    ensures |r| == |s|
    ensures multiset(r) == multiset(s)
  {
    if s == [] then []
    else
      assert s == [s[0]] + s[1..];
      Insert(s[0], Sort(s[1..], le), le)
  }

  lemma {:induction false} InsertSorted<T(!new)>(x: T, s: seq<T>, le: (T, T) -> bool)
    requires TotalPreorder(le)
    requires SortedBy(s, le)
    ensures SortedBy(Insert(x, s, le), le)
  {
    if s == [] || le(x, s[0]) {
    } else {
      var rest := Insert(x, s[1..], le);
      InsertSorted(x, s[1..], le);
      InsertLowerBound(x, s[1..], le, s[0]);
      var r := [s[0]] + rest;
      forall i, j | 0 <= i < j < |r|
        ensures le(r[i], r[j])
      {
        if i > 0 {
          assert r[i] == rest[i - 1] && r[j] == rest[j - 1];
        } else {
          assert r[j] == rest[j - 1];
          assert r[j] in rest;
        }
      }
    }
  }

  /** A value below x and below every element of s is below every element after inserting x. */
  lemma InsertLowerBound<T>(x: T, s: seq<T>, le: (T, T) -> bool, y: T)
    requires le(y, x)
    requires forall e :: e in s ==> le(y, e)
    ensures forall e :: e in Insert(x, s, le) ==> le(y, e)
  {
    forall e | e in Insert(x, s, le)
      ensures le(y, e)
    {
      assert e in multiset(Insert(x, s, le));
      if e != x {
        assert e in multiset(s);
      }
    }
  }

  /** What Python's `sorted` promises: the result is ordered and a permutation. */
  lemma {:induction false} SortSorted<T(!new)>(s: seq<T>, le: (T, T) -> bool)
    requires TotalPreorder(le)
    ensures SortedBy(Sort(s, le), le)
    ensures multiset(Sort(s, le)) == multiset(s)
  {
    if s != [] {
      SortSorted(s[1..], le);
      InsertSorted(s[0], Sort(s[1..], le), le);
    }
  }

  /** Comparing by a real-valued key is a total preorder. */
  ghost predicate ComparesByKey<T(!new)>(le: (T, T) -> bool, key: T -> real)
  {
    forall a, b :: le(a, b) == (key(a) <= key(b))
  }

  lemma KeyOrderTotal<T(!new)>(le: (T, T) -> bool, key: T -> real)
    requires ComparesByKey(le, key)
    ensures TotalPreorder(le)
  {
  }

  /**
   * The index of the last element whose key is maximal. This is the element
   * `sorted(s, key=key)[-1]` picks, since a stable sort keeps ties in input order.
   */
  function LastMaxIndex<T>(s: seq<T>, key: T -> real): (i: nat)
    requires |s| > 0
    ensures i < |s|
    ensures forall j :: 0 <= j < |s| ==> key(s[j]) <= key(s[i])
    ensures forall j :: i < j < |s| ==> key(s[j]) < key(s[i])
  {
    if |s| == 1 then 0
    else
      var m := LastMaxIndex(s[1..], key) + 1;
      if key(s[0]) > key(s[m]) then 0 else m
  }

  /**
   * The index of the first element whose key is maximal. This is the element
   * Python's `max(s, key=key)` returns.
   */
  function FirstMaxIndex<T>(s: seq<T>, key: T -> real): (i: nat)
    requires |s| > 0
    ensures i < |s|
    ensures forall j :: 0 <= j < |s| ==> key(s[j]) <= key(s[i])
    ensures forall j :: 0 <= j < i ==> key(s[j]) < key(s[i])
  {
    if |s| == 1 then 0
    else
      var m := FirstMaxIndex(s[1..], key) + 1;
      if key(s[0]) >= key(s[m]) then 0 else m
  }

  lemma {:induction false} InsertLast<T(!new)>(x: T, t: seq<T>, le: (T, T) -> bool)
    requires TotalPreorder(le)
    requires SortedBy(t, le)
    requires |t| > 0
    ensures var r := Insert(x, t, le);
      r[|r| - 1] == if le(x, t[|t| - 1]) then t[|t| - 1] else x
  {
    if le(x, t[0]) {
      assert le(t[0], t[|t| - 1]) || |t| == 1;
    } else if |t| > 1 {
      InsertLast(x, t[1..], le);
    }
  }

  /** The last element of the stable sort by key is the last maximal element. */
  lemma {:induction false} SortLastIsLastMax<T(!new)>(s: seq<T>, le: (T, T) -> bool, key: T -> real)
    requires ComparesByKey(le, key)
    requires |s| > 0
    ensures Sort(s, le)[|s| - 1] == s[LastMaxIndex(s, key)]
  {
    KeyOrderTotal(le, key);
    if |s| > 1 {
      var t := Sort(s[1..], le);
      SortLastIsLastMax(s[1..], le, key);
      SortSorted(s[1..], le);
      InsertLast(s[0], t, le);
    }
  }

  function RealLe(a: real, b: real): bool
  {
    a <= b
  }

  /** numpy's `median` of a non-empty sequence: the middle of the sorted values, or the mean of the two middle ones. */
  function Median(s: seq<real>): (m: real)
    requires |s| > 0
    ensures |s| % 2 == 1 ==> m in s
  {
    var t := Sort(s, RealLe);
    var h := |t| / 2;
    if |t| % 2 == 1 then assert t[h] in multiset(t); t[h] else (t[h - 1] + t[h]) / 2.0
  }

  lemma {:induction false} CountAtMostLength<T>(u: seq<T>, v: T)
    ensures multiset(u)[v] <= |u|
  {
    if u != [] {
      assert u == [u[0]] + u[1..];
      CountAtMostLength(u[1..], v);
    }
  }

  /** In a sorted sequence, a position not holding v bounds how often v can occur. */
  lemma SortedCountBound(t: seq<real>, v: real, k: nat)
    requires SortedBy(t, RealLe)
    requires k < |t| && t[k] != v
    ensures t[k] < v ==> multiset(t)[v] <= |t| - k - 1
    ensures t[k] > v ==> multiset(t)[v] <= k
  {
    assert t == t[..k + 1] + t[k + 1..];
    assert t == t[..k] + t[k..];
    CountAtMostLength(t[k + 1..], v);
    CountAtMostLength(t[..k], v);
    if t[k] < v {
      assert v !in t[..k + 1] by {
        forall j | 0 <= j <= k ensures t[j] != v {
          assert RealLe(t[j], t[k]) || j == k;
        }
      }
    }
    if t[k] > v {
      assert v !in t[k..] by {
        forall j | k <= j < |t| ensures t[j] != v {
          assert RealLe(t[k], t[j]) || j == k;
        }
      }
    }
  }

  /** In a sorted sequence, a value held by more than half of the elements sits in the middle. */
  lemma SortedMajority(t: seq<real>, v: real)
    requires SortedBy(t, RealLe)
    requires 2 * multiset(t)[v] > |t|
    ensures t[|t| / 2] == v
    ensures |t| % 2 == 0 ==> t[|t| / 2 - 1] == v
  {
    var h := |t| / 2;
    if t[h] != v {
      SortedCountBound(t, v, h);
    }
    if |t| % 2 == 0 && t[h - 1] != v {
      SortedCountBound(t, v, h - 1);
    }
  }

  /**
   * The median is robust to outliers: a value held by more than half of the
   * elements is the median, whatever the other elements are.
   */
  lemma MedianOfMajority(s: seq<real>, v: real)
    requires |s| > 0
    requires 2 * multiset(s)[v] > |s|
    ensures Median(s) == v
  {
    SortSorted(s, RealLe);
    SortedMajority(Sort(s, RealLe), v);
  }

  /** How many elements of s satisfy p. */
  function Count<T>(s: seq<T>, p: T -> bool): (n: nat)
    ensures n <= |s|
  {
    if s == [] then 0 else (if p(s[0]) then 1 else 0) + Count(s[1..], p)
  }

  lemma {:induction false} CountAppend<T>(a: seq<T>, b: seq<T>, p: T -> bool)
    ensures Count(a + b, p) == Count(a, p) + Count(b, p)
  {
    if a == [] {
      assert a + b == b;
    } else {
      assert (a + b)[1..] == a[1..] + b;
      CountAppend(a[1..], b, p);
    }
  }

  lemma {:induction false} CountNone<T>(s: seq<T>, p: T -> bool)
    requires forall i :: 0 <= i < |s| ==> !p(s[i])
    ensures Count(s, p) == 0
  {
    if s != [] {
      CountNone(s[1..], p);
    }
  }

  lemma {:induction false} CountInsert<T>(x: T, s: seq<T>, le: (T, T) -> bool, p: T -> bool)
    ensures Count(Insert(x, s, le), p) == (if p(x) then 1 else 0) + Count(s, p)
  {
    if s == [] || le(x, s[0]) {
      assert ([x] + s)[1..] == s;
    } else {
      CountInsert(x, s[1..], le, p);
      assert ([s[0]] + Insert(x, s[1..], le))[1..] == Insert(x, s[1..], le);
    }
  }

  /** Sorting keeps how many elements satisfy p. */
  lemma {:induction false} CountSort<T>(s: seq<T>, le: (T, T) -> bool, p: T -> bool)
    ensures Count(Sort(s, le), p) == Count(s, p)
  {
    if s != [] {
      CountSort(s[1..], le, p);
      CountInsert(s[0], Sort(s[1..], le), le, p);
    }
  }

  function Below(m: real): real -> bool
  {
    x => x < m
  }

  function Above(m: real): real -> bool
  {
    x => x > m
  }

  /** In a sorted sequence, only the elements before position k can lie below t[k]. */
  lemma {:induction false} SortedBelowCount(t: seq<real>, m: real, k: nat)
    requires SortedBy(t, RealLe)
    requires k < |t| && m <= t[k]
    ensures Count(t, Below(m)) <= k
  {
    assert t == t[..k] + t[k..];
    forall i | 0 <= i < |t[k..]|
      ensures !Below(m)(t[k..][i])
    {
      assert t[k..][i] == t[k + i];
      assert RealLe(t[k], t[k + i]) || i == 0;
    }
    CountAppend(t[..k], t[k..], Below(m));
    CountNone(t[k..], Below(m));
  }

  /** In a sorted sequence, only the elements after position k can lie above t[k]. */
  lemma {:induction false} SortedAboveCount(t: seq<real>, m: real, k: nat)
    requires SortedBy(t, RealLe)
    requires k < |t| && t[k] <= m
    ensures Count(t, Above(m)) <= |t| - k - 1
  {
    assert t == t[..k + 1] + t[k + 1..];
    forall i | 0 <= i <= k
      ensures !Above(m)(t[i])
    {
      assert RealLe(t[i], t[k]) || i == k;
    }
    assert forall i :: 0 <= i < |t[..k + 1]| ==> t[..k + 1][i] == t[i];
    CountAppend(t[..k + 1], t[k + 1..], Above(m));
    CountNone(t[..k + 1], Above(m));
  }

  /** The middle of a sorted sequence has at most half of it strictly on either side. */
  lemma {:induction false} SortedMiddleRank(t: seq<real>, m: real)
    requires SortedBy(t, RealLe) && |t| > 0
    requires m == if |t| % 2 == 1 then t[|t| / 2] else (t[|t| / 2 - 1] + t[|t| / 2]) / 2.0
    ensures Count(t, Below(m)) <= |t| / 2
    ensures Count(t, Above(m)) <= |t| / 2
  {
    var h := |t| / 2;
    if |t| % 2 == 1 {
      SortedBelowCount(t, m, h);
      SortedAboveCount(t, m, h);
    } else {
      assert RealLe(t[h - 1], t[h]);
      SortedBelowCount(t, m, h);
      SortedAboveCount(t, m, h - 1);
    }
  }

  /**
   * The median splits the values in half: at most half of them lie strictly
   * below it, and at most half strictly above it.
   */
  lemma {:induction false} MedianRank(s: seq<real>)
    requires |s| > 0
    ensures Count(s, Below(Median(s))) <= |s| / 2
    ensures Count(s, Above(Median(s))) <= |s| / 2
  {
    var t := Sort(s, RealLe);
    SortSorted(s, RealLe);
    SortedMiddleRank(t, Median(s));
    CountSort(s, RealLe, Below(Median(s)));
    CountSort(s, RealLe, Above(Median(s)));
  }

  /** The worked example: per-segment factors [1, 1, 1, 5] give 1, not their mean 2. */
  lemma MedianExample()
    ensures Median([1.0, 1.0, 1.0, 5.0]) == 1.0
  {
    var s := [1.0, 1.0, 1.0, 5.0];
    assert multiset(s)[1.0] == 3;
    MedianOfMajority(s, 1.0);
  }
}
