/**
 * Python's `sorted(xs, key=..., reverse=True)` and SQL `ORDER BY ... DESC`:
 * a stable insertion sort by a "may go first" relation.
 */
module Sorting {

  ghost predicate Total<T(!new)>(before: (T, T) -> bool) {
    forall a, b :: before(a, b) || before(b, a)
  }

  ghost predicate Transitive<T(!new)>(before: (T, T) -> bool) {
    forall a, b, c :: before(a, b) && before(b, c) ==> before(a, c)
  }

  predicate SortedBy<T>(s: seq<T>, before: (T, T) -> bool) {
    forall i, j :: 0 <= i < j < |s| ==> before(s[i], s[j])
  }

  /** Puts `x` in front of the first element it may precede. */
  function Insert<T>(x: T, s: seq<T>, before: (T, T) -> bool): (r: seq<T>)
    ensures multiset(r) == multiset(s) + multiset{x}
  {
    if s == [] || before(x, s[0]) then [x] + s
    else
      assert s == [s[0]] + s[1..];
      [s[0]] + Insert(x, s[1..], before)
  }

  /** Sorting keeps exactly the elements it is given. */
  function SortBy<T>(s: seq<T>, before: (T, T) -> bool): (r: seq<T>)
    ensures multiset(r) == multiset(s)
  {
    if s == [] then []
    else
      assert s == [s[0]] + s[1..];
      Insert(s[0], SortBy(s[1..], before), before)
  }

  lemma {:induction false} InsertSorted<T(!new)>(x: T, s: seq<T>, before: (T, T) -> bool)
    requires Total(before) && Transitive(before)
    requires SortedBy(s, before)
    ensures SortedBy(Insert(x, s, before), before)
  {
    if s != [] && !before(x, s[0]) {
      var rest := Insert(x, s[1..], before);
      InsertSorted(x, s[1..], before);
      assert before(s[0], x);
      forall i | 0 <= i < |rest| ensures before(s[0], rest[i]) {
        assert rest[i] in multiset(rest);
        assert rest[i] in multiset(s[1..]) + multiset{x};
        if rest[i] != x {
          assert rest[i] in s[1..];
        }
      }
    }
  }

  /** The sorted sequence is ordered by `before`. */
  lemma {:induction false} SortBySorted<T(!new)>(s: seq<T>, before: (T, T) -> bool)
    requires Total(before) && Transitive(before)
    ensures SortedBy(SortBy(s, before), before)
  {
    if s != [] {
      SortBySorted(s[1..], before);
      InsertSorted(s[0], SortBy(s[1..], before), before);
    }
  }

  /** `sorted(s, ...)[:n]`: the first `n` elements in `before` order. */
  function TopBy<T>(s: seq<T>, before: (T, T) -> bool, n: nat): (r: seq<T>)
    ensures |r| == if n < |s| then n else |s|
    ensures forall i :: 0 <= i < |r| ==> r[i] in s
  {
    var sorted := SortBy(s, before);
    assert |sorted| == |multiset(sorted)| == |multiset(s)| == |s|;
    var r := if n < |sorted| then sorted[..n] else sorted;
    assert forall i :: 0 <= i < |r| ==> r[i] in multiset(sorted);
    r
  }

  /**
   * The selection is ordered, and it is the best one: every element left
   * out may come after every element kept.
   */
  lemma TopBySelects<T(!new)>(s: seq<T>, before: (T, T) -> bool, n: nat)
    requires Total(before) && Transitive(before)
    ensures SortedBy(TopBy(s, before, n), before)
    ensures forall x :: x in s && x !in TopBy(s, before, n) ==>
      forall i :: 0 <= i < |TopBy(s, before, n)| ==> before(TopBy(s, before, n)[i], x)
  {
    var sorted := SortBy(s, before);
    SortBySorted(s, before);
    var r := TopBy(s, before, n);
    assert |sorted| == |multiset(sorted)| == |s|;
    assert r == sorted[..|r|];
    forall x | x in s && x !in r
      ensures forall i :: 0 <= i < |r| ==> before(r[i], x)
    {
      assert x in multiset(s);
      assert x in multiset(sorted);
      var p :| 0 <= p < |sorted| && sorted[p] == x;
    }
  }

  /** Descending by an integer count, as `key=lambda x: x[1], reverse=True`. */
  function ByCountDesc<K>(): ((K, int), (K, int)) -> bool {
    (a: (K, int), b: (K, int)) => a.1 >= b.1
  }

  lemma ByCountDescOrder<K(!new)>()
    ensures Total(ByCountDesc<K>()) && Transitive(ByCountDesc<K>())
  {
  }

  /** `sorted(d.items(), key=lambda x: x[1], reverse=True)[:n]` */
  function TopByCount<K>(entries: seq<(K, int)>, n: nat): (r: seq<(K, int)>)
    ensures |r| == if n < |entries| then n else |entries|
    ensures forall i :: 0 <= i < |r| ==> r[i] in entries
  {
    TopBy(entries, ByCountDesc<K>(), n)
  }

  /** The top entries come in descending order of count, and none left out beats them. */
  lemma TopByCountSelects<K(!new)>(entries: seq<(K, int)>, n: nat)
    ensures forall i, j :: 0 <= i < j < |TopByCount(entries, n)| ==>
      TopByCount(entries, n)[i].1 >= TopByCount(entries, n)[j].1
    ensures forall e :: e in entries && e !in TopByCount(entries, n) ==>
      forall i :: 0 <= i < |TopByCount(entries, n)| ==> TopByCount(entries, n)[i].1 >= e.1
  {
    ByCountDescOrder<K>();
    TopBySelects(entries, ByCountDesc<K>(), n);
  }
}
