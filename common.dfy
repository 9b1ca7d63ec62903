/** Small value helpers shared by every module of the model. */
module Common {

  /** A value that may be absent (Python's `None`). */
  datatype Option<T> = None | Some(value: T) {
    function GetOr(default: T): T {
      match this
      case Some(v) => v
      case None => default
    }
  }

  /** A chat message as the model clients and HTTP APIs take it: a dict with a role and a content. */
  datatype Turn = Turn(role: string, content: string)

  /** `random.choice(xs)`: the caller supplies the random draw as `pick`. */
  function Choose<T>(xs: seq<T>, pick: nat): (x: T)
    requires |xs| > 0
    ensures x in xs
  {
    xs[pick % |xs|]
  }

  /** The slice `s[:n]`: the first `n` elements, or all of them. */
  function Take<T>(s: seq<T>, n: nat): (r: seq<T>)
    ensures |r| == if n < |s| then n else |s|
    ensures r == s[..|r|]
  {
    if n < |s| then s[..n] else s
  }

  /** The last `n` elements, or all of them (the slice `s[-n:]` when `n` is positive). */
  function TakeLast<T>(s: seq<T>, n: nat): (r: seq<T>)
    ensures |r| == if n < |s| then n else |s|
    ensures r == s[|s| - |r|..]
  {
    if n < |s| then s[|s| - n..] else s
  }

  /** `s` is not empty and its last element is `x`. */
  predicate LastIs<T(==)>(s: seq<T>, x: T) {
    |s| > 0 && s[|s| - 1] == x
  }

  /** No element occurs twice. */
  predicate NoDup<T(==)>(s: seq<T>) {
    forall i, j :: 0 <= i < j < |s| ==> s[i] != s[j]
  }

  /** `if x not in s: s.append(x)` */
  function AddIfAbsent<T(==)>(s: seq<T>, x: T): (r: seq<T>)
    ensures s <= r && x in r
    ensures forall i :: 0 <= i < |r| ==> r[i] in s || r[i] == x
    ensures NoDup(s) ==> NoDup(r)
    ensures x in s ==> r == s
  {
    if x in s then s else s + [x]
  }

  /** Adds each element of `xs` that is missing, in order. */
  function AddAllAbsent<T(==)>(s: seq<T>, xs: seq<T>): (r: seq<T>)
    ensures s <= r
    decreases |xs|
  {
    if xs == [] then s else AddAllAbsent(AddIfAbsent(s, xs[0]), xs[1..])
  }

  /** Afterwards every element of `xs` is present, nothing else is added, and no duplicate appears. */
  lemma {:induction false} AddAllAbsentSpec<T>(s: seq<T>, xs: seq<T>)
    ensures var r := AddAllAbsent(s, xs);
      (forall i :: 0 <= i < |xs| ==> xs[i] in r)
      && (forall i :: 0 <= i < |r| ==> r[i] in s || r[i] in xs)
      && (NoDup(s) ==> NoDup(r))
    decreases |xs|
  {
    if xs != [] {
      var s' := AddIfAbsent(s, xs[0]);
      AddAllAbsentSpec(s', xs[1..]);
      var r := AddAllAbsent(s, xs);
      assert r == AddAllAbsent(s', xs[1..]);
      assert xs[0] in s' && s' <= r;
      forall i | 0 <= i < |xs| ensures xs[i] in r {
        if i > 0 {
          assert xs[i] == xs[1..][i - 1];
        }
      }
      forall i | 0 <= i < |r| ensures r[i] in s || r[i] in xs {
        assert r[i] in s' || r[i] in xs[1..];
      }
    }
  }

  /** Number of elements of `s` satisfying `p`. */
  function CountIf<T>(s: seq<T>, p: T -> bool): (n: nat)
    ensures n <= |s|
  {
    if s == [] then 0 else (if p(s[0]) then 1 else 0) + CountIf(s[1..], p)
  }

  /** `CountIf` over a concatenation is the sum of the parts. */
  lemma {:induction false} CountIfAppend<T>(a: seq<T>, b: seq<T>, p: T -> bool)
    ensures CountIf(a + b, p) == CountIf(a, p) + CountIf(b, p)
  {
    if a != [] {
      assert (a + b)[1..] == a[1..] + b;
      CountIfAppend(a[1..], b, p);
    } else {
      assert a + b == b;
    }
  }

  /** Elements of `s` satisfying `p`, in order (a list comprehension with a filter). */
  function Filter<T>(s: seq<T>, p: T -> bool): (r: seq<T>)
    ensures |r| == CountIf(s, p)
    ensures forall x :: x in r ==> x in s && p(x)
  {
    if s == [] then [] else (if p(s[0]) then [s[0]] else []) + Filter(s[1..], p)
  }

  /** Every element satisfying `p` is kept. */
  lemma {:induction false} FilterKeeps<T>(s: seq<T>, p: T -> bool, x: T)
    requires x in s && p(x)
    ensures x in Filter(s, p)
  {
    if s[0] != x {
      FilterKeeps(s[1..], p, x);
    }
  }

  /** Counts of two conditions no element meets together add up to at most the length. */
  lemma {:induction false} CountIfDisjoint<T>(s: seq<T>, p: T -> bool, q: T -> bool)
    requires forall i :: 0 <= i < |s| ==> !(p(s[i]) && q(s[i]))
    ensures CountIf(s, p) + CountIf(s, q) <= |s|
  {
    if s != [] {
      assert forall i :: 0 <= i < |s[1..]| ==> s[1..][i] == s[i + 1];
      CountIfDisjoint(s[1..], p, q);
    }
  }

  /** Filtering distributes over concatenation. */
  lemma {:induction false} FilterAppend<T>(a: seq<T>, b: seq<T>, p: T -> bool)
    ensures Filter(a + b, p) == Filter(a, p) + Filter(b, p)
  {
    if a != [] {
      assert (a + b)[1..] == a[1..] + b;
      FilterAppend(a[1..], b, p);
    } else {
      assert a + b == b;
    }
  }

  /** Filtering one more element, as a loop does. */
  lemma FilterSnoc<T>(s: seq<T>, x: T, p: T -> bool)
    ensures Filter(s + [x], p) == Filter(s, p) + (if p(x) then [x] else [])
  {
    FilterAppend(s, [x], p);
    assert Filter([x], p) == (if p(x) then [x] else []) + Filter([x][1..], p);
  }

  /** `FilterSnoc` for the prefixes a loop over `s` goes through. */
  lemma FilterStep<T>(s: seq<T>, i: nat, p: T -> bool)
    requires i < |s|
    ensures Filter(s[..i + 1], p) == Filter(s[..i], p) + (if p(s[i]) then [s[i]] else [])
  {
    assert s[..i + 1] == s[..i] + [s[i]];
    FilterSnoc(s[..i], s[i], p);
  }

  /** The index of the first element satisfying `p`, or `|s|` when none does. */
  function FirstIndex<T>(s: seq<T>, p: T -> bool): (n: nat)
    ensures n <= |s|
  {
    if s == [] || p(s[0]) then 0 else 1 + FirstIndex(s[1..], p)
  }

  /** No element before the first index satisfies `p`, and the element at it does. */
  lemma {:induction false} FirstIndexSpec<T>(s: seq<T>, p: T -> bool)
    ensures FirstIndex(s, p) < |s| ==> p(s[FirstIndex(s, p)])
    ensures forall j :: 0 <= j < FirstIndex(s, p) ==> !p(s[j])
  {
    if s != [] && !p(s[0]) {
      var rest := s[1..];
      FirstIndexSpec(rest, p);
      assert forall j :: 0 < j < |s| ==> s[j] == rest[j - 1];
    }
  }

  /** An index with no earlier element satisfying `p`, and `p` at it (or the end), is the first index. */
  lemma FirstIndexAt<T>(s: seq<T>, p: T -> bool, i: nat)
    requires i <= |s| && forall j :: 0 <= j < i ==> !p(s[j])
    requires i < |s| ==> p(s[i])
    ensures FirstIndex(s, p) == i
  {
    FirstIndexSpec(s, p);
  }

  /** A prefix of a prefix is a prefix. */
  lemma PrefixOfPrefix<T>(a: seq<T>, b: seq<T>, c: seq<T>)
    requires |a| <= |b| <= |c| && b[..|a|] == a && c[..|b|] == b
    ensures c[..|a|] == a
  {
    assert c[..|a|] == c[..|b|][..|a|];
  }

  /**
   * The position a loop over the first `n` scores ends on when it replaces
   * its best only on a strictly greater score.
   */
  function ArgMaxUpTo(scores: seq<int>, n: nat): (i: nat)
    requires 0 < n <= |scores|
    ensures i < n
  {
    if n == 1 then 0
    else
      var k := ArgMaxUpTo(scores, n - 1);
      if scores[n - 1] > scores[k] then n - 1 else k
  }

  /** That position holds a highest score, and is the first that does. */
  lemma {:induction false} ArgMaxUpToIsFirstMax(scores: seq<int>, n: nat)
    requires 0 < n <= |scores|
    ensures var i := ArgMaxUpTo(scores, n);
      (forall j :: 0 <= j < n ==> scores[j] <= scores[i])
      && (forall j :: 0 <= j < i ==> scores[j] < scores[i])
    decreases n
  {
    if n > 1 {
      ArgMaxUpToIsFirstMax(scores, n - 1);
    }
  }

  /** Python's `max` over positions by score: the first position with the highest score. */
  function ArgMax(scores: seq<int>): (i: nat)
    requires scores != []
    ensures i < |scores|
    ensures forall j :: 0 <= j < |scores| ==> scores[j] <= scores[i]
    ensures forall j :: 0 <= j < i ==> scores[j] < scores[i]
  {
    ArgMaxUpToIsFirstMax(scores, |scores|);
    ArgMaxUpTo(scores, |scores|)
  }

  /** Writing a key twice leaves the second value. */
  lemma OverwriteTwice<K, V>(m: map<K, V>, k: K, v1: V, v2: V)
    ensures m[k := v1][k := v2] == m[k := v2]
  {
  }

  /** Appending in two steps is appending the two pieces at once. */
  lemma AppendAssoc<T>(a: seq<T>, b: seq<T>, c: seq<T>)
    ensures (a + b) + c == a + (b + c)
  {
  }

  /**
   * The hour of the day of a clock reading. Clock readings are whole seconds
   * of local time, so the day starts at every multiple of 86400.
   */
  function HourOf(t: int): (h: int)
    ensures 0 <= h < 24
    ensures t % 86400 == h * 3600 + t % 3600
  {
    (t % 86400) / 3600
  }

  /** Python's `min(a, b)` on integers. */
  function Min(a: int, b: int): (m: int)
    ensures m <= a && m <= b && (m == a || m == b)
  {
    if a <= b then a else b
  }

  /** Numbers of elements, summed. */
  function Sum(s: seq<int>): int {
    if s == [] then 0 else s[0] + Sum(s[1..])
  }
}
