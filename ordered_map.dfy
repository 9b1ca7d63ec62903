/**
 * Python dictionaries whose iteration order matters: a sequence of
 * (key, value) entries, in insertion order. Assigning to an existing key
 * keeps its position; a new key goes to the end.
 */
module OrderedMap {
  import opened Common

  function Keys<K, V>(m: seq<(K, V)>): (ks: seq<K>)
    ensures |ks| == |m|
    ensures forall i :: 0 <= i < |m| ==> ks[i] == m[i].0
  {
    if m == [] then [] else [m[0].0] + Keys(m[1..])
  }

  /** Keys are distinct, as in a dictionary. */
  predicate Valid<K(==), V>(m: seq<(K, V)>) { NoDup(Keys(m)) }

  predicate HasKey<K(==), V>(m: seq<(K, V)>, k: K) { k in Keys(m) }

  /** Position of the entry for `k`. */
  function IndexOf<K(==), V>(m: seq<(K, V)>, k: K): (i: nat)
    requires HasKey(m, k)
    ensures i < |m| && m[i].0 == k
    ensures forall j :: 0 <= j < i ==> m[j].0 != k
  {
    if m[0].0 == k then 0 else 1 + IndexOf(m[1..], k)
  }

  /** `d.get(k)` */
  function Get<K(==), V>(m: seq<(K, V)>, k: K): (r: Option<V>)
    ensures r.Some? <==> HasKey(m, k)
  {
    if HasKey(m, k) then Some(m[IndexOf(m, k)].1) else None
  }

  /** `d.get(k, d)` */
  function GetOr<K(==), V>(m: seq<(K, V)>, k: K, default: V): V {
    Get(m, k).GetOr(default)
  }

  /** `d[k] = v` */
  function Put<K(==,!new), V>(m: seq<(K, V)>, k: K, v: V): (r: seq<(K, V)>)
    ensures Get(r, k) == Some(v)
    ensures forall k' :: k' != k ==> Get(r, k') == Get(m, k')
    ensures Keys(r) == if HasKey(m, k) then Keys(m) else Keys(m) + [k]
    ensures Valid(m) ==> Valid(r)
  {
    if HasKey(m, k) then
      var i := IndexOf(m, k);
      var r := m[i := (k, v)];
      assert Keys(r) == Keys(m);
      PutLookups(m, i, k, v);
      r
    else
      var r := m + [(k, v)];
      assert Keys(r) == Keys(m) + [k];
      AppendLookups(m, k, v);
      r
  }

  /** Assigning a key twice is assigning the second value. */
  lemma PutPut<K(!new), V>(m: seq<(K, V)>, k: K, v: V, w: V)
    ensures Put(Put(m, k, v), k, w) == Put(m, k, w)
  {
    if HasKey(m, k) {
      var i := IndexOf(m, k);
      var r := m[i := (k, v)];
      IndexOfUnique(r, k, i);
    } else {
      var r := m + [(k, v)];
      forall j | 0 <= j < |m| ensures r[j].0 != k {
        assert Keys(m)[j] == m[j].0;
      }
      IndexOfUnique(r, k, |m|);
      assert r[|m| := (k, w)] == m + [(k, w)];
    }
  }

  lemma PutLookups<K, V>(m: seq<(K, V)>, i: nat, k: K, v: V)
    requires HasKey(m, k) && i == IndexOf(m, k)
    ensures Get(m[i := (k, v)], k) == Some(v)
    ensures forall k' :: k' != k ==> Get(m[i := (k, v)], k') == Get(m, k')
  {
    var r := m[i := (k, v)];
    assert Keys(r) == Keys(m);
    assert IndexOf(r, k) == i by { IndexOfUnique(r, k, i); }
    forall k' | k' != k ensures Get(r, k') == Get(m, k') {
      if HasKey(m, k') {
        var j := IndexOf(m, k');
        assert j != i;
        IndexOfUnique(r, k', j);
      }
    }
  }

  lemma AppendLookups<K, V>(m: seq<(K, V)>, k: K, v: V)
    requires !HasKey(m, k)
    ensures Get(m + [(k, v)], k) == Some(v)
    ensures forall k' :: k' != k ==> Get(m + [(k, v)], k') == Get(m, k')
  {
    var r := m + [(k, v)];
    assert Keys(r) == Keys(m) + [k];
    IndexOfUnique(r, k, |m|);
    forall k' | k' != k ensures Get(r, k') == Get(m, k') {
      if HasKey(m, k') {
        IndexOfUnique(r, k', IndexOf(m, k'));
      }
    }
  }

  /** The first entry with key `k` is at `i`. */
  lemma IndexOfUnique<K, V>(m: seq<(K, V)>, k: K, i: nat)
    requires i < |m| && m[i].0 == k
    requires forall j :: 0 <= j < i ==> m[j].0 != k
    ensures HasKey(m, k) && IndexOf(m, k) == i
  {
    assert Keys(m)[i] == k;
    var j := IndexOf(m, k);
  }

  /** Looking up in a non-empty map: the first entry, or the rest. */
  lemma GetCons<K, V>(m: seq<(K, V)>, k: K)
    requires m != []
    ensures Get(m, k) == if m[0].0 == k then Some(m[0].1) else Get(m[1..], k)
  {
    assert Keys(m) == [m[0].0] + Keys(m[1..]);
  }

  /** `del d[k]`: the other entries keep their order. */
  function Remove<K(==,!new), V>(m: seq<(K, V)>, k: K): (r: seq<(K, V)>)
    ensures !HasKey(r, k)
    ensures forall k' :: k' != k ==> Get(r, k') == Get(m, k')
    ensures forall e :: e in r ==> e in m
    ensures Valid(m) ==> Valid(r)
  {
    if m == [] then []
    else
      var rest := Remove(m[1..], k);
      RemoveStepLookups(m, k, rest);
      RemoveStepValid(m, k, rest);
      if m[0].0 == k then rest else [m[0]] + rest
  }

  /** One step of `Remove`: the lookups. */
  lemma RemoveStepLookups<K(!new), V>(m: seq<(K, V)>, k: K, rest: seq<(K, V)>)
    requires m != [] && !HasKey(rest, k)
    requires forall k' :: k' != k ==> Get(rest, k') == Get(m[1..], k')
    ensures var r := if m[0].0 == k then rest else [m[0]] + rest;
      !HasKey(r, k) && forall k' :: k' != k ==> Get(r, k') == Get(m, k')
  {
    forall k' ensures Get(m, k') == if m[0].0 == k' then Some(m[0].1) else Get(m[1..], k') { GetCons(m, k'); }
    if m[0].0 != k {
      var r := [m[0]] + rest;
      assert r[1..] == rest;
      assert Keys(r) == [m[0].0] + Keys(rest);
      forall k' ensures Get(r, k') == if m[0].0 == k' then Some(m[0].1) else Get(rest, k') { GetCons(r, k'); }
    }
  }

  /** One step of `Remove`: the keys stay distinct. */
  lemma RemoveStepValid<K, V>(m: seq<(K, V)>, k: K, rest: seq<(K, V)>)
    requires m != []
    requires forall e :: e in rest ==> e in m[1..]
    requires Valid(m[1..]) ==> Valid(rest)
    ensures var r := if m[0].0 == k then rest else [m[0]] + rest;
      (forall e :: e in r ==> e in m) && (Valid(m) ==> Valid(r))
  {
    var r := if m[0].0 == k then rest else [m[0]] + rest;
    assert forall e :: e in m[1..] ==> e in m;
    if Valid(m) {
      assert Keys(m) == [m[0].0] + Keys(m[1..]);
      assert Valid(m[1..]);
      if m[0].0 != k {
        forall i | 0 <= i < |rest| ensures rest[i].0 != m[0].0 {
          assert rest[i] in m[1..];
          var j :| 0 <= j < |m[1..]| && m[1..][j] == rest[i];
          assert Keys(m)[j + 1] == rest[i].0;
        }
        assert Keys(r) == [m[0].0] + Keys(rest);
      }
    }
  }

  // -------------------------------------------------------------- counters

  /** `d[k] = d.get(k, 0) + 1` */
  function Increment<K(==,!new)>(m: seq<(K, int)>, k: K): (r: seq<(K, int)>)
    ensures GetOr(r, k, 0) == GetOr(m, k, 0) + 1
    ensures forall k' :: k' != k ==> Get(r, k') == Get(m, k')
    ensures Valid(m) ==> Valid(r)
  {
    Put(m, k, GetOr(m, k, 0) + 1)
  }

  /** Number of times `k` occurs in `ks`. */
  function Occurrences<K(==)>(ks: seq<K>, k: K): nat {
    if ks == [] then 0 else (if ks[0] == k then 1 else 0) + Occurrences(ks[1..], k)
  }

  /** `for k in ks: d[k] = d.get(k, 0) + 1` */
  function IncrementAll<K(==,!new)>(m: seq<(K, int)>, ks: seq<K>): (r: seq<(K, int)>)
    ensures Valid(m) ==> Valid(r)
    decreases |ks|
  {
    if ks == [] then m else IncrementAll(Increment(m, ks[0]), ks[1..])
  }

  /** Each counter grows by the number of times its key occurs in `ks`. */
  lemma {:induction false} IncrementAllCounts<K(!new)>(m: seq<(K, int)>, ks: seq<K>, k: K)
    ensures GetOr(IncrementAll(m, ks), k, 0) == GetOr(m, k, 0) + Occurrences(ks, k)
    ensures Occurrences(ks, k) == 0 ==> Get(IncrementAll(m, ks), k) == Get(m, k)
    decreases |ks|
  {
    if ks != [] {
      IncrementAllCounts(Increment(m, ks[0]), ks[1..], k);
    }
  }

  /** Extending the sequence of keys one at a time, as a loop does. */
  lemma {:induction false} IncrementAllSnoc<K(!new)>(m: seq<(K, int)>, ks: seq<K>, k: K)
    ensures IncrementAll(m, ks + [k]) == Increment(IncrementAll(m, ks), k)
    decreases |ks|
  {
    if ks == [] {
      assert ks + [k] == [k];
    } else {
      assert (ks + [k])[1..] == ks[1..] + [k];
      IncrementAllSnoc(Increment(m, ks[0]), ks[1..], k);
    }
  }

  /** The values, in entry order. */
  function Values<K, V>(m: seq<(K, V)>): (vs: seq<V>)
    ensures |vs| == |m|
    ensures forall i :: 0 <= i < |m| ==> vs[i] == m[i].1
  {
    if m == [] then [] else [m[0].1] + Values(m[1..])
  }
}
