/** The insertion-ordered map (`IndexMap`) the VCF header builder keeps its records in,
    as an association list: the entries in the order their keys were first inserted.

    Only what the builder uses is modelled: `insert`, which replaces the value of a key
    already present where it stands and otherwise appends a new entry, and
    `entry(key).or_default().push(value)` on a map whose values are lists. Hashing and
    the map's internal layout are not part of this model. */
module OrderedMap {
  import opened Wrappers

  /** The keys, in order. */
  function Keys<K, V>(m: seq<(K, V)>): seq<K> {
    seq(|m|, i requires 0 <= i < |m| => m[i].0)
  }

  /** No key occurs twice. */
  predicate DistinctKeys<K(==), V>(m: seq<(K, V)>) {
    forall i, j :: 0 <= i < j < |m| ==> m[i].0 != m[j].0
  }

  predicate HasKey<K(==), V>(m: seq<(K, V)>, k: K) {
    exists i :: 0 <= i < |m| && m[i].0 == k
  }

  /** The position of the first entry with key `k`. */
  function Find<K(==), V>(m: seq<(K, V)>, k: K): (r: Option<nat>)
    ensures r.None? <==> !HasKey(m, k)
    ensures r.Some? ==>
      r.value < |m| && m[r.value].0 == k && forall i :: 0 <= i < r.value ==> m[i].0 != k
  {
    if |m| == 0 then None
    else if m[0].0 == k then Some(0)
    else
      match Find(m[1..], k)
      case None => None
      case Some(i) => Some(i + 1)
  }

  /** `get`: the value stored under `k`. */
  function Get<K(==), V>(m: seq<(K, V)>, k: K): Option<V> {
    match Find(m, k)
    case None => None
    case Some(i) => Some(m[i].1)
  }

  /** The first entry holding `k` is the one `Find` reports. */
  lemma FindFirst<K, V>(m: seq<(K, V)>, k: K, i: nat)
    requires i < |m| && m[i].0 == k
    requires forall j :: 0 <= j < i ==> m[j].0 != k
    ensures Find(m, k) == Some(i)
  {
    assert HasKey(m, k);
  }

  /** The position of a key is determined by the keys alone: two lists that agree on the
      keys of `m` and whose extra entries do not hold `k` find `k` at the same place. */
  lemma FindAgrees<K, V>(m: seq<(K, V)>, r: seq<(K, V)>, k: K)
    requires |m| <= |r|
    requires forall i :: 0 <= i < |m| ==> r[i].0 == m[i].0
    requires forall i :: |m| <= i < |r| ==> r[i].0 != k
    ensures Find(r, k) == Find(m, k)
  {
    match Find(m, k)
    case None =>
      assert forall i :: 0 <= i < |r| ==> r[i].0 != k by {
        forall i | 0 <= i < |r| ensures r[i].0 != k {
          if i < |m| { assert !HasKey(m, k); assert m[i].0 != k; }
        }
      }
    case Some(i) =>
      FindFirst(r, k, i);
  }

  /** `insert`: replaces the value of a key already present, keeping its position, or
      appends a new entry. Either way `k` then maps to `v`, every other key keeps its
      value, and the order of the keys is kept, with a new key last. */
  function Insert<K(==,!new), V>(m: seq<(K, V)>, k: K, v: V): (r: seq<(K, V)>)
    ensures Get(r, k) == Some(v)
    ensures forall j :: j != k ==> Get(r, j) == Get(m, j)
    ensures HasKey(m, k) ==> Keys(r) == Keys(m)
    ensures !HasKey(m, k) ==> Keys(r) == Keys(m) + [k]
    ensures |r| == if HasKey(m, k) then |m| else |m| + 1
    ensures DistinctKeys(m) ==> DistinctKeys(r)
  {
    match Find(m, k)
    case Some(i) =>
      var r := m[i := (k, v)];
      FindAgrees(m, r, k);
      forall j | j != k ensures Get(r, j) == Get(m, j) {
        FindAgrees(m, r, j);
      }
      r
    case None =>
      var r := m + [(k, v)];
      FindFirst(r, k, |m|);
      forall j | j != k ensures Get(r, j) == Get(m, j) {
        FindAgrees(m, r, j);
      }
      r
  }

  /** The list stored under `k`, or the empty list when there is none (`or_default`). */
  function Values<K(==), V>(m: seq<(K, seq<V>)>, k: K): seq<V> {
    match Get(m, k)
    case None => []
    case Some(vs) => vs
  }

  /** `entry(k).or_default().push(v)`: `v` goes at the end of the list under `k`, which is
      created, as the last entry, when `k` is absent. */
  function Push<K(==,!new), V>(m: seq<(K, seq<V>)>, k: K, v: V): (r: seq<(K, seq<V>)>)
    ensures Values(r, k) == Values(m, k) + [v]
    ensures HasKey(r, k)
    ensures forall j :: j != k ==> Get(r, j) == Get(m, j)
    ensures HasKey(m, k) ==> Keys(r) == Keys(m)
    ensures !HasKey(m, k) ==> Keys(r) == Keys(m) + [k]
    ensures DistinctKeys(m) ==> DistinctKeys(r)
  {
    Insert(m, k, Values(m, k) + [v])
  }

  /** Inserting under a key twice keeps the second value, in the first one's place: the
      map is as if only the second insertion had happened. */
  lemma {:induction false} InsertLastWins<K(!new), V>(m: seq<(K, V)>, k: K, v1: V, v2: V)
    ensures Insert(Insert(m, k, v1), k, v2) == Insert(m, k, v2)
  {
    var m1 := Insert(m, k, v1);
    match Find(m, k)
    case Some(i) =>
      FindAgrees(m, m1, k);
      assert Insert(m1, k, v2) == m1[i := (k, v2)];
    case None =>
      assert m1 == m + [(k, v1)];
      assert Find(m1, k) == Some(|m|) by {
        FindAgrees(m, m[..], k);
      }
      assert Insert(m1, k, v2) == m1[|m| := (k, v2)];
  }

  /** Reinserting a value under its own key changes nothing. */
  lemma InsertIdempotent<K(!new), V>(m: seq<(K, V)>, k: K, v: V)
    ensures Insert(Insert(m, k, v), k, v) == Insert(m, k, v)
  {
    InsertLastWins(m, k, v, v);
  }

  /** Two insertions under distinct keys into an empty map give two entries in insertion
      order; a third under the first key leaves two. */
  lemma InsertTwoKeys<K(!new), V>(k1: K, v1: V, k2: K, v2: V, v3: V)
    requires k1 != k2
    ensures Insert(Insert([], k1, v1), k2, v2) == [(k1, v1), (k2, v2)]
    ensures Insert(Insert(Insert([], k1, v1), k2, v2), k1, v3) == [(k1, v3), (k2, v2)]
  {
    var m: seq<(K, V)> := [(k1, v1), (k2, v2)];
    assert Find(m, k1) == Some(0);
  }

  /** Pushing the same value twice under one key of an empty map stores it twice. */
  lemma PushTwice<K(!new), V>(k: K, v: V)
    ensures Get(Push(Push([], k, v), k, v), k) == Some([v, v])
    ensures Keys(Push(Push([], k, v), k, v)) == [k]
  {
    var m := Push(Push([], k, v), k, v);
    assert Values(m, k) == [v, v];
    assert Find(m, k).Some?;
  }
}
