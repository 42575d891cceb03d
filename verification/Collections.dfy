/** Small value-level building blocks shared by the models of the packages. */
module Collections {

  datatype Option<+T> = None | Some(value: T)

  /** A lookup that turns a missing key into `None`, as Go's two-result map read. */
  function Get<K, V>(m: map<K, V>, k: K): Option<V> {
    if k in m then Some(m[k]) else None
  }

  // ----- maps of sets: the shape of every index and reverse index -----

  type MultiMap<B, K> = map<B, set<K>>

  predicate Holds<B, K>(m: MultiMap<B, K>, b: B, k: K) {
    b in m && k in m[b]
  }

  /** No bucket is left behind empty. */
  ghost predicate Tidy<B(!new), K>(m: MultiMap<B, K>) {
    forall b | b in m :: m[b] != {}
  }

  /** Adds `k` to bucket `b`, creating the bucket when it does not exist. */
  function InsertOrNew<B(!new), K(!new)>(m: MultiMap<B, K>, b: B, k: K): (r: MultiMap<B, K>)
    ensures forall b', k' :: Holds(r, b', k') <==> Holds(m, b', k') || (b' == b && k' == k)
    ensures Tidy(m) ==> Tidy(r)
  {
    if b in m then m[b := m[b] + {k}] else m[b := {k}]
  }

  /** Removes `k` from bucket `b`, dropping the bucket with its last member. */
  function DeleteCleanupLast<B(!new), K(!new)>(m: MultiMap<B, K>, b: B, k: K): (r: MultiMap<B, K>)
    ensures forall b', k' :: Holds(r, b', k') <==> Holds(m, b', k') && !(b' == b && k' == k)
    ensures Tidy(m) ==> Tidy(r)
  {
    if b !in m then m
    else
      assert forall k' | k' in m[b] :: k' == k || k' in m[b] - {k};
      if m[b] - {k} == {} then m - {b} else m[b := m[b] - {k}]
  }

  // ----- map algebra -----

  lemma DropOneMore<K, V>(m: map<K, V>, gone: set<K>, k: K)
    ensures (m - gone) - {k} == m - (gone + {k})
  {
  }

  lemma PutOneMore<K, V>(m: map<K, V>, n: map<K, V>, k: K, v: V)
    ensures (m + n)[k := v] == m + n[k := v]
  {
  }

  /** Dropping only what will not be written again is as good as dropping everything. */
  lemma DropStaleThenPut<K, V>(m: map<K, V>, dropped: set<K>, n: map<K, V>)
    ensures (m - (dropped - n.Keys)) + n == (m - dropped) + n
  {
  }

  // ----- lists without repetitions: the order kept by an LRU -----

  predicate Distinct<K(==)>(q: seq<K>) {
    forall i, j | 0 <= i < j < |q| :: q[i] != q[j]
  }

  function Unlink<K(==)>(q: seq<K>, k: K): seq<K> {
    if q == [] then [] else if q[0] == k then q[1..] else [q[0]] + Unlink(q[1..], k)
  }

  lemma {:induction false} UnlinkMembers<K(!new)>(q: seq<K>, k: K)
    requires Distinct(q)
    ensures Distinct(Unlink(q, k))
    ensures forall x :: x in Unlink(q, k) <==> x in q && x != k
    ensures |Unlink(q, k)| == if k in q then |q| - 1 else |q|
  {
    if q != [] {
      assert q == [q[0]] + q[1..];
      UnlinkMembers(q[1..], k);
      assert q[0] !in Unlink(q[1..], k);
    }
  }

  lemma {:induction false} UnlinkAbsent<K(!new)>(q: seq<K>, k: K)
    requires k !in q
    ensures Unlink(q, k) == q
  {
    if q != [] { UnlinkAbsent(q[1..], k); }
  }
}
