/** The value cache of pkg/cache/cache.go: expiry checked on reads, LRU storage when a capacity is set, a plain
    map when not. Times are positive numbers; zero is Go's zero time, which means no deadline. */
module Cache {
  import opened Collections

  datatype Entry<V> = Entry(value: V, expiresAt: nat)

  predicate Expired<V>(e: Entry<V>, now: nat) {
    e.expiresAt != 0 && now >= e.expiresAt
  }

  /** `capacity == 0` is the unbounded form: a map, and no order. Otherwise `order` lists the keys, the most
      recently used first. */
  datatype Storage<K, V> = Storage(capacity: nat, table: map<K, Entry<V>>, order: seq<K>)

  function Touch<K(==), V>(s: Storage<K, V>, k: K): Storage<K, V> {
    if s.capacity == 0 then s else s.(order := [k] + Unlink(s.order, k))
  }

  function Drop<K(==), V>(s: Storage<K, V>, k: K): Storage<K, V> {
    s.(table := s.table - {k}, order := Unlink(s.order, k))
  }

  /** Adding may evict the least recently used key. */
  function Put<K(==), V>(s: Storage<K, V>, k: K, e: Entry<V>): Storage<K, V> {
    var s' := Touch(s.(table := s.table[k := e]), k);
    if s.capacity > 0 && |s'.order| > s.capacity then
      var n := |s'.order| - 1;
      s'.(table := s'.table - {s'.order[n]}, order := s'.order[..n])
    else s'
  }

  datatype Call<K, V> =
    | Read(key: K)
    | Set(key: K, value: V)
    | SetUntil(key: K, value: V, expiresAt: nat)
    | Remove(key: K)

  /** What a call stores, if anything: an already expired value is rejected. */
  function Written<K, V>(ttl: nat, a: Call<K, V>, now: nat): Option<Entry<V>> {
    match a
    case Set(_, v) => Some(Entry(v, if ttl > 0 then now + ttl else 0))
    case SetUntil(_, v, d) => if Expired(Entry(v, d), now) then None else Some(Entry(v, d))
    case _ => None
  }

  /** A read hits when there is an entry and its deadline lies ahead. */
  function Hit<K, V>(s: Storage<K, V>, k: K, now: nat): Option<V> {
    if k in s.table && !Expired(s.table[k], now) then Some(s.table[k].value) else None
  }

  function After<K(==), V>(ttl: nat, s: Storage<K, V>, a: Call<K, V>, now: nat): Storage<K, V> {
    match a
    case Read(k) => if k !in s.table then s else if Expired(s.table[k], now) then Drop(s, k) else Touch(s, k)
    case Remove(k) => Drop(s, k)
    case _ =>
      var w := Written(ttl, a, now);
      if w.Some? then Put(s, a.key, w.value) else s
  }

  // ----- the reference: a map of last writes -----

  function Noted<K, V>(ttl: nat, m: map<K, Entry<V>>, a: Call<K, V>, now: nat): map<K, Entry<V>> {
    if a.Remove? then m - {a.key}
    else
      var w := Written(ttl, a, now);
      if w.Some? then m[a.key := w.value] else m
  }

  ghost predicate Within<K(!new), V>(a: map<K, Entry<V>>, b: map<K, Entry<V>>) {
    forall k | k in a :: k in b && b[k] == a[k]
  }

  /** Storage and reference are driven by the same calls, at times that never go back. `used` has, per key, the number
      of the last call that wrote it or hit it. */
  datatype State<K, V> = State(store: Storage<K, V>, noted: map<K, Entry<V>>, clock: nat, calls: nat, used: map<K, nat>)

  /** Whether the call is a use of its key: an accepted write, or a hit. */
  predicate Uses<K, V>(ttl: nat, s: Storage<K, V>, a: Call<K, V>, now: nat) {
    Written(ttl, a, now).Some? || (a.Read? && Hit(s, a.key, now).Some?)
  }

  /** Everything stored was written last, and whatever the unbounded form lacks is past its deadline. */
  ghost predicate Inv<K(!new), V>(s: State<K, V>) {
    && Within(s.store.table, s.noted)
    && (s.store.capacity == 0 ==>
          forall k | k in s.noted :: k in s.store.table || Expired(s.noted[k], s.clock))
  }

  function Step<K(==), V>(ttl: nat, s: State<K, V>, a: Call<K, V>, now: nat): State<K, V> {
    State(After(ttl, s.store, a, now), Noted(ttl, s.noted, a, now), now, s.calls + 1,
          if Uses(ttl, s.store, a, now) then s.used[a.key := s.calls] else s.used)
  }

  lemma StepKeepsInv<K(!new), V>(ttl: nat, s: State<K, V>, a: Call<K, V>, now: nat)
    requires Inv(s) && s.clock <= now
    ensures Inv(Step(ttl, s, a, now))
  {
  }

  datatype Timed<K, V> = Timed(call: Call<K, V>, now: nat)

  ghost predicate Reaches<K(!new), V(!new)>(ttl: nat, s: State<K, V>, calls: seq<Timed<K, V>>, s': State<K, V>)
    decreases calls
  {
    if calls == [] then s == s'
    else s.clock <= calls[0].now && Reaches(ttl, Step(ttl, s, calls[0].call, calls[0].now), calls[1..], s')
  }

  lemma {:induction false} RunKeepsInv<K(!new), V(!new)>(ttl: nat, s: State<K, V>, calls: seq<Timed<K, V>>,
                                                         s': State<K, V>)
    requires Inv(s) && Reaches(ttl, s, calls, s')
    ensures Inv(s')
    decreases calls
  {
    if calls != [] {
      StepKeepsInv(ttl, s, calls[0].call, calls[0].now);
      RunKeepsInv(ttl, Step(ttl, s, calls[0].call, calls[0].now), calls[1..], s');
    }
  }

  function Empty<K, V>(capacity: nat, now: nat): State<K, V> {
    State(Storage(capacity, map[], []), map[], now, 0, map[])
  }

  /** After any calls: a hit is the last accepted write of its key, not removed since and before its deadline.
      Without a capacity the converse holds too: every such write hits. */
  lemma HitsAreLastWrites<K(!new), V(!new)>(ttl: nat, capacity: nat, t0: nat, calls: seq<Timed<K, V>>,
                                               s: State<K, V>, k: K, now: nat)
    requires Reaches(ttl, Empty(capacity, t0), calls, s) && s.clock <= now
    ensures forall v :: Hit(s.store, k, now) == Some(v) ==>
              k in s.noted && s.noted[k].value == v && !Expired(s.noted[k], now)
    ensures capacity == 0 && k in s.noted && !Expired(s.noted[k], now) ==>
              Hit(s.store, k, now) == Some(s.noted[k].value)
  {
    RunKeepsInv(ttl, Empty(capacity, t0), calls, s);
    CapacityIsConstant(ttl, Empty(capacity, t0), calls, s);
  }

  lemma {:induction false} CapacityIsConstant<K(!new), V(!new)>(ttl: nat, s: State<K, V>, calls: seq<Timed<K, V>>,
                                                                s': State<K, V>)
    requires Reaches(ttl, s, calls, s')
    ensures s'.store.capacity == s.store.capacity
    decreases calls
  {
    if calls != [] { CapacityIsConstant(ttl, Step(ttl, s, calls[0].call, calls[0].now), calls[1..], s'); }
  }

  /** The reference does not depend on the storage. */
  lemma {:induction false} SameNotes<K(!new), V(!new)>(ttl: nat, a: State<K, V>, b: State<K, V>,
                                                          calls: seq<Timed<K, V>>, a': State<K, V>, b': State<K, V>)
    requires a.noted == b.noted && a.clock == b.clock
    requires Reaches(ttl, a, calls, a') && Reaches(ttl, b, calls, b')
    ensures a'.noted == b'.noted && a'.clock == b'.clock
    decreases calls
  {
    if calls != [] {
      var first := calls[0];
      SameNotes(ttl, Step(ttl, a, first.call, first.now), Step(ttl, b, first.call, first.now), calls[1..], a', b');
    }
  }

  /** Driven by the same calls, the bounded form differs from the unbounded one by extra misses only. */
  lemma BoundedOnlyMisses<K(!new), V(!new)>(ttl: nat, capacity: nat, t0: nat, calls: seq<Timed<K, V>>,
                                               bounded: State<K, V>, unbounded: State<K, V>, k: K, now: nat)
    requires Reaches(ttl, Empty(capacity, t0), calls, bounded)
    requires Reaches(ttl, Empty(0, t0), calls, unbounded) && unbounded.clock <= now
    ensures Hit(bounded.store, k, now).Some? ==> Hit(unbounded.store, k, now) == Hit(bounded.store, k, now)
  {
    SameNotes(ttl, Empty(capacity, t0), Empty(0, t0), calls, bounded, unbounded);
    HitsAreLastWrites(ttl, capacity, t0, calls, bounded, k, now);
    HitsAreLastWrites(ttl, 0, t0, calls, unbounded, k, now);
  }

  // ----- the order of the bounded form -----

  /** The order lists every stored key once. */
  ghost predicate Lists<K(!new), V>(s: Storage<K, V>) {
    Distinct(s.order) && forall k :: k in s.order <==> k in s.table
  }

  /** The order lists every stored key once, and no more of them than the capacity allows. */
  ghost predicate OrderOk<K(!new), V>(s: Storage<K, V>) {
    s.capacity > 0 ==> Lists(s) && |s.order| <= s.capacity
  }

  lemma DropLast<K(!new)>(q: seq<K>)
    requires q != [] && Distinct(q)
    ensures var n := |q| - 1;
            Distinct(q[..n]) && forall x :: x in q[..n] <==> x in q && x != q[n]
  {
    var n := |q| - 1;
    assert q == q[..n] + [q[n]];
  }

  lemma TouchMembers<K(!new)>(q: seq<K>, k: K)
    requires Distinct(q)
    ensures var q' := [k] + Unlink(q, k);
            && Distinct(q') && (forall x :: x in q' <==> x == k || x in q)
            && |q'| == if k in q then |q| else |q| + 1
  {
    UnlinkMembers(q, k);
  }

  lemma TouchLists<K(!new), V>(s: Storage<K, V>, k: K, e: Entry<V>)
    requires s.capacity > 0 && Lists(s)
    ensures var s' := Touch(s.(table := s.table[k := e]), k);
            Lists(s') && s'.order[0] == k && |s'.order| <= |s.order| + 1
  {
    TouchMembers(s.order, k);
  }

  lemma EvictLists<K(!new), V>(s: Storage<K, V>)
    requires Lists(s) && |s.order| > 1
    ensures var n := |s.order| - 1;
            var s' := s.(table := s.table - {s.order[n]}, order := s.order[..n]);
            Lists(s') && s'.order[0] == s.order[0] && s.order[0] in s'.table
  {
    DropLast(s.order);
    assert s.order[0] in s.order;
  }

  /** The key just added is never the one evicted. */
  lemma PutOrder<K(!new), V>(s: Storage<K, V>, k: K, e: Entry<V>)
    requires OrderOk(s)
    ensures OrderOk(Put(s, k, e)) && k in Put(s, k, e).table
  {
    if s.capacity > 0 {
      TouchLists(s, k, e);
      var s' := Touch(s.(table := s.table[k := e]), k);
      if |s'.order| > s.capacity { EvictLists(s'); }
    }
  }

  lemma OrderStep<K(!new), V>(ttl: nat, s: Storage<K, V>, a: Call<K, V>, now: nat)
    requires OrderOk(s)
    ensures OrderOk(After(ttl, s, a, now))
  {
    if s.capacity > 0 {
      UnlinkMembers(s.order, a.key);
      var w := Written(ttl, a, now);
      if w.Some? { PutOrder(s, a.key, w.value); }
    }
  }

  /** The order goes from the most to the least recently used key. */
  ghost predicate ByRecency<K(!new)>(order: seq<K>, used: map<K, nat>) {
    order != [] ==>
      && order[0] in used
      && (forall x | x in order[1..] :: x in used && used[x] < used[order[0]])
      && ByRecency(order[1..], used)
  }

  lemma {:induction false} UnlinkRecency<K(!new)>(q: seq<K>, k: K, used: map<K, nat>)
    requires Distinct(q) && ByRecency(q, used)
    ensures ByRecency(Unlink(q, k), used)
  {
    if q != [] && q[0] != k {
      UnlinkMembers(q[1..], k);
      UnlinkRecency(q[1..], k, used);
      assert Unlink(q, k)[1..] == Unlink(q[1..], k);
    }
  }

  lemma {:induction false} OtherUse<K(!new)>(q: seq<K>, k: K, used: map<K, nat>, n: nat)
    requires ByRecency(q, used) && k !in q
    ensures ByRecency(q, used[k := n])
  {
    if q != [] { OtherUse(q[1..], k, used, n); }
  }

  lemma {:induction false} InitRecency<K(!new)>(q: seq<K>, used: map<K, nat>)
    requires q != [] && ByRecency(q, used)
    ensures ByRecency(q[..|q| - 1], used)
  {
    if |q| > 1 {
      InitRecency(q[1..], used);
      assert q[..|q| - 1][1..] == q[1..][..|q[1..]| - 1];
    }
  }

  /** The last key of the order is the least recently used one. */
  lemma {:induction false} LastIsOldest<K(!new)>(q: seq<K>, used: map<K, nat>, y: K)
    requires ByRecency(q, used) && y in q
    ensures q[|q| - 1] in used && y in used && (y == q[|q| - 1] || used[q[|q| - 1]] < used[y])
  {
    if |q| > 1 {
      if y == q[0] {
        assert q[|q| - 1] in q[1..];
      } else {
        LastIsOldest(q[1..], used, y);
      }
    }
  }

  lemma TouchRecency<K(!new)>(q: seq<K>, k: K, used: map<K, nat>, n: nat)
    requires Distinct(q) && ByRecency(q, used) && forall x | x in q :: x in used && used[x] < n
    ensures ByRecency([k] + Unlink(q, k), used[k := n])
  {
    UnlinkMembers(q, k);
    UnlinkRecency(q, k, used);
    OtherUse(Unlink(q, k), k, used, n);
    assert ([k] + Unlink(q, k))[1..] == Unlink(q, k);
  }

  ghost predicate Recent<K(!new)>(order: seq<K>, used: map<K, nat>, calls: nat) {
    ByRecency(order, used) && forall k | k in order :: k in used && used[k] < calls
  }

  lemma PutRecent<K(!new), V>(s: Storage<K, V>, k: K, e: Entry<V>, used: map<K, nat>, calls: nat)
    requires s.capacity > 0 && Distinct(s.order) && Recent(s.order, used, calls)
    ensures Recent(Put(s, k, e).order, used[k := calls], calls + 1)
  {
    TouchRecency(s.order, k, used, calls);
    UnlinkMembers(s.order, k);
    InitRecency([k] + Unlink(s.order, k), used[k := calls]);
  }

  lemma DropRecent<K(!new)>(q: seq<K>, k: K, used: map<K, nat>, calls: nat)
    requires Distinct(q) && Recent(q, used, calls)
    ensures Recent(Unlink(q, k), used, calls + 1)
  {
    UnlinkMembers(q, k);
    UnlinkRecency(q, k, used);
  }

  lemma RecentStep<K(!new), V>(ttl: nat, s: State<K, V>, a: Call<K, V>, now: nat)
    requires s.store.capacity > 0 && OrderOk(s.store) && Recent(s.store.order, s.used, s.calls)
    ensures Recent(Step(ttl, s, a, now).store.order, Step(ttl, s, a, now).used, s.calls + 1)
  {
    var w := Written(ttl, a, now);
    if w.Some? {
      PutRecent(s.store, a.key, w.value, s.used, s.calls);
    } else {
      DropRecent(s.store.order, a.key, s.used, s.calls);
      TouchRecency(s.store.order, a.key, s.used, s.calls);
      UnlinkMembers(s.store.order, a.key);
    }
  }

  lemma {:induction false} RunKeepsRecent<K(!new), V(!new)>(ttl: nat, s: State<K, V>, calls: seq<Timed<K, V>>,
                                                            s': State<K, V>)
    requires s.store.capacity > 0 && OrderOk(s.store) && Recent(s.store.order, s.used, s.calls)
    requires Reaches(ttl, s, calls, s')
    ensures s'.store.capacity == s.store.capacity && OrderOk(s'.store) && Recent(s'.store.order, s'.used, s'.calls)
    decreases calls
  {
    if calls != [] {
      RecentStep(ttl, s, calls[0].call, calls[0].now);
      OrderStep(ttl, s.store, calls[0].call, calls[0].now);
      RunKeepsRecent(ttl, Step(ttl, s, calls[0].call, calls[0].now), calls[1..], s');
    }
  }

  lemma {:induction false} UnlinkLength<K>(q: seq<K>, k: K)
    ensures |Unlink(q, k)| == if k in q then |q| - 1 else |q|
  {
    if q != [] {
      assert q == [q[0]] + q[1..];
      UnlinkLength(q[1..], k);
    }
  }

  /** A write takes away at most the last key of a full order that does not list the written key. */
  lemma PutEvicts<K(!new), V>(s: Storage<K, V>, k: K, e: Entry<V>)
    requires s.capacity > 0 && |s.order| <= s.capacity
    ensures Put(s, k, e).table ==
            if k in s.order || |s.order| < s.capacity then s.table[k := e]
            else s.table[k := e] - {s.order[|s.order| - 1]}
  {
    UnlinkLength(s.order, k);
    if k !in s.order {
      UnlinkAbsent(s.order, k);
      assert |s.order| > 0 ==> ([k] + s.order)[|s.order|] == s.order[|s.order| - 1];
    }
  }

  /** A key lost to a write of another key is the last of a full order that does not list the written key. */
  lemma LostToPut<K(!new), V>(s: Storage<K, V>, k: K, e: Entry<V>, x: K)
    requires s.capacity > 0 && OrderOk(s) && x in s.table && x != k && x !in Put(s, k, e).table
    ensures |s.order| == s.capacity && k !in s.table && x == s.order[|s.order| - 1]
  {
    PutEvicts(s, k, e);
  }

  /** After any calls: a call that loses a key other than its own is an accepted write of a new key into a full cache,
      and the key lost was used less recently than every key that stays. */
  lemma EvictsLeastRecentlyUsed<K(!new), V(!new)>(ttl: nat, capacity: nat, t0: nat, calls: seq<Timed<K, V>>,
                                                     s: State<K, V>, a: Call<K, V>, now: nat, x: K, y: K)
    requires Reaches(ttl, Empty(capacity, t0), calls, s) && capacity > 0
    requires x in s.store.table && x != a.key && x !in After(ttl, s.store, a, now).table
    requires y in s.store.table && y != x
    ensures |s.store.order| == capacity && Written(ttl, a, now).Some? && a.key !in s.store.table
    ensures x in s.used && y in s.used && s.used[x] < s.used[y]
  {
    RunKeepsRecent(ttl, Empty(capacity, t0), calls, s);
    LostToPut(s.store, a.key, Written(ttl, a, now).value, x);
    LastIsOldest(s.store.order, s.used, y);
  }

  class ValueCache<K(==,!new), V(!new)> {
    const ttl: nat
    var store: Storage<K, V>

    constructor (capacity: nat, ttl: nat)
      ensures store == Storage(capacity, map[], []) && this.ttl == ttl && OrderOk(store)
    {
      store := Storage(capacity, map[], []);
      this.ttl := ttl;
    }

    /** Promotes a live entry without extending it; removes an expired one. */
    method GetValue(k: K, now: nat) returns (r: Option<V>)
      requires OrderOk(store)
      modifies this
      ensures r == old(Hit(store, k, now))
      ensures store == After(ttl, old(store), Read(k), now) && OrderOk(store)
    {
      OrderStep(ttl, store, Read(k), now);
      r := None;
      if k in store.table {
        if Expired(store.table[k], now) {
          store := Drop(store, k);
        } else {
          r := Some(store.table[k].value);
          store := Touch(store, k);
        }
      }
    }

    method SetValue(k: K, v: V, now: nat)
      requires OrderOk(store)
      modifies this
      ensures store == After(ttl, old(store), Set(k, v), now) && OrderOk(store)
    {
      OrderStep(ttl, store, Set(k, v), now);
      var expiresAt := 0;
      if ttl > 0 { expiresAt := now + ttl; }
      store := Put(store, k, Entry(v, expiresAt));
    }

    method SetWithExpiration(k: K, v: V, expiresAt: nat, now: nat) returns (accepted: bool)
      requires OrderOk(store)
      modifies this
      ensures store == After(ttl, old(store), SetUntil(k, v, expiresAt), now) && OrderOk(store)
      ensures accepted <==> expiresAt == 0 || now < expiresAt
    {
      OrderStep(ttl, store, SetUntil(k, v, expiresAt), now);
      if expiresAt != 0 && now >= expiresAt { return false; }
      store := Put(store, k, Entry(v, expiresAt));
      return true;
    }

    method RemoveValue(k: K)
      requires OrderOk(store)
      modifies this
      ensures store == After(ttl, old(store), Remove(k), 0) && OrderOk(store)
    {
      OrderStep(ttl, store, Remove(k), 0);
      store := Drop(store, k);
    }
  }
}
