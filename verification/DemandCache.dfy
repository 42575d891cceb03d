/** The lease-retaining LRU of pkg/demandcache/cache.go: entries pinned while a demand is in flight,
    idle expiry, capacity eviction, leases ended by their source, orphaned entries, shutdown.

    One lease is acquired per entry, so entry and lease share an identity, a number standing for the
    pointer. Everything that happens under the lock is one step; a demand runs between its `Get` step and
    its `Release` step, with any other steps in between. */
module DemandCache {
  import opened Collections

  datatype ResourceKey = ResourceKey(typ: string, name: string)

  /** Zero disables the respective limit; negative settings are refused (cache.go:50-55). */
  datatype Config = Config(idleTTL: nat, maxEntries: nat)

  datatype Entry = Entry(key: ResourceKey, users: int, lastAccess: int)

  datatype State = State(
    entries: map<ResourceKey, nat>,   // the table
    pool: map<nat, Entry>,            // every entry made so far, in the table or orphaned
    idle: seq<nat>,                   // newest first
    closed: bool,
    ended: set<nat>,                  // leases that their source has ended
    released: multiset<nat>,          // calls of Release, by lease
    handles: multiset<nat>,           // gets that have not called release yet
    clock: int)                       // the last time that was read

  // ----- the idle list -----

  lemma {:induction false} UnlinkShrinks(q: seq<nat>, id: nat)
    requires id in q
    ensures |Unlink(q, id)| == |q| - 1
  {
    if q[0] != id { UnlinkShrinks(q[1..], id); }
  }

  /** Taking away the back of the list leaves the rest as it is. */
  lemma {:induction false} UnlinkBack(q: seq<nat>)
    requires q != [] && Distinct(q)
    ensures Unlink(q, q[|q| - 1]) == q[..|q| - 1]
  {
    if |q| > 1 {
      UnlinkBack(q[1..]);
      assert q[..|q| - 1] == [q[0]] + q[1..][..|q| - 2];
    }
  }

  /** Access times never increase from the front to the back. */
  ghost predicate Aged(pool: map<nat, Entry>, q: seq<nat>) {
    && (forall id | id in q :: id in pool)
    && (forall i, j | 0 <= i < j < |q| :: pool[q[i]].lastAccess >= pool[q[j]].lastAccess)
  }

  lemma {:induction false} UnlinkAged(pool: map<nat, Entry>, q: seq<nat>, id: nat)
    requires Distinct(q) && Aged(pool, q)
    ensures Aged(pool, Unlink(q, id))
  {
    UnlinkMembers(q, id);
    if q != [] && q[0] != id {
      var r := Unlink(q[1..], id);
      UnlinkMembers(q[1..], id);
      UnlinkAged(pool, q[1..], id);
      forall j | 0 <= j < |r| ensures pool[q[0]].lastAccess >= pool[r[j]].lastAccess {
        assert r[j] in q[1..];
      }
    }
  }

  // ----- steps -----

  predicate InTable(s: State, id: nat) {
    id in s.pool && s.pool[id].key in s.entries && s.entries[s.pool[id].key] == id
  }

  function Remove(s: State, id: nat): State
    requires id in s.pool
  {
    s.(entries := s.entries - {s.pool[id].key},
       idle := Unlink(s.idle, id),
       released := s.released + multiset{id})
  }

  predicate OverCapacity(cfg: Config, s: State) {
    cfg.maxEntries > 0 && |s.entries| > cfg.maxEntries
  }

  predicate Expired(cfg: Config, e: Entry, now: int) {
    cfg.idleTTL > 0 && now >= e.lastAccess + cfg.idleTTL
  }

  /** Whether the entry at the back of the idle list has to go. */
  predicate TailGoes(cfg: Config, s: State, now: int) {
    && s.idle != [] && s.idle[|s.idle| - 1] in s.pool
    && (OverCapacity(cfg, s) || Expired(cfg, s.pool[s.idle[|s.idle| - 1]], now))
  }

  function Prune(cfg: Config, s: State, now: int): State
    decreases |s.idle|
  {
    if TailGoes(cfg, s, now) then
      var id := s.idle[|s.idle| - 1];
      UnlinkShrinks(s.idle, id);
      Prune(cfg, Remove(s, id), now)
    else s
  }

  /** A new entry, pinned by the get that made it. */
  function Insert(s: State, k: ResourceKey, id: nat): State {
    s.(entries := s.entries[k := id], pool := s.pool[id := Entry(k, 1, 0)], handles := s.handles + multiset{id})
  }

  function Pin(s: State, id: nat): State
    requires id in s.pool
  {
    s.(idle := Unlink(s.idle, id),
       pool := s.pool[id := s.pool[id].(users := s.pool[id].users + 1)],
       handles := s.handles + multiset{id})
  }

  /** Reads the clock and prunes. */
  function PruneAt(cfg: Config, s: State, now: int): State {
    Prune(cfg, s, now).(clock := now)
  }

  /** A lease that its source has ended is given up, even if it is still pinned. */
  function DropEnded(s: State, k: ResourceKey): State
    requires k in s.entries ==> s.entries[k] in s.pool
  {
    if k in s.entries && s.entries[k] in s.ended then Remove(s, s.entries[k]) else s
  }

  /** Pins the entry of the key, making it if there is none. */
  function Admit(s: State, k: ResourceKey, acquired: Option<nat>): State
    requires k in s.entries ==> s.entries[k] in s.pool
    requires k !in s.entries ==> acquired.Some?
  {
    if k in s.entries then Pin(s, s.entries[k]) else Insert(s, k, acquired.value)
  }

  datatype GetResult = ErrClosed | AcquireFailed | Pinned(id: nat)

  /** The locked part of Get. `acquired` is the lease that the source hands out if it is asked, or
      `None` if it would refuse; the clock is read twice. */
  function GetStep(cfg: Config, s: State, k: ResourceKey, acquired: Option<nat>, now: int, later: int)
    : (State, GetResult)
    requires forall k | k in s.entries :: s.entries[k] in s.pool
  {
    if s.closed then (s, ErrClosed)
    else
      PruneKeepsPool(cfg, s, now);
      var s' := DropEnded(PruneAt(cfg, s, now), k);
      if k !in s'.entries && acquired.None? then (s', AcquireFailed)
      else
        var pinned := Admit(s', k, acquired);
        (PruneAt(cfg, pinned, later), Pinned(pinned.entries[k]))
  }

  /** The user's departure itself. */
  function Unpin(s: State, id: nat): State
    requires id in s.pool
  {
    s.(pool := s.pool[id := s.pool[id].(users := s.pool[id].users - 1)], handles := s.handles - multiset{id})
  }

  /** The last user leaving puts the entry at the front of the idle list. */
  function Rest(s: State, id: nat, now: int): State
    requires id in s.pool
  {
    s.(pool := s.pool[id := s.pool[id].(lastAccess := now)], idle := [id] + s.idle, clock := now)
  }

  function ReleaseStep(cfg: Config, s: State, id: nat, failed: bool, now: int): State
    requires id in s.pool
  {
    var s' := Unpin(s, id);
    if s'.pool[id].users == 0 && InTable(s', id) then
      if failed then Remove(s', id) else Prune(cfg, Rest(s', id, now), now)
    else s'
  }

  lemma {:induction false} PruneKeepsPool(cfg: Config, s: State, now: int)
    ensures Prune(cfg, s, now).pool == s.pool && Prune(cfg, s, now).closed == s.closed
    ensures Prune(cfg, s, now).ended == s.ended && Prune(cfg, s, now).handles == s.handles
    ensures Prune(cfg, s, now).clock == s.clock
    ensures forall k | k in Prune(cfg, s, now).entries ::
              k in s.entries && Prune(cfg, s, now).entries[k] == s.entries[k]
    decreases |s.idle|
  {
    if TailGoes(cfg, s, now) {
      var id := s.idle[|s.idle| - 1];
      UnlinkShrinks(s.idle, id);
      PruneKeepsPool(cfg, Remove(s, id), now);
    }
  }

  function Ids(entries: map<ResourceKey, nat>): set<nat> {
    set k | k in entries :: entries[k]
  }

  /** Close releases every lease in the table, in-flight demands included. */
  function CloseStep(s: State): State {
    if s.closed then s
    else s.(entries := map[], idle := [], closed := true, released := s.released + multiset(Ids(s.entries)))
  }

  // ----- the invariant -----

  ghost predicate TableOk(s: State) {
    forall k | k in s.entries :: s.entries[k] in s.pool && s.pool[s.entries[k]].key == k
  }

  ghost predicate IdleOk(s: State) {
    && Distinct(s.idle) && Aged(s.pool, s.idle)
    && (forall id :: id in s.idle <==> InTable(s, id) && s.pool[id].users == 0)
    && (forall id | id in s.idle :: s.pool[id].lastAccess <= s.clock)
  }

  ghost predicate PinsOk(s: State) {
    && (forall id | id in s.pool :: s.pool[id].users == s.handles[id])
    && (forall id | id in s.handles :: id in s.pool)
  }

  /** A lease is released once its entry has left the table, exactly once, and not before. */
  ghost predicate LeasesOk(s: State) {
    && (forall id | id in s.pool :: s.released[id] == if InTable(s, id) then 0 else 1)
    && (forall id | id in s.released :: id in s.pool)
  }

  ghost predicate Core(s: State) {
    TableOk(s) && IdleOk(s) && PinsOk(s) && LeasesOk(s) && (s.closed ==> s.entries == map[])
  }

  /** The table is within its limit, unless every entry is pinned. */
  ghost predicate CapacityOk(cfg: Config, s: State) {
    OverCapacity(cfg, s) ==> s.idle == []
  }

  ghost predicate Inv(cfg: Config, s: State) {
    Core(s) && CapacityOk(cfg, s)
  }

  /** Over capacity means that every entry of the table is pinned. */
  lemma OverCapacityIsPinned(cfg: Config, s: State)
    requires Inv(cfg, s) && OverCapacity(cfg, s)
    ensures forall k | k in s.entries :: s.pool[s.entries[k]].users > 0
  {
    forall k | k in s.entries ensures s.pool[s.entries[k]].users > 0 {
      var id := s.entries[k];
      assert InTable(s, id) && id !in s.idle;
    }
  }

  lemma RemoveTable(s: State, id: nat)
    requires Core(s) && InTable(s, id)
    ensures TableOk(Remove(s, id))
    ensures forall x | x in s.pool :: InTable(Remove(s, id), x) <==> InTable(s, x) && x != id
    ensures |Remove(s, id).entries| == |s.entries| - 1
  {
    assert Remove(s, id).entries.Keys == s.entries.Keys - {s.pool[id].key};
  }

  lemma RemoveCore(s: State, id: nat)
    requires Core(s) && InTable(s, id)
    ensures Core(Remove(s, id))
  {
    var s' := Remove(s, id);
    RemoveTable(s, id);
    UnlinkMembers(s.idle, id);
    UnlinkAged(s.pool, s.idle, id);
    forall x ensures x in s'.idle <==> InTable(s', x) && s'.pool[x].users == 0 {
      assert x in s.idle <==> InTable(s, x) && s.pool[x].users == 0;
    }
    forall x | x in s'.pool ensures s'.released[x] == if InTable(s', x) then 0 else 1 {
      assert s.released[x] == if InTable(s, x) then 0 else 1;
    }
  }

  lemma {:induction false} PruneCore(cfg: Config, s: State, now: int)
    requires Core(s)
    ensures Core(Prune(cfg, s, now)) && !TailGoes(cfg, Prune(cfg, s, now), now)
    decreases |s.idle|
  {
    if TailGoes(cfg, s, now) {
      var id := s.idle[|s.idle| - 1];
      assert id in s.idle && InTable(s, id);
      UnlinkShrinks(s.idle, id);
      RemoveCore(s, id);
      PruneCore(cfg, Remove(s, id), now);
    }
  }

  lemma PrunedWithinCapacity(cfg: Config, s: State, now: int)
    requires Core(s) && !TailGoes(cfg, s, now)
    ensures CapacityOk(cfg, s)
  {
    if s.idle != [] { assert s.idle[|s.idle| - 1] in s.idle; }
  }

  lemma InsertTable(s: State, k: ResourceKey, id: nat)
    requires Core(s) && k !in s.entries && id !in s.pool
    ensures forall x :: InTable(Insert(s, k, id), x) <==> InTable(s, x) || x == id
    ensures id !in s.idle && s.released[id] == 0 && s.handles[id] == 0
  {
  }

  lemma InsertIdle(s: State, k: ResourceKey, id: nat)
    requires Core(s) && k !in s.entries && id !in s.pool
    ensures IdleOk(Insert(s, k, id))
  {
    var s' := Insert(s, k, id);
    InsertTable(s, k, id);
    forall x ensures x in s'.idle <==> InTable(s', x) && s'.pool[x].users == 0 {
      assert x in s.idle <==> InTable(s, x) && s.pool[x].users == 0;
    }
  }

  lemma InsertLeases(s: State, k: ResourceKey, id: nat)
    requires Core(s) && k !in s.entries && id !in s.pool
    ensures PinsOk(Insert(s, k, id)) && LeasesOk(Insert(s, k, id))
  {
    InsertTable(s, k, id);
  }

  lemma InsertCore(s: State, k: ResourceKey, id: nat)
    requires Core(s) && !s.closed && k !in s.entries && id !in s.pool
    ensures Core(Insert(s, k, id)) && InTable(Insert(s, k, id), id)
  {
    InsertTable(s, k, id);
    InsertIdle(s, k, id);
    InsertLeases(s, k, id);
  }

  lemma PinIdle(s: State, id: nat)
    requires Core(s) && InTable(s, id)
    ensures IdleOk(Pin(s, id))
  {
    var s' := Pin(s, id);
    UnlinkMembers(s.idle, id);
    UnlinkAged(s.pool, s.idle, id);
    assert forall x | x in s.pool :: InTable(s', x) <==> InTable(s, x);
    forall x ensures x in s'.idle <==> InTable(s', x) && s'.pool[x].users == 0 {
      assert x in s.idle <==> InTable(s, x) && s.pool[x].users == 0;
    }
  }

  /** A pinned entry leaves the idle list and stays in the table. */
  lemma PinCore(s: State, id: nat)
    requires Core(s) && InTable(s, id)
    ensures Core(Pin(s, id)) && InTable(Pin(s, id), id)
  {
    PinIdle(s, id);
    assert forall x | x in s.pool :: InTable(Pin(s, id), x) <==> InTable(s, x);
  }

  lemma ClockCore(s: State, now: int)
    requires Core(s) && s.clock <= now
    ensures Core(s.(clock := now))
  {
    var s' := s.(clock := now);
    assert forall x :: InTable(s', x) <==> InTable(s, x);
  }

  lemma RemoveInv(cfg: Config, s: State, id: nat)
    requires Inv(cfg, s) && InTable(s, id)
    ensures Inv(cfg, Remove(s, id))
  {
    RemoveCore(s, id);
    RemoveTable(s, id);
  }

  lemma PruneAtInv(cfg: Config, s: State, now: int)
    requires Core(s) && s.clock <= now
    ensures Inv(cfg, PruneAt(cfg, s, now)) && PruneAt(cfg, s, now).pool == s.pool
    ensures !TailGoes(cfg, PruneAt(cfg, s, now), now)
  {
    PruneCore(cfg, s, now);
    PruneKeepsPool(cfg, s, now);
    ClockCore(Prune(cfg, s, now), now);
    PrunedWithinCapacity(cfg, PruneAt(cfg, s, now), now);
  }

  lemma DropEndedInv(cfg: Config, s: State, k: ResourceKey)
    requires Inv(cfg, s)
    ensures Inv(cfg, DropEnded(s, k)) && DropEnded(s, k).pool == s.pool
  {
    if k in s.entries {
      assert InTable(s, s.entries[k]);
      RemoveInv(cfg, s, s.entries[k]);
    }
  }

  lemma AdmitCore(s: State, k: ResourceKey, acquired: Option<nat>)
    requires Core(s) && !s.closed
    requires k !in s.entries ==> acquired.Some? && acquired.value !in s.pool
    ensures Core(Admit(s, k, acquired)) && Admit(s, k, acquired).clock == s.clock
  {
    if k in s.entries {
      assert InTable(s, s.entries[k]);
      PinCore(s, s.entries[k]);
    } else {
      InsertCore(s, k, acquired.value);
    }
  }

  lemma GetKeepsInv(cfg: Config, s: State, k: ResourceKey, acquired: Option<nat>, now: int, later: int)
    requires Inv(cfg, s) && s.clock <= now <= later
    requires acquired.Some? ==> acquired.value !in s.pool
    ensures Inv(cfg, GetStep(cfg, s, k, acquired, now, later).0)
  {
    if !s.closed {
      PruneKeepsPool(cfg, s, now);
      PruneAtInv(cfg, s, now);
      DropEndedInv(cfg, PruneAt(cfg, s, now), k);
      var s' := DropEnded(PruneAt(cfg, s, now), k);
      if k in s'.entries || acquired.Some? {
        AdmitCore(s', k, acquired);
        PruneAtInv(cfg, Admit(s', k, acquired), later);
      }
    }
  }

  /** A departure moves nothing in or out of the table. */
  lemma UnpinTable(s: State, id: nat)
    requires Core(s) && s.handles[id] > 0
    ensures forall x :: InTable(Unpin(s, id), x) <==> InTable(s, x)
    ensures TableOk(Unpin(s, id)) && PinsOk(Unpin(s, id)) && LeasesOk(Unpin(s, id))
    ensures id !in s.idle
  {
    assert forall x :: InTable(Unpin(s, id), x) <==> InTable(s, x);
  }

  /** Leaving while others stay, or leaving an orphan, changes no list and releases nothing. */
  lemma UnpinCore(s: State, id: nat)
    requires Core(s) && s.handles[id] > 0
    requires s.handles[id] > 1 || !InTable(s, id)
    ensures Core(Unpin(s, id))
  {
    var s' := Unpin(s, id);
    UnpinTable(s, id);
    forall x ensures x in s'.idle <==> InTable(s', x) && s'.pool[x].users == 0 {
      assert x in s.idle <==> InTable(s, x) && s.pool[x].users == 0;
    }
  }

  lemma RestAged(s: State, id: nat, now: int)
    requires Aged(s.pool, s.idle) && id in s.pool && id !in s.idle
    requires forall x | x in s.idle :: s.pool[x].lastAccess <= now
    ensures Aged(Rest(s, id, now).pool, Rest(s, id, now).idle)
  {
    var s' := Rest(s, id, now);
    forall i, j | 0 <= i < j < |s'.idle|
      ensures s'.pool[s'.idle[i]].lastAccess >= s'.pool[s'.idle[j]].lastAccess
    {
      assert s.idle[j - 1] in s.idle;
      if i > 0 { assert s.idle[i - 1] in s.idle; }
    }
  }

  /** Resting moves no entry in or out of the table, and changes no other entry. */
  lemma RestTable(s: State, id: nat, now: int)
    requires id in s.pool
    ensures forall x :: InTable(Rest(s, id, now), x) <==> InTable(s, x)
  {
  }

  lemma RestMembers(s: State, id: nat, now: int, x: nat)
    requires IdleOk(s) && InTable(s, id) && s.pool[id].users == 1
    ensures var s' := Rest(Unpin(s, id), id, now); x in s'.idle <==> InTable(s', x) && s'.pool[x].users == 0
  {
    RestTable(Unpin(s, id), id, now);
    assert x in s.idle <==> InTable(s, x) && s.pool[x].users == 0;
  }

  lemma RestIdle(s: State, id: nat, now: int)
    requires Core(s) && InTable(s, id) && s.handles[id] == 1 && s.clock <= now
    ensures IdleOk(Rest(Unpin(s, id), id, now))
  {
    var s1 := Unpin(s, id);
    var s' := Rest(s1, id, now);
    UnpinTable(s, id);
    RestAged(s1, id, now);
    forall x ensures x in s'.idle <==> InTable(s', x) && s'.pool[x].users == 0 { RestMembers(s, id, now, x); }
  }

  lemma RestCore(s: State, id: nat, now: int)
    requires Core(s) && InTable(s, id) && s.handles[id] == 1 && s.clock <= now
    ensures Core(Rest(Unpin(s, id), id, now))
  {
    UnpinTable(s, id);
    RestIdle(s, id, now);
    RestTable(Unpin(s, id), id, now);
  }

  /** A failed last demand gives its entry up. */
  lemma FailedCore(s: State, id: nat)
    requires Core(s) && InTable(s, id) && s.handles[id] == 1
    ensures Core(Remove(Unpin(s, id), id))
  {
    RemoveCore(s, id);
    RemoveTable(s, id);
    UnpinCore(Remove(s, id), id);
    assert Remove(Unpin(s, id), id) == Unpin(Remove(s, id), id);
  }

  lemma ReleaseKeepsInv(cfg: Config, s: State, id: nat, failed: bool, now: int)
    requires Inv(cfg, s) && s.handles[id] > 0 && s.clock <= now
    ensures Inv(cfg, ReleaseStep(cfg, s, id, failed, now))
  {
    UnpinTable(s, id);
    if s.handles[id] == 1 && InTable(s, id) {
      if failed {
        FailedCore(s, id);
        RemoveTable(s, id);
        assert id !in s.idle;
        UnlinkAbsent(s.idle, id);
      } else {
        RestCore(s, id, now);
        PruneCore(cfg, Rest(Unpin(s, id), id, now), now);
        PrunedWithinCapacity(cfg, Prune(cfg, Rest(Unpin(s, id), id, now), now), now);
      }
    } else {
      UnpinCore(s, id);
    }
  }

  lemma CloseKeepsInv(cfg: Config, s: State)
    requires Inv(cfg, s)
    ensures Inv(cfg, CloseStep(s))
  {
    var s' := CloseStep(s);
    forall id | id in s.pool && !s.closed ensures s'.released[id] == 1 {
      assert s.released[id] == if InTable(s, id) then 0 else 1;
      assert id in Ids(s.entries) <==> InTable(s, id) by {
        if id in Ids(s.entries) {
          var k :| k in s.entries && s.entries[k] == id;
        }
      }
    }
  }

  // ----- every interleaving -----

  datatype Step =
    | Get(key: ResourceKey, acquired: Option<nat>, now: int, later: int)
    | Release(id: nat, failed: bool, now: int)
    | SourceEnds(id: nat)
    | Tick(now: int)
    | Close

  /** The clock is monotonic, leases are new, and a handle is released once. That table and handles name
      existing entries is so in every run: see `InvIsLinked`. */
  ghost predicate Enabled(s: State, a: Step) {
    match a
    case Get(_, acquired, now, later) =>
      && s.clock <= now <= later && (acquired.Some? ==> acquired.value !in s.pool)
      && forall k | k in s.entries :: s.entries[k] in s.pool
    case Release(id, _, now) => s.handles[id] > 0 && id in s.pool && s.clock <= now
    case SourceEnds(_) => true
    case Tick(now) => s.clock <= now
    case Close => true
  }

  ghost function After(cfg: Config, s: State, a: Step): State
    requires Enabled(s, a)
  {
    match a
    case Get(k, acquired, now, later) => GetStep(cfg, s, k, acquired, now, later).0
    case Release(id, failed, now) => ReleaseStep(cfg, s, id, failed, now)
    case SourceEnds(id) => s.(ended := s.ended + {id})
    case Tick(now) => PruneAt(cfg, s, now)
    case Close => CloseStep(s)
  }

  lemma StepKeepsInv(cfg: Config, s: State, a: Step)
    requires Inv(cfg, s) && Enabled(s, a)
    ensures Inv(cfg, After(cfg, s, a))
  {
    match a
    case Get(k, acquired, now, later) => GetKeepsInv(cfg, s, k, acquired, now, later);
    case Release(id, failed, now) => ReleaseKeepsInv(cfg, s, id, failed, now);
    case SourceEnds(id) =>
      assert forall x :: InTable(After(cfg, s, a), x) <==> InTable(s, x);
    case Tick(now) => PruneAtInv(cfg, s, now);
    case Close => CloseKeepsInv(cfg, s);
  }

  ghost predicate Reaches(cfg: Config, s: State, steps: seq<Step>, s': State)
    decreases steps
  {
    if steps == [] then s == s'
    else Enabled(s, steps[0]) && Reaches(cfg, After(cfg, s, steps[0]), steps[1..], s')
  }

  function Empty(now: int): State {
    State(map[], map[], [], false, {}, multiset{}, multiset{}, now)
  }

  lemma {:induction false} RunKeepsInv(cfg: Config, s: State, steps: seq<Step>, s': State)
    requires Inv(cfg, s) && Reaches(cfg, s, steps, s')
    ensures Inv(cfg, s')
    decreases steps
  {
    if steps != [] {
      StepKeepsInv(cfg, s, steps[0]);
      RunKeepsInv(cfg, After(cfg, s, steps[0]), steps[1..], s');
    }
  }

  /** Lease conservation in every interleaving: a lease is released at most once, it is unreleased exactly
      while its entry is in the table, and once the cache is closed every lease has been released. */
  lemma LeaseConservation(cfg: Config, now: int, steps: seq<Step>, s: State, id: nat)
    requires Reaches(cfg, Empty(now), steps, s) && id in s.pool
    ensures s.released[id] <= 1
    ensures s.released[id] == 0 <==> InTable(s, id)
    ensures s.closed ==> s.released[id] == 1
  {
    RunKeepsInv(cfg, Empty(now), steps, s);
  }

  /** Pins and the idle list in every interleaving: an entry is pinned by exactly the handles that are out,
      the idle list holds exactly the unpinned entries of the table, oldest last, and the table is over its
      limit only while everything in it is pinned. */
  lemma PinsAndCapacity(cfg: Config, now: int, steps: seq<Step>, s: State)
    requires Reaches(cfg, Empty(now), steps, s)
    ensures forall id | id in s.pool :: s.pool[id].users == s.handles[id]
    ensures forall id :: id in s.idle <==> InTable(s, id) && s.handles[id] == 0
    ensures Distinct(s.idle) && Aged(s.pool, s.idle)
    ensures cfg.maxEntries > 0 && |s.entries| > cfg.maxEntries ==>
              forall k | k in s.entries :: s.handles[s.entries[k]] > 0
  {
    RunKeepsInv(cfg, Empty(now), steps, s);
    if OverCapacity(cfg, s) { OverCapacityIsPinned(cfg, s); }
  }

  /** The late release of an orphan touches nothing but the orphan's own count: the replacement that may
      have taken its key stays as it is. */
  lemma OrphanRelease(cfg: Config, s: State, id: nat, failed: bool, now: int)
    requires Inv(cfg, s) && s.handles[id] > 0 && !InTable(s, id)
    ensures var s' := ReleaseStep(cfg, s, id, failed, now);
            && s'.entries == s.entries && s'.idle == s.idle && s'.released == s.released
            && forall x | x in s.pool && x != id :: s'.pool[x] == s.pool[x]
  {
    UnpinTable(s, id);
  }

  // ----- what pruning removes -----

  /** Whether the entry at position `m - 1` has to go once everything behind it is gone. */
  predicate Goes(cfg: Config, s: State, now: int, m: nat) {
    && 0 < m <= |s.idle| && s.idle[m - 1] in s.pool
    && (|| (cfg.maxEntries > 0 && |s.entries| - (|s.idle| - m) > cfg.maxEntries)
        || Expired(cfg, s.pool[s.idle[m - 1]], now))
  }

  /** How many of the first `m` idle entries stay: all up to the last one that does not have to go. */
  function Kept(cfg: Config, s: State, now: int, m: nat): (n: nat)
    ensures n <= m && !Goes(cfg, s, now, n)
    ensures forall i: nat | n < i <= m :: Goes(cfg, s, now, i)
  {
    if Goes(cfg, s, now, m) then Kept(cfg, s, now, m - 1) else m
  }

  /** Removing the back of the list does not change what is said about the rest. */
  lemma GoesIsStable(cfg: Config, s: State, now: int, m: nat)
    requires Core(s) && m < |s.idle|
    ensures Goes(cfg, Remove(s, s.idle[|s.idle| - 1]), now, m) <==> Goes(cfg, s, now, m)
  {
    var id := s.idle[|s.idle| - 1];
    assert id in s.idle;
    RemoveTable(s, id);
    UnlinkBack(s.idle);
  }

  lemma {:induction false} KeptIsStable(cfg: Config, s: State, now: int, m: nat)
    requires Core(s) && m < |s.idle|
    ensures Kept(cfg, Remove(s, s.idle[|s.idle| - 1]), now, m) == Kept(cfg, s, now, m)
  {
    GoesIsStable(cfg, s, now, m);
    if Goes(cfg, s, now, m) { KeptIsStable(cfg, s, now, m - 1); }
  }

  lemma PruneTail(cfg: Config, s: State, now: int)
    requires Core(s) && TailGoes(cfg, s, now)
    ensures var s', n := Remove(s, s.idle[|s.idle| - 1]), |s.idle| - 1;
            && Core(s') && s'.idle == s.idle[..n]
            && Prune(cfg, s, now) == Prune(cfg, s', now)
            && Kept(cfg, s, now, |s.idle|) == Kept(cfg, s', now, |s'.idle|)
  {
    assert s.idle[|s.idle| - 1] in s.idle;
    RemoveCore(s, s.idle[|s.idle| - 1]);
    UnlinkBack(s.idle);
    KeptIsStable(cfg, s, now, |s.idle| - 1);
  }

  /** Pruning removes a suffix of the idle list, the least recently used entries, and exactly as long a
      suffix as capacity and expiry demand. */
  lemma {:induction false} PruneRemovesOldest(cfg: Config, s: State, now: int)
    requires Core(s)
    ensures var n := Kept(cfg, s, now, |s.idle|);
            && Prune(cfg, s, now).idle == s.idle[..n]
            && Prune(cfg, s, now).released == s.released + multiset(s.idle[n..])
    decreases |s.idle|
  {
    var n := Kept(cfg, s, now, |s.idle|);
    if TailGoes(cfg, s, now) {
      PruneTail(cfg, s, now);
      PruneRemovesOldest(cfg, Remove(s, s.idle[|s.idle| - 1]), now);
      SuffixGrows(s.idle, n);
    } else {
      assert n == |s.idle|;
      assert s.idle[..n] == s.idle && s.idle[n..] == [];
    }
  }

  lemma SuffixGrows(q: seq<nat>, n: nat)
    requires n < |q|
    ensures q[..|q| - 1][..n] == q[..n]
    ensures multiset{q[|q| - 1]} + multiset(q[..|q| - 1][n..]) == multiset(q[n..])
  {
    assert q[n..] == q[..|q| - 1][n..] + [q[|q| - 1]];
  }

  /** Pruning never gives up a pinned entry. */
  lemma PruneSparesPinned(cfg: Config, s: State, now: int, id: nat)
    requires Core(s) && InTable(s, id) && s.pool[id].users > 0
    ensures InTable(Prune(cfg, s, now), id) && Prune(cfg, s, now).released[id] == 0
  {
    PruneRemovesOldest(cfg, s, now);
    var n := Kept(cfg, s, now, |s.idle|);
    assert id !in s.idle;
    assert forall x | x in s.idle[n..] :: x in s.idle;
    assert multiset(s.idle[n..])[id] == 0;
    PruneCore(cfg, s, now);
    PruneKeepsPool(cfg, s, now);
  }

  /** After pruning, no idle entry is expired, although only the back of the list is looked at. */
  lemma NothingExpiredIsLeft(cfg: Config, s: State, now: int, id: nat)
    requires Core(s) && id in Prune(cfg, s, now).idle
    ensures id in s.pool && !Expired(cfg, s.pool[id], now)
  {
    var s' := Prune(cfg, s, now);
    PruneCore(cfg, s, now);
    PruneKeepsPool(cfg, s, now);
    var last := s'.idle[|s'.idle| - 1];
    assert last in s'.idle;
    var i :| 0 <= i < |s'.idle| && s'.idle[i] == id;
    assert s'.pool[id].lastAccess >= s'.pool[last].lastAccess;
  }

  // ----- the cache itself -----

  /** The part of the invariant that the code itself relies on: no dangling entry. */
  ghost predicate Linked(s: State) {
    (forall k | k in s.entries :: s.entries[k] in s.pool) && (forall id | id in s.idle :: id in s.pool)
  }

  lemma InvIsLinked(cfg: Config, s: State)
    requires Inv(cfg, s)
    ensures Linked(s) && IdleInTable(s)
  {
    forall i | 0 <= i < |s.idle| ensures s.idle[i] in Ids(s.entries) { assert InTable(s, s.idle[i]); }
  }

  ghost predicate IdleInTable(s: State) {
    forall i | 0 <= i < |s.idle| :: s.idle[i] in Ids(s.entries)
  }

  lemma {:induction false} DistinctFits(q: seq<nat>, ids: set<nat>)
    requires Distinct(q) && forall i | 0 <= i < |q| :: q[i] in ids
    ensures |q| <= |ids|
  {
    if q != [] { DistinctFits(q[1..], ids - {q[0]}); }
  }

  lemma RemoveIdleInTable(s: State, k: ResourceKey)
    requires TableOk(s) && k in s.entries && s.closed && Distinct(s.idle) && IdleInTable(s)
    ensures var s' := Remove(s, s.entries[k]); IdleInTable(s') && Distinct(s'.idle)
  {
    CloseOne(s, k);
    UnlinkMembers(s.idle, s.entries[k]);
    var s' := Remove(s, s.entries[k]);
    forall i | 0 <= i < |s'.idle| ensures s'.idle[i] in Ids(s'.entries) { assert s'.idle[i] in s.idle; }
  }

  lemma {:induction false} UnlinkSubset(q: seq<nat>, id: nat)
    ensures forall x | x in Unlink(q, id) :: x in q
  {
    if q != [] { UnlinkSubset(q[1..], id); }
  }

  lemma RemoveLinked(s: State, id: nat)
    requires Linked(s) && id in s.pool
    ensures Linked(Remove(s, id))
  {
    UnlinkSubset(s.idle, id);
  }

  lemma {:induction false} PruneLinked(cfg: Config, s: State, now: int)
    requires Linked(s)
    ensures Linked(Prune(cfg, s, now))
    decreases |s.idle|
  {
    if TailGoes(cfg, s, now) {
      var id := s.idle[|s.idle| - 1];
      UnlinkShrinks(s.idle, id);
      RemoveLinked(s, id);
      PruneLinked(cfg, Remove(s, id), now);
    }
  }

  lemma AdmitLinked(s: State, k: ResourceKey, acquired: Option<nat>)
    requires Linked(s) && (k !in s.entries ==> acquired.Some?)
    ensures Linked(Admit(s, k, acquired))
  {
    if k in s.entries { UnlinkSubset(s.idle, s.entries[k]); }
  }

  lemma RestLinked(s: State, id: nat, now: int)
    requires Linked(s) && id in s.pool
    ensures Linked(Rest(Unpin(s, id), id, now))
  {
  }

  lemma CloseOne(s: State, k: ResourceKey)
    requires TableOk(s) && k in s.entries && s.closed
    ensures Ids(Remove(s, s.entries[k]).entries) == Ids(s.entries) - {s.entries[k]}
    ensures TableOk(Remove(s, s.entries[k])) && |Remove(s, s.entries[k]).entries| < |s.entries|
    ensures CloseStep(Remove(s, s.entries[k]).(closed := false)) == CloseStep(s.(closed := false))
  {
    var id, s' := s.entries[k], Remove(s, s.entries[k]);
    assert s'.entries == s.entries - {k};
    assert s'.entries.Keys == s.entries.Keys - {k};
    forall x ensures x in Ids(s'.entries) <==> x in Ids(s.entries) && x != id {
      if x in Ids(s.entries) && x != id {
        var j :| j in s.entries && s.entries[j] == x;
        assert j in s'.entries;
      }
    }
    assert multiset(Ids(s.entries)) == multiset{id} + multiset(Ids(s'.entries));
  }

  class Cache {
    const config: Config
    var entries: map<ResourceKey, nat>
    var pool: map<nat, Entry>
    var idle: seq<nat>
    var closed: bool
    var ended: set<nat>
    var released: multiset<nat>
    ghost var handles: multiset<nat>
    ghost var clock: int

    ghost function Model(): State
      reads this
    {
      State(entries, pool, idle, closed, ended, released, handles, clock)
    }

    constructor (config: Config, ghost now: int)
      ensures this.config == config && Model() == Empty(now)
    {
      this.config := config;
      entries, pool, idle, closed := map[], map[], [], false;
      ended, released, handles, clock := {}, multiset{}, multiset{}, now;
    }

    method RemoveEntry(id: nat)
      requires id in pool
      modifies this`entries, this`idle, this`released
      ensures Model() == Remove(old(Model()), id)
    {
      entries := entries - {pool[id].key};
      idle := Unlink(idle, id);
      released := released + multiset{id};
    }

    method PruneEntries(now: int)
      requires Linked(Model())
      modifies this`entries, this`idle, this`released
      ensures Model() == Prune(config, old(Model()), now)
    {
      while idle != []
        invariant Linked(Model())
        invariant Prune(config, Model(), now) == Prune(config, old(Model()), now)
        decreases |idle|
      {
        var id := idle[|idle| - 1];
        var overCapacity := config.maxEntries > 0 && |entries| > config.maxEntries;
        var expired := config.idleTTL > 0 && now >= pool[id].lastAccess + config.idleTTL;
        if !overCapacity && !expired { return; }
        UnlinkShrinks(idle, id);
        RemoveLinked(Model(), id);
        RemoveEntry(id);
      }
    }

    method PruneAndRead(now: int)
      requires Linked(Model())
      modifies this`entries, this`idle, this`released, this`clock
      ensures Model() == PruneAt(config, old(Model()), now)
    {
      PruneEntries(now);
      clock := now;
    }

    method DropEndedEntry(k: ResourceKey)
      requires k in entries ==> entries[k] in pool
      modifies this`entries, this`idle, this`released
      ensures Model() == DropEnded(old(Model()), k)
    {
      if k in entries && entries[k] in ended {
        RemoveEntry(entries[k]);
      }
    }

    method AdmitEntry(k: ResourceKey, acquired: Option<nat>) returns (id: nat)
      requires Linked(Model())
      requires k !in entries ==> acquired.Some? && acquired.value !in pool
      modifies this`entries, this`pool, this`idle, this`handles
      ensures Model() == Admit(old(Model()), k, acquired) && id == entries[k]
    {
      if k in entries {
        id := entries[k];
      } else {
        id := acquired.value;
        UnlinkAbsent(idle, id);
        pool := pool[id := Entry(k, 0, 0)];
        entries := entries[k := id];
      }
      idle := Unlink(idle, id);
      pool := pool[id := pool[id].(users := pool[id].users + 1)];
      handles := handles + multiset{id};
    }

    method AdmitAndPrune(k: ResourceKey, acquired: Option<nat>, later: int) returns (id: nat)
      requires Linked(Model())
      requires k !in entries ==> acquired.Some? && acquired.value !in pool
      modifies this
      ensures Model() == PruneAt(config, Admit(old(Model()), k, acquired), later)
      ensures id == Admit(old(Model()), k, acquired).entries[k]
    {
      AdmitLinked(Model(), k, acquired);
      id := AdmitEntry(k, acquired);
      PruneEntries(later);
      clock := later;
    }

    /** The locked part of Get. The clock readings and the source's answer are parameters. */
    method BeginGet(k: ResourceKey, acquired: Option<nat>, now: int, later: int) returns (r: GetResult)
      requires Linked(Model())
      requires acquired.Some? ==> acquired.value !in pool
      modifies this
      ensures (Model(), r) == GetStep(config, old(Model()), k, acquired, now, later)
    {
      if closed { return ErrClosed; }
      PruneKeepsPool(config, Model(), now);
      PruneLinked(config, Model(), now);
      PruneEntries(now);
      clock := now;
      ghost var pruned := PruneAt(config, old(Model()), now);
      assert Model() == pruned && Linked(pruned);
      if k in entries { RemoveLinked(Model(), entries[k]); }
      DropEndedEntry(k);
      ghost var dropped := DropEnded(pruned, k);
      assert Model() == dropped && Linked(dropped);
      if k !in entries && acquired.None? { return AcquireFailed; }
      var id := AdmitAndPrune(k, acquired, later);
      return Pinned(id);
    }

    method UnpinEntry(id: nat)
      requires id in pool
      modifies this`pool, this`handles
      ensures Model() == Unpin(old(Model()), id)
    {
      pool := pool[id := pool[id].(users := pool[id].users - 1)];
      handles := handles - multiset{id};
    }

    method RestEntry(id: nat, now: int)
      requires id in pool
      modifies this`pool, this`idle, this`clock
      ensures Model() == Rest(old(Model()), id, now)
    {
      pool := pool[id := pool[id].(lastAccess := now)];
      clock := now;
      idle := [id] + idle;
    }

    method EndGet(id: nat, failed: bool, now: int)
      requires Linked(Model()) && id in pool
      modifies this
      ensures Model() == ReleaseStep(config, old(Model()), id, failed, now)
    {
      RestLinked(Model(), id, now);
      UnpinEntry(id);
      if pool[id].users == 0 && pool[id].key in entries && entries[pool[id].key] == id {
        if failed {
          RemoveEntry(id);
        } else {
          RestEntry(id, now);
          PruneEntries(now);
        }
      }
    }

    method CloseAll()
      requires TableOk(Model()) && Distinct(idle) && IdleInTable(Model())
      modifies this
      ensures Model() == CloseStep(old(Model()))
    {
      if closed { return; }
      closed := true;
      while entries != map[]
        invariant TableOk(Model()) && Distinct(idle) && IdleInTable(Model())
        invariant CloseStep(Model().(closed := false)) == CloseStep(old(Model()))
        invariant closed
        decreases |entries|
      {
        var k :| k in entries;
        CloseOne(Model(), k);
        RemoveIdleInTable(Model(), k);
        RemoveEntry(entries[k]);
      }
      DistinctFits(idle, Ids(entries));
    }
  }
}
