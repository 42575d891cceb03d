/** The DNS client's resolution cache (pkg/dns/cache.go, client.go, records.go): custom records override DNS, DNS
    answers are cached for their TTL, and a global revision keeps a slow lookup from storing an answer that an
    update of the records has overtaken. Host names are taken as already normalized. */
module Dns {
  import opened Collections
  import Cache

  // ----- addresses -----

  /** An IP address as net/netip has it; `Mapped` is an IPv4 address written as IPv6. */
  datatype Addr = Invalid | V4(bits: nat) | V6(bits: nat, zone: string) | Mapped(bits: nat, zone: string)

  datatype Family = DualStack | IPv4Only | IPv6Only

  function Unmap(a: Addr): Addr {
    if a.Mapped? then V4(a.bits) else a
  }

  predicate Wanted(a: Addr, f: Family) {
    match a
    case Invalid => false
    case V4(_) => f != IPv6Only
    case V6(_, zone) => zone == "" && f != IPv4Only
    case Mapped(_, zone) => zone == "" && f != IPv4Only
  }

  /** Order-preserving selection: unmapped, of the family, each address once. */
  function Select(addrs: seq<Addr>, f: Family): seq<Addr> {
    if addrs == [] then []
    else
      var n := |addrs| - 1;
      var r, a := Select(addrs[..n], f), Unmap(addrs[n]);
      if Wanted(a, f) && a !in r then r + [a] else r
  }

  /** Exactly the unmapped addresses of the family, each once. */
  lemma {:induction false} SelectMembers(addrs: seq<Addr>, f: Family)
    ensures var r := Select(addrs, f);
            && (forall a :: a in r <==> Wanted(a, f) && exists b :: b in addrs && Unmap(b) == a)
            && Distinct(r) && |r| <= |addrs|
  {
    if addrs != [] {
      var n := |addrs| - 1;
      SelectMembers(addrs[..n], f);
      assert addrs == addrs[..n] + [addrs[n]];
    }
  }

  method SelectAddresses(addrs: seq<Addr>, f: Family) returns (r: seq<Addr>)
    ensures r == Select(addrs, f)
  {
    r := [];
    var seen: set<Addr> := {};
    for n := 0 to |addrs|
      invariant r == Select(addrs[..n], f)
      invariant forall a :: a in seen <==> a in r
    {
      assert addrs[..n + 1][..n] == addrs[..n];
      var ip := Unmap(addrs[n]);
      if !Wanted(ip, f) { continue; }
      if ip in seen { continue; }
      seen := seen + {ip};
      r := r + [ip];
    }
    assert addrs[..|addrs|] == addrs;
  }

  lemma SelectOneMore(addrs: seq<Addr>, a: Addr, f: Family)
    ensures Select(addrs + [a], f) ==
            var r, b := Select(addrs, f), Unmap(a); if Wanted(b, f) && b !in r then r + [b] else r
  {
    assert (addrs + [a])[..|addrs|] == addrs;
  }

  /** What is wanted of a family is selected for it whenever it is selected at all. */
  lemma SelectedAlike(addrs: seq<Addr>, f: Family, a: Addr)
    requires Wanted(a, f)
    ensures a in Select(addrs, f) <==> a in Select(addrs, DualStack)
  {
    SelectMembers(addrs, f);
    SelectMembers(addrs, DualStack);
  }

  /** Selecting a family from a stored dual-stack record is selecting it from the addresses given. */
  lemma {:induction false} SelectTwice(addrs: seq<Addr>, f: Family)
    ensures Select(Select(addrs, DualStack), f) == Select(addrs, f)
  {
    if addrs != [] {
      var n := |addrs| - 1;
      var r, a := Select(addrs[..n], DualStack), Unmap(addrs[n]);
      SelectTwice(addrs[..n], f);
      if Wanted(a, f) { SelectedAlike(addrs[..n], f, a); }
      if Wanted(a, DualStack) && a !in r {
        assert Select(addrs, DualStack) == r + [a];
        SelectOneMore(r, a, f);
      } else {
        assert Select(addrs, DualStack) == r;
      }
    }
  }

  // ----- the resolution cache -----

  datatype CacheKey = CacheKey(host: string, family: Family)

  datatype Source = FromDns | FromRecord

  /** `expiresAt == 0` for records, which do not expire. */
  datatype Result = Result(addresses: seq<Addr>, expiresAt: nat, source: Source)

  const REVISIONS: nat := 0x1_0000_0000_0000_0000

  /** A lookup in flight: what it is for, the number of updates there had been when it began, and when that was. */
  datatype Flight = Flight(key: CacheKey, began: nat, started: nat)

  /** Where a cached answer came from. */
  datatype Origin = Origin(flight: Flight, answer: seq<Addr>, ttl: nat)

  datatype State = State(
    dns: Option<Cache.Storage<CacheKey, Result>>,   // None when caching is disabled
    records: map<string, seq<Addr>>,
    updates: nat,                                   // the revision is this number modulo 2^64
    clock: nat,
    flights: map<nat, Flight>,
    lastUpdate: map<string, nat>,                   // per host, the number of updates after its last one
    origins: map<CacheKey, Origin>)                 // per key, the last answer stored

  function Revision(n: nat): nat {
    n % REVISIONS
  }

  function Custom(addrs: seq<Addr>, f: Family): Result {
    Result(Select(addrs, f), 0, FromRecord)
  }

  datatype Outcome = Ok(result: Result) | ErrNoAddresses

  function RequireAddresses(r: Result): Outcome {
    if r.addresses == [] then ErrNoAddresses else Ok(r)
  }

  /** What the cache answers, if anything: a record first, then a live cached answer. */
  function Answer(s: State, k: CacheKey, now: nat): Option<Result> {
    if k.host in s.records then Some(Custom(s.records[k.host], k.family))
    else if s.dns.Some? then Cache.Hit(s.dns.value, k, now)
    else None
  }

  function Touched(s: State, k: CacheKey, now: nat): Option<Cache.Storage<CacheKey, Result>> {
    if k.host in s.records || s.dns.None? then s.dns
    else Some(Cache.After(0, s.dns.value, Cache.Read(k), now))
  }

  /** Resolve up to the lookup. On a miss the lookup takes off under the name `id`. */
  function BeginResolve(s: State, k: CacheKey, id: nat, now: nat): State {
    var s' := s.(dns := Touched(s, k, now), clock := now);
    if Answer(s, k, now).Some? then s' else s'.(flights := s.flights[id := Flight(k, s.updates, now)])
  }

  /** The answer of a successful lookup, with its deadline counted from the start of the lookup. */
  function Landed(f: Flight, answer: seq<Addr>, ttl: int): Result {
    Result(Select(answer, f.key.family), f.started + (if ttl > 0 then ttl else 0), FromDns)
  }

  /** Whether the answer is put into the cache; the cache itself refuses one that is already expired. */
  predicate Stores(s: State, f: Flight, r: Result, now: nat) {
    && f.key.host !in s.records && s.dns.Some? && Revision(s.updates) == Revision(f.began) && r.addresses != []
    && now < r.expiresAt
  }

  /** Resolve from the lookup's answer on: store it, unless a record has come up, and return. */
  function FinishResolve(s: State, id: nat, answer: seq<Addr>, ttl: int, now: nat): State
    requires id in s.flights
  {
    var f := s.flights[id];
    var r := Landed(f, answer, ttl);
    var s' := s.(flights := s.flights - {id}, clock := now);
    if Stores(s, f, r, now) then
      var dns := Cache.After(0, s.dns.value, Cache.SetUntil(f.key, r, r.expiresAt), now);
      s'.(dns := Some(dns),
          origins := s.origins[f.key := Origin(f, answer, if ttl > 0 then ttl else 0)])
    else s'
  }

  lemma RefusedWhenExpired(st: Cache.Storage<CacheKey, Result>, k: CacheKey, r: Result, now: nat)
    ensures 0 < r.expiresAt <= now ==> Cache.After(0, st, Cache.SetUntil(k, r, r.expiresAt), now) == st
  {
  }

  function Returned(s: State, f: Flight, answer: seq<Addr>, ttl: int): Outcome {
    RequireAddresses(if f.key.host in s.records then Custom(s.records[f.key.host], f.key.family)
                     else Landed(f, answer, ttl))
  }

  function Forgotten(st: Cache.Storage<CacheKey, Result>, host: string): Cache.Storage<CacheKey, Result> {
    var a := Cache.Drop(st, CacheKey(host, DualStack));
    var b := Cache.Drop(a, CacheKey(host, IPv4Only));
    Cache.Drop(b, CacheKey(host, IPv6Only))
  }

  /** Installs a record, or removes it when there are no addresses; either way cached answers of the host go. */
  function Update(s: State, host: string, addrs: seq<Addr>): State {
    s.(updates := s.updates + 1,
       records := if addrs == [] then s.records - {host} else s.records[host := addrs],
       dns := if s.dns.Some? then Some(Forgotten(s.dns.value, host)) else None,
       lastUpdate := s.lastUpdate[host := s.updates + 1])
  }

  // ----- every interleaving -----

  datatype Step =
    | Begin(key: CacheKey, id: nat, now: nat)
    | Finish(id: nat, answer: seq<Addr>, ttl: int, now: nat)
    | Fail(id: nat)
    | Change(host: string, addrs: seq<Addr>)

  /** The clock never goes back, and no lookup outlasts 2^64 updates: see `RevisionCheck`. */
  predicate Enabled(s: State, a: Step) {
    match a
    case Begin(_, id, now) => id !in s.flights && s.clock <= now && now > 0
    case Finish(id, _, _, now) => id in s.flights && s.clock <= now && s.updates < s.flights[id].began + REVISIONS
    case Fail(id) => id in s.flights
    case Change(_, _) => true
  }

  function After(s: State, a: Step): State
    requires Enabled(s, a)
  {
    match a
    case Begin(k, id, now) => BeginResolve(s, k, id, now)
    case Finish(id, answer, ttl, now) => FinishResolve(s, id, answer, ttl, now)
    case Fail(id) => s.(flights := s.flights - {id})
    case Change(host, addrs) => Update(s, host, addrs)
  }

  ghost predicate Reaches(s: State, steps: seq<Step>, s': State)
    decreases steps
  {
    if steps == [] then s == s' else Enabled(s, steps[0]) && Reaches(After(s, steps[0]), steps[1..], s')
  }

  function Fresh(capacity: nat, now: nat): State {
    State(if capacity > 0 then Some(Cache.Storage(capacity, map[], [])) else None, map[], 0, now, map[], map[], map[])
  }

  /** One cached answer: no record overrides its host, its lookup began after the last update of the host, and it
      is what that lookup brought, with a deadline counted from the start of the lookup. */
  ghost predicate CachedOk(s: State, k: CacheKey, e: Cache.Entry<Result>) {
    && k.host !in s.records
    && k in s.origins
    && var o := s.origins[k];
       && o.flight.key == k && o.flight.started > 0
       && (k.host in s.lastUpdate ==> s.lastUpdate[k.host] <= o.flight.began)
       && e.value == Landed(o.flight, o.answer, o.ttl) && e.expiresAt == o.flight.started + o.ttl
       && e.value.addresses != []
  }

  ghost predicate Inv(s: State) {
    && (s.dns.Some? ==> forall k | k in s.dns.value.table :: CachedOk(s, k, s.dns.value.table[k]))
    && (forall id | id in s.flights :: s.flights[id].began <= s.updates && s.flights[id].started > 0)
    && (forall h | h in s.lastUpdate :: s.lastUpdate[h] <= s.updates)
  }

  /** Reads, evictions and removals only take cached answers away. */
  lemma ReadShrinks(st: Cache.Storage<CacheKey, Result>, k: CacheKey, now: nat)
    ensures Cache.Within(Cache.After(0, st, Cache.Read(k), now).table, st.table)
  {
  }

  lemma SetShrinks(st: Cache.Storage<CacheKey, Result>, k: CacheKey, r: Result, deadline: nat, now: nat)
    requires now < deadline
    ensures Cache.Within(Cache.After(0, st, Cache.SetUntil(k, r, deadline), now).table,
                         st.table[k := Cache.Entry(r, deadline)])
  {
  }

  lemma ForgottenTable(st: Cache.Storage<CacheKey, Result>, host: string)
    ensures Cache.Within(Forgotten(st, host).table, st.table)
    ensures forall k | k in Forgotten(st, host).table :: k.host != host
  {
    forall k | k in Forgotten(st, host).table ensures k.host != host {
      match k.family
      case DualStack => assert k == CacheKey(k.host, DualStack);
      case IPv4Only => assert k == CacheKey(k.host, IPv4Only);
      case IPv6Only => assert k == CacheKey(k.host, IPv6Only);
    }
  }

  /** With records, origins and updates as they were, whatever is left in the cache is as good as it was. */
  lemma KeptKey(s: State, s': State, k: CacheKey)
    requires s.dns.Some? && s'.dns.Some? && Cache.Within(s'.dns.value.table, s.dns.value.table)
    requires s'.records == s.records && s'.origins == s.origins && s'.lastUpdate == s.lastUpdate
    requires k in s'.dns.value.table && forall j | j in s.dns.value.table :: CachedOk(s, j, s.dns.value.table[j])
    ensures CachedOk(s', k, s'.dns.value.table[k])
  {
    assert CachedOk(s, k, s.dns.value.table[k]);
  }

  lemma TouchShrinks(s: State, k: CacheKey, now: nat)
    requires s.dns.Some?
    ensures Touched(s, k, now).Some? && Cache.Within(Touched(s, k, now).value.table, s.dns.value.table)
  {
    ReadShrinks(s.dns.value, k, now);
  }

  lemma TouchStep(s: State, k: CacheKey, now: nat)
    requires Inv(s)
    ensures Inv(s.(dns := Touched(s, k, now), clock := now))
  {
    var s' := s.(dns := Touched(s, k, now), clock := now);
    if s.dns.Some? {
      TouchShrinks(s, k, now);
      forall j | j in s'.dns.value.table ensures CachedOk(s', j, s'.dns.value.table[j]) { KeptKey(s, s', j); }
    }
  }

  lemma LaunchStep(s: State, id: nat, flight: Flight)
    requires Inv(s) && flight.began <= s.updates && flight.started > 0
    ensures Inv(s.(flights := s.flights[id := flight]))
  {
    var s' := s.(flights := s.flights[id := flight]);
    if s.dns.Some? {
      forall j | j in s'.dns.value.table ensures CachedOk(s', j, s'.dns.value.table[j]) {
        assert CachedOk(s, j, s.dns.value.table[j]);
      }
    }
  }

  lemma BeginStep(s: State, k: CacheKey, id: nat, now: nat)
    requires Inv(s) && Enabled(s, Begin(k, id, now))
    ensures Inv(BeginResolve(s, k, id, now))
  {
    TouchStep(s, k, now);
    if Answer(s, k, now).None? {
      LaunchStep(s.(dns := Touched(s, k, now), clock := now), id, Flight(k, s.updates, now));
    }
  }

  lemma ChangeStep(s: State, host: string, addrs: seq<Addr>)
    requires Inv(s)
    ensures Inv(Update(s, host, addrs))
  {
    var s' := Update(s, host, addrs);
    if s.dns.Some? {
      ForgottenTable(s.dns.value, host);
      forall k | k in s'.dns.value.table ensures CachedOk(s', k, s'.dns.value.table[k]) {
        assert CachedOk(s, k, s.dns.value.table[k]);
      }
    }
  }

  /** The revision check says exactly that no update happened since the lookup began, unless their number is a
      positive multiple of 2^64. */
  lemma RevisionCheck(s: State, f: Flight)
    requires f.began <= s.updates
    ensures Revision(s.updates) == Revision(f.began) <==> (s.updates - f.began) % REVISIONS == 0
    ensures s.updates < f.began + REVISIONS ==> (Revision(s.updates) == Revision(f.began) <==> s.updates == f.began)
  {
    var d := s.updates - f.began;
    assert f.began == REVISIONS * (f.began / REVISIONS) + f.began % REVISIONS;
    assert d == REVISIONS * (d / REVISIONS) + d % REVISIONS;
    assert s.updates == REVISIONS * (s.updates / REVISIONS) + s.updates % REVISIONS;
  }

  lemma FinishKey(s: State, id: nat, answer: seq<Addr>, ttl: int, now: nat, k: CacheKey)
    requires Inv(s) && Enabled(s, Finish(id, answer, ttl, now))
    requires var s' := FinishResolve(s, id, answer, ttl, now); s'.dns.Some? && k in s'.dns.value.table
    ensures var s' := FinishResolve(s, id, answer, ttl, now); CachedOk(s', k, s'.dns.value.table[k])
  {
    var f := s.flights[id];
    var r := Landed(f, answer, ttl);
    if Stores(s, f, r, now) {
      RevisionCheck(s, f);
      SetShrinks(s.dns.value, f.key, r, r.expiresAt, now);
    }
    if s.dns.Some? && k in s.dns.value.table { assert CachedOk(s, k, s.dns.value.table[k]); }
  }

  lemma FinishStep(s: State, id: nat, answer: seq<Addr>, ttl: int, now: nat)
    requires Inv(s) && Enabled(s, Finish(id, answer, ttl, now))
    ensures Inv(FinishResolve(s, id, answer, ttl, now))
  {
    var s' := FinishResolve(s, id, answer, ttl, now);
    if s'.dns.Some? {
      forall k | k in s'.dns.value.table ensures CachedOk(s', k, s'.dns.value.table[k]) {
        FinishKey(s, id, answer, ttl, now, k);
      }
    }
  }

  lemma FailStep(s: State, id: nat)
    requires Inv(s) && id in s.flights
    ensures Inv(s.(flights := s.flights - {id}))
  {
    var s' := s.(flights := s.flights - {id});
    if s.dns.Some? {
      forall k | k in s.dns.value.table ensures CachedOk(s', k, s'.dns.value.table[k]) {
        assert CachedOk(s, k, s.dns.value.table[k]);
      }
    }
  }

  lemma StepKeepsInv(s: State, a: Step)
    requires Inv(s) && Enabled(s, a)
    ensures Inv(After(s, a))
  {
    match a
    case Begin(k, id, now) => BeginStep(s, k, id, now);
    case Finish(id, answer, ttl, now) => FinishStep(s, id, answer, ttl, now);
    case Fail(id) => FailStep(s, id);
    case Change(host, addrs) => ChangeStep(s, host, addrs);
  }

  lemma {:induction false} RunKeepsInv(s: State, steps: seq<Step>, s': State)
    requires Inv(s) && Reaches(s, steps, s')
    ensures Inv(s')
    decreases steps
  {
    if steps != [] {
      StepKeepsInv(s, steps[0]);
      RunKeepsInv(After(s, steps[0]), steps[1..], s');
    }
  }

  /** No stale resurrection: after any interleaving of lookups and record updates, a host with a record has no cached
      answer, and the lookup behind a cached answer began after the last update of its host. */
  lemma NoStaleResurrection(capacity: nat, t0: nat, steps: seq<Step>, s: State, k: CacheKey)
    requires Reaches(Fresh(capacity, t0), steps, s)
    requires s.dns.Some? && k in s.dns.value.table
    ensures k.host !in s.records
    ensures k in s.origins && (k.host in s.lastUpdate ==> s.lastUpdate[k.host] <= s.origins[k].flight.began)
  {
    RunKeepsInv(Fresh(capacity, t0), steps, s);
    assert CachedOk(s, k, s.dns.value.table[k]);
  }

  /** A cached answer is served as the lookup brought it, and strictly before the lookup's start plus its TTL. */
  lemma HitsAreLive(capacity: nat, t0: nat, steps: seq<Step>, s: State, k: CacheKey, now: nat)
    requires Reaches(Fresh(capacity, t0), steps, s)
    requires k.host !in s.records && Answer(s, k, now).Some?
    ensures k in s.origins
    ensures var o := s.origins[k];
            && Answer(s, k, now).value == Result(Select(o.answer, k.family), o.flight.started + o.ttl, FromDns)
            && now < o.flight.started + o.ttl
  {
    RunKeepsInv(Fresh(capacity, t0), steps, s);
    assert CachedOk(s, k, s.dns.value.table[k]);
  }

  /** A lookup that finds a record when it comes back returns that record's addresses of the family, in order,
      or ErrNoAddresses if there are none; it never falls through to the DNS answer. */
  lemma RecordWins(s: State, host: string, given: seq<Addr>, f: Flight, answer: seq<Addr>, ttl: int)
    requires f.key.host == host && host in s.records && s.records[host] == Select(given, DualStack)
    ensures Returned(s, f, answer, ttl) ==
            if Select(given, f.key.family) == [] then ErrNoAddresses
            else Ok(Result(Select(given, f.key.family), 0, FromRecord))
  {
    SelectTwice(given, f.key.family);
  }

  // ----- the client -----

  class Client {
    var dns: Option<Cache.Storage<CacheKey, Result>>
    var records: map<string, seq<Addr>>
    var revision: nat
    ghost var updates: nat
    ghost var clock: nat
    ghost var flights: map<nat, Flight>
    ghost var lastUpdate: map<string, nat>
    ghost var origins: map<CacheKey, Origin>

    ghost function Model(): State
      reads this
    {
      State(dns, records, updates, clock, flights, lastUpdate, origins)
    }

    /** The 64-bit counter; that the rest of the state keeps `Inv` follows step by step from `StepKeepsInv`. */
    ghost predicate Valid()
      reads this
    {
      revision == Revision(updates)
    }

    constructor (capacity: nat, ghost now: nat)
      ensures Valid() && Model() == Fresh(capacity, now)
    {
      dns := if capacity > 0 then Some(Cache.Storage(capacity, map[], [])) else None;
      records, revision := map[], 0;
      updates, clock, flights, lastUpdate, origins := 0, now, map[], map[], map[];
    }

    /** Resolve up to the lookup: an outcome, or the revision and time to go on with. */
    method StartResolve(k: CacheKey, now: nat, ghost id: nat)
      returns (outcome: Option<Outcome>, seen: nat, started: nat)
      requires Valid() && Enabled(Model(), Begin(k, id, now))
      modifies this
      ensures Valid() && Model() == BeginResolve(old(Model()), k, id, now)
      ensures var a := Answer(old(Model()), k, now);
              outcome == if a.Some? then Some(RequireAddresses(a.value)) else None
      ensures outcome.None? ==> id in flights && seen == Revision(flights[id].began) && started == flights[id].started
    {
      seen, started := revision, now;
      clock := now;
      if k.host in records {
        var addrs := SelectAddresses(records[k.host], k.family);
        return Some(RequireAddresses(Result(addrs, 0, FromRecord))), seen, started;
      }
      if dns.Some? {
        var hit := Cache.Hit(dns.value, k, now);
        dns := Some(Cache.After(0, dns.value, Cache.Read(k), now));
        if hit.Some? { return Some(RequireAddresses(hit.value)), seen, started; }
      }
      flights := flights[id := Flight(k, updates, now)];
      return None, seen, started;
    }

    /** Resolve from the lookup's answer on. */
    method EndResolve(k: CacheKey, seen: nat, started: nat, answer: seq<Addr>, ttl: int, now: nat, ghost id: nat)
      returns (outcome: Outcome)
      requires Valid() && Enabled(Model(), Finish(id, answer, ttl, now))
      requires started > 0
      requires flights[id].key == k && flights[id].started == started && Revision(flights[id].began) == seen
      modifies this
      ensures Valid() && Model() == FinishResolve(old(Model()), id, answer, ttl, now)
      ensures outcome == Returned(old(Model()), old(flights[id]), answer, ttl)
    {
      ghost var s, f := Model(), flights[id];
      var selected := SelectAddresses(answer, k.family);
      var result := Result(selected, started + (if ttl > 0 then ttl else 0), FromDns);
      assert result == Landed(f, answer, ttl);
      flights := flights - {id};
      clock := now;
      if k.host in records {
        var addrs := SelectAddresses(records[k.host], k.family);
        return RequireAddresses(Result(addrs, 0, FromRecord));
      }
      if dns.Some? && revision == seen && |result.addresses| > 0 {
        RefusedWhenExpired(dns.value, k, result, now);
        assert Stores(s, f, result, now) <==> now < result.expiresAt;
        dns := Some(Cache.After(0, dns.value, Cache.SetUntil(k, result, result.expiresAt), now));
        if now < result.expiresAt {
          origins := origins[k := Origin(f, answer, if ttl > 0 then ttl else 0)];
        }
      }
      return RequireAddresses(result);
    }

    method UpdateRecords(host: string, addrs: seq<Addr>)
      requires Valid()
      modifies this
      ensures Valid() && Model() == Update(old(Model()), host, addrs)
    {
      revision := (revision + 1) % REVISIONS;
      updates := updates + 1;
      lastUpdate := lastUpdate[host := updates];
      if |addrs| == 0 {
        records := records - {host};
      } else {
        records := records[host := addrs];
      }
      if dns.Some? {
        dns := Some(Forgotten(dns.value, host));
      }
    }

    /** Validates a record and installs the dual-stack selection of its addresses. */
    method SetRecord(host: string, addrs: seq<Addr>) returns (ok: bool)
      requires Valid()
      modifies this
      ensures Valid()
      ensures ok <==> addrs != [] && forall a | a in addrs :: !a.Invalid? && ((a.V6? || a.Mapped?) ==> a.zone == "")
      ensures ok ==> Model() == Update(old(Model()), host, Select(addrs, DualStack)) && host in records
      ensures !ok ==> Model() == old(Model())
    {
      if |addrs| == 0 { return false; }
      for n := 0 to |addrs|
        invariant forall a | a in addrs[..n] :: !a.Invalid? && ((a.V6? || a.Mapped?) ==> a.zone == "")
      {
        assert addrs[..n + 1] == addrs[..n] + [addrs[n]];
        var ip := addrs[n];
        if ip.Invalid? || ((ip.V6? || ip.Mapped?) && ip.zone != "") {
          assert ip in addrs;
          return false;
        }
      }
      assert addrs[..|addrs|] == addrs;
      var selected := SelectAddresses(addrs, DualStack);
      SelectMembers(addrs, DualStack);
      assert Unmap(addrs[0]) in selected;
      UpdateRecords(host, selected);
      return true;
    }
  }
}
