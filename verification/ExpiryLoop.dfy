/** The expiry loop of the demand cache (pkg/demandcache/cache.go:179-226): one timer, and a one-slot channel that
    releases and shutdown fill. The loop runs beside all other uses of the cache. */
module ExpiryLoop {
  import opened Collections
  import opened DemandCache

  datatype Phase = Working | Sleeping | Finished

  /** `timer` is when the timer fires, if it is armed; `token` says whether the slot is full. */
  datatype Loop = Loop(phase: Phase, timer: Option<int>, token: bool)

  datatype Whole = Whole(cache: State, loop: Loop)

  datatype Move =
    | Call(step: Step)
    | Iterate(now: int)
    | TakeToken
    | TimerFires(now: int)
    | Cancel

  /** Releases and the first shutdown signal the loop. */
  predicate Signals(s: State, a: Step) {
    a.Release? || (a.Close? && !s.closed)
  }

  /** When the entry at the back of the idle list expires. */
  function TailDeadline(cfg: Config, s: State): Option<int> {
    if cfg.idleTTL > 0 && s.idle != [] && s.idle[|s.idle| - 1] in s.pool
    then Some(s.pool[s.idle[|s.idle| - 1]].lastAccess + cfg.idleTTL) else None
  }

  ghost predicate MoveEnabled(w: Whole, a: Move) {
    match a
    case Call(step) => Enabled(w.cache, step) && !step.Tick?
    case Iterate(now) => w.loop.phase.Working? && w.cache.clock <= now
    case TakeToken => w.loop.phase.Sleeping? && w.loop.token
    case TimerFires(now) =>
      w.loop.phase.Sleeping? && w.loop.timer.Some? && w.loop.timer.value <= now && w.cache.clock <= now
    case Cancel => w.loop.phase.Sleeping?
  }

  ghost function AfterMove(cfg: Config, w: Whole, a: Move): Whole
    requires MoveEnabled(w, a)
  {
    match a
    case Call(step) =>
      Whole(After(cfg, w.cache, step), w.loop.(token := w.loop.token || Signals(w.cache, step)))
    case Iterate(now) =>
      var c := PruneAt(cfg, w.cache, now);
      Whole(c, w.loop.(phase := if c.closed then Finished else Sleeping, timer := TailDeadline(cfg, c)))
    case TakeToken => w.(loop := Loop(Working, None, false))
    case TimerFires(now) => Whole(w.cache.(clock := now), w.loop.(phase := Working, timer := None))
    case Cancel => Whole(CloseStep(w.cache), w.loop.(phase := Finished))
  }

  ghost predicate Runs(cfg: Config, w: Whole, moves: seq<Move>, w': Whole)
    decreases moves
  {
    if moves == [] then w == w'
    else MoveEnabled(w, moves[0]) && Runs(cfg, AfterMove(cfg, w, moves[0]), moves[1..], w')
  }

  function Begun(now: int): Whole {
    Whole(Empty(now), Loop(Working, None, false))
  }

  /** The loop will be up before the idle entry expires: its timer is armed early enough, or it has been signalled. */
  ghost predicate WakesFor(cfg: Config, w: Whole, id: nat)
    requires id in w.cache.pool
  {
    w.loop.token || (w.loop.timer.Some? && w.loop.timer.value <= w.cache.pool[id].lastAccess + cfg.idleTTL)
  }

  ghost predicate Awake(cfg: Config, w: Whole) {
    w.loop.phase.Sleeping? && cfg.idleTTL > 0 ==>
      forall id | id in w.cache.idle :: id in w.cache.pool && WakesFor(cfg, w, id)
  }

  ghost predicate LoopInv(cfg: Config, w: Whole) {
    Inv(cfg, w.cache) && Awake(cfg, w)
  }

  // ----- what a get does to the idle list -----

  /** `s'` has no idle entry that `s` does not have, and none was accessed since. */
  ghost predicate IdleShrinks(s: State, s': State) {
    forall id | id in s'.idle :: id in s.idle &&
      (id in s.pool ==> id in s'.pool && s'.pool[id].lastAccess == s.pool[id].lastAccess)
  }

  lemma {:induction false} PruneShrinks(cfg: Config, s: State, now: int)
    ensures IdleShrinks(s, Prune(cfg, s, now))
    decreases |s.idle|
  {
    PruneKeepsPool(cfg, s, now);
    if TailGoes(cfg, s, now) {
      var id := s.idle[|s.idle| - 1];
      UnlinkShrinks(s.idle, id);
      UnlinkSubset(s.idle, id);
      PruneKeepsPool(cfg, Remove(s, id), now);
      PruneShrinks(cfg, Remove(s, id), now);
    }
  }

  lemma DropShrinks(s: State, k: ResourceKey)
    requires k in s.entries ==> s.entries[k] in s.pool
    ensures IdleShrinks(s, DropEnded(s, k))
  {
    if k in s.entries { UnlinkSubset(s.idle, s.entries[k]); }
  }

  lemma AdmitShrinks(s: State, k: ResourceKey, acquired: Option<nat>)
    requires k in s.entries ==> s.entries[k] in s.pool
    requires k !in s.entries ==> acquired.Some? && acquired.value !in s.pool
    ensures IdleShrinks(s, Admit(s, k, acquired))
  {
    if k in s.entries { UnlinkSubset(s.idle, s.entries[k]); }
  }

  lemma GetShrinks(cfg: Config, s: State, k: ResourceKey, acquired: Option<nat>, now: int, later: int)
    requires Linked(s) && (acquired.Some? ==> acquired.value !in s.pool)
    ensures IdleShrinks(s, GetStep(cfg, s, k, acquired, now, later).0)
  {
    if !s.closed {
      PruneKeepsPool(cfg, s, now);
      PruneShrinks(cfg, s, now);
      var s1 := PruneAt(cfg, s, now);
      DropShrinks(s1, k);
      var s2 := DropEnded(s1, k);
      assert IdleShrinks(s, s2);
      if k in s2.entries || acquired.Some? {
        var s3 := Admit(s2, k, acquired);
        AdmitShrinks(s2, k, acquired);
        assert IdleShrinks(s, s3);
        PruneShrinks(cfg, s3, later);
        PruneKeepsPool(cfg, s3, later);
      }
    }
  }

  // ----- every move -----

  lemma ShrinkKeepsAwake(cfg: Config, w: Whole, c: State, token: bool)
    requires Awake(cfg, w) && Inv(cfg, w.cache) && IdleShrinks(w.cache, c) && (w.loop.token ==> token)
    ensures Awake(cfg, Whole(c, w.loop.(token := token)))
  {
    InvIsLinked(cfg, w.cache);
  }

  lemma CallKeeps(cfg: Config, w: Whole, step: Step)
    requires LoopInv(cfg, w) && MoveEnabled(w, Call(step))
    ensures LoopInv(cfg, AfterMove(cfg, w, Call(step)))
  {
    var w' := AfterMove(cfg, w, Call(step));
    StepKeepsInv(cfg, w.cache, step);
    InvIsLinked(cfg, w.cache);
    InvIsLinked(cfg, w'.cache);
    if step.Get? { GetShrinks(cfg, w.cache, step.key, step.acquired, step.now, step.later); }
    if !step.Release? { ShrinkKeepsAwake(cfg, w, w'.cache, w'.loop.token); }
  }

  /** The timer is set to the earliest deadline there is. */
  lemma TailIsEarliest(cfg: Config, s: State, id: nat)
    requires Core(s) && cfg.idleTTL > 0 && id in s.idle
    ensures id in s.pool && TailDeadline(cfg, s).Some?
    ensures TailDeadline(cfg, s).value <= s.pool[id].lastAccess + cfg.idleTTL
  {
    var i :| 0 <= i < |s.idle| && s.idle[i] == id;
    assert s.idle[|s.idle| - 1] in s.idle;
  }

  lemma IterateKeeps(cfg: Config, w: Whole, now: int)
    requires LoopInv(cfg, w) && MoveEnabled(w, Iterate(now))
    ensures LoopInv(cfg, AfterMove(cfg, w, Iterate(now)))
  {
    var w' := AfterMove(cfg, w, Iterate(now));
    PruneAtInv(cfg, w.cache, now);
    if cfg.idleTTL > 0 {
      forall id | id in w'.cache.idle ensures id in w'.cache.pool && WakesFor(cfg, w', id) {
        TailIsEarliest(cfg, w'.cache, id);
      }
    }
  }

  lemma MoveKeepsInv(cfg: Config, w: Whole, a: Move)
    requires LoopInv(cfg, w) && MoveEnabled(w, a)
    ensures LoopInv(cfg, AfterMove(cfg, w, a))
  {
    match a
    case Call(step) => CallKeeps(cfg, w, step);
    case Iterate(now) => IterateKeeps(cfg, w, now);
    case TakeToken =>
    case TimerFires(now) => ClockCore(w.cache, now);
    case Cancel => CloseKeepsInv(cfg, w.cache);
  }

  lemma {:induction false} RunsKeepInv(cfg: Config, w: Whole, moves: seq<Move>, w': Whole)
    requires LoopInv(cfg, w) && Runs(cfg, w, moves, w')
    ensures LoopInv(cfg, w')
    decreases moves
  {
    if moves != [] {
      MoveKeepsInv(cfg, w, moves[0]);
      RunsKeepInv(cfg, AfterMove(cfg, w, moves[0]), moves[1..], w');
    }
  }

  /** The loop never oversleeps: whatever gets, releases and shutdown do while it sleeps, for every idle entry it
      has been signalled, or its timer is armed no later than the entry expires. */
  lemma NeverOversleeps(cfg: Config, now: int, moves: seq<Move>, w: Whole, id: nat)
    requires Runs(cfg, Begun(now), moves, w) && w.loop.phase.Sleeping? && cfg.idleTTL > 0 && id in w.cache.idle
    ensures id in w.cache.pool && WakesFor(cfg, w, id)
  {
    RunsKeepInv(cfg, Begun(now), moves, w);
  }

  /** And when it goes to sleep, no idle entry is expired. */
  lemma SleepsWithoutExpired(cfg: Config, w: Whole, now: int, id: nat)
    requires LoopInv(cfg, w) && MoveEnabled(w, Iterate(now)) && id in AfterMove(cfg, w, Iterate(now)).cache.idle
    ensures id in w.cache.pool && !Expired(cfg, w.cache.pool[id], now)
  {
    NothingExpiredIsLeft(cfg, w.cache, now, id);
  }

  class Runner {
    const cache: Cache
    var loop: Loop

    ghost function Model(): Whole
      reads this, cache
    {
      Whole(cache.Model(), loop)
    }

    constructor (cache: Cache)
      ensures this.cache == cache && loop == Loop(Working, None, false)
    {
      this.cache := cache;
      loop := Loop(Working, None, false);
    }

    /** One round of the loop up to the wait. */
    method RunOnce(now: int)
      requires loop.phase.Working? && cache.clock <= now && Linked(cache.Model())
      modifies this, cache
      ensures Model() == AfterMove(cache.config, old(Model()), Iterate(now))
    {
      PruneLinked(cache.config, cache.Model(), now);
      cache.PruneAndRead(now);
      var timer := None;
      if cache.config.idleTTL > 0 && |cache.idle| > 0 {
        var tail := cache.idle[|cache.idle| - 1];
        assert tail in cache.Model().idle;
        timer := Some(cache.pool[tail].lastAccess + cache.config.idleTTL);
      }
      loop := loop.(phase := if cache.closed then Finished else Sleeping, timer := timer);
    }
  }
}
