/** The event debouncer (pkg/krt/debouncer.go) and the way a handler set uses it (pkg/krt/processor.go:159-176). */
module Debouncer {
  import opened Collections

  function Flatten<T>(batches: seq<seq<T>>): seq<T> {
    if batches == [] then [] else Flatten(batches[..|batches| - 1]) + batches[|batches| - 1]
  }

  datatype Config = Config(after: nat, maxDelay: nat)

  datatype Phase = Running | Draining | Returned

  datatype State<T> = State(
    ch: seq<T>,                       // the buffered channel
    pending: seq<T>,
    debounce: Option<int>,            // when the debounce timer fires, if it is armed
    deadline: Option<int>,            // when the maximum timer fires, if it is armed
    flushed: seq<seq<T>>,             // the batches handed to flush
    synced: bool,
    stopped: bool,                    // stop has been closed
    phase: Phase,
    accepted: seq<T>,                 // everything the channel has taken
    beforeStop: seq<T>,               // what it had taken when stop was closed
    first: int)                       // when the loop received the first unflushed value

  datatype Step<T> =
    | Enqueue(value: T)
    | Receive(now: int)
    | DebounceFires(now: int)
    | MaximumFires(now: int)
    | CloseStop
    | SeeStop
    | DrainOne
    | Return

  predicate Enabled<T>(s: State<T>, a: Step<T>) {
    match a
    case Enqueue(_) => true
    case Receive(_) => s.phase.Running? && s.ch != []
    case DebounceFires(now) => s.phase.Running? && s.debounce.Some? && now >= s.debounce.value
    case MaximumFires(now) => s.phase.Running? && s.deadline.Some? && now >= s.deadline.value
    case CloseStop => !s.stopped
    case SeeStop => s.phase.Running? && s.stopped
    case DrainOne => s.phase.Draining? && s.ch != []
    case Return => s.phase.Draining? && s.ch == []
  }

  function Flush<T>(s: State<T>): State<T> {
    s.(pending := [], debounce := None, deadline := None,
       flushed := if s.pending != [] then s.flushed + [s.pending] else s.flushed,
       synced := s.synced || s.pending != [])
  }

  function After<T>(cfg: Config, s: State<T>, a: Step<T>): State<T>
    requires Enabled(s, a)
  {
    match a
    case Enqueue(v) => s.(ch := s.ch + [v], accepted := s.accepted + [v])
    case Receive(now) =>
      s.(ch := s.ch[1..],
         pending := s.pending + [s.ch[0]],
         debounce := Some(now + cfg.after),
         deadline := if s.deadline.None? && cfg.maxDelay > 0 then Some(now + cfg.maxDelay) else s.deadline,
         first := if s.pending == [] then now else s.first)
    case DebounceFires(_) => Flush(s)
    case MaximumFires(_) => Flush(s)
    case CloseStop => s.(stopped := true, beforeStop := s.accepted)
    case SeeStop => s.(phase := Draining, debounce := None)
    case DrainOne => s.(ch := s.ch[1..], pending := s.pending + [s.ch[0]])
    case Return => Flush(s).(phase := Returned)
  }

  function Idle<T>(): State<T> {
    State([], [], None, None, [], false, false, Running, [], [], 0)
  }

  ghost predicate Reaches<T(!new)>(cfg: Config, s: State<T>, steps: seq<Step<T>>, s': State<T>)
    decreases steps
  {
    if steps == [] then s == s' else Enabled(s, steps[0]) && Reaches(cfg, After(cfg, s, steps[0]), steps[1..], s')
  }

  // ----- the invariant -----

  /** Nothing is lost, duplicated or reordered. */
  ghost predicate Conserved<T>(s: State<T>) {
    s.accepted == Flatten(s.flushed) + s.pending + s.ch
  }

  /** While values are waiting, the debounce timer is armed, and with a maximum so is the other one: exactly at the
      receipt of the first waiting value plus the maximum. While none are, no timer is armed. */
  ghost predicate Armed<T>(cfg: Config, s: State<T>) {
    s.phase.Running? ==>
      && (s.debounce.Some? <==> s.pending != [])
      && s.deadline == if s.pending != [] && cfg.maxDelay > 0 then Some(s.first + cfg.maxDelay) else None
  }

  ghost predicate Flushes<T>(s: State<T>) {
    && (forall b | b in s.flushed :: b != [])
    && (s.synced <==> s.flushed != [])
  }

  /** Stopping: the loop has flushed what was accepted before stop when it returns. */
  ghost predicate Stopping<T>(s: State<T>) {
    && (s.stopped ==> s.beforeStop <= s.accepted)
    && (!s.phase.Running? ==> s.stopped)
    && (s.phase.Returned? ==> s.pending == [] && |s.beforeStop| <= |Flatten(s.flushed)|)
  }

  ghost predicate Inv<T>(cfg: Config, s: State<T>) {
    Conserved(s) && Armed(cfg, s) && Flushes(s) && Stopping(s)
  }

  lemma FlattenSnoc<T>(batches: seq<seq<T>>, b: seq<T>)
    ensures Flatten(batches + [b]) == Flatten(batches) + b
  {
    assert (batches + [b])[..|batches|] == batches;
  }

  lemma FlushKeeps<T>(s: State<T>)
    requires Conserved(s)
    ensures Conserved(Flush(s))
    ensures Flatten(Flush(s).flushed) == Flatten(s.flushed) + s.pending
  {
    FlattenSnoc(s.flushed, s.pending);
  }

  lemma FirstMoves<T>(a: seq<T>, b: seq<T>, c: seq<T>)
    requires c != []
    ensures a + b + c == a + (b + [c[0]]) + c[1..]
  {
    assert c == [c[0]] + c[1..];
  }

  lemma StepConserves<T>(cfg: Config, s: State<T>, a: Step<T>)
    requires Conserved(s) && Enabled(s, a)
    ensures Conserved(After(cfg, s, a))
  {
    match a
    case Enqueue(v) => assert s.accepted + [v] == Flatten(s.flushed) + s.pending + (s.ch + [v]);
    case Receive(_) => FirstMoves(Flatten(s.flushed), s.pending, s.ch);
    case DrainOne => FirstMoves(Flatten(s.flushed), s.pending, s.ch);
    case CloseStop =>
    case SeeStop =>
    case _ => FlushKeeps(s);
  }

  lemma ReturnFlushesAll<T>(s: State<T>)
    requires Conserved(s) && s.ch == []
    ensures Flatten(Flush(s).flushed) == s.accepted
  {
    FlushKeeps(s);
  }

  lemma StepArms<T>(cfg: Config, s: State<T>, a: Step<T>)
    requires Armed(cfg, s) && Enabled(s, a)
    ensures Armed(cfg, After(cfg, s, a))
  {
  }

  lemma StepFlushes<T>(cfg: Config, s: State<T>, a: Step<T>)
    requires Flushes(s) && Enabled(s, a)
    ensures Flushes(After(cfg, s, a))
  {
  }

  lemma StepStops<T>(cfg: Config, s: State<T>, a: Step<T>)
    requires Conserved(s) && Stopping(s) && Enabled(s, a)
    ensures Stopping(After(cfg, s, a))
  {
    if a.Return? { ReturnFlushesAll(s); }
  }

  lemma StepKeepsInv<T>(cfg: Config, s: State<T>, a: Step<T>)
    requires Inv(cfg, s) && Enabled(s, a)
    ensures Inv(cfg, After(cfg, s, a))
  {
    StepConserves(cfg, s, a);
    StepArms(cfg, s, a);
    StepFlushes(cfg, s, a);
    StepStops(cfg, s, a);
  }

  lemma {:induction false} RunKeepsInv<T(!new)>(cfg: Config, s: State<T>, steps: seq<Step<T>>, s': State<T>)
    requires Inv(cfg, s) && Reaches(cfg, s, steps, s')
    ensures Inv(cfg, s')
    decreases steps
  {
    if steps != [] {
      StepKeepsInv(cfg, s, steps[0]);
      RunKeepsInv(cfg, After(cfg, s, steps[0]), steps[1..], s');
    }
  }

  /** Conservation, in every run: the flushed batches, the waiting values and the buffered ones are the accepted values,
      in order; no flushed batch is empty; and when the loop has returned, everything accepted before stop has been
      flushed, once. */
  lemma DebouncerConserves<T(!new)>(cfg: Config, steps: seq<Step<T>>, s: State<T>)
    requires Reaches(cfg, Idle(), steps, s)
    ensures s.accepted == Flatten(s.flushed) + s.pending + s.ch
    ensures forall b | b in s.flushed :: b != []
    ensures s.synced <==> s.flushed != []
    ensures s.phase.Returned? ==> s.beforeStop <= Flatten(s.flushed)
  {
    RunKeepsInv(cfg, Idle(), steps, s);
    if s.phase.Returned? { assert s.accepted == Flatten(s.flushed) + s.ch; }
  }

  /** The bound, in every run: while the loop holds a value back, a timer is armed that fires no later than `maxDelay`
      after the first value held back was received, however many values have followed. */
  lemma DelayIsBounded<T(!new)>(cfg: Config, steps: seq<Step<T>>, s: State<T>)
    requires Reaches(cfg, Idle(), steps, s) && s.phase.Running? && s.pending != [] && cfg.maxDelay > 0
    ensures s.deadline.Some? && s.deadline.value == s.first + cfg.maxDelay
    ensures Enabled(s, MaximumFires(s.first + cfg.maxDelay))
  {
    RunKeepsInv(cfg, Idle(), steps, s);
  }

  // ----- a handler set behind a debouncer -----

  /** A distributed batch of events; `initialSync` marks the collection's initial state. */
  datatype Distribution<E> = Distribution(events: seq<E>, initialSync: bool)

  function EventsOf<E>(ds: seq<Distribution<E>>): seq<E> {
    if ds == [] then [] else EventsOf(ds[..|ds| - 1]) + ds[|ds| - 1].events
  }

  /** The flush callback: one distribution of all events in order, initial if any constituent was. */
  method MergeDistributions<E>(ds: seq<Distribution<E>>) returns (r: Distribution<E>)
    ensures r.events == EventsOf(ds)
    ensures r.initialSync <==> exists d :: d in ds && d.initialSync
  {
    var merged, initialSync := [], false;
    for n := 0 to |ds|
      invariant merged == EventsOf(ds[..n])
      invariant initialSync <==> exists d :: d in ds[..n] && d.initialSync
    {
      assert ds[..n + 1][..n] == ds[..n] && ds[..n + 1] == ds[..n] + [ds[n]];
      merged := merged + ds[n].events;
      if ds[n].initialSync { initialSync := true; }
    }
    assert ds[..|ds|] == ds;
    r := Distribution(merged, initialSync);
  }

  lemma {:induction false} EventsOfConcat<E>(a: seq<Distribution<E>>, b: seq<Distribution<E>>)
    ensures EventsOf(a + b) == EventsOf(a) + EventsOf(b)
  {
    if b == [] {
      assert a + b == a;
    } else {
      var n := |b| - 1;
      var init, last := b[..n], b[n].events;
      EventsOfConcat(a, init);
      assert (a + b)[..|a + b| - 1] == a + init;
      assert EventsOf(a + b) == EventsOf(a + init) + last;
      assert EventsOf(b) == EventsOf(init) + last;
      Associates(EventsOf(a), EventsOf(init), last);
    }
  }

  lemma Associates<T>(a: seq<T>, b: seq<T>, c: seq<T>)
    ensures (a + b) + c == a + (b + c)
  {
  }

  /** The events the flushes distribute, flush by flush. */
  function Distributed<E>(flushed: seq<seq<Distribution<E>>>): seq<E> {
    if flushed == [] then [] else Distributed(flushed[..|flushed| - 1]) + EventsOf(flushed[|flushed| - 1])
  }

  lemma {:induction false} DistributedFlatten<E>(flushed: seq<seq<Distribution<E>>>)
    ensures Distributed(flushed) == EventsOf(Flatten(flushed))
  {
    if flushed != [] {
      var m := |flushed| - 1;
      DistributedFlatten(flushed[..m]);
      EventsOfConcat(Flatten(flushed[..m]), flushed[m]);
    }
  }

  /** Debouncing changes how the event stream is cut into batches, never the stream: in every run the events
      distributed, then those held back, are the events given to the debouncer, in order. */
  lemma StreamIsPreserved<E(!new)>(cfg: Config, steps: seq<Step<Distribution<E>>>, s: State<Distribution<E>>)
    requires Reaches(cfg, Idle(), steps, s)
    ensures EventsOf(s.accepted) == Distributed(s.flushed) + EventsOf(s.pending) + EventsOf(s.ch)
  {
    DebouncerConserves(cfg, steps, s);
    DistributedFlatten(s.flushed);
    EventsOfConcat(Flatten(s.flushed), s.pending);
    EventsOfConcat(Flatten(s.flushed) + s.pending, s.ch);
  }

  class Loop<T(!new)> {
    const cfg: Config
    var s: State<T>

    constructor (cfg: Config)
      ensures this.cfg == cfg && s == Idle()
    {
      this.cfg := cfg;
      s := Idle();
    }

    /** A value arrives. */
    method Take(now: int)
      requires Enabled(s, Receive(now))
      modifies this
      ensures s == After(cfg, old(s), Receive(now))
    {
      var v := s.ch[0];
      if s.pending == [] { s := s.(first := now); }
      s := s.(ch := s.ch[1..], pending := s.pending + [v], debounce := Some(now + cfg.after));
      if s.deadline.None? && cfg.maxDelay > 0 { s := s.(deadline := Some(now + cfg.maxDelay)); }
    }

    method DoFlush()
      modifies this
      ensures s == Flush(old(s))
    {
      if |s.pending| > 0 {
        s := s.(flushed := s.flushed + [s.pending], pending := [], synced := true);
      }
      s := s.(debounce := None, deadline := None);
    }

    /** The stop case: drain the channel, flush, return. Undisturbed, it flushes everything accepted. */
    method StopAndDrain()
      requires Inv(cfg, s) && Enabled(s, SeeStop)
      modifies this
      ensures Inv(cfg, s) && s.phase.Returned?
      ensures Flatten(s.flushed) == old(s).accepted
    {
      StepKeepsInv(cfg, s, SeeStop);
      s := s.(phase := Draining, debounce := None);
      while |s.ch| > 0
        invariant Inv(cfg, s) && s.phase.Draining? && s.accepted == old(s).accepted
        decreases |s.ch|
      {
        StepKeepsInv(cfg, s, DrainOne);
        s := s.(pending := s.pending + [s.ch[0]], ch := s.ch[1..]);
      }
      StepKeepsInv(cfg, s, Return);
      FlushKeeps(s);
      DoFlush();
      s := s.(phase := Returned);
    }
  }
}
