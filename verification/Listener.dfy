/** Delivery to one handler: an unbuffered channel, a slot with a ring buffer behind it, the handler loop, and the
    tracker that says when the initial state has been handled (pkg/krt/processor.go:189-389). */
module Listener {
  import opened Collections
  import opened Events

  /** A notification: the parent has synced, or a batch of events, initial or not. */
  datatype Note = ParentSynced | Batch(events: seq<Event>, initial: bool)

  /** How much a notification counts towards the initial state. */
  function Weight(n: Note): nat {
    if n.Batch? && n.initial then |n.events| else 0
  }

  function Total(notes: seq<Note>): nat {
    if notes == [] then 0 else Total(notes[..|notes| - 1]) + Weight(notes[|notes| - 1])
  }

  datatype Tracker = Tracker(count: int, pendingSync: bool, hasSynced: bool, closes: nat)

  /** The parent has synced: with nothing left to handle, so are we. */
  function OnParentSynced(t: Tracker): Tracker {
    if t.hasSynced then t
    else if t.count == 0 then t.(hasSynced := true, closes := t.closes + 1)
    else t.(pendingSync := true)
  }

  function OnFinished(t: Tracker, n: nat): Tracker {
    var left := t.count - n;
    if !t.hasSynced && t.pendingSync && left == 0 && n != 0
    then t.(count := left, hasSynced := true, closes := t.closes + 1)
    else t.(count := left)
  }

  datatype State = State(
    waiting: seq<Note>,            // counted by their senders, not yet accepted
    slot: Option<Note>,
    ring: seq<Note>,
    current: Option<Note>,         // with the handler loop
    tracker: Tracker,
    accepted: seq<Note>,           // everything accepted so far
    handled: seq<Note>,            // everything handled so far
    parentSeen: bool,              // a parent-synced signal has been processed
    zeroSeen: bool)                // the count has been zero at that moment or later

  datatype Step =
    | Send(note: Note)
    | Accept(i: nat)
    | Pass
    | Handle

  predicate Enabled(s: State, a: Step) {
    match a
    case Send(_) => true
    case Accept(i) => i < |s.waiting|
    case Pass => s.slot.Some? && s.current.None?
    case Handle => s.current.Some?
  }

  /** What the handler loop does with one notification. */
  function Track(t: Tracker, n: Note): Tracker {
    match n
    case ParentSynced => OnParentSynced(t)
    case Batch(events, initial) => if initial then OnFinished(t, |events|) else OnParentSynced(t)
  }

  /** A non-initial batch proves that the parent has synced. */
  predicate Signals(n: Note) {
    n.ParentSynced? || !n.initial
  }

  function Moved(s: State, a: Step): State
    requires Enabled(s, a)
  {
    match a
    case Send(n) => s.(waiting := s.waiting + [n], tracker := s.tracker.(count := s.tracker.count + Weight(n)))
    case Accept(i) =>
      var s' := s.(waiting := s.waiting[..i] + s.waiting[i + 1..], accepted := s.accepted + [s.waiting[i]]);
      if s.slot.None? then s'.(slot := Some(s.waiting[i])) else s'.(ring := s.ring + [s.waiting[i]])
    case Pass =>
      s.(current := s.slot,
         slot := if s.ring == [] then None else Some(s.ring[0]),
         ring := if s.ring == [] then [] else s.ring[1..])
    case Handle =>
      var n := s.current.value;
      s.(current := None, tracker := Track(s.tracker, n), handled := s.handled + [n],
         parentSeen := s.parentSeen || Signals(n))
  }

  function After(s: State, a: Step): State
    requires Enabled(s, a)
  {
    var s' := Moved(s, a);
    s'.(zeroSeen := s'.zeroSeen || (s'.parentSeen && s'.tracker.count == 0))
  }

  ghost predicate Reaches(s: State, steps: seq<Step>, s': State)
    decreases steps
  {
    if steps == [] then s == s' else Enabled(s, steps[0]) && Reaches(After(s, steps[0]), steps[1..], s')
  }

  /** A new listener; one that is registered on a synced parent without initial events is synced at once. */
  function New(synced: bool): State {
    State([], None, [], None, Tracker(0, false, synced, if synced then 1 else 0), [], [], synced, synced)
  }

  function Opt(n: Option<Note>): seq<Note> {
    if n.Some? then [n.value] else []
  }

  /** Accepted but not handled, in order. */
  function Queue(s: State): seq<Note> {
    Opt(s.current) + Opt(s.slot) + s.ring
  }

  ghost predicate Fifo(s: State) {
    s.accepted == s.handled + Queue(s) && (s.slot.None? ==> s.ring == [])
  }

  ghost predicate Counted(s: State) {
    s.tracker.count == Total(s.waiting) + Total(Queue(s))
  }

  ghost predicate SyncExact(s: State) {
    && s.tracker.closes == (if s.tracker.hasSynced then 1 else 0)
    && s.tracker.hasSynced == s.zeroSeen
    && (s.zeroSeen ==> s.parentSeen)
    && (s.parentSeen && !s.zeroSeen ==> s.tracker.pendingSync && s.tracker.count > 0)
    && (s.tracker.pendingSync ==> s.parentSeen)
  }

  ghost predicate Inv(s: State) {
    Fifo(s) && Counted(s) && SyncExact(s)
  }

  lemma {:induction false} TotalConcat(a: seq<Note>, b: seq<Note>)
    ensures Total(a + b) == Total(a) + Total(b)
  {
    if b == [] {
      assert a + b == a;
    } else {
      TotalConcat(a, b[..|b| - 1]);
      assert (a + b)[..|a + b| - 1] == a + b[..|b| - 1];
    }
  }

  lemma TotalOne(n: Note)
    ensures Total([n]) == Weight(n)
  {
    assert [n][..0] == [];
  }

  lemma TotalWithout(notes: seq<Note>, i: nat)
    requires i < |notes|
    ensures Total(notes) == Total(notes[..i] + notes[i + 1..]) + Weight(notes[i])
  {
    var n := notes[i];
    assert notes == notes[..i] + ([n] + notes[i + 1..]);
    TotalConcat(notes[..i], [n] + notes[i + 1..]);
    TotalConcat([n], notes[i + 1..]);
    TotalConcat(notes[..i], notes[i + 1..]);
    TotalOne(n);
  }

  /** An accepted notification goes to the end of the queue. */
  lemma AcceptAppends(s: State, i: nat)
    requires (s.slot.None? ==> s.ring == []) && i < |s.waiting|
    ensures Queue(After(s, Accept(i))) == Queue(s) + [s.waiting[i]]
  {
  }

  lemma PassKeepsQueue(s: State)
    requires (s.slot.None? ==> s.ring == []) && Enabled(s, Pass)
    ensures Queue(After(s, Pass)) == Queue(s)
  {
  }

  lemma HandleTakesFirst(s: State)
    requires Enabled(s, Handle)
    ensures Queue(s) == [s.current.value] + Queue(After(s, Handle))
    ensures Total(Queue(s)) == Weight(s.current.value) + Total(Queue(After(s, Handle)))
  {
    var n, rest := s.current.value, Queue(After(s, Handle));
    assert Queue(s) == [n] + rest;
    TotalConcat([n], rest);
    TotalOne(n);
  }

  lemma AcceptFifo(s: State, i: nat)
    requires Fifo(s) && Enabled(s, Accept(i))
    ensures Fifo(After(s, Accept(i)))
  {
    AcceptAppends(s, i);
    assert s.accepted + [s.waiting[i]] == s.handled + (Queue(s) + [s.waiting[i]]);
  }

  lemma HandleFifo(s: State)
    requires Fifo(s) && Enabled(s, Handle)
    ensures Fifo(After(s, Handle))
  {
    HandleTakesFirst(s);
    var rest := Queue(After(s, Handle));
    assert s.handled + ([s.current.value] + rest) == s.handled + [s.current.value] + rest;
  }

  lemma FifoStep(s: State, a: Step)
    requires Fifo(s) && Enabled(s, a)
    ensures Fifo(After(s, a))
  {
    match a
    case Send(n) =>
    case Accept(i) => AcceptFifo(s, i);
    case Pass => PassKeepsQueue(s);
    case Handle => HandleFifo(s);
  }

  lemma SendCounts(s: State, n: Note)
    requires Counted(s)
    ensures Counted(After(s, Send(n)))
  {
    TotalConcat(s.waiting, [n]);
    TotalOne(n);
  }

  lemma AcceptCounts(s: State, i: nat)
    requires Fifo(s) && Counted(s) && Enabled(s, Accept(i))
    ensures Counted(After(s, Accept(i)))
  {
    var n := s.waiting[i];
    TotalWithout(s.waiting, i);
    AcceptAppends(s, i);
    TotalConcat(Queue(s), [n]);
    TotalOne(n);
  }

  lemma CountStep(s: State, a: Step)
    requires Fifo(s) && Counted(s) && Enabled(s, a)
    ensures Counted(After(s, a))
  {
    match a
    case Send(n) => SendCounts(s, n);
    case Accept(i) => AcceptCounts(s, i);
    case Pass => PassKeepsQueue(s);
    case Handle => HandleTakesFirst(s);
  }

  lemma SyncStep(s: State, a: Step)
    requires Counted(s) && SyncExact(s) && Enabled(s, a)
    ensures SyncExact(After(s, a))
  {
    if a.Handle? { HandleTakesFirst(s); }
  }

  lemma StepKeepsInv(s: State, a: Step)
    requires Inv(s) && Enabled(s, a)
    ensures Inv(After(s, a))
  {
    FifoStep(s, a);
    CountStep(s, a);
    SyncStep(s, a);
  }

  lemma {:induction false} RunKeepsInv(s: State, steps: seq<Step>, s': State)
    requires Inv(s) && Reaches(s, steps, s')
    ensures Inv(s')
    decreases steps
  {
    if steps != [] {
      StepKeepsInv(s, steps[0]);
      RunKeepsInv(After(s, steps[0]), steps[1..], s');
    }
  }

  /** Delivery in every run: what has been handled is a prefix of what was accepted, in order; the rest is with
      the loop, in the slot and in the ring. Nothing waits in the ring while the slot is free. */
  lemma DeliveryIsFifo(synced: bool, steps: seq<Step>, s: State)
    requires Reaches(New(synced), steps, s)
    ensures s.accepted == s.handled + Opt(s.current) + Opt(s.slot) + s.ring
    ensures s.slot.None? ==> s.ring == []
  {
    RunKeepsInv(New(synced), steps, s);
  }

  /** The tracker in every run: its count is the initial events not handled yet, so it is never negative; the
      sync channel is closed at most once; and it is closed exactly when a parent-synced signal has been
      processed and the count has been zero at that moment or later. It always covers the notification in hand. */
  lemma TrackerIsExact(synced: bool, steps: seq<Step>, s: State)
    requires Reaches(New(synced), steps, s)
    ensures s.tracker.count == Total(s.waiting) + Total(Queue(s)) >= 0
    ensures s.tracker.closes <= 1
    ensures s.tracker.closes == 1 <==> s.zeroSeen
    ensures s.parentSeen && s.tracker.count == 0 ==> s.tracker.closes == 1
    ensures s.current.Some? ==> s.tracker.count >= Weight(s.current.value)
  {
    RunKeepsInv(New(synced), steps, s);
    if s.current.Some? { HandleTakesFirst(s); }
  }

  class CountingTracker {
    var t: Tracker

    constructor ()
      ensures t == Tracker(0, false, false, 0)
    {
      t := Tracker(0, false, false, 0);
    }

    method Start(n: nat)
      modifies this
      ensures t == old(t).(count := old(t).count + n)
    {
      t := t.(count := t.count + n);
    }

    method ParentHasSynced()
      modifies this
      ensures t == OnParentSynced(old(t))
    {
      if t.hasSynced { return; }
      if t.count == 0 {
        t := t.(closes := t.closes + 1);
        t := t.(hasSynced := true);
      } else {
        t := t.(pendingSync := true);
      }
    }

    /** The source panics on a negative count; the requirement is met by `TrackerIsExact`. */
    method Finished(n: nat)
      requires t.count >= n
      modifies this
      ensures t == OnFinished(old(t), n) && t.count >= 0
    {
      var result := t.count - n;
      t := t.(count := result);
      if !t.hasSynced && t.pendingSync && result == 0 && n != 0 {
        t := t.(closes := t.closes + 1);
        t := t.(hasSynced := true);
      }
    }
  }

  /** The two goroutines of a listener and its senders. */
  class ProcessorListener {
    var sending: seq<Note>                 // senders blocked on the unbuffered channel
    var notification: Option<Note>
    var pendingNotifications: seq<Note>
    var current: Option<Note>
    const tracker: CountingTracker
    ghost var accepted: seq<Note>
    ghost var handled: seq<Note>
    ghost var parentSeen: bool
    ghost var zeroSeen: bool

    ghost function Model(): State
      reads this, tracker
    {
      State(sending, notification, pendingNotifications, current, tracker.t, accepted, handled, parentSeen, zeroSeen)
    }

    /** Insert marks a listener without initial events synced right away if its parent is. */
    constructor (synced: bool)
      ensures Model() == New(synced) && fresh(tracker)
    {
      sending, notification, pendingNotifications, current := [], None, [], None;
      accepted, handled, parentSeen, zeroSeen := [], [], synced, synced;
      tracker := new CountingTracker();
      new;
      if synced { tracker.ParentHasSynced(); }
    }

    ghost method Notice()
      modifies this`zeroSeen
      ensures zeroSeen == (old(zeroSeen) || (parentSeen && tracker.t.count == 0))
    {
      zeroSeen := zeroSeen || (parentSeen && tracker.t.count == 0);
    }

    /** An initial set is counted before its sender blocks. */
    method BeginSend(n: Note)
      modifies this, tracker
      ensures Model() == After(old(Model()), Send(n))
    {
      if n.Batch? && n.initial { tracker.Start(|n.events|); }
      sending := sending + [n];
      Notice();
    }

    /** The pump receives from one of the blocked senders. */
    method Receive(i: nat)
      requires i < |sending|
      modifies this
      ensures Model() == After(old(Model()), Accept(i))
    {
      var n := sending[i];
      sending, accepted := sending[..i] + sending[i + 1..], accepted + [n];
      if notification.None? {
        notification := Some(n);
      } else {
        pendingNotifications := pendingNotifications + [n];
      }
      Notice();
    }

    /** The pump hands its notification over to the handler loop. */
    method Dispatch()
      requires notification.Some? && current.None?
      modifies this
      ensures Model() == After(old(Model()), Pass)
    {
      current := notification;
      if |pendingNotifications| > 0 {
        notification := Some(pendingNotifications[0]);
        pendingNotifications := pendingNotifications[1..];
      } else {
        notification := None;
      }
      Notice();
    }

    /** One round of the handler loop; `calls` is what the handler is called with. That the count suffices is what
        `TrackerIsExact` says. */
    method RunOnce() returns (calls: seq<seq<Event>>)
      requires current.Some? && tracker.t.count >= Weight(current.value)
      modifies this, tracker
      ensures Model() == After(old(Model()), Handle)
      ensures calls == var n := old(current.value); if n.Batch? && n.events != [] then [n.events] else []
    {
      var n := current.value;
      calls := [];
      if n.ParentSynced? {
        tracker.ParentHasSynced();
      } else {
        if !n.initial { tracker.ParentHasSynced(); }
        if |n.events| > 0 { calls := [n.events]; }
        if n.initial { tracker.Finished(|n.events|); }
      }
      current, handled, parentSeen := None, handled + [n], parentSeen || Signals(n);
      Notice();
    }
  }
}
