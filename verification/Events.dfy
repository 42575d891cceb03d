/** Objects, contents and change events of krt collections (pkg/krt/core.go). */
module Events {
  import opened Collections

  type Key = string

  /** A collection object, reduced to what krt itself looks at: its key, its lifetime UID
      (if it has one), its labels, its label selector, and everything else as `body`. */
  datatype Obj = Obj(key: Key, uid: Option<string>, labels: map<string, string>,
                     selector: map<string, string>, body: string)

  type Contents = map<Key, Obj>

  /** Every object is stored under its own key. */
  ghost predicate Keyed(c: Contents) {
    forall k | k in c :: c[k].key == k
  }

  datatype Kind = Add | Update | Delete

  /** The kind is a field of its own, as in the source: while an event is being refreshed
      its kind and its two objects are rewritten separately. */
  datatype Event = Event(prev: Option<Obj>, next: Option<Obj>, kind: Kind) {
    /** Old and New are never both missing, and they name the same key. */
    predicate WellFormed() {
      && (prev.Some? || next.Some?)
      && (prev.Some? && next.Some? ==> prev.value.key == next.value.key)
    }

    function Latest(): Obj
      requires WellFormed()
    {
      if next.Some? then next.value else prev.value
    }

    function Key(): Key
      requires WellFormed()
    {
      Latest().key
    }

    function Items(): (r: seq<Obj>)
      ensures forall o :: o in r <==> prev == Some(o) || next == Some(o)
    {
      (if prev.Some? then [prev.value] else []) + (if next.Some? then [next.value] else [])
    }
  }

  predicate AllWellFormed(events: seq<Event>) {
    forall i | 0 <= i < |events| :: events[i].WellFormed()
  }

  /** The events a collection may publish while it holds `c`: Add only for an absent key,
      Update and Delete only with the stored object as Old. */
  predicate Strict(c: Contents, e: Event) {
    && e.WellFormed()
    && e.prev == Get(c, e.Key())
    && match e.kind
       case Add => e.prev.None? && e.next.Some?
       case Update => e.prev.Some? && e.next.Some?
       case Delete => e.prev.Some? && e.next.None?
  }

  function Mirror(c: Contents, e: Event): Contents
    requires e.WellFormed()
  {
    if e.next.Some? then c[e.Key() := e.next.value] else c - {e.Key()}
  }

  /** Replays a batch against a mirror; `None` when some event is not strict. */
  function Replay(c: Contents, events: seq<Event>): Option<Contents>
    decreases events
  {
    if events == [] then Some(c)
    else if !Strict(c, events[0]) then None
    else Replay(Mirror(c, events[0]), events[1..])
  }

  lemma {:induction false} ReplayConcat(c: Contents, a: seq<Event>, b: seq<Event>)
    ensures Replay(c, a + b) == (if Replay(c, a).Some? then Replay(Replay(c, a).value, b) else None)
    decreases a
  {
    if a == [] {
      assert a + b == b;
    } else {
      assert (a + b)[1..] == a[1..] + b;
      if Strict(c, a[0]) { ReplayConcat(Mirror(c, a[0]), a[1..], b); }
    }
  }

  lemma ReplaySnoc(c: Contents, a: seq<Event>, e: Event)
    requires Replay(c, a).Some?
    ensures Replay(c, a + [e]) ==
            if Strict(Replay(c, a).value, e) then Some(Mirror(Replay(c, a).value, e)) else None
  {
    ReplayConcat(c, a, [e]);
    assert [e][1..] == [];
  }

  lemma {:induction false} ReplayKeyed(c: Contents, events: seq<Event>)
    requires Keyed(c) && Replay(c, events).Some?
    ensures Keyed(Replay(c, events).value)
    decreases events
  {
    if events != [] { ReplayKeyed(Mirror(c, events[0]), events[1..]); }
  }

  lemma {:induction false} ReplayWellFormed(c: Contents, events: seq<Event>)
    requires Replay(c, events).Some?
    ensures AllWellFormed(events)
    decreases events
  {
    if events != [] {
      ReplayWellFormed(Mirror(c, events[0]), events[1..]);
      assert forall i | 1 <= i < |events| :: events[i] == events[1..][i - 1];
    }
  }

  /** A strict batch names every key it changes. */
  lemma {:induction false} ReplayFrame(c: Contents, events: seq<Event>, k: Key)
    requires Replay(c, events).Some?
    requires forall e | e in events && e.WellFormed() :: e.Key() != k
    ensures Get(Replay(c, events).value, k) == Get(c, k)
    decreases events
  {
    if events != [] {
      assert events[0] in events;
      ReplayFrame(Mirror(c, events[0]), events[1..], k);
    }
  }

  /** No update of the batch leaves its object as it was. */
  ghost predicate NoNoOps(events: seq<Event>) {
    forall e | e in events :: e.kind == Update ==> e.prev != e.next
  }
}
