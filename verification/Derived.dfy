/** A derived collection: the outputs of a transformation, stored per input, updated batch by
    batch (pkg/krt/collection.go:226-624, 876-936). */
module Derived {
  import opened Collections
  import opened Events
  import Filters
  import opened Indexes
  import opened Dependencies

  datatype Coll = Coll(outputs: Contents, inputs: Contents, mappings: map<Key, set<Key>>)

  /** What one run of the transformation produced: its results by key, what it fetched, and
      whether it asked for its result to be discarded. */
  datatype Computed = Computed(results: Contents, deps: seq<Filters.Dependency>, discard: bool)

  /** One refreshed input event, with the computation for it (unused for a deletion). */
  datatype Work = Work(event: Event, computed: Computed)

  /** Every output key belongs to one input key for good. The source states this as a rule for
      transformations: two inputs producing one key corrupt the collection. */
  type Owner = Key -> Key

  ghost predicate Consistent(c: Coll, owner: Owner) {
    && Keyed(c.inputs) && Keyed(c.outputs)
    && c.inputs.Keys == c.mappings.Keys
    && (forall i, o | i in c.mappings && o in c.mappings[i] :: owner(o) == i && o in c.outputs)
    && (forall o | o in c.outputs :: owner(o) in c.mappings && o in c.mappings[owner(o)])
  }

  /** Without naming the owner: the mapped output sets are disjoint, and together they are
      exactly the outputs. */
  lemma ConsistentPartition(c: Coll, owner: Owner)
    requires Consistent(c, owner)
    ensures forall i, j | i in c.mappings && j in c.mappings && i != j :: c.mappings[i] !! c.mappings[j]
    ensures forall o :: o in c.outputs <==> exists i :: i in c.mappings && o in c.mappings[i]
  {
    forall i, j | i in c.mappings && j in c.mappings && i != j ensures c.mappings[i] !! c.mappings[j] {
      forall o | o in c.mappings[i] ensures o !in c.mappings[j] {
        assert owner(o) == i;
      }
    }
  }

  function Mapped(c: Coll, i: Key): set<Key> {
    if i in c.mappings then c.mappings[i] else {}
  }

  /** The stored outputs of one input. */
  function OutputsOf(c: Coll, i: Key): Contents {
    map o | o in c.outputs && o in Mapped(c, i) :: c.outputs[o]
  }

  /** A new object under the same key must not inherit the outputs of the previous one. */
  predicate NewLifetime(c: Coll, i: Obj) {
    i.key in c.inputs && i.uid.Some? && c.inputs[i.key].uid.Some? && i.uid != c.inputs[i.key].uid
  }

  /** The result is dropped and whatever is stored stays. */
  predicate Retains(c: Coll, i: Obj, r: Computed) {
    r.discard && !NewLifetime(c, i) && (i.key in c.mappings || r.results == map[])
  }

  function Removed(c: Coll, k: Key): Coll {
    Coll(c.outputs - Mapped(c, k), c.inputs - {k}, c.mappings - {k})
  }

  function Replaced(c: Coll, i: Obj, results: Contents): Coll {
    Coll((c.outputs - Mapped(c, i.key)) + results, c.inputs[i.key := i], c.mappings[i.key := results.Keys])
  }

  function ApplyOne(c: Coll, w: Work): Coll
    requires w.event.WellFormed()
  {
    if w.event.kind == Delete then Removed(c, w.event.Key())
    else if Retains(c, w.event.Latest(), w.computed) then c
    else Replaced(c, w.event.Latest(), w.computed.results)
  }

  predicate WorkWellFormed(ws: seq<Work>) {
    forall n | 0 <= n < |ws| :: ws[n].event.WellFormed()
  }

  function Apply(c: Coll, ws: seq<Work>): Coll
    requires WorkWellFormed(ws)
  {
    if ws == [] then c else ApplyOne(Apply(c, ws[..|ws| - 1]), ws[|ws| - 1])
  }

  function RecordOne(m: map<Key, seq<Filters.Dependency>>, w: Work): map<Key, seq<Filters.Dependency>>
    requires w.event.WellFormed()
  {
    if w.event.kind == Delete then m - {w.event.Key()} else m[w.event.Key() := w.computed.deps]
  }

  function Record(m: map<Key, seq<Filters.Dependency>>, ws: seq<Work>): map<Key, seq<Filters.Dependency>>
    requires WorkWellFormed(ws)
  {
    if ws == [] then m else RecordOne(Record(m, ws[..|ws| - 1]), ws[|ws| - 1])
  }

  /** A transformation's results are keyed objects that belong to the input. */
  ghost predicate ResultsOk(w: Work, owner: Owner)
    requires w.event.WellFormed()
  {
    Keyed(w.computed.results) && forall o | o in w.computed.results :: owner(o) == w.event.Key()
  }

  ghost predicate AllResultsOk(ws: seq<Work>, owner: Owner)
    requires WorkWellFormed(ws)
  {
    forall n | 0 <= n < |ws| :: ResultsOk(ws[n], owner)
  }

  lemma RemovedConsistent(c: Coll, k: Key, owner: Owner)
    requires Consistent(c, owner)
    ensures Consistent(Removed(c, k), owner)
  {
    forall i, o | i in c.mappings && i != k && o in c.mappings[i] ensures o !in Mapped(c, k) {
      assert owner(o) == i;
    }
  }

  lemma ReplacedMapsToOutputs(c: Coll, i: Obj, results: Contents, owner: Owner, j: Key, o: Key)
    requires Consistent(c, owner) && forall o | o in results :: owner(o) == i.key
    ensures var c' := Replaced(c, i, results);
            j in c'.mappings && o in c'.mappings[j] ==> owner(o) == j && o in c'.outputs
  {
    if j != i.key && j in c.mappings && o in c.mappings[j] { assert owner(o) == j && o !in Mapped(c, i.key); }
  }

  lemma ReplacedOutputsAreMapped(c: Coll, i: Obj, results: Contents, owner: Owner, o: Key)
    requires Consistent(c, owner) && forall o | o in results :: owner(o) == i.key
    ensures var c' := Replaced(c, i, results);
            o in c'.outputs ==> owner(o) in c'.mappings && o in c'.mappings[owner(o)]
  {
  }

  lemma ReplacedKeys(c: Coll, i: Obj, results: Contents)
    requires Keyed(c.inputs) && Keyed(c.outputs) && c.inputs.Keys == c.mappings.Keys && Keyed(results)
    ensures Keyed(Replaced(c, i, results).inputs) && Keyed(Replaced(c, i, results).outputs)
    ensures Replaced(c, i, results).inputs.Keys == Replaced(c, i, results).mappings.Keys
  {
  }

  lemma ReplacedConsistent(c: Coll, i: Obj, results: Contents, owner: Owner)
    requires Consistent(c, owner) && Keyed(results)
    requires forall o | o in results :: owner(o) == i.key
    ensures Consistent(Replaced(c, i, results), owner)
  {
    var c' := Replaced(c, i, results);
    ReplacedKeys(c, i, results);
    forall j, o | j in c'.mappings && o in c'.mappings[j] ensures owner(o) == j && o in c'.outputs {
      ReplacedMapsToOutputs(c, i, results, owner, j, o);
    }
    forall o | o in c'.outputs ensures owner(o) in c'.mappings && o in c'.mappings[owner(o)] {
      ReplacedOutputsAreMapped(c, i, results, owner, o);
    }
  }

  lemma ApplyOneConsistent(c: Coll, w: Work, owner: Owner)
    requires w.event.WellFormed() && Consistent(c, owner) && ResultsOk(w, owner)
    ensures Consistent(ApplyOne(c, w), owner)
  {
    RemovedConsistent(c, w.event.Key(), owner);
    ReplacedConsistent(c, w.event.Latest(), w.computed.results, owner);
  }

  lemma ReplacedOutputs(c: Coll, i: Obj, results: Contents)
    ensures OutputsOf(Replaced(c, i, results), i.key) == results
  {
  }

  lemma RemovedFrame(c: Coll, k: Key, owner: Owner, i: Key)
    requires Consistent(c, owner) && i != k
    ensures OutputsOf(Removed(c, k), i) == OutputsOf(c, i)
  {
    forall o | o in Mapped(c, i) ensures o !in Mapped(c, k) { assert owner(o) == i; }
  }

  lemma ReplacedFrame(c: Coll, j: Obj, results: Contents, owner: Owner, i: Key)
    requires Consistent(c, owner) && i != j.key
    requires forall o | o in results :: owner(o) == j.key
    ensures OutputsOf(Replaced(c, j, results), i) == OutputsOf(c, i)
  {
    forall o | o in Mapped(c, i) ensures o !in Mapped(c, j.key) && o !in results { assert owner(o) == i; }
  }

  /** One input's work touches that input's outputs only. */
  lemma ApplyOneFrame(c: Coll, w: Work, owner: Owner, i: Key)
    requires w.event.WellFormed() && Consistent(c, owner) && ResultsOk(w, owner)
    requires i != w.event.Key()
    ensures OutputsOf(ApplyOne(c, w), i) == OutputsOf(c, i)
    ensures Get(ApplyOne(c, w).inputs, i) == Get(c.inputs, i)
    ensures Get(ApplyOne(c, w).mappings, i) == Get(c.mappings, i)
  {
    RemovedFrame(c, w.event.Key(), owner, i);
    ReplacedFrame(c, w.event.Latest(), w.computed.results, owner, i);
  }

  lemma {:induction false} ApplyConsistent(c: Coll, ws: seq<Work>, owner: Owner)
    requires WorkWellFormed(ws) && Consistent(c, owner) && AllResultsOk(ws, owner)
    ensures Consistent(Apply(c, ws), owner)
    decreases ws
  {
    if ws != [] {
      ApplyConsistent(c, ws[..|ws| - 1], owner);
      ApplyOneConsistent(Apply(c, ws[..|ws| - 1]), ws[|ws| - 1], owner);
    }
  }

  /** A discarded run changes no output, unless it is the first non-empty result of its input or
      the input is a new object; in those two cases the result is published as usual. */
  lemma DiscardedRun(c: Coll, w: Work, owner: Owner)
    requires w.event.WellFormed() && Consistent(c, owner) && ResultsOk(w, owner)
    requires w.event.kind != Delete && w.computed.discard
    ensures
      var i, c' := w.event.Latest(), ApplyOne(c, w);
      if i.key in c.mappings && !NewLifetime(c, i) then c' == c
      else if i.key !in c.mappings && w.computed.results == map[] then c' == c
      else OutputsOf(c', i.key) == w.computed.results && c'.inputs[i.key] == i
  {
  }

  // ----- what a batch publishes -----

  ghost predicate Enumerates(order: seq<Key>, ks: set<Key>) {
    Distinct(order) && forall k :: k in order <==> k in ks
  }

  function Deletes(c: Contents, order: seq<Key>): seq<Event>
    requires forall o | o in order :: o in c
  {
    seq(|order|, n requires 0 <= n < |order| => Event(Some(c[order[n]]), None, Delete))
  }

  /** The event for a new or changed result. */
  function PutEvent(c: Contents, o: Key, v: Obj): Event {
    if o in c then Event(Some(c[o]), Some(v), Update) else Event(None, Some(v), Add)
  }

  function Puts(c: Contents, results: Contents, order: seq<Key>): seq<Event>
    requires forall o | o in order :: o in results
  {
    seq(|order|, n requires 0 <= n < |order| => PutEvent(c, order[n], results[order[n]]))
  }

  function Changed(c: Contents, results: Contents): set<Key> {
    set o | o in results && Get(c, o) != Some(results[o])
  }

  /** The outputs that one input's work withdraws. */
  function Withdrawn(c: Coll, w: Work): set<Key>
    requires w.event.WellFormed()
  {
    if w.event.kind == Delete then Mapped(c, w.event.Key())
    else if Retains(c, w.event.Latest(), w.computed) then {}
    else Mapped(c, w.event.Key()) - w.computed.results.Keys
  }

  /** The outputs that it adds or changes. */
  function Renewed(c: Coll, w: Work): set<Key>
    requires w.event.WellFormed()
  {
    if w.event.kind == Delete || Retains(c, w.event.Latest(), w.computed) then {}
    else Changed(c.outputs, w.computed.results)
  }

  ghost predicate PublishedAs(c: Coll, w: Work, gone: seq<Key>, put: seq<Key>, events: seq<Event>)
    requires w.event.WellFormed()
  {
    && Enumerates(gone, Withdrawn(c, w)) && Enumerates(put, Renewed(c, w))
    && (forall o | o in gone :: o in c.outputs) && (forall o | o in put :: o in w.computed.results)
    && events == Deletes(c.outputs, gone) + Puts(c.outputs, w.computed.results, put)
  }

  /** The events of one input's work: a Delete for every output withdrawn, then an Add or an Update for every result
      that is new or changed, each in some order. */
  ghost predicate PublishedOne(c: Coll, w: Work, events: seq<Event>)
    requires w.event.WellFormed()
  {
    exists gone, put :: PublishedAs(c, w, gone, put, events)
  }

  /** The events of a batch of work, input by input. */
  ghost predicate PublishedAll(c: Coll, ws: seq<Work>, events: seq<Event>)
    requires WorkWellFormed(ws)
    decreases ws
  {
    if ws == [] then events == []
    else exists m :: PublishedLast(c, ws, events, m)
  }

  ghost predicate PublishedLast(c: Coll, ws: seq<Work>, events: seq<Event>, m: nat)
    requires WorkWellFormed(ws) && ws != []
    decreases ws, 0
  {
    var n := |ws| - 1;
    m <= |events| && PublishedAll(c, ws[..n], events[..m]) && PublishedOne(Apply(c, ws[..n]), ws[n], events[m..])
  }

  lemma PublishedSnoc(c: Coll, ws: seq<Work>, w: Work, events: seq<Event>, more: seq<Event>)
    requires WorkWellFormed(ws) && w.event.WellFormed()
    requires PublishedAll(c, ws, events) && PublishedOne(Apply(c, ws), w, more)
    ensures PublishedAll(c, ws + [w], events + more)
  {
    var all := events + more;
    assert (ws + [w])[..|ws|] == ws;
    assert all[..|events|] == events && all[|events|..] == more;
    assert PublishedLast(c, ws + [w], all, |events|);
  }

  // ----- it replays strictly -----

  lemma {:induction false} DeletesReplay(c: Contents, order: seq<Key>)
    requires Keyed(c) && Distinct(order) && forall o | o in order :: o in c
    ensures Replay(c, Deletes(c, order)) == Some(c - set o | o in order)
    decreases order
  {
    if order == [] {
      assert c - (set o | o in order) == c;
    } else {
      var n := |order| - 1;
      var init, o := order[..n], order[n];
      assert order == init + [o];
      DeletesReplay(c, init);
      assert Deletes(c, order) == Deletes(c, init) + [Event(Some(c[o]), None, Delete)];
      ReplaySnoc(c, Deletes(c, init), Event(Some(c[o]), None, Delete));
      DropOneMore(c, (set x | x in init), o);
      assert (set x | x in init) + {o} == set x | x in order;
    }
  }

  function Restrict(c: Contents, order: seq<Key>): Contents
    requires forall o | o in order :: o in c
  {
    map o | o in order :: c[o]
  }

  lemma PutIsStrict(c: Contents, now: Contents, o: Key, v: Obj)
    requires Keyed(c) && v.key == o && Get(now, o) == Get(c, o)
    ensures PutEvent(c, o, v).WellFormed() && Strict(now, PutEvent(c, o, v))
    ensures Mirror(now, PutEvent(c, o, v)) == now[o := v]
  {
  }

  lemma RestrictSnoc(now: Contents, results: Contents, order: seq<Key>, o: Key)
    requires o in results && forall x | x in order :: x in results
    ensures now + Restrict(results, order + [o]) == (now + Restrict(results, order))[o := results[o]]
  {
    PutOneMore(now, Restrict(results, order), o, results[o]);
    assert Restrict(results, order + [o]) == Restrict(results, order)[o := results[o]];
  }

  lemma PutsSnoc(c: Contents, results: Contents, order: seq<Key>, o: Key)
    requires o in results && forall x | x in order :: x in results
    ensures Puts(c, results, order + [o]) == Puts(c, results, order) + [PutEvent(c, o, results[o])]
  {
  }

  /** Puts made for `c` replay on any contents that have the same objects under their keys. */
  lemma {:induction false} PutsReplay(c: Contents, now: Contents, results: Contents, order: seq<Key>)
    requires Keyed(c) && Keyed(results) && Distinct(order) && forall o | o in order :: o in results
    requires forall o | o in order :: Get(now, o) == Get(c, o)
    ensures Replay(now, Puts(c, results, order)) == Some(now + Restrict(results, order))
    decreases order
  {
    if order == [] {
      assert now + Restrict(results, order) == now;
    } else {
      var n := |order| - 1;
      var init, o := order[..n], order[n];
      assert order == init + [o];
      PutsReplay(c, now, results, init);
      var mid := now + Restrict(results, init);
      assert Get(mid, o) == Get(c, o);
      PutIsStrict(c, mid, o, results[o]);
      PutsSnoc(c, results, init, o);
      RestrictSnoc(now, results, init, o);
      ReplaySnoc(now, Puts(c, results, init), PutEvent(c, o, results[o]));
    }
  }

  lemma PutsAreChanges(c: Contents, results: Contents, order: seq<Key>)
    requires forall o | o in order :: o in results && o in Changed(c, results)
    ensures NoNoOps(Puts(c, results, order))
  {
  }

  /** Storing the results that changed is storing all of them. */
  lemma ChangedAreEnough(c: Contents, stale: set<Key>, results: Contents, put: seq<Key>)
    requires Enumerates(put, Changed(c, results)) && stale !! results.Keys
    requires forall o | o in put :: o in results
    ensures (c - stale) + Restrict(results, put) == (c - stale) + results
  {
  }

  lemma AfterWork(c: Coll, w: Work, put: seq<Key>)
    requires w.event.WellFormed()
    requires Enumerates(put, Renewed(c, w)) && forall o | o in put :: o in w.computed.results
    ensures (c.outputs - Withdrawn(c, w)) + Restrict(w.computed.results, put) == ApplyOne(c, w).outputs
    ensures forall o | o in put :: o !in Withdrawn(c, w)
  {
    var results := w.computed.results;
    if w.event.kind == Delete || Retains(c, w.event.Latest(), w.computed) {
      assert Restrict(results, put) == map[];
      assert c.outputs - {} == c.outputs;
    } else {
      ChangedAreEnough(c.outputs, Withdrawn(c, w), results, put);
      DropStaleThenPut(c.outputs, Mapped(c, w.event.Key()), results);
    }
  }

  lemma PublishedAsReplays(c: Coll, w: Work, owner: Owner, gone: seq<Key>, put: seq<Key>, events: seq<Event>)
    requires w.event.WellFormed() && Consistent(c, owner) && ResultsOk(w, owner)
    requires PublishedAs(c, w, gone, put, events)
    ensures Replay(c.outputs, events) == Some(ApplyOne(c, w).outputs) && NoNoOps(events)
  {
    var mid := c.outputs - Withdrawn(c, w);
    assert (set o | o in gone) == Withdrawn(c, w);
    DeletesReplay(c.outputs, gone);
    AfterWork(c, w, put);
    PutsReplay(c.outputs, mid, w.computed.results, put);
    PutsAreChanges(c.outputs, w.computed.results, put);
    ReplayConcat(c.outputs, Deletes(c.outputs, gone), Puts(c.outputs, w.computed.results, put));
  }

  /** What one input's work publishes replays strictly, and no update of it is a no-op. */
  lemma PublishedOneReplays(c: Coll, w: Work, owner: Owner, events: seq<Event>)
    requires w.event.WellFormed() && Consistent(c, owner) && ResultsOk(w, owner)
    requires PublishedOne(c, w, events)
    ensures Replay(c.outputs, events) == Some(ApplyOne(c, w).outputs) && NoNoOps(events)
  {
    var gone, put :| PublishedAs(c, w, gone, put, events);
    PublishedAsReplays(c, w, owner, gone, put, events);
  }

  lemma {:induction false} PublishedAllReplays(c: Coll, ws: seq<Work>, owner: Owner, events: seq<Event>)
    requires WorkWellFormed(ws) && Consistent(c, owner) && AllResultsOk(ws, owner)
    requires PublishedAll(c, ws, events)
    ensures Replay(c.outputs, events) == Some(Apply(c, ws).outputs) && NoNoOps(events)
    decreases ws
  {
    if ws != [] {
      var init, w := ws[..|ws| - 1], ws[|ws| - 1];
      var m: nat :| PublishedLast(c, ws, events, m);
      PublishedAllReplays(c, init, owner, events[..m]);
      ApplyConsistent(c, init, owner);
      assert ResultsOk(w, owner);
      PublishedOneReplays(Apply(c, init), w, owner, events[m..]);
      ReplaysOn(c.outputs, events, m);
    }
  }

  /** Two strict pieces without no-ops make a strict whole without no-ops. */
  lemma ReplaysOn(c: Contents, events: seq<Event>, m: nat)
    requires m <= |events| && Replay(c, events[..m]).Some? && NoNoOps(events[..m]) && NoNoOps(events[m..])
    ensures Replay(c, events) == Replay(Replay(c, events[..m]).value, events[m..]) && NoNoOps(events)
  {
    ReplayConcat(c, events[..m], events[m..]);
    assert events == events[..m] + events[m..];
  }

  // ----- there is always something to publish -----

  lemma {:induction false} Enumerate(ks: set<Key>) returns (order: seq<Key>)
    ensures Enumerates(order, ks)
  {
    order := [];
    if ks != {} {
      var k :| k in ks;
      var rest := Enumerate(ks - {k});
      order := [k] + rest;
    }
  }

  lemma SomeEvents(c: Coll, w: Work, owner: Owner) returns (events: seq<Event>)
    requires w.event.WellFormed() && Consistent(c, owner)
    ensures PublishedOne(c, w, events)
  {
    var gone := Enumerate(Withdrawn(c, w));
    var put := Enumerate(Renewed(c, w));
    events := Deletes(c.outputs, gone) + Puts(c.outputs, w.computed.results, put);
    assert PublishedAs(c, w, gone, put, events);
  }

  lemma {:induction false} SomeBatch(c: Coll, ws: seq<Work>, owner: Owner) returns (events: seq<Event>)
    requires WorkWellFormed(ws) && Consistent(c, owner) && AllResultsOk(ws, owner)
    ensures PublishedAll(c, ws, events)
    decreases ws
  {
    events := [];
    if ws != [] {
      var init := ws[..|ws| - 1];
      var w := ws[|ws| - 1];
      assert ws == init + [w];
      var before := SomeBatch(c, init, owner);
      ApplyConsistent(c, init, owner);
      var more := SomeEvents(Apply(c, init), w, owner);
      PublishedSnoc(c, init, w, before, more);
      events := before + more;
    }
  }

  // ----- the code -----

  /** The part of the collection that a batch works on, with the events it has produced so far. */
  datatype Batch = Batch(outputs: Contents, indexes: IndexSet, events: seq<Event>)

  ghost predicate BatchOk(b: Batch) {
    Keyed(b.outputs) && ExactAll(b.indexes, b.outputs)
  }

  /** Publishes one change of an output: the indexes follow, and the event joins the batch. */
  method Emit(b: Batch, e: Event) returns (r: Batch)
    requires BatchOk(b) && Strict(b.outputs, e)
    ensures BatchOk(r) && r.outputs == Mirror(b.outputs, e) && r.events == b.events + [e]
  {
    var outputs := if e.next.Some? then b.outputs[e.Key() := e.next.value] else b.outputs - {e.Key()};
    var indexes := UpdateIndexes(b.indexes, e, e.Key());
    MovedKeepsExact(b.indexes, b.outputs, e, indexes);
    r := Batch(outputs, indexes, b.events + [e]);
  }

  /** `r` is `b` after withdrawing the outputs `gone`, in that order. */
  ghost predicate HasWithdrawn(b: Batch, gone: seq<Key>, r: Batch) {
    && BatchOk(r) && Distinct(gone) && (forall o | o in gone :: o in b.outputs)
    && r.outputs == b.outputs - (set o | o in gone)
    && r.events == b.events + Deletes(b.outputs, gone)
  }

  method WithdrawOne(b: Batch, ghost gone: seq<Key>, now: Batch, o: Key) returns (r: Batch)
    requires HasWithdrawn(b, gone, now) && o in b.outputs && o !in gone && Keyed(b.outputs)
    ensures HasWithdrawn(b, gone + [o], r)
  {
    r := Emit(now, Event(Some(now.outputs[o]), None, Delete));
    DropOneMore(b.outputs, (set x | x in gone), o);
    assert (set x | x in gone) + {o} == set x | x in gone + [o];
    assert Deletes(b.outputs, gone + [o]) == Deletes(b.outputs, gone) + [Event(Some(b.outputs[o]), None, Delete)];
  }

  lemma NothingWithdrawn(b: Batch)
    requires BatchOk(b)
    ensures HasWithdrawn(b, [], b)
  {
    assert b.outputs - (set o | o in []) == b.outputs;
  }

  /** Withdraws every output of an input that is gone. */
  method WithdrawAll(b: Batch, keys: set<Key>) returns (r: Batch, ghost gone: seq<Key>)
    requires BatchOk(b) && keys <= b.outputs.Keys
    ensures HasWithdrawn(b, gone, r) && Enumerates(gone, keys)
  {
    r, gone := b, [];
    NothingWithdrawn(b);
    var todo := keys;
    while todo != {}
      invariant todo <= keys && HasWithdrawn(b, gone, r)
      invariant forall o :: o in gone <==> o in keys && o !in todo
    {
      var o :| o in todo;
      r := WithdrawOne(b, gone, r, o);
      todo, gone := todo - {o}, gone + [o];
    }
  }

  /** A membership set: an object, since the source may go on using it for the new results of its input. */
  class KeySet {
    var members: set<Key>

    constructor ()
      ensures members == {}
    {
      members := {};
    }
  }

  /** Withdraws the outputs of an input that its new result no longer has. `newKeys` may be `oldKeys` itself: then the
      set is deleted from while it is gone through. As in a Go range loop, the next key is any that is still in the set
      and has not been visited. Every stale key is visited all the same. */
  method WithdrawStale(b: Batch, results: Contents, oldKeys: KeySet, newKeys: KeySet)
    returns (r: Batch, ghost gone: seq<Key>)
    requires BatchOk(b) && oldKeys.members <= b.outputs.Keys
    requires newKeys == oldKeys || newKeys.members == {}
    modifies newKeys
    ensures HasWithdrawn(b, gone, r) && Enumerates(gone, old(oldKeys.members) - results.Keys)
    ensures newKeys.members == if newKeys == oldKeys then old(oldKeys.members) * results.Keys else {}
  {
    r, gone := b, [];
    NothingWithdrawn(b);
    var visited: set<Key> := {};
    while oldKeys.members - visited != {}
      invariant visited <= old(oldKeys.members) && HasWithdrawn(b, gone, r)
      invariant forall o :: o in gone <==> o in visited && o !in results
      invariant forall o :: o in oldKeys.members <==>
                  o in old(oldKeys.members) && !(newKeys == oldKeys && o in visited && o !in results)
      invariant newKeys != oldKeys ==> newKeys.members == {}
      decreases old(oldKeys.members) - visited
    {
      var key :| key in oldKeys.members - visited;
      visited := visited + {key};
      if key !in results {
        r := WithdrawOne(b, gone, r, key);
        gone := gone + [key];
        newKeys.members := newKeys.members - {key};
      }
    }
  }

  /** `r` is `b` after publishing the results `put`, in that order. */
  ghost predicate HasPut(b: Batch, results: Contents, put: seq<Key>, r: Batch) {
    && BatchOk(r) && Distinct(put) && (forall o | o in put :: o in results)
    && r.outputs == b.outputs + Restrict(results, put)
    && r.events == b.events + Puts(b.outputs, results, put)
  }

  method PutOne(b: Batch, results: Contents, ghost put: seq<Key>, now: Batch, o: Key) returns (r: Batch)
    requires HasPut(b, results, put, now) && o in results && o !in put && Keyed(results)
    requires o !in b.outputs || b.outputs[o] != results[o]
    ensures HasPut(b, results, put + [o], r)
  {
    var e := if o in now.outputs then Event(Some(now.outputs[o]), Some(results[o]), Update)
             else Event(None, Some(results[o]), Add);
    r := Emit(now, e);
    RestrictSnoc(b.outputs, results, put, o);
    PutsSnoc(b.outputs, results, put, o);
  }

  /** Publishes the results; an equal stored object is left alone. */
  method PublishResults(b: Batch, results: Contents, newKeys: KeySet) returns (r: Batch, ghost put: seq<Key>)
    requires BatchOk(b) && Keyed(results) && newKeys.members <= results.Keys
    modifies newKeys
    ensures HasPut(b, results, put, r) && Enumerates(put, Changed(b.outputs, results))
    ensures newKeys.members == results.Keys
  {
    r, put := b, [];
    assert b.outputs + Restrict(results, []) == b.outputs;
    var todo := results.Keys;
    while todo != {}
      invariant todo <= results.Keys && HasPut(b, results, put, r)
      invariant forall o :: o in put <==> o in Changed(b.outputs, results) && o !in todo
      invariant newKeys.members <= results.Keys && results.Keys - todo <= newKeys.members
    {
      var o :| o in todo;
      newKeys.members := newKeys.members + {o};
      if !(o in r.outputs && r.outputs[o] == results[o]) {
        r := PutOne(b, results, put, r, o);
        put := put + [o];
      }
      todo := todo - {o};
    }
  }

  /** The set to collect the new keys in: the old one, unless there is none or the result shrank a lot. */
  method ReusedKeys(results: Contents, oldKeys: KeySet?) returns (newKeys: KeySet)
    ensures (newKeys == oldKeys) || (fresh(newKeys) && newKeys.members == {})
  {
    if oldKeys == null || |results| < |oldKeys.members| / 2 {
      newKeys := new KeySet();
    } else {
      newKeys := oldKeys;
    }
  }

  lemma SamePuts(c: Contents, gone: set<Key>, results: Contents, put: seq<Key>)
    requires gone !! results.Keys && forall o | o in put :: o in results
    ensures Changed(c - gone, results) == Changed(c, results)
    ensures Puts(c - gone, results, put) == Puts(c, results, put)
  {
    forall o | o in results ensures Get(c - gone, o) == Get(c, o) {}
    forall o | o in put ensures PutEvent(c - gone, o, results[o]) == PutEvent(c, o, results[o]) {}
  }

  /** Withdrawing what is stale and publishing what changed is what the work of one input publishes. */
  lemma ReplacedAsPublished(c: Coll, w: Work, b: Batch, mid: Batch, r: Batch, gone: seq<Key>, put: seq<Key>)
    requires w.event.WellFormed() && w.event.kind != Delete && !Retains(c, w.event.Latest(), w.computed)
    requires b.outputs == c.outputs
    requires HasWithdrawn(b, gone, mid) && HasPut(mid, w.computed.results, put, r)
    requires Enumerates(gone, Withdrawn(c, w)) && Enumerates(put, Changed(mid.outputs, w.computed.results))
    ensures r.outputs == ApplyOne(c, w).outputs
    ensures b.events <= r.events && PublishedOne(c, w, r.events[|b.events|..])
  {
    var results := w.computed.results;
    var gs := set o | o in gone;
    assert gs == Withdrawn(c, w);
    SamePuts(c.outputs, gs, results, put);
    AfterWork(c, w, put);
    var more := Deletes(c.outputs, gone) + Puts(c.outputs, results, put);
    assert r.events == b.events + more;
    assert PublishedAs(c, w, gone, put, more);
  }

  lemma DeletedAsPublished(c: Coll, w: Work, b: Batch, r: Batch, gone: seq<Key>)
    requires w.event.WellFormed() && w.event.kind == Delete && b.outputs == c.outputs
    requires HasWithdrawn(b, gone, r) && Enumerates(gone, Withdrawn(c, w))
    ensures r.outputs == ApplyOne(c, w).outputs
    ensures b.events <= r.events && PublishedOne(c, w, r.events[|b.events|..])
  {
    var more := Deletes(c.outputs, gone);
    assert r.events[|b.events|..] == more;
    assert more + Puts(c.outputs, w.computed.results, []) == more;
    assert PublishedAs(c, w, gone, [], more);
    assert (set o | o in gone) == Mapped(c, w.event.Key());
  }

  /** Replaces the outputs of one input. The old membership set, if there is one, is used on where it can be. */
  method ReplaceOutputs(ghost c: Coll, ghost w: Work, b: Batch, results: Contents, oldKeys: KeySet?)
    returns (newKeys: KeySet, r: Batch)
    requires w.event.WellFormed() && w.event.kind != Delete && !Retains(c, w.event.Latest(), w.computed)
    requires w.computed.results == results && Keyed(results)
    requires BatchOk(b) && b.outputs == c.outputs && Mapped(c, w.event.Key()) <= b.outputs.Keys
    requires Mapped(c, w.event.Key()) == if oldKeys == null then {} else oldKeys.members
    modifies oldKeys
    ensures (newKeys == oldKeys || fresh(newKeys)) && newKeys.members == results.Keys
    ensures BatchOk(r) && r.outputs == ApplyOne(c, w).outputs
    ensures b.events <= r.events && PublishedOne(c, w, r.events[|b.events|..])
  {
    newKeys := ReusedKeys(results, oldKeys);
    var mid := b;
    ghost var gone: seq<Key> := [];
    if oldKeys != null {
      mid, gone := WithdrawStale(b, results, oldKeys, newKeys);
    } else {
      NothingWithdrawn(b);
    }
    ghost var put;
    r, put := PublishResults(mid, results, newKeys);
    ReplacedAsPublished(c, w, b, mid, r, gone, put);
  }

  /** The membership sets of all inputs, each an object of its own. */
  class Memberships {
    var sets: map<Key, KeySet>
    ghost var view: map<Key, set<Key>>      // what they hold

    ghost function Objects(): set<KeySet>
      reads this
    {
      set i | i in sets :: sets[i]
    }

    ghost predicate Valid()
      reads this, Objects()
    {
      && sets.Keys == view.Keys
      && (forall i | i in sets :: sets[i].members == view[i])
      && (forall i, j | i in sets && j in sets && i != j :: sets[i] != sets[j])
    }

    constructor ()
      ensures Valid() && view == map[] && sets == map[]
    {
      sets, view := map[], map[];
    }

    method Drop(k: Key) returns (keys: set<Key>)
      requires Valid()
      modifies this
      ensures Valid() && Objects() <= old(Objects()) && view == old(view) - {k}
      ensures keys == if k in old(view) then old(view)[k] else {}
    {
      keys := if k in sets then sets[k].members else {};
      sets, view := sets - {k}, view - {k};
    }

    /** All sets but that of `k` are in order. */
    ghost predicate OthersValid(k: Key)
      reads this, Objects()
    {
      && sets.Keys == view.Keys
      && (forall i | i in sets && i != k :: sets[i].members == view[i])
      && (forall i, j | i in sets && j in sets && i != j :: sets[i] != sets[j])
    }

    method Adopt(k: Key, newKeys: KeySet)
      requires OthersValid(k) && forall i | i in sets && i != k :: sets[i] != newKeys
      modifies this
      ensures Valid() && view == old(view)[k := newKeys.members]
      ensures Objects() <= old(Objects()) + {newKeys}
    {
      sets, view := sets[k := newKeys], view[k := newKeys.members];
    }

    /** Replaces the outputs of one input, and its membership set with them: the old set is used on where it can be. */
    method Replace(ghost c: Coll, ghost w: Work, k: Key, b: Batch, results: Contents) returns (r: Batch)
      requires Valid() && c.mappings == view
      requires w.event.WellFormed() && w.event.kind != Delete && !Retains(c, w.event.Latest(), w.computed)
      requires w.event.Key() == k && w.computed.results == results && Keyed(results)
      requires BatchOk(b) && b.outputs == c.outputs && Mapped(c, k) <= b.outputs.Keys
      modifies this, Objects()
      ensures Valid() && fresh(Objects() - old(Objects())) && view == old(view)[k := results.Keys]
      ensures BatchOk(r) && r.outputs == ApplyOne(c, w).outputs
      ensures b.events <= r.events && PublishedOne(c, w, r.events[|b.events|..])
    {
      var oldKeys: KeySet? := if k in sets then sets[k] else null;
      var newKeys;
      newKeys, r := ReplaceOutputs(c, w, b, results, oldKeys);
      Adopt(k, newKeys);
    }
  }

  /** Inputs, outputs and memberships, with the indexes over the outputs. */
  class CollectionState {
    var outputs: Contents
    var inputs: Contents
    var indexes: IndexSet
    const mappings: Memberships
    ghost const owner: Owner

    ghost function State(): Coll
      reads this, mappings
    {
      Coll(outputs, inputs, mappings.view)
    }

    ghost predicate Valid()
      reads this, mappings, mappings.Objects()
    {
      mappings.Valid() && Consistent(State(), owner) && ExactAll(indexes, outputs)
    }

    constructor (ghost owner: Owner)
      ensures Valid() && fresh(mappings) && mappings.Objects() == {}
      ensures State() == Coll(map[], map[], map[]) && this.owner == owner && indexes == map[]
    {
      outputs, inputs, indexes := map[], map[], map[];
      mappings := new Memberships();
      this.owner := owner;
    }

    method RemoveOutputs(ghost w: Work, k: Key, events: seq<Event>) returns (r: seq<Event>)
      requires mappings.Valid() && BatchOk(Batch(outputs, indexes, events)) && Mapped(State(), k) <= outputs.Keys
      requires w.event.WellFormed() && w.event.kind == Delete && w.event.Key() == k
      modifies this, mappings
      ensures mappings.Valid() && BatchOk(Batch(outputs, indexes, r)) && mappings.Objects() <= old(mappings.Objects())
      ensures State() == ApplyOne(old(State()), w)
      ensures events <= r && PublishedOne(old(State()), w, r[|events|..])
    {
      ghost var c := State();
      var b := Batch(outputs, indexes, events);
      var keys := mappings.Drop(k);
      var after, gone := WithdrawAll(b, keys);
      DeletedAsPublished(c, w, b, after, gone);
      outputs, indexes, r := after.outputs, after.indexes, after.events;
      inputs := inputs - {k};
    }

    /** Withdraws the outputs of an input that is gone. */
    method DeleteInput(ghost w: Work, k: Key, events: seq<Event>) returns (r: seq<Event>)
      requires Valid() && w.event.WellFormed() && w.event.kind == Delete && w.event.Key() == k
      modifies this, mappings
      ensures Valid() && mappings.Objects() <= old(mappings.Objects())
      ensures State() == ApplyOne(old(State()), w)
      ensures events <= r && PublishedOne(old(State()), w, r[|events|..])
    {
      RemovedConsistent(State(), k, owner);
      r := RemoveOutputs(w, k, events);
    }

    /** Whether the result of this run is dropped. */
    method DecideDiscard(i: Obj, computed: Computed) returns (retain: bool)
      requires mappings.Valid()
      ensures retain == Retains(State(), i, computed)
    {
      var discard := computed.discard;
      if discard && i.key in inputs {
        var previous := inputs[i.key];
        if i.uid.Some? && previous.uid.Some? && i.uid != previous.uid {
          discard := false;
        }
      }
      var alreadyHasAResult := i.key in mappings.sets;
      var nowHasAResult := |computed.results| > 0;
      retain := discard && (alreadyHasAResult || !nowHasAResult);
    }

    method StoreResult(ghost w: Work, i: Obj, results: Contents, events: seq<Event>) returns (r: seq<Event>)
      requires mappings.Valid() && BatchOk(Batch(outputs, indexes, events)) && Mapped(State(), i.key) <= outputs.Keys
      requires w.event.WellFormed() && w.event.kind != Delete && w.event.Latest() == i && Keyed(results)
      requires w.computed.results == results && !Retains(State(), i, w.computed)
      modifies this, mappings, mappings.Objects()
      ensures mappings.Valid() && BatchOk(Batch(outputs, indexes, r))
      ensures fresh(mappings.Objects() - old(mappings.Objects()))
      ensures State() == ApplyOne(old(State()), w)
      ensures events <= r && PublishedOne(old(State()), w, r[|events|..])
    {
      ghost var c := State();
      var after := mappings.Replace(c, w, i.key, Batch(outputs, indexes, events), results);
      outputs, indexes, r := after.outputs, after.indexes, after.events;
      inputs := inputs[i.key := i];
      assert Batch(outputs, indexes, r) == after && mappings.Valid();
    }

    method KeepResult(ghost w: Work, i: Obj, results: Contents, events: seq<Event>) returns (r: seq<Event>)
      requires Valid() && w.event.WellFormed() && ResultsOk(w, owner)
      requires w.event.kind != Delete && w.event.Latest() == i
      requires w.computed.results == results && !Retains(State(), i, w.computed)
      modifies this, mappings, mappings.Objects()
      ensures Valid() && fresh(mappings.Objects() - old(mappings.Objects()))
      ensures State() == ApplyOne(old(State()), w)
      ensures events <= r && PublishedOne(old(State()), w, r[|events|..])
    {
      ApplyOneConsistent(State(), w, owner);
      r := StoreResult(w, i, results, events);
    }

    /** Stores the result of one run, unless it is dropped. */
    method UpdateInput(ghost w: Work, i: Obj, computed: Computed, events: seq<Event>) returns (r: seq<Event>)
      requires Valid() && w.event.WellFormed() && ResultsOk(w, owner)
      requires w.event.kind != Delete && w.event.Latest() == i && w.computed == computed
      modifies this, mappings, mappings.Objects()
      ensures Valid() && fresh(mappings.Objects() - old(mappings.Objects()))
      ensures State() == ApplyOne(old(State()), w)
      ensures events <= r && PublishedOne(old(State()), w, r[|events|..])
    {
      ghost var c := State();
      var retain := DecideDiscard(i, computed);
      if retain {
        RetainedAsPublished(c, w);
        r := events;
        assert r[|events|..] == [];
      } else {
        r := KeepResult(w, i, computed.results, events);
      }
    }

    method HandleOne(w: Work, events: seq<Event>) returns (r: seq<Event>)
      requires Valid() && w.event.WellFormed() && ResultsOk(w, owner)
      modifies this, mappings, mappings.Objects()
      ensures Valid() && fresh(mappings.Objects() - old(mappings.Objects()))
      ensures State() == ApplyOne(old(State()), w)
      ensures events <= r && PublishedOne(old(State()), w, r[|events|..])
    {
      if w.event.kind == Delete {
        r := DeleteInput(w, w.event.Key(), events);
      } else {
        r := UpdateInput(w, w.event.Latest(), w.computed, events);
      }
    }

    /** The next item of a batch. */
    method HandleNext(ghost c: Coll, ws: seq<Work>, n: nat, events: seq<Event>) returns (r: seq<Event>)
      requires Valid() && n < |ws| && WorkWellFormed(ws) && AllResultsOk(ws, owner)
      requires State() == Apply(c, ws[..n]) && PublishedAll(c, ws[..n], events)
      modifies this, mappings, mappings.Objects()
      ensures Valid() && fresh(mappings.Objects() - old(mappings.Objects()))
      ensures State() == Apply(c, ws[..n + 1]) && PublishedAll(c, ws[..n + 1], r)
    {
      assert ResultsOk(ws[n], owner);
      r := HandleOne(ws[n], events);
      HandledSnoc(c, ws, n, events, r);
    }

    /** All items of a batch. */
    method HandleAll(ws: seq<Work>) returns (events: seq<Event>)
      requires Valid() && WorkWellFormed(ws) && AllResultsOk(ws, owner)
      modifies this, mappings, mappings.Objects()
      ensures Valid() && fresh(mappings.Objects() - old(mappings.Objects()))
      ensures State() == Apply(old(State()), ws) && PublishedAll(old(State()), ws, events)
    {
      ghost var c, first := State(), mappings.Objects();
      events := [];
      for n := 0 to |ws|
        invariant Valid() && fresh(mappings.Objects() - first)
        invariant State() == Apply(c, ws[..n]) && PublishedAll(c, ws[..n], events)
      {
        ghost var before := mappings.Objects();
        events := HandleNext(c, ws, n, events);
        assert mappings.Objects() - first <= (mappings.Objects() - before) + (before - first);
      }
      assert ws[..|ws|] == ws;
    }

    /** What a batch publishes, replayed strictly on a mirror of the outputs, turns the old outputs into the new
        ones. */
    method HandleBatch(ws: seq<Work>) returns (events: seq<Event>)
      requires Valid() && WorkWellFormed(ws) && AllResultsOk(ws, owner)
      modifies this, mappings, mappings.Objects()
      ensures Valid() && fresh(mappings.Objects() - old(mappings.Objects()))
      ensures State() == Apply(old(State()), ws) && PublishedAll(old(State()), ws, events)
      ensures Replay(old(outputs), events) == Some(outputs) && NoNoOps(events)
    {
      PublishedByAll(State(), ws, owner);
      events := HandleAll(ws);
    }

    /** Creates an index over the current outputs, or returns the one of that name. */
    method AddIndex(name: string, extract: Obj -> seq<string>) returns (idx: Index)
      requires Valid()
      modifies this`indexes
      ensures Valid() && Exact(idx, outputs)
      ensures indexes == (if name in old(indexes) then old(indexes) else old(indexes)[name := idx])
      ensures name in old(indexes) ==> idx == old(indexes)[name]
      ensures name !in old(indexes) ==> idx.extract == extract
    {
      if name in indexes { return indexes[name]; }
      idx := BuildIndex(extract, outputs);
      indexes := indexes[name := idx];
    }

    /** What a new handler that asks for the existing state is sent first. */
    method InitialEvents() returns (events: seq<Event>)
      requires Valid()
      ensures AreAdds(outputs, events)
    {
      events := AddsFor(outputs);
    }
  }

  class DerivedCollection {
    const collectionState: CollectionState
    const dependencies: DependencyState

    ghost predicate Valid()
      reads collectionState, collectionState.mappings, collectionState.mappings.Objects(), dependencies
    {
      collectionState.Valid() && dependencies.Valid()
    }

    constructor (ghost owner: Owner, ghost registry: nat -> Extractor)
      ensures Valid() && fresh(collectionState) && fresh(collectionState.mappings) && fresh(dependencies)
      ensures collectionState.State() == Coll(map[], map[], map[]) && dependencies.objectDependencies == map[]
      ensures collectionState.owner == owner && dependencies.registry == registry
    {
      collectionState := new CollectionState(owner);
      dependencies := new DependencyState(registry);
    }

    /** The dependencies of a batch, input by input. A discarded run still watches what it fetched. */
    method RecordAll(ws: seq<Work>)
      requires dependencies.Valid() && WorkWellFormed(ws)
      requires forall n, d | 0 <= n < |ws| && d in ws[n].computed.deps :: Registered(dependencies.registry, d)
      modifies dependencies
      ensures dependencies.Valid()
      ensures dependencies.objectDependencies == Record(old(dependencies.objectDependencies), ws)
    {
      for n := 0 to |ws|
        invariant dependencies.Valid()
        invariant dependencies.objectDependencies == Record(old(dependencies.objectDependencies), ws[..n])
      {
        assert ws[..n + 1][..n] == ws[..n];
        if ws[n].event.kind == Delete {
          dependencies.Remove(ws[n].event.Key());
        } else {
          dependencies.Update(ws[n].event.Key(), ws[n].computed.deps);
        }
      }
      assert ws[..|ws|] == ws;
    }

    /** The locked half of a batch. */
    method HandleChanged(ws: seq<Work>) returns (events: seq<Event>)
      requires Valid()
      requires WorkWellFormed(ws) && AllResultsOk(ws, collectionState.owner)
      requires forall n, d | 0 <= n < |ws| && d in ws[n].computed.deps :: Registered(dependencies.registry, d)
      modifies collectionState, collectionState.mappings, collectionState.mappings.Objects(), dependencies
      ensures Valid() && fresh(collectionState.mappings.Objects() - old(collectionState.mappings.Objects()))
      ensures collectionState.State() == Apply(old(collectionState.State()), ws)
      ensures dependencies.objectDependencies == Record(old(dependencies.objectDependencies), ws)
      ensures PublishedAll(old(collectionState.State()), ws, events)
      ensures Replay(old(collectionState.outputs), events) == Some(collectionState.outputs) && NoNoOps(events)
    {
      events := collectionState.HandleBatch(ws);
      assert dependencies.Valid();
      RecordAll(ws);
      assert collectionState.Valid();
    }
  }

  lemma PublishedByAll(c: Coll, ws: seq<Work>, owner: Owner)
    requires WorkWellFormed(ws) && Consistent(c, owner) && AllResultsOk(ws, owner)
    ensures forall events | PublishedAll(c, ws, events) ::
              Replay(c.outputs, events) == Some(Apply(c, ws).outputs) && NoNoOps(events)
  {
    forall events | PublishedAll(c, ws, events)
      ensures Replay(c.outputs, events) == Some(Apply(c, ws).outputs) && NoNoOps(events)
    {
      PublishedAllReplays(c, ws, owner, events);
    }
  }

  lemma HandledSnoc(c: Coll, ws: seq<Work>, n: nat, events: seq<Event>, more: seq<Event>)
    requires n < |ws| && WorkWellFormed(ws) && PublishedAll(c, ws[..n], events)
    requires events <= more && PublishedOne(Apply(c, ws[..n]), ws[n], more[|events|..])
    ensures PublishedAll(c, ws[..n + 1], more)
    ensures Apply(c, ws[..n + 1]) == ApplyOne(Apply(c, ws[..n]), ws[n])
  {
    assert ws[..n + 1] == ws[..n] + [ws[n]] && ws[..n + 1][..n] == ws[..n];
    assert more == events + more[|events|..];
    PublishedSnoc(c, ws[..n], ws[n], events, more[|events|..]);
  }

  lemma RetainedAsPublished(c: Coll, w: Work)
    requires w.event.WellFormed() && w.event.kind != Delete && Retains(c, w.event.Latest(), w.computed)
    ensures PublishedOne(c, w, [])
  {
    assert PublishedAs(c, w, [], [], []);
  }

  /** One Add per object, in some order. */
  ghost predicate AreAdds(c: Contents, events: seq<Event>) {
    exists order :: Enumerates(order, c.Keys) && events == Puts(map[], c, order)
  }

  /** Such Adds build the contents from nothing. */
  lemma AddsReplay(c: Contents, events: seq<Event>)
    requires Keyed(c) && AreAdds(c, events)
    ensures Replay(map[], events) == Some(c) && NoNoOps(events)
  {
    var order :| Enumerates(order, c.Keys) && events == Puts(map[], c, order);
    PutsReplay(map[], map[], c, order);
    PutsAreChanges(map[], c, order);
    assert map[] + Restrict(c, order) == c;
  }

  method AddsFor(c: Contents) returns (events: seq<Event>)
    ensures AreAdds(c, events)
  {
    events := [];
    ghost var order: seq<Key> := [];
    var todo := c.Keys;
    while todo != {}
      invariant todo <= c.Keys && Distinct(order) && forall k :: k in order <==> k in c && k !in todo
      invariant events == Puts(map[], c, order)
    {
      var k :| k in todo;
      PutsSnoc(map[], c, order, k);
      events, order, todo := events + [Event(None, Some(c[k]), Add)], order + [k], todo - {k};
    }
    assert Enumerates(order, c.Keys);
  }
}
