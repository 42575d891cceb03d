/** The merge join: objects of several collections with one key are merged into one
    (pkg/krt/mergejoin.go). */
module MergeJoin {
  import opened Collections
  import opened Events
  import opened Indexes
  import opened Announcements

  /** A merge function; it may decline to produce an object. */
  type Merge = seq<Obj> -> Option<Obj>

  /** The objects under `k`, in the order of the collections. */
  function Holders(sources: seq<Contents>, k: Key): seq<Obj> {
    if sources == [] then []
    else
      var n := |sources| - 1;
      Holders(sources[..n], k) + (if k in sources[n] then [sources[n][k]] else [])
  }

  /** The reference: the merge of the present holders, none without holders. */
  function Merged(merge: Merge, sources: seq<Contents>, k: Key): Option<Obj> {
    var found := Holders(sources, k);
    if found == [] then None else merge(found)
  }

  /** Merging objects of one key gives an object of that key. */
  ghost predicate MergeOk(merge: Merge) {
    forall found: seq<Obj> | found != [] && merge(found).Some? && (forall o | o in found :: o.key == found[0].key) ::
      merge(found).value.key == found[0].key
  }

  method CalculateMerged(merge: Merge, sources: seq<Contents>, k: Key) returns (r: Option<Obj>)
    ensures r == Merged(merge, sources, k)
  {
    var found := [];
    for n := 0 to |sources|
      invariant found == Holders(sources[..n], k)
    {
      assert sources[..n + 1][..n] == sources[..n];
      if k in sources[n] { found := found + [sources[n][k]]; }
    }
    assert sources[..|sources|] == sources;
    r := if found == [] then None else merge(found);
  }

  // ----- one batch -----

  /** An event of the batch with the merged object that was calculated for its key. */
  datatype Item = Item(event: Event, merged: Option<Obj>)

  ghost predicate ItemOk(it: Item) {
    it.event.WellFormed() && (it.merged.Some? ==> it.merged.value.key == it.event.Key())
  }

  ghost predicate ItemsOk(items: seq<Item>) {
    forall n | 0 <= n < |items| :: ItemOk(items[n])
  }

  /** The event rewritten against the outputs as they were when the batch began. */
  function Refreshed(start: Contents, it: Item): Event
    requires it.event.WellFormed()
  {
    var e := it.event;
    if it.merged.None? then Event(if e.prev.None? then e.next else e.prev, None, Delete)
    else if e.Key() !in start then Event(None, it.merged, Add)
    else Event(Some(start[e.Key()]), it.merged, Update)
  }

  /** Nothing is stored: a deletion of nothing, or an update to the same object. */
  predicate Skipped(c: Contents, k: Key, e: Event) {
    if e.kind == Delete then k !in c else e.prev == e.next
  }

  function Stored(c: Contents, k: Key, e: Event): Contents {
    if Skipped(c, k, e) then c
    else if e.kind == Delete || e.next.None? then c - {k}
    else c[k := e.next.value]
  }

  function Handled(start: Contents, items: seq<Item>): Contents
    requires forall n | 0 <= n < |items| :: items[n].event.WellFormed()
  {
    if items == [] then start
    else
      var n := |items| - 1;
      Stored(Handled(start, items[..n]), items[n].event.Key(), Refreshed(start, items[n]))
  }

  /** Whenever a key comes more than once, the same merged object was calculated for it. */
  ghost predicate Agree(items: seq<Item>)
    requires forall n | 0 <= n < |items| :: items[n].event.WellFormed()
  {
    forall i, j | 0 <= i < |items| && 0 <= j < |items| && items[i].event.Key() == items[j].event.Key() ::
      items[i].merged == items[j].merged
  }

  /** The last position in the batch with an event about `k`, or -1. */
  function LastAbout(items: seq<Item>, k: Key): (n: int)
    requires forall n | 0 <= n < |items| :: items[n].event.WellFormed()
    ensures -1 <= n < |items|
    ensures n >= 0 ==> items[n].event.Key() == k
    ensures forall i | n < i < |items| :: items[i].event.Key() != k
  {
    if items == [] then -1
    else if items[|items| - 1].event.Key() == k then |items| - 1
    else LastAbout(items[..|items| - 1], k)
  }

  /** One event stores its calculated object, if what is stored is the object of the start of the batch or
      already the calculated one. */
  lemma StoredValue(start: Contents, c: Contents, it: Item)
    requires ItemOk(it)
    requires var k := it.event.Key(); Get(c, k) == Get(start, k) || Get(c, k) == it.merged
    ensures Get(Stored(c, it.event.Key(), Refreshed(start, it)), it.event.Key()) == it.merged
    ensures forall j | j != it.event.Key() :: Get(Stored(c, it.event.Key(), Refreshed(start, it)), j) == Get(c, j)
  {
  }

  /** Only the events about a key matter for it, so agreement on that key is enough. */
  lemma {:induction false} HandledKey(start: Contents, items: seq<Item>, k: Key, v: Option<Obj>)
    requires ItemsOk(items)
    requires forall it | it in items && it.event.Key() == k :: it.merged == v
    ensures var n := LastAbout(items, k);
            Get(Handled(start, items), k) == if n < 0 then Get(start, k) else v
    ensures LastAbout(items, k) < 0 ==> forall it | it in items :: it.event.Key() != k
    decreases items
  {
    if items != [] {
      var m := |items| - 1;
      assert ItemOk(items[m]) && items == items[..m] + [items[m]];
      HandledKey(start, items[..m], k, v);
      if items[m].event.Key() == k { StoredValue(start, Handled(start, items[..m]), items[m]); }
    }
  }

  /** The outputs after a batch whose calculations agree: for every key of the batch, the calculated object. */
  lemma HandledAgrees(start: Contents, items: seq<Item>, k: Key)
    requires ItemsOk(items) && Agree(items)
    ensures var n := LastAbout(items, k);
            Get(Handled(start, items), k) == if n < 0 then Get(start, k) else items[n].merged
  {
    var n := LastAbout(items, k);
    HandledKey(start, items, k, if n < 0 then None else items[n].merged);
  }

  /** Calculations made from one snapshot of the sources agree. */
  lemma SnapshotAgrees(merge: Merge, sources: seq<Contents>, items: seq<Item>)
    requires ItemsOk(items)
    requires forall n | 0 <= n < |items| :: items[n].merged == Merged(merge, sources, items[n].event.Key())
    ensures Agree(items)
  {
    forall n | 0 <= n < |items| ensures items[n].event.WellFormed() { assert ItemOk(items[n]); }
  }

  // ----- what is published -----

  /** A deletion is published twice: with the stored object, and once more as the source's own event. */
  function PublishedOne(c: Contents, k: Key, e: Event): seq<Event> {
    if Skipped(c, k, e) then []
    else if e.kind == Delete && k in c then [Event(Some(c[k]), None, Delete), e]
    else [e]
  }

  function PublishedAll(start: Contents, items: seq<Item>): seq<Event>
    requires forall n | 0 <= n < |items| :: items[n].event.WellFormed()
  {
    if items == [] then []
    else
      var n := |items| - 1;
      PublishedAll(start, items[..n])
        + PublishedOne(Handled(start, items[..n]), items[n].event.Key(), Refreshed(start, items[n]))
  }

  lemma RefreshedSides(start: Contents, it: Item)
    requires ItemOk(it) && Keyed(start)
    ensures var e := Refreshed(start, it);
            && e.WellFormed() && e.Key() == it.event.Key() && e.next == it.merged
            && (e.kind == Delete <==> it.merged.None?)
            && (it.merged.Some? ==> e.prev == Get(start, e.Key()) && Strict(start, e))
  {
  }

  lemma {:induction false} HandledKeyed(start: Contents, items: seq<Item>)
    requires ItemsOk(items) && Keyed(start)
    ensures Keyed(Handled(start, items))
    decreases items
  {
    if items != [] {
      var n := |items| - 1;
      HandledKeyed(start, items[..n]);
      assert ItemOk(items[n]);
      RefreshedSides(start, items[n]);
    }
  }

  /** One event of the batch takes the stored object nowhere that is not linked to the object of the start. */
  lemma StoredLinks(start: Contents, c: Contents, it: Item, batch: seq<Event>)
    requires ItemOk(it) && Keyed(start) && Keyed(c)
    requires var k := it.event.Key();
             && Links(batch, k, Get(start, k), Get(c, k))
             && forall e | e in PublishedOne(c, k, Refreshed(start, it)) :: e in batch
    ensures var k := it.event.Key(); Links(batch, k, Get(start, k), Get(Stored(c, k, Refreshed(start, it)), k))
  {
    var k, e := it.event.Key(), Refreshed(start, it);
    RefreshedSides(start, it);
    if !Skipped(c, k, e) {
      if e.kind == Delete {
        var gone := Event(Some(c[k]), None, Delete);
        assert gone in PublishedOne(c, k, e) && Joins(gone, k, Some(c[k]), None);
        LinksOne(batch, k, Some(c[k]), None);
        LinksThrough(batch, k, Get(start, k), Some(c[k]), None);
      } else {
        assert e in PublishedOne(c, k, e) && Joins(e, k, Get(start, k), e.next);
        LinksOne(batch, k, Get(start, k), e.next);
      }
    }
  }

  /** Whatever the calculations, the events of a handler call link every output before it to the output after it, so a
      merge join announces its changes to those who fetch from it. */
  lemma {:induction false} MergeAnnounces(start: Contents, items: seq<Item>, k: Key)
    requires ItemsOk(items) && Keyed(start)
    ensures Links(PublishedAll(start, items), k, Get(start, k), Get(Handled(start, items), k))
    decreases items
  {
    if items == [] {
      LinksItself([], k, Get(start, k));
    } else {
      var n := |items| - 1;
      var before, c := items[..n], Handled(start, items[..n]);
      var batch := PublishedAll(start, items);
      assert ItemOk(items[n]);
      MergeAnnounces(start, before, k);
      HandledKeyed(start, before);
      LinksInMore(PublishedAll(start, before), batch, k, Get(start, k), Get(c, k));
      if items[n].event.Key() == k { StoredLinks(start, c, items[n], batch); }
    }
  }

  // ----- the indexes -----

  /** What one event of the batch does to an index. */
  ghost predicate IndexStep(idx: Index, c: Contents, k: Key, e: Event, r: Index) {
    if Skipped(c, k, e) then r == idx
    else if e.kind == Delete then
      exists mid :: Moved(idx, Event(Get(c, k), None, Delete), k, mid) && Moved(mid, e, k, r)
    else Moved(idx, e, k, r)
  }

  /** The stored object is the one that the event was rewritten against, or the one it brings. */
  predicate Steady(c: Contents, k: Key, e: Event) {
    Skipped(c, k, e) || e.kind == Delete || k !in c || Get(c, k) == e.prev || Get(c, k) == e.next
  }

  lemma SteadyKeepsExact(idx: Index, c: Contents, k: Key, e: Event, r: Index)
    requires Exact(idx, c) && IndexStep(idx, c, k, e, r) && Steady(c, k, e)
    requires e.kind == Delete <==> e.next.None?
    ensures Exact(r, Stored(c, k, e)) && r.extract == idx.extract
  {
    if !Skipped(c, k, e) && e.kind == Delete {
      var mid :| Moved(idx, Event(Get(c, k), None, Delete), k, mid) && Moved(mid, e, k, r);
      assert forall b :: !Holds(mid.buckets, b, k);
    }
  }

  /** The condition is exact: when it fails, an index that tells the stored object from the others goes wrong. */
  lemma UnsteadyBreaksAnIndex(idx: Index, c: Contents, k: Key, e: Event, r: Index, bucket: string)
    requires Exact(idx, c) && IndexStep(idx, c, k, e, r) && !Steady(c, k, e)
    requires forall o :: bucket in idx.extract(o) <==> o == c[k]
    ensures !Exact(r, Stored(c, k, e))
  {
    assert Holds(idx.buckets, bucket, k);
    assert Holds(r.buckets, bucket, k);
  }

  /** With agreeing calculations every event of a batch is steady. */
  lemma AgreeIsSteady(start: Contents, items: seq<Item>, n: nat)
    requires ItemsOk(items) && Agree(items) && n < |items|
    ensures Steady(Handled(start, items[..n]), items[n].event.Key(), Refreshed(start, items[n]))
  {
    var before, k := items[..n], items[n].event.Key();
    assert forall i | 0 <= i < n :: before[i] == items[i];
    HandledAgrees(start, before, k);
    assert LastAbout(before, k) >= 0 ==> items[LastAbout(before, k)].merged == items[n].merged;
  }

  ghost predicate IndexesStep(indexes: IndexSet, c: Contents, k: Key, e: Event, r: IndexSet) {
    r.Keys == indexes.Keys && forall n | n in indexes :: IndexStep(indexes[n], c, k, e, r[n])
  }

  lemma SteadyKeepsAll(indexes: IndexSet, c: Contents, k: Key, e: Event, r: IndexSet)
    requires ExactAll(indexes, c) && IndexesStep(indexes, c, k, e, r) && Steady(c, k, e)
    requires e.kind == Delete <==> e.next.None?
    ensures ExactAll(r, Stored(c, k, e))
  {
    forall n | n in r ensures Exact(r[n], Stored(c, k, e)) {
      SteadyKeepsExact(indexes[n], c, k, e, r[n]);
    }
  }

  /** A batch with a repeated key, and a change between its two calculations: the index ends up with the key in
      the bucket of an object that is not there any more, although the outputs are right. */
  lemma TornBatch(start: Contents, k: Key, e: Event, a: Obj, b: Obj, idx: Index, i1: Index, i2: Index, bucket: string)
    requires k !in start && Exact(idx, start) && a != b && a.key == b.key == k
    requires e.WellFormed() && e.Key() == k
    requires bucket in idx.extract(a) && bucket !in idx.extract(b)
    requires IndexStep(idx, start, k, Refreshed(start, Item(e, Some(a))), i1)
    requires IndexStep(i1, start[k := a], k, Refreshed(start, Item(e, Some(b))), i2)
    ensures Handled(start, [Item(e, Some(a)), Item(e, Some(b))]) == start[k := b]
    ensures Holds(i2.buckets, bucket, k) && !Exact(i2, start[k := b])
  {
    var items := [Item(e, Some(a)), Item(e, Some(b))];
    assert items[..1] == [items[0]] && items[..1][..0] == [];
    assert Handled(start, items[..1]) == start[k := a];
    assert Handled(start, items) == start[k := a][k := b];
    assert Holds(i1.buckets, bucket, k);
  }

  class MergeJoinCollection {
    var outputs: Contents
    var indexes: IndexSet

    constructor ()
      ensures outputs == map[] && indexes == map[]
    {
      outputs, indexes := map[], map[];
    }

    /** Rewrites the events of a batch before anything is stored. Each event that brings an object is strict against
        the outputs as they are. */
    static method RefreshEvents(outputs: Contents, items: seq<Item>) returns (events: seq<Event>)
      requires ItemsOk(items) && Keyed(outputs)
      ensures |events| == |items|
      ensures forall n | 0 <= n < |items| :: events[n] == Refreshed(outputs, items[n])
      ensures forall n | 0 <= n < |items| && items[n].merged.Some? ::
                Strict(outputs, events[n]) && Get(Mirror(outputs, events[n]), items[n].event.Key()) == items[n].merged
    {
      events := [];
      for n := 0 to |items|
        invariant |events| == n && forall m | 0 <= m < n :: events[m] == Refreshed(outputs, items[m])
      {
        assert ItemOk(items[n]);
        var e, iKey, iObj := items[n].event, items[n].event.Key(), items[n].merged;
        if iObj.None? {
          // An Add that was overtaken has no Old: its New stands in.
          if e.prev.None? { e := e.(prev := e.next); }
          e := Event(e.prev, None, Delete);
        } else if iKey !in outputs {
          e := Event(None, iObj, Add);
        } else {
          e := Event(Some(outputs[iKey]), iObj, Update);
        }
        events := events + [e];
      }
      forall n | 0 <= n < |items| && items[n].merged.Some?
        ensures Strict(outputs, events[n])
        ensures Get(Mirror(outputs, events[n]), items[n].event.Key()) == items[n].merged
      {
        assert ItemOk(items[n]);
        RefreshedSides(outputs, items[n]);
      }
    }

    method StoreEvent(k: Key, e: Event) returns (published: seq<Event>)
      modifies this
      ensures outputs == Stored(old(outputs), k, e)
      ensures published == PublishedOne(old(outputs), k, e)
      ensures IndexesStep(old(indexes), old(outputs), k, e, indexes)
    {
      ghost var before := indexes;
      published := [];
      if e.kind == Delete {
        if k !in outputs { return; }
        var oldRes := outputs[k];
        published := [Event(Some(oldRes), None, Delete)];
        outputs := outputs - {k};
        var mid := UpdateIndexes(indexes, Event(Some(oldRes), None, Delete), k);
        // The deletion then goes on to the common path with the event's own Old.
        indexes := UpdateIndexes(mid, e, k);
        forall n | n in before ensures IndexStep(before[n], old(outputs), k, e, indexes[n]) {
          assert Moved(before[n], Event(Some(oldRes), None, Delete), k, mid[n]) && Moved(mid[n], e, k, indexes[n]);
        }
      } else {
        if e.prev == e.next { return; }
        outputs := if e.next.Some? then outputs[k := e.next.value] else outputs - {k};
        indexes := UpdateIndexes(indexes, e, k);
      }
      published := published + [e];
    }

    method OnSubCollectionEvents(items: seq<Item>) returns (published: seq<Event>)
      requires ItemsOk(items) && Keyed(outputs)
      modifies this
      ensures outputs == Handled(old(outputs), items) && published == PublishedAll(old(outputs), items)
      ensures Announces(published, old(outputs), outputs)
      ensures Agree(items) && ExactAll(old(indexes), old(outputs)) ==> ExactAll(indexes, outputs)
    {
      var events := RefreshEvents(outputs, items);
      published := [];
      for n := 0 to |items|
        invariant outputs == Handled(old(outputs), items[..n]) && published == PublishedAll(old(outputs), items[..n])
        invariant Agree(items) && ExactAll(old(indexes), old(outputs)) ==> ExactAll(indexes, outputs)
      {
        assert ItemOk(items[n]) && items[..n + 1][..n] == items[..n];
        var k := items[n].event.Key();
        ghost var c, before := outputs, indexes;
        var more := StoreEvent(k, events[n]);
        published := published + more;
        if Agree(items) && ExactAll(before, c) {
          AgreeIsSteady(old(outputs), items, n);
          SteadyKeepsAll(before, c, k, events[n], indexes);
        }
      }
      assert items[..|items|] == items;
      forall k ensures Links(published, k, Get(old(outputs), k), Get(outputs, k)) {
        MergeAnnounces(old(outputs), items, k);
      }
    }
  }

  // ----- convergence, with the handler reading while the sources change -----

  /** Calculating for one event: the sources from `next` on are still to be read. */
  datatype Hand =
    | Nothing
    | Handling(todo: seq<Event>, found: seq<Obj>, next: nat, items: seq<Item>)

  datatype State = State(
    sources: seq<Contents>,
    queue: seq<seq<Event>>,        // batches on their way from all sources, taken in any order
    outputs: Contents,
    hand: Hand)

  datatype Step =
    | SourceChanges(i: nat, batch: seq<Event>, next: Contents)
    | Begin(n: nat)
    | ReadSource
    | Calculate
    | Store

  /** A source may change in any way, as long as its batch is about every key that changed. */
  ghost predicate Enabled(s: State, a: Step) {
    match a
    case SourceChanges(i, batch, next) =>
      && i < |s.sources| && Keyed(next) && AllWellFormed(batch)
      && forall k :: About(batch, k) || Get(next, k) == Get(s.sources[i], k)
    case Begin(n) => s.hand.Nothing? && n < |s.queue|
    case ReadSource =>
      s.hand.Handling? && s.hand.todo != [] && s.hand.todo[0].WellFormed() && s.hand.next < |s.sources|
    case Calculate =>
      s.hand.Handling? && s.hand.todo != [] && s.hand.todo[0].WellFormed() && s.hand.next == |s.sources|
    case Store =>
      s.hand.Handling? && s.hand.todo == [] && forall n | 0 <= n < |s.hand.items| :: s.hand.items[n].event.WellFormed()
  }

  function After(merge: Merge, s: State, a: Step): State
    requires Enabled(s, a)
  {
    match a
    case SourceChanges(i, batch, next) => s.(sources := s.sources[i := next], queue := s.queue + [batch])
    case Begin(n) => s.(queue := s.queue[..n] + s.queue[n + 1..], hand := Handling(s.queue[n], [], 0, []))
    case ReadSource =>
      var k, q := s.hand.todo[0].Key(), s.sources[s.hand.next];
      s.(hand := s.hand.(found := s.hand.found + (if k in q then [q[k]] else []), next := s.hand.next + 1))
    case Calculate =>
      var m := if s.hand.found == [] then None else merge(s.hand.found);
      s.(hand := Handling(s.hand.todo[1..], [], 0, s.hand.items + [Item(s.hand.todo[0], m)]))
    case Store => s.(outputs := Handled(s.outputs, s.hand.items), hand := Nothing)
  }

  ghost predicate Reaches(merge: Merge, s: State, steps: seq<Step>, s': State)
    decreases steps
  {
    if steps == [] then s == s'
    else Enabled(s, steps[0]) && Reaches(merge, After(merge, s, steps[0]), steps[1..], s')
  }

  predicate About(batch: seq<Event>, k: Key) {
    exists e | e in batch :: e.WellFormed() && e.Key() == k
  }

  ghost predicate Queued(s: State, k: Key) {
    exists n :: 0 <= n < |s.queue| && About(s.queue[n], k)
  }

  ghost predicate InHand(s: State, k: Key) {
    s.hand.Handling? &&
      (About(s.hand.todo, k) || exists it | it in s.hand.items :: it.event.WellFormed() && it.event.Key() == k)
  }

  ghost predicate HandOk(merge: Merge, s: State) {
    s.hand.Handling? ==>
      && AllWellFormed(s.hand.todo) && s.hand.next <= |s.sources|
      && ItemsOk(s.hand.items)
      // What was read for a key is still so, or a batch about the key is queued.
      && (forall it | it in s.hand.items ::
            it.merged == Merged(merge, s.sources, it.event.Key()) || Queued(s, it.event.Key()))
      && (if s.hand.todo == [] then s.hand.found == []
          else
            var k := s.hand.todo[0].Key();
            && (forall o | o in s.hand.found :: o.key == k)
            && (s.hand.found == Holders(s.sources[..s.hand.next], k) || Queued(s, k)))
  }

  ghost predicate Settled(merge: Merge, s: State, k: Key) {
    Queued(s, k) || InHand(s, k) || Get(s.outputs, k) == Merged(merge, s.sources, k)
  }

  ghost predicate Inv(merge: Merge, s: State) {
    && (forall i | 0 <= i < |s.sources| :: Keyed(s.sources[i]))
    && (forall n | 0 <= n < |s.queue| :: AllWellFormed(s.queue[n]))
    && HandOk(merge, s)
    && forall k :: Settled(merge, s, k)
  }

  ghost predicate Initial(s: State) {
    && s.outputs == map[] && s.hand.Nothing?
    && (forall i | 0 <= i < |s.sources| :: Keyed(s.sources[i]))
    && (forall n | 0 <= n < |s.queue| :: AllWellFormed(s.queue[n]))
    && forall i, k | 0 <= i < |s.sources| && k in s.sources[i] :: Queued(s, k)
  }

  lemma {:induction false} NoHolders(sources: seq<Contents>, k: Key)
    requires forall i | 0 <= i < |sources| :: k !in sources[i]
    ensures Holders(sources, k) == []
  {
    if sources != [] { NoHolders(sources[..|sources| - 1], k); }
  }

  lemma InitialInv(merge: Merge, s: State)
    requires Initial(s)
    ensures Inv(merge, s)
  {
    forall k ensures Settled(merge, s, k) {
      if !Queued(s, k) {
        assert forall i | 0 <= i < |s.sources| :: k !in s.sources[i];
        NoHolders(s.sources, k);
      }
    }
  }

  lemma {:induction false} SameHolders(a: seq<Contents>, b: seq<Contents>, k: Key)
    requires |a| == |b| && forall i | 0 <= i < |a| :: Get(a[i], k) == Get(b[i], k)
    ensures Holders(a, k) == Holders(b, k)
  {
    if a != [] {
      var n := |a| - 1;
      assert Get(a[n], k) == Get(b[n], k);
      SameHolders(a[..n], b[..n], k);
    }
  }

  lemma ChangeKey(merge: Merge, s: State, a: Step, k: Key, n: nat)
    requires a.SourceChanges? && Enabled(s, a) && n <= |s.sources|
    ensures var s' := After(merge, s, a);
            && (Queued(s, k) ==> Queued(s', k))
            && (Queued(s', k) || Holders(s'.sources[..n], k) == Holders(s.sources[..n], k))
  {
    var s' := After(merge, s, a);
    assert forall m | 0 <= m < |s.queue| :: s'.queue[m] == s.queue[m];
    assert s'.queue[|s.queue|] == a.batch;
    if !About(a.batch, k) { SameHolders(s'.sources[..n], s.sources[..n], k); }
  }

  lemma ChangeStep(merge: Merge, s: State, a: Step)
    requires Inv(merge, s) && a.SourceChanges? && Enabled(s, a)
    ensures Inv(merge, After(merge, s, a))
  {
    var s' := After(merge, s, a);
    assert s.sources[..|s.sources|] == s.sources && s'.sources[..|s.sources|] == s'.sources;
    forall k ensures Settled(merge, s', k) {
      assert Settled(merge, s, k);
      ChangeKey(merge, s, a, k, |s.sources|);
    }
    if s.hand.Handling? {
      forall it | it in s.hand.items
        ensures it.merged == Merged(merge, s'.sources, it.event.Key()) || Queued(s', it.event.Key())
      {
        ChangeKey(merge, s, a, it.event.Key(), |s.sources|);
      }
      if s.hand.todo != [] { ChangeKey(merge, s, a, s.hand.todo[0].Key(), s.hand.next); }
    }
  }

  lemma BeginQueue(merge: Merge, s: State, n: nat, k: Key)
    requires Enabled(s, Begin(n)) && Queued(s, k)
    ensures Queued(After(merge, s, Begin(n)), k) || About(s.queue[n], k)
  {
    var s' := After(merge, s, Begin(n));
    var m :| 0 <= m < |s.queue| && About(s.queue[m], k);
    if m < n { assert s'.queue[m] == s.queue[m]; }
    if m > n { assert s'.queue[m - 1] == s.queue[m]; }
  }

  lemma BeginStep(merge: Merge, s: State, n: nat)
    requires Inv(merge, s) && Enabled(s, Begin(n))
    ensures Inv(merge, After(merge, s, Begin(n)))
  {
    var s' := After(merge, s, Begin(n));
    forall m | 0 <= m < |s'.queue| ensures AllWellFormed(s'.queue[m]) {
      assert s'.queue[m] == s.queue[if m < n then m else m + 1];
    }
    assert s.sources[..0] == [];
    forall k ensures Settled(merge, s', k) {
      assert Settled(merge, s, k);
      if Queued(s, k) { BeginQueue(merge, s, n, k); }
    }
  }

  lemma ReadStep(merge: Merge, s: State)
    requires Inv(merge, s) && Enabled(s, ReadSource)
    ensures Inv(merge, After(merge, s, ReadSource))
  {
    var s', n := After(merge, s, ReadSource), s.hand.next;
    assert s.sources[..n + 1][..n] == s.sources[..n];
    assert forall k :: Queued(s', k) <==> Queued(s, k);
    forall k ensures Settled(merge, s', k) { assert Settled(merge, s, k); }
  }

  lemma CalculateItem(merge: Merge, s: State)
    requires MergeOk(merge) && Inv(merge, s) && Enabled(s, Calculate)
    ensures var k := s.hand.todo[0].Key();
            var m := if s.hand.found == [] then None else merge(s.hand.found);
            && ItemOk(Item(s.hand.todo[0], m))
            && (m == Merged(merge, s.sources, k) || Queued(s, k))
  {
    assert s.sources[..|s.sources|] == s.sources;
  }

  lemma CalculateStep(merge: Merge, s: State)
    requires MergeOk(merge) && Inv(merge, s) && Enabled(s, Calculate)
    ensures Inv(merge, After(merge, s, Calculate))
  {
    var s', e := After(merge, s, Calculate), s.hand.todo[0];
    CalculateItem(merge, s);
    assert s.sources[..0] == [];
    assert s.hand.todo == [e] + s'.hand.todo;
    forall k ensures Queued(s', k) <==> Queued(s, k) {}
    forall k ensures Settled(merge, s', k) {
      assert Settled(merge, s, k);
      if InHand(s, k) { CalculateKeepsHand(merge, s, k); }
    }
  }

  lemma CalculateKeepsHand(merge: Merge, s: State, k: Key)
    requires Enabled(s, Calculate) && InHand(s, k)
    ensures InHand(After(merge, s, Calculate), k)
  {
    var h, h' := s.hand, After(merge, s, Calculate).hand;
    if About(h.todo, k) {
      var e :| e in h.todo && e.WellFormed() && e.Key() == k;
      assert h.todo == [h.todo[0]] + h'.todo;
      if e == h.todo[0] { assert h'.items[|h.items|].event == e; }
    } else {
      var it :| it in h.items && it.event.WellFormed() && it.event.Key() == k;
      assert it in h'.items;
    }
  }

  /** Storing the calculations. Where nothing more is queued for a key they all agree, and they are right. */
  lemma StoreKey(merge: Merge, s: State, k: Key)
    requires Inv(merge, s) && Enabled(s, Store)
    ensures Settled(merge, After(merge, s, Store), k)
  {
    var s' := After(merge, s, Store);
    assert Queued(s', k) <==> Queued(s, k);
    if !Queued(s, k) {
      HandledKey(s.outputs, s.hand.items, k, Merged(merge, s.sources, k));
      assert Settled(merge, s, k);
    }
  }

  lemma StoreStep(merge: Merge, s: State)
    requires Inv(merge, s) && Enabled(s, Store)
    ensures Inv(merge, After(merge, s, Store))
  {
    forall k ensures Settled(merge, After(merge, s, Store), k) { StoreKey(merge, s, k); }
  }

  lemma StepKeepsInv(merge: Merge, s: State, a: Step)
    requires MergeOk(merge) && Inv(merge, s) && Enabled(s, a)
    ensures Inv(merge, After(merge, s, a))
  {
    match a
    case SourceChanges(_, _, _) => ChangeStep(merge, s, a);
    case Begin(n) => BeginStep(merge, s, n);
    case ReadSource => ReadStep(merge, s);
    case Calculate => CalculateStep(merge, s);
    case Store => StoreStep(merge, s);
  }

  lemma {:induction false} RunKeepsInv(merge: Merge, s: State, steps: seq<Step>, s': State)
    requires MergeOk(merge) && Inv(merge, s) && Reaches(merge, s, steps, s')
    ensures Inv(merge, s')
    decreases steps
  {
    if steps != [] {
      StepKeepsInv(merge, s, steps[0]);
      RunKeepsInv(merge, After(merge, s, steps[0]), steps[1..], s');
    }
  }

  /** Between handler calls, every key without a queued batch has the merge of its present holders as output:
      no output if there are none or the merge declines. The handler's reads need not be a snapshot. */
  lemma MergeConverges(merge: Merge, s0: State, steps: seq<Step>, s: State, k: Key)
    requires MergeOk(merge) && Initial(s0) && Reaches(merge, s0, steps, s) && s.hand.Nothing?
    ensures Queued(s, k) || Get(s.outputs, k) == Merged(merge, s.sources, k)
  {
    InitialInv(merge, s0);
    RunKeepsInv(merge, s0, steps, s);
    assert Settled(merge, s, k);
  }
}
