/** The incremental engine as a whole: a derived collection that recomputes only the inputs its
    reverse index selects, while its parent and everything it fetches keep changing under it
    (pkg/krt/collection.go:455-518, 772-846, 938-1001).

    A batch is taken from the queue, the parent is read once per key, every fetch first subscribes and
    then lists (a fetch by keys reads them one by one), and only the commit is atomic. Between any two
    of these the parent and the fetched collections may change. A collection changes first and publishes
    events later: until it has, it owes its subscribers an announcement of what it had before. */
module Incremental {
  import opened Collections
  import opened Events
  import opened Filters
  import Dependencies
  import opened Derived
  import opened Transformations
  import opened Announcements

  /** A batch on its way to the collection: buffered by a listener or a debouncer, or queued. */
  datatype Item = Primary(events: seq<Event>) | Secondary(source: nat, events: seq<Event>)

  /** A read of the parent still to be made: to refresh a primary event, or for an input selected by
      a secondary one. */
  datatype Read = Refresh(event: Event) | LookUp(key: Key)

  datatype Worker =
    | Idle
    | Reading(todo: seq<Read>, read: seq<Event>)
    | Computing(items: seq<Event>, done: seq<Option<Run>>, log: seq<Entry>, part: map<Key, Option<Seen>>)

  /** Collection `id` had `was` under `key`, and what it has published since that changed, all batches together, has
      not announced it yet. */
  datatype Debt = Debt(id: nat, key: Key, was: Option<Obj>, since: seq<Event>)

  datatype System = System(
    parent: Contents,
    unnamed: set<Key>,            // changed in the parent and not named by a batch yet
    world: World,
    owed: set<Debt>,
    subscribed: set<nat>,
    pending: seq<Item>,
    worker: Worker,
    store: Store,
    stream: seq<Event>)           // everything published so far

  // ----- steps -----

  datatype Step =
    | ParentMoves(next: Contents)
    | ParentPublishes(batch: seq<Event>)
    | WorldMoves(id: nat, next: Contents)
    | WorldPublishes(id: nat, batch: seq<Event>)
    | Spurious(item: Item)
    | Take(n: nat, order: seq<Key>)
    | ReadParent
    | StartComputing
    | SkipDeletion
    | Subscribe
    | Look(key: Key)
    | List
    | FinishRun
    | Commit(events: seq<Event>)

  predicate Names(batch: seq<Event>, k: Key) {
    exists e | e in batch :: e.WellFormed() && e.Key() == k
  }

  /** Refreshing a queued primary event with the parent's present object (collection.go:461-479). */
  function Refreshed(parent: Contents, e: Event): (r: Event)
    requires e.WellFormed()
  {
    var now := Get(parent, e.Key());
    if now.None? then Event(if e.prev.None? then e.next else e.prev, None, Delete)
    else Event(e.prev, now, if e.kind == Delete then Update else e.kind)
  }

  /** What a selected input becomes: an update with the parent's object; or, when the parent has lost
      it, one deletion per output it has (collection.go:818-844). */
  function Selection(parent: Contents, c: Coll, k: Key): (r: seq<Event>)
    requires Mapped(c, k) != {} ==> k in c.inputs
  {
    if k in parent then [Event(None, Some(parent[k]), Update)]
    else if Mapped(c, k) == {} then []
    else seq(|Mapped(c, k)|, _ => Event(Some(c.inputs[k]), None, Delete))
  }

  function ReadOne(s: System, r: Read): seq<Event>
    requires r.Refresh? ==> r.event.WellFormed()
    requires r.LookUp? ==> (Mapped(s.store.coll, r.key) != {} ==> r.key in s.store.coll.inputs)
  {
    match r
    case Refresh(e) => [Refreshed(s.parent, e)]
    case LookUp(k) => Selection(s.parent, s.store.coll, k)
  }

  function Todo(item: Item, order: seq<Key>): seq<Read> {
    match item
    case Primary(events) => seq(|events|, n requires 0 <= n < |events| => Refresh(events[n]))
    case Secondary(_, _) => seq(|order|, n requires 0 <= n < |order| => LookUp(order[n]))
  }

  /** The action that the running transformation asks for next. */
  function NextAction(t: Transformation, w: Worker): Action
    requires w.Computing? && |w.done| < |w.items| && w.items[|w.done|].WellFormed()
  {
    t(w.items[|w.done|].Latest(), Results(w.log))
  }

  /** What a fetch returns: the keys read one by one, or a listing of the present contents. */
  function Fetched(w: World, q: Query, part: map<Key, Option<Seen>>): Result {
    if q.dep.filter.keys.Some? then map k | k in part && part[k].Some? :: part[k].value else Answer(w, q)
  }

  function ChangedKeys(a: Contents, b: Contents): set<Key> {
    set k | k in a.Keys + b.Keys && Get(a, k) != Get(b, k)
  }

  /** What a change of a fetched collection leaves to be announced. */
  function Debts(id: nat, a: Contents, b: Contents): set<Debt> {
    set k | k in ChangedKeys(a, b) :: Debt(id, k, Get(a, k), [])
  }

  /** A debt is settled when the events published since link what was listed to what is listed now. */
  ghost predicate Settled(w: World, d: Debt) {
    Links(d.since, d.key, d.was, Get(ContentsOf(w, d.id), d.key))
  }

  function Heard(d: Debt, id: nat, batch: seq<Event>): Debt {
    if d.id == id then d.(since := d.since + batch) else d
  }

  ghost function StillOwed(w: World, debts: set<Debt>): set<Debt> {
    set d | d in debts && !Settled(w, d)
  }

  function AllHeard(debts: set<Debt>, id: nat, batch: seq<Event>): set<Debt> {
    set d | d in debts :: Heard(d, id, batch)
  }

  predicate Busy(w: Worker) {
    w.Computing? && |w.done| < |w.items| && w.items[|w.done|].WellFormed() && w.items[|w.done|].kind != Delete
  }

  /** The running transformation waits for the answer of this query. */
  predicate Asking(t: Transformation, w: Worker) {
    Busy(w) && NextAction(t, w).Ask?
  }

  ghost predicate Enabled(t: Transformation, s: System, a: Step) {
    match a
    case ParentMoves(next) =>
      Keyed(next)
    case ParentPublishes(batch) =>
      AllWellFormed(batch)
    case WorldMoves(id, next) =>
      Keyed(next)
    case WorldPublishes(id, batch) =>
      AllWellFormed(batch)
    case Spurious(item) =>
      AllWellFormed(item.events)
    case Take(n, order) =>
      && s.worker.Idle? && n < |s.pending|
      && (s.pending[n].Secondary? ==>
            (set k | k in order) ==
            Dependencies.Affected(Recorded(s.store.last), s.pending[n].source, s.pending[n].events))
    case ReadParent =>
      && s.worker.Reading? && s.worker.todo != []
      && var r := s.worker.todo[0];
         && (r.Refresh? ==> r.event.WellFormed())
         && (r.LookUp? ==> (Mapped(s.store.coll, r.key) != {} ==> r.key in s.store.coll.inputs))
    case StartComputing =>
      s.worker.Reading? && s.worker.todo == []
    case SkipDeletion =>
      s.worker.Computing? && |s.worker.done| < |s.worker.items| && s.worker.items[|s.worker.done|].kind == Delete
    case Subscribe =>
      Asking(t, s.worker) && NextAction(t, s.worker).query.dep.id !in s.subscribed
    case Look(k) =>
      && Asking(t, s.worker) && NextAction(t, s.worker).query.dep.id in s.subscribed
      && var keys := NextAction(t, s.worker).query.dep.filter.keys;
         keys.Some? && k in keys.value && k !in s.worker.part
    case List =>
      && Asking(t, s.worker) && NextAction(t, s.worker).query.dep.id in s.subscribed
      && var keys := NextAction(t, s.worker).query.dep.filter.keys;
         keys.Some? ==> s.worker.part.Keys == keys.value
    case FinishRun =>
      Busy(s.worker) && NextAction(t, s.worker).Finish?
    case Commit(events) =>
      && s.worker.Computing? && |s.worker.done| == |s.worker.items| && EventsWellFormed(s.worker.items)
      && PublishedAll(s.store.coll, ToWorks(s.worker.items, s.worker.done), events)
  }

  function Without<T>(q: seq<T>, n: nat): seq<T>
    requires n < |q|
  {
    q[..n] + q[n + 1..]
  }

  ghost function After(t: Transformation, s: System, a: Step): System
    requires Enabled(t, s, a)
  {
    match a
    case ParentMoves(next) =>
      s.(parent := next, unnamed := s.unnamed + ChangedKeys(s.parent, next))
    case ParentPublishes(batch) =>
      s.(unnamed := (set k | k in s.unnamed && !Names(batch, k)), pending := s.pending + [Primary(batch)])
    case WorldMoves(id, next) =>
      var w := s.world[id := next];
      s.(world := w, owed := StillOwed(w, s.owed + Debts(id, ContentsOf(s.world, id), next)))
    case WorldPublishes(id, batch) =>
      s.(owed := StillOwed(s.world, AllHeard(s.owed, id, batch)),
         pending := if id in s.subscribed then s.pending + [Secondary(id, batch)] else s.pending)
    case Spurious(item) =>
      s.(pending := s.pending + [item])
    case Take(n, order) =>
      s.(pending := Without(s.pending, n), worker := Reading(Todo(s.pending[n], order), []))
    case ReadParent =>
      s.(worker := Reading(s.worker.todo[1..], s.worker.read + ReadOne(s, s.worker.todo[0])))
    case StartComputing =>
      s.(worker := Computing(s.worker.read, [], [], map[]))
    case SkipDeletion =>
      s.(worker := s.worker.(done := s.worker.done + [None]))
    case Subscribe =>
      s.(subscribed := s.subscribed + {NextAction(t, s.worker).query.dep.id})
    case Look(k) =>
      var q := NextAction(t, s.worker).query;
      s.(worker := s.worker.(part := s.worker.part[k := SeenNow(s.world, q, k)]))
    case List =>
      var q := NextAction(t, s.worker).query;
      s.(worker := s.worker.(log := s.worker.log + [Entry(q, Fetched(s.world, q, s.worker.part))], part := map[]))
    case FinishRun =>
      var f := NextAction(t, s.worker);
      var r := Run(s.worker.items[|s.worker.done|].Latest(), s.worker.log, f.outs, f.discard);
      s.(worker := s.worker.(done := s.worker.done + [Some(r)], log := []))
    case Commit(events) =>
      s.(store := CommitAll(s.store, s.worker.items, s.worker.done), worker := Idle, stream := s.stream + events)
  }

  /** An empty collection subscribed to a parent, with the parent's existing objects on their way to it. */
  ghost predicate Initial(s: System) {
    && Keyed(s.parent) && (forall id | id in s.world :: Keyed(s.world[id]))
    && s.worker.Idle? && s.subscribed == {}
    && s.owed == {} && s.unnamed == {} && s.stream == []
    && s.store == Store(Coll(map[], map[], map[]), map[], map[])
    && (forall n | 0 <= n < |s.pending| :: AllWellFormed(s.pending[n].events))
    && (forall k | k in s.parent :: exists n ::
          0 <= n < |s.pending| && s.pending[n].Primary? && Names(s.pending[n].events, k))
  }

  ghost predicate Reaches(t: Transformation, s: System, steps: seq<Step>, s': System)
    decreases steps
  {
    if steps == [] then s == s'
    else Enabled(t, s, steps[0]) && Reaches(t, After(t, s, steps[0]), steps[1..], s')
  }

  // ----- the invariant -----

  /** A primary batch naming `k` is still on its way, or the parent owes one. */
  ghost predicate PendingKey(s: System, k: Key) {
    k in s.unnamed || exists n :: 0 <= n < |s.pending| && s.pending[n].Primary? && Names(s.pending[n].events, k)
  }

  /** A secondary batch that affects the query is still on its way. */
  ghost predicate PendingQuery(s: System, d: Dependency) {
    exists n :: 0 <= n < |s.pending| && s.pending[n].Secondary?
                && AffectsAny(d, s.pending[n].source, s.pending[n].events)
  }

  ghost predicate Tracked(s: System, q: Query) {
    QueryOk(q) && q.dep.id in s.subscribed
  }

  /** The query saw the key as it was before the change, and nothing published since has affected it. */
  ghost predicate Excuses(d: Debt, q: Query, k: Key, v: Option<Seen>) {
    d.id == q.dep.id && d.key == k && v == SeenAs(q.dep.filter, q.xfm, d.was) && !AffectsAny(q.dep, d.id, d.since)
  }

  /** What was fetched of one key is what the query gives now, or what it gave before a change that is still to be
      announced, or a batch that will invalidate it is on its way. */
  ghost predicate SeenOk(s: System, q: Query, k: Key, v: Option<Seen>) {
    || PendingQuery(s, q.dep) || v == SeenNow(s.world, q, k)
    || exists d :: d in s.owed && Excuses(d, q, k, v)
  }

  ghost predicate EntryOk(s: System, e: Entry) {
    Tracked(s, e.query) && forall k :: SeenOk(s, e.query, k, Get(e.result, k))
  }

  ghost predicate PartOk(s: System, q: Query, part: map<Key, Option<Seen>>) {
    && part.Keys <= (if q.dep.filter.keys.Some? then q.dep.filter.keys.value else {})
    && (part != map[] ==> Tracked(s, q) && forall k | k in part :: SeenOk(s, q, k, part[k]))
  }

  ghost predicate LogOk(s: System, log: seq<Entry>) {
    forall e | e in log :: EntryOk(s, e)
  }

  /** An object read for `k` is what the parent has now, or a batch naming `k` is on its way. */
  ghost predicate InputOk(s: System, k: Key, v: Option<Obj>) {
    v == Get(s.parent, k) || PendingKey(s, k)
  }

  function InputOf(e: Event): Option<Obj>
    requires e.WellFormed()
  {
    if e.kind == Delete then None else Some(e.Latest())
  }

  ghost predicate ItemOk(s: System, e: Event) {
    e.WellFormed() && InputOk(s, e.Key(), InputOf(e))
  }

  /** The worker has taken a primary event for `k`, or has read the parent for `k`. */
  ghost predicate Claimed(w: Worker, k: Key) {
    match w
    case Idle => false
    case Reading(todo, read) =>
      || (exists r | r in todo :: r.Refresh? && r.event.WellFormed() && r.event.Key() == k)
      || Names(read, k)
    case Computing(items, _, _, _) => Names(items, k)
  }

  /** The worker is going to look `k` up because a secondary event selected it. */
  ghost predicate Awaited(w: Worker, k: Key) {
    w.Reading? && LookUp(k) in w.todo
  }

  function LastInput(s: System, k: Key): Option<Obj> {
    if k in s.store.last then Some(s.store.last[k].input) else None
  }

  /** The input side: what `k` was last computed from is what the parent has, or is about to be redone. */
  ghost predicate InputSettled(s: System, k: Key) {
    PendingKey(s, k) || Claimed(s.worker, k) || LastInput(s, k) == Get(s.parent, k)
  }

  /** The dependency side: everything `k` last fetched is as it was, or `k` is about to be redone. */
  ghost predicate QueriesSettled(s: System, k: Key)
    requires k in s.store.last
  {
    PendingKey(s, k) || Claimed(s.worker, k) || Awaited(s.worker, k) || LogOk(s, s.store.last[k].log)
  }

  ghost predicate RunOk(t: Transformation, s: System, e: Event, r: Option<Run>) {
    JobOk(t, e, r) && (r.Some? ==> LogOk(s, r.value.log))
  }

  ghost predicate WorkerOk(t: Transformation, s: System) {
    match s.worker
    case Idle => true
    case Reading(todo, read) =>
      && (forall r | r in todo :: (r.Refresh? ==> r.event.WellFormed()) && (r.LookUp? ==> r.key in s.store.last))
      && (forall e | e in read :: ItemOk(s, e))
    case Computing(items, done, log, part) =>
      && (forall e | e in items :: ItemOk(s, e))
      && |done| <= |items|
      && (forall n | 0 <= n < |done| :: RunOk(t, s, items[n], done[n]))
      && LogOk(s, log)
      && (if Busy(s.worker) then Follows(t, items[|done|].Latest(), log) else log == [])
      && (if Asking(t, s.worker) then PartOk(s, NextAction(t, s.worker).query, part) else part == map[])
  }

  ghost predicate EnvironmentOk(s: System) {
    && Keyed(s.parent)
    && (forall id | id in s.world :: Keyed(s.world[id]))
    && (forall n | 0 <= n < |s.pending| :: AllWellFormed(s.pending[n].events))
  }

  ghost predicate Inv(t: Transformation, owner: Owner, s: System) {
    && EnvironmentOk(s)
    && StoreOk(t, owner, s.store)
    && WorkerOk(t, s)
    && (forall k :: InputSettled(s, k))
    && (forall k | k in s.store.last :: QueriesSettled(s, k))
  }

  lemma InitialInv(t: Transformation, owner: Owner, s: System)
    requires Initial(s)
    ensures Inv(t, owner, s)
  {
    forall k ensures InputSettled(s, k) {
      if k in s.parent { assert PendingKey(s, k); }
    }
  }

  // ----- environment steps -----

  /** `s'` may know more batches on their way, and nothing already pending is lost. */
  ghost predicate MorePending(s: System, s': System) {
    && |s.pending| <= |s'.pending| && s'.pending[..|s.pending|] == s.pending
    && forall k | k in s.unnamed && k !in s'.unnamed :: PendingKey(s', k)
  }

  lemma PendingGrows(s: System, s': System)
    requires MorePending(s, s')
    ensures forall k :: PendingKey(s, k) ==> PendingKey(s', k)
    ensures forall d :: PendingQuery(s, d) ==> PendingQuery(s', d)
  {
    assert forall n | 0 <= n < |s.pending| :: s'.pending[n] == s.pending[n];
  }

  /** Everything the invariant says survives a change that keeps the items and the fetched keys good. */
  lemma SettledSurvives(t: Transformation, owner: Owner, s: System, s': System)
    requires Inv(t, owner, s)
    requires s'.worker == s.worker && s'.store == s.store && s'.subscribed == s.subscribed && EnvironmentOk(s')
    requires forall k :: PendingKey(s, k) ==> PendingKey(s', k)
    requires forall k, v :: InputOk(s, k, v) ==> InputOk(s', k, v)
    requires forall q, k, v :: Tracked(s, q) && SeenOk(s, q, k, v) ==> SeenOk(s', q, k, v)
    ensures Inv(t, owner, s')
  {
    forall k ensures InputSettled(s', k) {
      assert InputSettled(s, k);
      if LastInput(s, k) == Get(s.parent, k) {
        assert InputOk(s, k, LastInput(s, k));
        assert InputOk(s', k, LastInput(s, k));
      }
    }
    EntriesSurvive(s, s');
    forall k | k in s'.store.last ensures QueriesSettled(s', k) {
      assert QueriesSettled(s, k);
    }
    WorkerSurvives(t, s, s');
  }

  lemma EntriesSurvive(s: System, s': System)
    requires s.subscribed <= s'.subscribed
    requires forall q, k, v :: Tracked(s, q) && SeenOk(s, q, k, v) ==> SeenOk(s', q, k, v)
    ensures forall e :: EntryOk(s, e) ==> EntryOk(s', e)
    ensures forall log :: LogOk(s, log) ==> LogOk(s', log)
    ensures forall q, part :: PartOk(s, q, part) ==> PartOk(s', q, part)
  {
    forall e | EntryOk(s, e) ensures EntryOk(s', e) {
      forall k ensures SeenOk(s', e.query, k, Get(e.result, k)) {
        assert SeenOk(s, e.query, k, Get(e.result, k));
      }
    }
    forall q, part | PartOk(s, q, part) ensures PartOk(s', q, part) {
      forall k | k in part ensures SeenOk(s', q, k, part[k]) { assert SeenOk(s, q, k, part[k]); }
    }
  }

  lemma WorkerSurvives(t: Transformation, s: System, s': System)
    requires WorkerOk(t, s) && s'.worker == s.worker && s'.store == s.store
    requires forall k, v :: InputOk(s, k, v) ==> InputOk(s', k, v)
    requires forall log :: LogOk(s, log) ==> LogOk(s', log)
    requires forall q, part :: PartOk(s, q, part) ==> PartOk(s', q, part)
    ensures WorkerOk(t, s')
  {
    assert forall e :: ItemOk(s, e) ==> ItemOk(s', e);
    if s.worker.Computing? {
      var w := s.worker;
      forall m | 0 <= m < |w.done| ensures RunOk(t, s', w.items[m], w.done[m]) {
        assert RunOk(t, s, w.items[m], w.done[m]);
      }
    }
  }

  lemma ParentMovesStep(t: Transformation, owner: Owner, s: System, a: Step)
    requires Inv(t, owner, s) && a.ParentMoves? && Enabled(t, s, a)
    ensures Inv(t, owner, After(t, s, a))
  {
    var s' := After(t, s, a);
    PendingGrows(s, s');
    forall k, v | InputOk(s, k, v) ensures InputOk(s', k, v) {
      if Get(s.parent, k) != Get(s'.parent, k) {
        assert k in ChangedKeys(s.parent, a.next);
        assert PendingKey(s', k);
      }
    }
    SettledSurvives(t, owner, s, s');
  }

  lemma ParentPublishesStep(t: Transformation, owner: Owner, s: System, a: Step)
    requires Inv(t, owner, s) && a.ParentPublishes? && Enabled(t, s, a)
    ensures Inv(t, owner, After(t, s, a))
  {
    var s', n := After(t, s, a), |s.pending|;
    forall k | k in s.unnamed && k !in s'.unnamed ensures PendingKey(s', k) {
      assert s'.pending[n] == Primary(a.batch) && Names(a.batch, k);
    }
    PendingGrows(s, s');
    SettledSurvives(t, owner, s, s');
  }

  /** A debt that is settled no longer needs to excuse anything. */
  lemma SettledIsSeen(w: World, d: Debt, q: Query, k: Key, v: Option<Seen>)
    requires QueryOk(q) && Excuses(d, q, k, v) && Settled(w, d)
    ensures v == SeenNow(w, q, k)
  {
    UnaffectedLink(q.dep, q.xfm, d.since, k, d.was, Get(ContentsOf(w, d.id), k));
  }

  /** A change of a fetched collection leaves what was fetched right, or to be announced. */
  lemma MovedKey(t: Transformation, s: System, a: Step, q: Query, k: Key, v: Option<Seen>)
    requires a.WorldMoves? && Enabled(t, s, a) && QueryOk(q) && SeenOk(s, q, k, v)
    ensures SeenOk(After(t, s, a), q, k, v)
  {
    var s', was := After(t, s, a), Get(ContentsOf(s.world, q.dep.id), k);
    PendingGrows(s, s');
    if v != SeenNow(s'.world, q, k) && !PendingQuery(s, q.dep) {
      var d :| Excuses(d, q, k, v) && d in s.owed + Debts(a.id, ContentsOf(s.world, a.id), a.next) by {
        if v == SeenNow(s.world, q, k) {
          assert k in ChangedKeys(ContentsOf(s.world, a.id), a.next);
          assert Excuses(Debt(q.dep.id, k, was, []), q, k, v);
        }
      }
      if Settled(s'.world, d) { SettledIsSeen(s'.world, d, q, k, v); }
      assert d in s'.owed;
    }
  }

  lemma WorldMovesStep(t: Transformation, owner: Owner, s: System, a: Step)
    requires Inv(t, owner, s) && a.WorldMoves? && Enabled(t, s, a)
    ensures Inv(t, owner, After(t, s, a))
  {
    var s' := After(t, s, a);
    PendingGrows(s, s');
    forall q, k, v | Tracked(s, q) && SeenOk(s, q, k, v) ensures SeenOk(s', q, k, v) {
      MovedKey(t, s, a, q, k, v);
    }
    SettledSurvives(t, owner, s, s');
  }

  lemma AffectsNeither(q: Query, id: nat, a: seq<Event>, b: seq<Event>)
    requires !AffectsAny(q.dep, id, a) && !AffectsAny(q.dep, id, b)
    ensures !AffectsAny(q.dep, id, a + b)
  {
    forall n | 0 <= n < |a + b| ensures !Affects(q.dep, id, (a + b)[n]) {
      assert (a + b)[n] == if n < |a| then a[n] else b[n - |a|];
    }
  }

  /** A published batch either affects a query, and then it is on its way, or shows together with those before it that
      what was fetched before the changes they announce is what the query gives now, or leaves that to a later one. */
  lemma PublishedKey(t: Transformation, s: System, a: Step, q: Query, k: Key, v: Option<Seen>)
    requires a.WorldPublishes? && Enabled(t, s, a) && Tracked(s, q) && SeenOk(s, q, k, v)
    ensures SeenOk(After(t, s, a), q, k, v)
  {
    var s' := After(t, s, a);
    PendingGrows(s, s');
    if v != SeenNow(s.world, q, k) && !PendingQuery(s', q.dep) {
      var d :| d in s.owed && Excuses(d, q, k, v);
      var d' := Heard(d, a.id, a.batch);
      if d.id == a.id {
        assert s'.pending[|s.pending|] == Secondary(a.id, a.batch);
        assert !AffectsAny(q.dep, a.id, a.batch);
        AffectsNeither(q, a.id, d.since, a.batch);
      }
      assert Excuses(d', q, k, v);
      if Settled(s.world, d') { SettledIsSeen(s.world, d', q, k, v); }
      assert d' in s'.owed;
    }
  }

  lemma WorldPublishesStep(t: Transformation, owner: Owner, s: System, a: Step)
    requires Inv(t, owner, s) && a.WorldPublishes? && Enabled(t, s, a)
    ensures Inv(t, owner, After(t, s, a))
  {
    var s' := After(t, s, a);
    PendingGrows(s, s');
    forall q, k, v | Tracked(s, q) && SeenOk(s, q, k, v) ensures SeenOk(s', q, k, v) {
      PublishedKey(t, s, a, q, k, v);
    }
    SettledSurvives(t, owner, s, s');
  }

  lemma SpuriousStep(t: Transformation, owner: Owner, s: System, a: Step)
    requires Inv(t, owner, s) && a.Spurious? && Enabled(t, s, a)
    ensures Inv(t, owner, After(t, s, a))
  {
    PendingGrows(s, After(t, s, a));
    SettledSurvives(t, owner, s, After(t, s, a));
  }

  // ----- worker steps -----

  lemma PendingWithout(s: System, n: nat, s': System)
    requires n < |s.pending| && s'.pending == Without(s.pending, n) && s'.unnamed == s.unnamed
    ensures forall k :: PendingKey(s, k) ==>
              PendingKey(s', k) || (s.pending[n].Primary? && Names(s.pending[n].events, k))
    ensures forall d :: PendingQuery(s, d) ==>
              || PendingQuery(s', d)
              || (s.pending[n].Secondary? && AffectsAny(d, s.pending[n].source, s.pending[n].events))
  {
    assert forall m | 0 <= m < n :: s'.pending[m] == s.pending[m];
    assert forall m | n < m < |s.pending| :: s'.pending[m - 1] == s.pending[m];
  }

  /** Taking a primary batch turns every key it names into work for the worker. */
  lemma TakeClaims(item: Item, order: seq<Key>, k: Key)
    requires item.Primary? && Names(item.events, k)
    ensures Claimed(Reading(Todo(item, order), []), k)
  {
    var e :| e in item.events && e.WellFormed() && e.Key() == k;
    var m :| 0 <= m < |item.events| && item.events[m] == e;
    assert Todo(item, order)[m] == Refresh(e);
  }

  /** Taking a secondary batch selects every input with a query that it affects. */
  lemma TakeAwaits(t: Transformation, s: System, a: Step, k: Key, e: Entry)
    requires a.Take? && Enabled(t, s, a) && s.pending[a.n].Secondary?
    requires k in s.store.last && e in s.store.last[k].log
    requires AffectsAny(e.query.dep, s.pending[a.n].source, s.pending[a.n].events)
    ensures LookUp(k) in Todo(s.pending[a.n], a.order)
  {
    var item := s.pending[a.n];
    var deps := Recorded(s.store.last)[k];
    var m :| 0 <= m < |item.events| && Affects(e.query.dep, item.source, item.events[m]);
    var j :| 0 <= j < |s.store.last[k].log| && s.store.last[k].log[j] == e;
    assert Affects(deps[j], item.source, item.events[m]);
    assert Dependencies.DepsAffected(deps, item.source, item.events[m]);
    assert k in Dependencies.Affected(Recorded(s.store.last), item.source, item.events);
    assert k in set x | x in a.order;
    var i :| 0 <= i < |a.order| && a.order[i] == k;
    assert Todo(item, a.order)[i] == LookUp(k);
  }

  /** An answer that the batch taken does not affect is as good as it was. */
  lemma TakeEntry(s: System, n: nat, s': System, e: Entry)
    requires n < |s.pending| && s'.pending == Without(s.pending, n) && s'.unnamed == s.unnamed && s'.owed == s.owed
    requires s'.world == s.world && s'.subscribed == s.subscribed && EntryOk(s, e)
    requires s.pending[n].Secondary? ==> !AffectsAny(e.query.dep, s.pending[n].source, s.pending[n].events)
    ensures EntryOk(s', e)
  {
    PendingWithout(s, n, s');
    forall k ensures SeenOk(s', e.query, k, Get(e.result, k)) { assert SeenOk(s, e.query, k, Get(e.result, k)); }
  }

  /** After taking a batch, all answers of an input are still good, or the input has been selected. */
  lemma TakeLog(t: Transformation, s: System, a: Step, k: Key)
    requires a.Take? && Enabled(t, s, a) && k in s.store.last && LogOk(s, s.store.last[k].log)
    ensures Awaited(After(t, s, a).worker, k) || LogOk(After(t, s, a), s.store.last[k].log)
  {
    var s', item := After(t, s, a), s.pending[a.n];
    forall e | e in s.store.last[k].log ensures Awaited(s'.worker, k) || EntryOk(s', e) {
      if item.Secondary? && AffectsAny(e.query.dep, item.source, item.events) {
        TakeAwaits(t, s, a, k, e);
      } else {
        TakeEntry(s, a.n, s', e);
      }
    }
  }

  lemma TakeQueries(t: Transformation, owner: Owner, s: System, a: Step, k: Key)
    requires Inv(t, owner, s) && a.Take? && Enabled(t, s, a) && k in s.store.last
    ensures QueriesSettled(After(t, s, a), k)
  {
    var s' := After(t, s, a);
    assert QueriesSettled(s, k);
    if PendingKey(s, k) {
      PendingWithout(s, a.n, s');
      if !PendingKey(s', k) { TakeClaims(s.pending[a.n], a.order, k); }
    } else {
      TakeLog(t, s, a, k);
    }
  }

  lemma TodoWellFormed(t: Transformation, s: System, a: Step, r: Read)
    requires EnvironmentOk(s) && a.Take? && Enabled(t, s, a) && r in Todo(s.pending[a.n], a.order)
    ensures r.Refresh? ==> r.event.WellFormed()
    ensures r.LookUp? ==> r.key in s.store.last
  {
    var item := s.pending[a.n];
    var m :| 0 <= m < |Todo(item, a.order)| && Todo(item, a.order)[m] == r;
    if item.Primary? {
      assert r == Refresh(item.events[m]);
    } else {
      assert r == LookUp(a.order[m]);
      assert a.order[m] in (set k | k in a.order);
      assert a.order[m] in Dependencies.Affected(Recorded(s.store.last), item.source, item.events);
    }
  }

  lemma TakeStep(t: Transformation, owner: Owner, s: System, a: Step)
    requires Inv(t, owner, s) && a.Take? && Enabled(t, s, a)
    ensures Inv(t, owner, After(t, s, a))
  {
    var s' := After(t, s, a);
    PendingWithout(s, a.n, s');
    forall k ensures InputSettled(s', k) {
      assert InputSettled(s, k);
      if PendingKey(s, k) && !PendingKey(s', k) { TakeClaims(s.pending[a.n], a.order, k); }
    }
    forall k | k in s'.store.last ensures QueriesSettled(s', k) { TakeQueries(t, owner, s, a, k); }
    forall r | r in s'.worker.todo
      ensures (r.Refresh? ==> r.event.WellFormed()) && (r.LookUp? ==> r.key in s'.store.last)
    {
      TodoWellFormed(t, s, a, r);
    }
    assert EnvironmentOk(s') by {
      forall n | 0 <= n < |s'.pending| ensures AllWellFormed(s'.pending[n].events) {
        assert s'.pending[n] == s.pending[if n < a.n then n else n + 1];
      }
    }
  }

  lemma RefreshedReads(parent: Contents, e: Event)
    requires Keyed(parent) && e.WellFormed()
    ensures var r := Refreshed(parent, e);
            r.WellFormed() && r.Key() == e.Key() && InputOf(r) == Get(parent, e.Key())
  {
  }

  lemma SelectionReads(parent: Contents, c: Coll, k: Key, e: Event)
    requires Keyed(parent) && Keyed(c.inputs) && (Mapped(c, k) != {} ==> k in c.inputs)
    requires e in Selection(parent, c, k)
    ensures e.WellFormed() && e.Key() == k && InputOf(e) == Get(parent, k)
  {
    if k !in parent { assert e == Event(Some(c.inputs[k]), None, Delete); }
  }

  /** What the worker reads is what the parent has at that moment. */
  lemma ReadItems(t: Transformation, owner: Owner, s: System, e: Event)
    requires Inv(t, owner, s) && Enabled(t, s, ReadParent) && e in ReadOne(s, s.worker.todo[0])
    ensures e.WellFormed() && InputOf(e) == Get(s.parent, e.Key())
    ensures s.worker.todo[0].Refresh? ==> e.Key() == s.worker.todo[0].event.Key()
    ensures s.worker.todo[0].LookUp? ==> e.Key() == s.worker.todo[0].key
  {
    match s.worker.todo[0]
    case Refresh(ev) => RefreshedReads(s.parent, ev);
    case LookUp(k) => SelectionReads(s.parent, s.store.coll, k, e);
  }

  /** A selected input that the parent has lost and that has no outputs needs no work of its own: the
      parent's deletion is still on its way, or already taken. */
  lemma DroppedSelection(t: Transformation, owner: Owner, s: System, k: Key)
    requires Inv(t, owner, s) && k in s.store.last && k !in s.parent
    ensures PendingKey(s, k) || Claimed(s.worker, k)
  {
    assert InputSettled(s, k);
  }

  /** Making the first read loses no claim but that of the read itself. */
  lemma ClaimMoves(todo: seq<Read>, read: seq<Event>, es: seq<Event>, k: Key)
    requires todo != [] && Claimed(Reading(todo, read), k)
    ensures || Claimed(Reading(todo[1..], read + es), k)
            || (todo[0].Refresh? && todo[0].event.WellFormed() && todo[0].event.Key() == k)
  {
    if Names(read, k) {
      var e :| e in read && e.WellFormed() && e.Key() == k;
      assert e in read + es;
    } else {
      var r :| r in todo && r.Refresh? && r.event.WellFormed() && r.event.Key() == k;
      assert todo == [todo[0]] + todo[1..];
      if r != todo[0] { assert r in todo[1..]; }
    }
  }

  lemma NamesAppended(read: seq<Event>, es: seq<Event>, e: Event)
    requires e in es && e.WellFormed()
    ensures Names(read + es, e.Key())
  {
    assert e in read + es;
  }

  lemma ReadKeepsClaims(t: Transformation, owner: Owner, s: System, k: Key)
    requires Inv(t, owner, s) && Enabled(t, s, ReadParent) && Claimed(s.worker, k)
    ensures Claimed(After(t, s, ReadParent).worker, k)
  {
    var w, r := s.worker, s.worker.todo[0];
    var es := ReadOne(s, r);
    ClaimMoves(w.todo, w.read, es, k);
    if r.Refresh? && r.event.Key() == k {
      ReadItems(t, owner, s, es[0]);
      NamesAppended(w.read, es, es[0]);
    }
  }

  lemma ReadLookUp(t: Transformation, owner: Owner, s: System, k: Key)
    requires Inv(t, owner, s) && Enabled(t, s, ReadParent) && s.worker.todo[0] == LookUp(k)
    ensures Claimed(After(t, s, ReadParent).worker, k) || PendingKey(s, k)
  {
    var es := ReadOne(s, LookUp(k));
    if es == [] {
      DroppedSelection(t, owner, s, k);
      if Claimed(s.worker, k) { ReadKeepsClaims(t, owner, s, k); }
    } else {
      ReadItems(t, owner, s, es[0]);
      NamesAppended(s.worker.read, es, es[0]);
    }
  }

  lemma AwaitMoves(todo: seq<Read>, k: Key)
    requires todo != [] && LookUp(k) in todo
    ensures LookUp(k) in todo[1..] || todo[0] == LookUp(k)
  {
    assert todo == [todo[0]] + todo[1..];
  }

  lemma SameKey(s: System, s': System, k: Key, log: seq<Entry>)
    requires s'.parent == s.parent && s'.world == s.world && s'.pending == s.pending
    requires s.subscribed <= s'.subscribed && s'.unnamed == s.unnamed && s'.owed == s.owed
    ensures PendingKey(s, k) ==> PendingKey(s', k)
    ensures LogOk(s, log) ==> LogOk(s', log)
  {
    SameEnvironment(s, s');
  }

  lemma ReadQueries(t: Transformation, owner: Owner, s: System, k: Key)
    requires Inv(t, owner, s) && Enabled(t, s, ReadParent) && k in s.store.last
    ensures QueriesSettled(After(t, s, ReadParent), k)
  {
    SameKey(s, After(t, s, ReadParent), k, s.store.last[k].log);
    assert QueriesSettled(s, k);
    if Claimed(s.worker, k) {
      ReadKeepsClaims(t, owner, s, k);
    } else if Awaited(s.worker, k) {
      AwaitMoves(s.worker.todo, k);
      if s.worker.todo[0] == LookUp(k) { ReadLookUp(t, owner, s, k); }
    }
  }

  lemma ReadInput(t: Transformation, owner: Owner, s: System, k: Key)
    requires Inv(t, owner, s) && Enabled(t, s, ReadParent)
    ensures InputSettled(After(t, s, ReadParent), k)
  {
    SameKey(s, After(t, s, ReadParent), k, []);
    assert InputSettled(s, k);
    if Claimed(s.worker, k) { ReadKeepsClaims(t, owner, s, k); }
  }

  lemma ReadStep(t: Transformation, owner: Owner, s: System)
    requires Inv(t, owner, s) && Enabled(t, s, ReadParent)
    ensures Inv(t, owner, After(t, s, ReadParent))
  {
    var s' := After(t, s, ReadParent);
    forall k ensures InputSettled(s', k) { ReadInput(t, owner, s, k); }
    forall k | k in s'.store.last ensures QueriesSettled(s', k) { ReadQueries(t, owner, s, k); }
    forall e | e in s'.worker.read ensures ItemOk(s', e) {
      SameEnvironment(s, s');
      if e in s.worker.read { assert ItemOk(s, e); } else { ReadItems(t, owner, s, e); }
    }
  }

  /** Steps of the worker between its reads and its commit do not touch what is stored or pending. */
  lemma ComputingKeepsSettled(t: Transformation, owner: Owner, s: System, s': System)
    requires Inv(t, owner, s)
    requires s'.parent == s.parent && s'.world == s.world && s'.pending == s.pending && s'.store == s.store
    requires s.subscribed <= s'.subscribed && s'.unnamed == s.unnamed && s'.owed == s.owed
    requires forall k :: Claimed(s.worker, k) ==> Claimed(s'.worker, k)
    requires forall k :: !Awaited(s.worker, k)
    requires WorkerOk(t, s')
    ensures Inv(t, owner, s')
  {
    SameEnvironment(s, s');
    forall k ensures InputSettled(s', k) { assert InputSettled(s, k); }
    forall k | k in s'.store.last ensures QueriesSettled(s', k) { assert QueriesSettled(s, k); }
  }

  lemma SameEnvironment(s: System, s': System)
    requires s'.parent == s.parent && s'.world == s.world && s'.pending == s.pending
    requires s.subscribed <= s'.subscribed
    requires s'.unnamed == s.unnamed && s'.owed == s.owed
    ensures forall k :: PendingKey(s, k) ==> PendingKey(s', k)
    ensures forall e :: ItemOk(s, e) ==> ItemOk(s', e)
    ensures forall q, k, v :: SeenOk(s, q, k, v) ==> SeenOk(s', q, k, v)
    ensures forall e :: EntryOk(s, e) ==> EntryOk(s', e)
    ensures forall log :: LogOk(s, log) ==> LogOk(s', log)
    ensures forall q, part :: PartOk(s, q, part) ==> PartOk(s', q, part)
  {
    assert forall k :: PendingKey(s, k) ==> PendingKey(s', k);
    assert forall d :: PendingQuery(s, d) ==> PendingQuery(s', d);
    assert forall q, k, v :: SeenOk(s, q, k, v) ==> SeenOk(s', q, k, v);
    EntriesSurvive(s, s');
  }

  lemma StartStep(t: Transformation, owner: Owner, s: System)
    requires Inv(t, owner, s) && Enabled(t, s, StartComputing)
    ensures Inv(t, owner, After(t, s, StartComputing))
  {
    var s' := After(t, s, StartComputing);
    SameEnvironment(s, s');
    ComputingKeepsSettled(t, owner, s, s');
  }

  lemma SkipStep(t: Transformation, owner: Owner, s: System)
    requires Inv(t, owner, s) && Enabled(t, s, SkipDeletion)
    ensures Inv(t, owner, After(t, s, SkipDeletion))
  {
    var s' := After(t, s, SkipDeletion);
    SameEnvironment(s, s');
    var n := |s.worker.done|;
    assert ItemOk(s, s.worker.items[n]);
    assert RunOk(t, s', s'.worker.items[n], s'.worker.done[n]);
    forall m | 0 <= m < n ensures RunOk(t, s', s'.worker.items[m], s'.worker.done[m]) {
      assert RunOk(t, s, s.worker.items[m], s.worker.done[m]);
    }
    ComputingKeepsSettled(t, owner, s, s');
  }

  lemma SubscribeStep(t: Transformation, owner: Owner, s: System)
    requires Inv(t, owner, s) && Enabled(t, s, Subscribe)
    ensures Inv(t, owner, After(t, s, Subscribe))
  {
    var s' := After(t, s, Subscribe);
    SameEnvironment(s, s');
    forall m | 0 <= m < |s.worker.done| ensures RunOk(t, s', s'.worker.items[m], s'.worker.done[m]) {
      assert RunOk(t, s, s.worker.items[m], s.worker.done[m]);
    }
    ComputingKeepsSettled(t, owner, s, s');
  }

  lemma FollowsSnoc(t: Transformation, input: Obj, log: seq<Entry>, e: Entry)
    requires Follows(t, input, log) && t(input, Results(log)) == Ask(e.query)
    ensures Follows(t, input, log + [e])
  {
    var log' := log + [e];
    forall n | 0 <= n < |log'| ensures t(input, Results(log'[..n])) == Ask(log'[n].query) {
      assert log'[..n] == if n < |log| then log[..n] else log;
    }
  }

  lemma LookStep(t: Transformation, owner: Owner, s: System, k: Key)
    requires TransformationOk(t, owner) && Inv(t, owner, s) && Enabled(t, s, Look(k))
    ensures Inv(t, owner, After(t, s, Look(k)))
  {
    var s', w := After(t, s, Look(k)), s.worker;
    SameEnvironment(s, s');
    var q := NextAction(t, w).query;
    assert NextAction(t, s'.worker) == NextAction(t, w);
    assert Tracked(s', q);
    forall j | j in s'.worker.part ensures SeenOk(s', q, j, s'.worker.part[j]) {
      if j != k { assert SeenOk(s, q, j, w.part[j]); }
    }
    forall m | 0 <= m < |w.done| ensures RunOk(t, s', s'.worker.items[m], s'.worker.done[m]) {
      assert RunOk(t, s, w.items[m], w.done[m]);
    }
    ComputingKeepsSettled(t, owner, s, s');
  }

  /** The answer of a fetch is good key by key, also when the keys were read at different moments. */
  lemma FetchedOk(s: System, q: Query, part: map<Key, Option<Seen>>)
    requires Tracked(s, q) && PartOk(s, q, part) && (forall id | id in s.world :: Keyed(s.world[id]))
    requires q.dep.filter.keys.Some? ==> part.Keys == q.dep.filter.keys.value
    ensures EntryOk(s, Entry(q, Fetched(s.world, q, part)))
  {
    var r := Fetched(s.world, q, part);
    forall k ensures SeenOk(s, q, k, Get(r, k)) {
      if q.dep.filter.keys.Some? {
        if k in part { assert SeenOk(s, q, k, part[k]); }
      } else {
        ViewByKey(ContentsOf(s.world, q.dep.id), q.dep.filter, q.xfm, k);
      }
    }
  }

  lemma ListStep(t: Transformation, owner: Owner, s: System)
    requires TransformationOk(t, owner) && Inv(t, owner, s) && Enabled(t, s, List)
    ensures Inv(t, owner, After(t, s, List))
  {
    var s', w := After(t, s, List), s.worker;
    SameEnvironment(s, s');
    var q := NextAction(t, w).query;
    var e := Entry(q, Fetched(s.world, q, w.part));
    FetchedOk(s, q, w.part);
    assert LogOk(s', s'.worker.log);
    FollowsSnoc(t, w.items[|w.done|].Latest(), w.log, e);
    forall m | 0 <= m < |w.done| ensures RunOk(t, s', s'.worker.items[m], s'.worker.done[m]) {
      assert RunOk(t, s, w.items[m], w.done[m]);
    }
    ComputingKeepsSettled(t, owner, s, s');
  }

  lemma FinishStep(t: Transformation, owner: Owner, s: System)
    requires Inv(t, owner, s) && Enabled(t, s, FinishRun)
    ensures Inv(t, owner, After(t, s, FinishRun))
  {
    var s', w := After(t, s, FinishRun), s.worker;
    SameEnvironment(s, s');
    var n := |w.done|;
    assert RunOk(t, s', s'.worker.items[n], s'.worker.done[n]);
    forall m | 0 <= m < n ensures RunOk(t, s', s'.worker.items[m], s'.worker.done[m]) {
      assert RunOk(t, s, w.items[m], w.done[m]);
    }
    ComputingKeepsSettled(t, owner, s, s');
  }

  lemma CommitJobs(t: Transformation, owner: Owner, s: System, a: Step)
    requires Inv(t, owner, s) && Enabled(t, s, a) && a.Commit?
    ensures JobsOk(t, s.worker.items, s.worker.done)
  {
    forall n | 0 <= n < |s.worker.items| ensures JobOk(t, s.worker.items[n], s.worker.done[n]) {
      assert RunOk(t, s, s.worker.items[n], s.worker.done[n]);
    }
  }

  lemma CommitKey(t: Transformation, owner: Owner, s: System, a: Step, k: Key)
    requires Inv(t, owner, s) && Enabled(t, s, a) && a.Commit?
    ensures InputSettled(After(t, s, a), k)
    ensures k in After(t, s, a).store.last ==> QueriesSettled(After(t, s, a), k)
  {
    var s', w := After(t, s, a), s.worker;
    SameEnvironment(s, s');
    CommitJobs(t, owner, s, a);
    var n := CommitAllLast(t, s.store, w.items, w.done, k);
    if n >= 0 {
      assert w.items[n] in w.items && ItemOk(s, w.items[n]);
      assert RunOk(t, s, w.items[n], w.done[n]);
    } else {
      assert !Claimed(w, k);
      assert InputSettled(s, k);
      if k in s.store.last { assert QueriesSettled(s, k); }
    }
  }

  lemma CommitStep(t: Transformation, owner: Owner, s: System, a: Step)
    requires TransformationOk(t, owner) && Inv(t, owner, s) && Enabled(t, s, a) && a.Commit?
    ensures Inv(t, owner, After(t, s, a))
  {
    var s' := After(t, s, a);
    CommitJobs(t, owner, s, a);
    CommitAllOk(t, owner, s.store, s.worker.items, s.worker.done);
    forall k ensures InputSettled(s', k) && (k in s'.store.last ==> QueriesSettled(s', k)) {
      CommitKey(t, owner, s, a, k);
    }
  }

  // ----- the theorems -----

  lemma StepKeepsInv(t: Transformation, owner: Owner, s: System, a: Step)
    requires TransformationOk(t, owner) && Inv(t, owner, s) && Enabled(t, s, a)
    ensures Inv(t, owner, After(t, s, a))
  {
    match a
    case ParentMoves(_) => ParentMovesStep(t, owner, s, a);
    case ParentPublishes(_) => ParentPublishesStep(t, owner, s, a);
    case WorldMoves(_, _) => WorldMovesStep(t, owner, s, a);
    case WorldPublishes(_, _) => WorldPublishesStep(t, owner, s, a);
    case Spurious(_) => SpuriousStep(t, owner, s, a);
    case Take(_, _) => TakeStep(t, owner, s, a);
    case ReadParent => ReadStep(t, owner, s);
    case StartComputing => StartStep(t, owner, s);
    case SkipDeletion => SkipStep(t, owner, s);
    case Subscribe => SubscribeStep(t, owner, s);
    case Look(k) => LookStep(t, owner, s, k);
    case List => ListStep(t, owner, s);
    case FinishRun => FinishStep(t, owner, s);
    case Commit(_) => CommitStep(t, owner, s, a);
  }

  lemma {:induction false} RunKeepsInv(t: Transformation, owner: Owner, s: System, steps: seq<Step>, s': System)
    requires TransformationOk(t, owner) && Inv(t, owner, s) && Reaches(t, s, steps, s')
    ensures Inv(t, owner, s')
    decreases steps
  {
    if steps != [] {
      StepKeepsInv(t, owner, s, steps[0]);
      RunKeepsInv(t, owner, After(t, s, steps[0]), steps[1..], s');
    }
  }

  /** The stored state of `k` is what recomputing it from scratch, now, would give. */
  ghost predicate Fresh(t: Transformation, s: System, k: Key) {
    && (k in s.store.last <==> k in s.parent)
    && (k in s.parent ==>
          && s.store.last[k].input == s.parent[k]
          && FromScratch(t, s.world, s.store.last[k])
          && (!s.store.last[k].discard ==> OutputsOf(s.store.coll, k) == s.store.last[k].outs))
    && (k !in s.parent ==> k !in s.store.coll.inputs && OutputsOf(s.store.coll, k) == map[])
  }

  /** Something that will recompute `k` is on its way, or in the hands of the worker. */
  ghost predicate Recomputes(s: System, k: Key) {
    || PendingKey(s, k) || Claimed(s.worker, k) || Awaited(s.worker, k)
    || (k in s.store.last && exists e :: e in s.store.last[k].log && Unsettled(s, e))
  }

  ghost predicate Unsettled(s: System, e: Entry) {
    PendingQuery(s, e.query.dep) || exists d :: d in s.owed && Waits(s, e, d)
  }

  /** The entry has a key as it was before a change that the debt says is still to be announced. */
  ghost predicate Waits(s: System, e: Entry, d: Debt) {
    Excuses(d, e.query, d.key, Get(e.result, d.key)) && Get(e.result, d.key) != SeenNow(s.world, e.query, d.key)
  }

  /** With nothing on its way and nothing to wait for, a fetched result is what the query gives now. */
  lemma EntryIsCurrent(s: System, e: Entry)
    requires EntryOk(s, e) && !Unsettled(s, e)
    ensures Current(s.world, e)
  {
    var now := Answer(s.world, e.query);
    forall k ensures Get(e.result, k) == Get(now, k) {
      assert SeenOk(s, e.query, k, Get(e.result, k));
      ViewByKey(ContentsOf(s.world, e.query.dep.id), e.query.dep.filter, e.query.xfm, k);
    }
    assert forall k :: k in e.result <==> Get(e.result, k).Some?;
    assert forall k :: k in now <==> Get(now, k).Some?;
  }

  lemma StoredInputHasRun(t: Transformation, owner: Owner, st: Store, k: Key)
    requires StoreOk(t, owner, st)
    ensures k in st.coll.inputs ==> k in st.last
    ensures k !in st.coll.inputs ==> OutputsOf(st.coll, k) == map[]
  {
    if k in st.coll.inputs { assert OriginOk(t, st, k); }
  }

  /** In every reachable state, every key is fresh or about to be recomputed. */
  lemma FreshOrPending(t: Transformation, owner: Owner, s0: System, steps: seq<Step>, s: System, k: Key)
    requires TransformationOk(t, owner) && Initial(s0) && Reaches(t, s0, steps, s)
    ensures Fresh(t, s, k) || Recomputes(s, k)
  {
    InitialInv(t, owner, s0);
    RunKeepsInv(t, owner, s0, steps, s);
    if !Recomputes(s, k) {
      assert InputSettled(s, k);
      if k in s.store.last {
        assert QueriesSettled(s, k) && StoredOk(t, s.store, k);
        forall e | e in s.store.last[k].log ensures Current(s.world, e) { EntryIsCurrent(s, e); }
        if k in s.store.origin { assert OriginOk(t, s.store, k); }
      } else {
        StoredInputHasRun(t, owner, s.store, k);
      }
    }
  }

  ghost predicate Quiescent(s: System) {
    s.pending == [] && s.worker.Idle? && s.owed == {} && s.unnamed == {}
  }

  lemma QuiescentIsFresh(t: Transformation, owner: Owner, s0: System, steps: seq<Step>, s: System, k: Key)
    requires TransformationOk(t, owner) && Initial(s0) && Reaches(t, s0, steps, s) && Quiescent(s)
    ensures Fresh(t, s, k)
  {
    FreshOrPending(t, owner, s0, steps, s, k);
  }

  /** With nothing on its way, the incremental state is the full recomputation: each input has exactly
      one run from scratch, and unless that run asks to be discarded its results are the stored outputs;
      an absent input has no outputs. */
  lemma QuiescentIsRecomputed(t: Transformation, owner: Owner, s0: System, steps: seq<Step>, s: System, k: Key)
    requires TransformationOk(t, owner) && Initial(s0) && Reaches(t, s0, steps, s) && Quiescent(s)
    ensures k in s.parent ==> exists r: Run :: r.input == s.parent[k] && FromScratch(t, s.world, r)
    ensures k in s.parent ==> forall r: Run | r.input == s.parent[k] && FromScratch(t, s.world, r) && !r.discard ::
              OutputsOf(s.store.coll, k) == r.outs
    ensures k !in s.parent ==> OutputsOf(s.store.coll, k) == map[]
  {
    QuiescentIsFresh(t, owner, s0, steps, s, k);
    if k in s.parent {
      var last := s.store.last[k];
      forall r: Run | r.input == s.parent[k] && FromScratch(t, s.world, r) && !r.discard
        ensures OutputsOf(s.store.coll, k) == r.outs
      {
        ScratchIsUnique(t, s.world, last, r);
      }
    }
  }

  /** `r` is a run from scratch on a present input, and it produces `v` under `o`. */
  ghost predicate Produces(t: Transformation, s: System, r: Run, o: Key, v: Obj) {
    Get(s.parent, r.input.key) == Some(r.input) && FromScratch(t, s.world, r) && Get(r.outs, o) == Some(v)
  }

  ghost predicate NeverDiscards(t: Transformation) {
    forall i, rs :: t(i, rs).Finish? ==> !t(i, rs).discard
  }

  lemma OwnedOutput(c: Coll, owner: Owner, o: Key)
    requires Consistent(c, owner) && o in c.outputs
    ensures owner(o) in c.inputs && Get(OutputsOf(c, owner(o)), o) == Some(c.outputs[o])
  {
  }

  lemma OutputIsProduced(t: Transformation, owner: Owner, s: System, o: Key)
    requires StoreOk(t, owner, s.store) && o in s.store.coll.outputs && NeverDiscards(t)
    requires Fresh(t, s, owner(o))
    ensures exists r :: Produces(t, s, r, o, s.store.coll.outputs[o])
  {
    var k := owner(o);
    OwnedOutput(s.store.coll, owner, o);
    StoredInputHasRun(t, owner, s.store, k);
    var r := s.store.last[k];
    assert StoredOk(t, s.store, k);
    assert Produces(t, s, r, o, s.store.coll.outputs[o]);
  }

  lemma ProducedIsOutput(t: Transformation, s: System, r: Run, o: Key, v: Obj)
    requires Fresh(t, s, r.input.key) && Produces(t, s, r, o, v) && !r.discard
    ensures Get(s.store.coll.outputs, o) == Some(v)
  {
    ScratchIsUnique(t, s.world, s.store.last[r.input.key], r);
    assert Get(OutputsOf(s.store.coll, r.input.key), o) == Some(v);
  }

  lemma ReachedStoreOk(t: Transformation, owner: Owner, s0: System, steps: seq<Step>, s: System)
    requires TransformationOk(t, owner) && Initial(s0) && Reaches(t, s0, steps, s)
    ensures StoreOk(t, owner, s.store)
  {
    InitialInv(t, owner, s0);
    RunKeepsInv(t, owner, s0, steps, s);
  }

  /** For transformations that never discard: at quiescence the outputs are exactly the results of all
      runs from scratch, no more and no fewer. */
  lemma QuiescentOutputs(t: Transformation, owner: Owner, s0: System, steps: seq<Step>, s: System, o: Key, v: Obj)
    requires TransformationOk(t, owner) && Initial(s0) && Reaches(t, s0, steps, s) && Quiescent(s) && NeverDiscards(t)
    ensures Get(s.store.coll.outputs, o) == Some(v) <==> exists r :: Produces(t, s, r, o, v)
  {
    ReachedStoreOk(t, owner, s0, steps, s);
    if Get(s.store.coll.outputs, o) == Some(v) {
      QuiescentIsFresh(t, owner, s0, steps, s, owner(o));
      OutputIsProduced(t, owner, s, o);
    }
    if r :| Produces(t, s, r, o, v) {
      QuiescentIsFresh(t, owner, s0, steps, s, r.input.key);
      ProducedIsOutput(t, s, r, o, v);
    }
  }

  /** Last-known-good state, in every reachable state and with any discards: the outputs stored for an
      input are the results of a run on the stored input object, and the last object computed under that
      key has the same UID (where both have one). If the last run was not discarded, it is that run. */
  lemma LastKnownGood(t: Transformation, owner: Owner, s0: System, steps: seq<Step>, s: System, k: Key)
    requires TransformationOk(t, owner) && Initial(s0) && Reaches(t, s0, steps, s)
    requires k in s.store.coll.inputs
    ensures exists r :: ValidRun(t, r) && r.input == s.store.coll.inputs[k] && r.outs == OutputsOf(s.store.coll, k)
    ensures k in s.store.last
    ensures var stored, latest := s.store.coll.inputs[k], s.store.last[k].input;
            stored.uid.Some? && latest.uid.Some? ==> stored.uid == latest.uid
    ensures !s.store.last[k].discard ==>
              s.store.last[k].input == s.store.coll.inputs[k] && s.store.last[k].outs == OutputsOf(s.store.coll, k)
  {
    InitialInv(t, owner, s0);
    RunKeepsInv(t, owner, s0, steps, s);
    assert OriginOk(t, s.store, k) && StoredOk(t, s.store, k);
  }

  // ----- the worker gets done -----

  predicate WorkerStep(a: Step) {
    !a.ParentMoves? && !a.ParentPublishes? && !a.WorldMoves? && !a.WorldPublishes? && !a.Spurious?
  }

  /** The worker has nothing left to do. */
  ghost predicate Drained(s: System) {
    s.pending == [] && s.worker.Idle?
  }

  lemma CommitResults(t: Transformation, owner: Owner, es: seq<Event>, rs: seq<Option<Run>>)
    requires TransformationOk(t, owner) && JobsOk(t, es, rs)
    ensures WorkWellFormed(ToWorks(es, rs)) && AllResultsOk(ToWorks(es, rs), owner)
  {
    forall n | 0 <= n < |es| ensures ResultsOk(ToWorks(es, rs)[n], owner) {
      assert JobOk(t, es[n], rs[n]);
      ResultsBelong(t, owner, es[n], rs[n]);
    }
  }

  lemma TakeEnabled(t: Transformation, s: System) returns (a: Step)
    requires s.worker.Idle? && s.pending != []
    ensures Enabled(t, s, a) && a.Take?
  {
    var item := s.pending[0];
    var order := [];
    if item.Secondary? {
      var affected := Dependencies.Affected(Recorded(s.store.last), item.source, item.events);
      order := Enumerate(affected);
      assert (set k | k in order) == affected;
    }
    a := Take(0, order);
  }

  lemma CommitEnabled(t: Transformation, owner: Owner, s: System) returns (a: Step)
    requires TransformationOk(t, owner) && Inv(t, owner, s) && s.worker.Computing?
    requires |s.worker.done| == |s.worker.items|
    ensures Enabled(t, s, a) && a.Commit?
  {
    var w := s.worker;
    forall n | 0 <= n < |w.items| ensures JobOk(t, w.items[n], w.done[n]) {
      assert RunOk(t, s, w.items[n], w.done[n]);
    }
    CommitResults(t, owner, w.items, w.done);
    var events := SomeBatch(s.store.coll, ToWorks(w.items, w.done), owner);
    a := Commit(events);
  }

  /** While the worker waits for an answer, it can subscribe, read one more key or list. */
  lemma AskEnabled(t: Transformation, s: System) returns (a: Step)
    requires Asking(t, s.worker)
    requires NextAction(t, s.worker).query.dep.filter.keys.Some? ==>
               s.worker.part.Keys <= NextAction(t, s.worker).query.dep.filter.keys.value
    ensures Enabled(t, s, a) && (a.Subscribe? || a.Look? || a.List?)
  {
    var d := NextAction(t, s.worker).query.dep;
    if d.id !in s.subscribed {
      a := Subscribe;
    } else if d.filter.keys.Some? && s.worker.part.Keys != d.filter.keys.value {
      var k :| k in d.filter.keys.value && k !in s.worker.part;
      a := Look(k);
    } else {
      a := List;
    }
  }

  /** The worker is never stuck: while anything is on its way or in hand, it has a step to make, and no step of it
      leaves everything as it is (`WorkerDescends`). */
  lemma NeverStuck(t: Transformation, owner: Owner, s: System) returns (a: Step)
    requires TransformationOk(t, owner) && Inv(t, owner, s) && !Drained(s)
    ensures Enabled(t, s, a) && WorkerStep(a)
  {
    match s.worker
    case Idle => a := TakeEnabled(t, s);
    case Reading(todo, _) => a := if todo == [] then StartComputing else ReadParent;
    case Computing(items, done, _, _) =>
      if |done| == |items| {
        a := CommitEnabled(t, owner, s);
      } else {
        assert ItemOk(s, items[|done|]);
        if items[|done|].kind == Delete { a := SkipDeletion; }
        else if NextAction(t, s.worker).Finish? { a := FinishRun; }
        else { a := AskEnabled(t, s); }
      }
  }

  /** How far the worker still has to go, compared component by component: batches waiting, stage, reads or items left,
      queries the running transformation may still ask, whether it has to subscribe, keys it has to read. */
  datatype Rank = Rank(batches: nat, stage: nat, items: nat, queries: nat, unsubscribed: nat, keys: nat)

  predicate Below(a: Rank, b: Rank) {
    || a.batches < b.batches
    || (a.batches == b.batches &&
        (|| a.stage < b.stage
         || (a.stage == b.stage &&
             (|| a.items < b.items
              || (a.items == b.items &&
                  (|| a.queries < b.queries
                   || (a.queries == b.queries &&
                       (|| a.unsubscribed < b.unsubscribed
                        || (a.unsubscribed == b.unsubscribed && a.keys < b.keys)))))))))
  }

  /** The transformation finishes when it has had `bound` answers. */
  ghost predicate AsksAtMost(t: Transformation, bound: nat) {
    forall i, rs | |rs| >= bound :: t(i, rs).Finish?
  }

  function QueriesLeft(bound: nat, w: Worker): nat
    requires w.Computing?
  {
    if |w.log| < bound then bound - |w.log| else 0
  }

  function KeysLeft(q: Query, part: map<Key, Option<Seen>>): nat {
    if q.dep.filter.keys.Some? then |q.dep.filter.keys.value - part.Keys| else 0
  }

  function RankOf(t: Transformation, bound: nat, s: System): Rank {
    match s.worker
    case Idle => Rank(|s.pending|, 0, 0, 0, 0, 0)
    case Reading(todo, _) => Rank(|s.pending|, 2, |todo|, 0, 0, 0)
    case Computing(items, done, _, part) =>
      var left := if |done| <= |items| then |items| - |done| else 0;
      if Asking(t, s.worker) then
        var q := NextAction(t, s.worker).query;
        Rank(|s.pending|, 1, left, QueriesLeft(bound, s.worker), if q.dep.id in s.subscribed then 0 else 1,
             KeysLeft(q, part))
      else Rank(|s.pending|, 1, left, QueriesLeft(bound, s.worker), 0, 0)
  }

  lemma OneKeyLess(q: Query, part: map<Key, Option<Seen>>, k: Key, v: Option<Seen>)
    requires q.dep.filter.keys.Some? && k in q.dep.filter.keys.value && k !in part
    ensures KeysLeft(q, part[k := v]) < KeysLeft(q, part)
  {
    var left := q.dep.filter.keys.value - part.Keys;
    assert q.dep.filter.keys.value - part[k := v].Keys == left - {k};
    assert |left - {k}| == |left| - 1;
  }

  lemma AskingIsBounded(t: Transformation, bound: nat, w: Worker)
    requires AsksAtMost(t, bound) && Asking(t, w)
    ensures |w.log| < bound
  {
    assert |Results(w.log)| == |w.log|;
  }

  lemma LookDescends(t: Transformation, bound: nat, s: System, k: Key)
    requires Enabled(t, s, Look(k))
    ensures Below(RankOf(t, bound, After(t, s, Look(k))), RankOf(t, bound, s))
  {
    var q := NextAction(t, s.worker).query;
    assert NextAction(t, After(t, s, Look(k)).worker) == NextAction(t, s.worker);
    OneKeyLess(q, s.worker.part, k, SeenNow(s.world, q, k));
  }

  lemma SubscribeDescends(t: Transformation, bound: nat, s: System)
    requires Enabled(t, s, Subscribe)
    ensures Below(RankOf(t, bound, After(t, s, Subscribe)), RankOf(t, bound, s))
  {
    assert NextAction(t, After(t, s, Subscribe).worker) == NextAction(t, s.worker);
  }

  lemma ListDescends(t: Transformation, bound: nat, s: System)
    requires AsksAtMost(t, bound) && Enabled(t, s, List)
    ensures Below(RankOf(t, bound, After(t, s, List)), RankOf(t, bound, s))
  {
    AskingIsBounded(t, bound, s.worker);
  }

  lemma ItemDescends(t: Transformation, bound: nat, s: System, a: Step)
    requires Enabled(t, s, a) && (a.SkipDeletion? || a.FinishRun?)
    ensures Below(RankOf(t, bound, After(t, s, a)), RankOf(t, bound, s))
  {
  }

  lemma StageDescends(t: Transformation, bound: nat, s: System, a: Step)
    requires Enabled(t, s, a) && (a.Take? || a.ReadParent? || a.StartComputing? || a.Commit?)
    ensures Below(RankOf(t, bound, After(t, s, a)), RankOf(t, bound, s))
  {
  }

  /** Every step of the worker brings it down, so without interference every run of it comes to an end. */
  lemma WorkerDescends(t: Transformation, bound: nat, s: System, a: Step)
    requires AsksAtMost(t, bound) && Enabled(t, s, a) && WorkerStep(a)
    ensures Below(RankOf(t, bound, After(t, s, a)), RankOf(t, bound, s))
  {
    match a
    case Look(k) => LookDescends(t, bound, s, k);
    case List => ListDescends(t, bound, s);
    case Subscribe => SubscribeDescends(t, bound, s);
    case SkipDeletion => ItemDescends(t, bound, s, a);
    case FinishRun => ItemDescends(t, bound, s, a);
    case _ => StageDescends(t, bound, s, a);
  }

  lemma WorkerFrame(t: Transformation, s: System, a: Step)
    requires Enabled(t, s, a) && WorkerStep(a)
    ensures var s' := After(t, s, a);
            s'.parent == s.parent && s'.world == s.world && s'.owed == s.owed && s'.unnamed == s.unnamed
  {
  }

  /** One step of the worker: it keeps the invariant and brings the worker nearer to its end. */
  lemma Advances(t: Transformation, owner: Owner, bound: nat, s: System) returns (a: Step, s': System)
    requires TransformationOk(t, owner) && AsksAtMost(t, bound) && Inv(t, owner, s) && !Drained(s)
    ensures Enabled(t, s, a) && WorkerStep(a) && s' == After(t, s, a) && Inv(t, owner, s')
    ensures Below(RankOf(t, bound, s'), RankOf(t, bound, s))
    ensures s'.parent == s.parent && s'.world == s.world && s'.owed == s.owed && s'.unnamed == s.unnamed
  {
    a := NeverStuck(t, owner, s);
    WorkerDescends(t, bound, s, a);
    StepKeepsInv(t, owner, s, a);
    WorkerFrame(t, s, a);
    s' := After(t, s, a);
  }

  /** Left alone, with a transformation that asks boundedly many queries, the worker gets done: some finite run of its
      own steps drains what was on its way. */
  lemma {:induction false} Drains(t: Transformation, owner: Owner, bound: nat, s: System)
    returns (steps: seq<Step>, s': System)
    requires TransformationOk(t, owner) && AsksAtMost(t, bound) && Inv(t, owner, s)
    ensures Reaches(t, s, steps, s') && (forall a | a in steps :: WorkerStep(a)) && Drained(s')
    ensures s'.parent == s.parent && s'.world == s.world && s'.owed == s.owed && s'.unnamed == s.unnamed
    decreases RankOf(t, bound, s).batches, RankOf(t, bound, s).stage, RankOf(t, bound, s).items,
              RankOf(t, bound, s).queries, RankOf(t, bound, s).unsubscribed, RankOf(t, bound, s).keys
  {
    steps, s' := [], s;
    if !Drained(s) {
      var a, s1 := Advances(t, owner, bound, s);
      var rest;
      rest, s' := Drains(t, owner, bound, s1);
      steps := [a] + rest;
      assert steps[1..] == rest;
    }
  }

  lemma {:induction false} ReachesOn(t: Transformation, s: System, steps: seq<Step>, s1: System, more: seq<Step>,
                                     s2: System)
    requires Reaches(t, s, steps, s1) && Reaches(t, s1, more, s2)
    ensures Reaches(t, s, steps + more, s2)
    decreases steps
  {
    if steps == [] {
      assert steps + more == more;
    } else {
      ReachesOn(t, After(t, s, steps[0]), steps[1..], s1, more, s2);
      assert (steps + more)[1..] == steps[1..] + more;
    }
  }

  /** From every reachable state in which nothing is owed, the worker alone reaches a state with the outputs of a full
      recomputation of what the parent and the fetched collections have. */
  lemma GetsRecomputed(t: Transformation, owner: Owner, bound: nat, s0: System, steps: seq<Step>, s: System)
    returns (more: seq<Step>, s': System)
    requires TransformationOk(t, owner) && AsksAtMost(t, bound) && Initial(s0) && Reaches(t, s0, steps, s)
    requires s.owed == {} && s.unnamed == {}
    ensures Reaches(t, s, more, s') && (forall a | a in more :: WorkerStep(a))
    ensures s'.parent == s.parent && s'.world == s.world && Quiescent(s') && forall k :: Fresh(t, s', k)
  {
    InitialInv(t, owner, s0);
    RunKeepsInv(t, owner, s0, steps, s);
    more, s' := Drains(t, owner, bound, s);
    ReachesOn(t, s0, steps, s, more, s');
    forall k ensures Fresh(t, s', k) { QuiescentIsFresh(t, owner, s0, steps + more, s', k); }
  }

  // ----- what the handlers of the collection see -----

  lemma CommitPublishes(t: Transformation, owner: Owner, s: System, a: Step)
    requires TransformationOk(t, owner) && Inv(t, owner, s) && Enabled(t, s, a) && a.Commit?
    ensures Replay(s.store.coll.outputs, a.events) == Some(After(t, s, a).store.coll.outputs) && NoNoOps(a.events)
  {
    var w := s.worker;
    CommitJobs(t, owner, s, a);
    CommitResults(t, owner, w.items, w.done);
    CommitIsHandleChanged(t, s.store, w.items, w.done);
    PublishedAllReplays(s.store.coll, ToWorks(w.items, w.done), owner, a.events);
  }

  /** What came first and what came after it replay as one. */
  lemma Spliced(c: Contents, before: seq<Event>, first: seq<Event>, all: seq<Event>)
    requires before + first <= all && Replay(c, first).Some? && NoNoOps(first)
    requires NoNoOps(all[|before + first|..])
    ensures before <= all && NoNoOps(all[|before|..])
    ensures Replay(c, all[|before|..]) == Replay(Replay(c, first).value, all[|before + first|..])
  {
    var news, n := all[|before|..], |first|;
    assert news[..n] == first && news[n..] == all[|before + first|..];
    ReplaysOn(c, news, n);
  }

  /** Over any run, from any state that keeps the invariant, what is published leads strictly from the outputs before to
      the outputs after, without no-op updates. */
  lemma {:induction false} RunPublishes(t: Transformation, owner: Owner, s: System, steps: seq<Step>, s': System)
    requires TransformationOk(t, owner) && Inv(t, owner, s) && Reaches(t, s, steps, s')
    ensures s.stream <= s'.stream
    ensures var news := s'.stream[|s.stream|..];
            Replay(s.store.coll.outputs, news) == Some(s'.store.coll.outputs) && NoNoOps(news)
    decreases steps
  {
    if steps != [] {
      var a, s1 := steps[0], After(t, s, steps[0]);
      StepKeepsInv(t, owner, s, a);
      RunPublishes(t, owner, s1, steps[1..], s');
      if a.Commit? {
        CommitPublishes(t, owner, s, a);
        Spliced(s.store.coll.outputs, s.stream, a.events, s'.stream);
      }
    }
  }

  /** A handler that was there from the beginning mirrors the outputs by strict replay. */
  lemma StreamReplays(t: Transformation, owner: Owner, s0: System, steps: seq<Step>, s: System)
    requires TransformationOk(t, owner) && Initial(s0) && Reaches(t, s0, steps, s)
    ensures Replay(map[], s.stream) == Some(s.store.coll.outputs) && NoNoOps(s.stream)
  {
    InitialInv(t, owner, s0);
    RunPublishes(t, owner, s0, steps, s);
    assert s.stream[|s0.stream|..] == s.stream;
  }

  /** A handler that joins at any moment, and is first sent the Adds of `CollectionState.InitialEvents`, mirrors the
      outputs by strict replay from then on. */
  lemma HandlerMirrors(t: Transformation, owner: Owner, s0: System, steps: seq<Step>, s: System, adds: seq<Event>,
                       more: seq<Step>, s': System)
    requires TransformationOk(t, owner) && Initial(s0) && Reaches(t, s0, steps, s) && Reaches(t, s, more, s')
    requires AreAdds(s.store.coll.outputs, adds)
    ensures s.stream <= s'.stream
    ensures var received := adds + s'.stream[|s.stream|..];
            Replay(map[], received) == Some(s'.store.coll.outputs) && NoNoOps(received)
  {
    InitialInv(t, owner, s0);
    RunKeepsInv(t, owner, s0, steps, s);
    RunPublishes(t, owner, s, more, s');
    AddsReplay(s.store.coll.outputs, adds);
    var received := adds + s'.stream[|s.stream|..];
    assert received[..|adds|] == adds && received[|adds|..] == s'.stream[|s.stream|..];
    ReplaysOn(map[], received, |adds|);
  }

  // ----- which collections may be fetched -----

  /** A collection that publishes strictly at once, as derived and static collections do, leaves no new debt. */
  lemma StrictSettles(t: Transformation, s: System, id: nat, batch: seq<Event>)
    requires Keyed(ContentsOf(s.world, id)) && Replay(ContentsOf(s.world, id), batch).Some?
    ensures var next := Replay(ContentsOf(s.world, id), batch).value;
            && Enabled(t, s, WorldMoves(id, next))
            && var s1 := After(t, s, WorldMoves(id, next));
               && Enabled(t, s1, WorldPublishes(id, batch))
               && forall d | d in After(t, s1, WorldPublishes(id, batch)).owed ::
                    exists d0 :: d0 in s.owed && d == Heard(d0, id, batch)
  {
    var c := ContentsOf(s.world, id);
    var next := Replay(c, batch).value;
    ReplayKeyed(c, batch);
    ReplayWellFormed(c, batch);
    StrictAnnounces(c, batch);
    var s1 := After(t, s, WorldMoves(id, next));
    forall d | d in Debts(id, c, next) ensures Settled(s1.world, Heard(d, id, batch)) {
      assert [] + batch == batch;
      assert Links(batch, d.key, Get(c, d.key), Get(next, d.key));
    }
  }

  /** What is owed is owed: well-formed batches, all together, that do not link what was listed to what is listed. */
  ghost predicate DebtOk(w: World, d: Debt) {
    AllWellFormed(d.since) && (d.was.Some? ==> d.was.value.key == d.key) && !Settled(w, d)
  }

  ghost predicate DebtsOk(s: System) {
    (forall id | id in s.world :: Keyed(s.world[id])) && forall d | d in s.owed :: DebtOk(s.world, d)
  }

  lemma DebtsStep(t: Transformation, s: System, a: Step)
    requires DebtsOk(s) && Enabled(t, s, a)
    ensures DebtsOk(After(t, s, a))
  {
    var s' := After(t, s, a);
    forall d | d in s'.owed ensures DebtOk(s'.world, d) {
      if a.WorldPublishes? {
        var d0 :| d0 in s.owed && d == Heard(d0, a.id, a.batch);
        assert DebtOk(s.world, d0);
      } else if d in s.owed {
        assert DebtOk(s.world, d);
      }
    }
  }

  lemma {:induction false} RunKeepsDebts(t: Transformation, s: System, steps: seq<Step>, s': System)
    requires DebtsOk(s) && Reaches(t, s, steps, s')
    ensures DebtsOk(s')
    decreases steps
  {
    if steps != [] {
      DebtsStep(t, s, steps[0]);
      RunKeepsDebts(t, After(t, s, steps[0]), steps[1..], s');
    }
  }

  function Together(batches: seq<seq<Event>>): seq<Event> {
    if batches == [] then [] else batches[0] + Together(batches[1..])
  }

  function Publishing(id: nat, batches: seq<seq<Event>>): seq<Step> {
    if batches == [] then [] else [WorldPublishes(id, batches[0])] + Publishing(id, batches[1..])
  }

  lemma HeardTogether(d: Debt, id: nat, a: seq<Event>, b: seq<Event>)
    ensures Heard(Heard(d, id, a), id, b) == Heard(d, id, a + b)
    ensures forall w :: Settled(w, Heard(d, id, a)) ==> Settled(w, Heard(d, id, a + b))
  {
    assert d.since + a + b == d.since + (a + b);
    forall w | Settled(w, Heard(d, id, a)) ensures Settled(w, Heard(d, id, a + b)) {
      LinksInMore(Heard(d, id, a).since, Heard(d, id, a + b).since, d.key, d.was, Get(ContentsOf(w, d.id), d.key));
    }
  }

  /** Several batches settle together what none of them settles alone: after them a debt is left exactly if all their
      events together do not link what was listed to what is listed. */
  lemma {:induction false} SettledTogether(t: Transformation, s: System, id: nat, batches: seq<seq<Event>>, s': System,
                                           d': Debt)
    requires DebtsOk(s) && Reaches(t, s, Publishing(id, batches), s')
    ensures s'.world == s.world
    ensures d' in s'.owed <==>
              !Settled(s.world, d') && exists d :: d in s.owed && d' == Heard(d, id, Together(batches))
    decreases batches
  {
    if batches == [] {
      assert forall d: Debt :: d.since + [] == d.since;
    } else {
      var first, rest := batches[0], Together(batches[1..]);
      var a := WorldPublishes(id, first);
      assert Publishing(id, batches)[1..] == Publishing(id, batches[1..]);
      var s1 := After(t, s, a);
      DebtsStep(t, s, a);
      SettledTogether(t, s1, id, batches[1..], s', d');
      forall d | d in s.owed ensures Heard(Heard(d, id, first), id, rest) == Heard(d, id, first + rest) {
        HeardTogether(d, id, first, rest);
      }
      if d :| d in s.owed && d' == Heard(d, id, first + rest) && !Settled(s.world, d') {
        HeardTogether(d, id, first, rest);
        assert Heard(d, id, first) in s1.owed;
      }
    }
  }

  /** Counting debts is exact: in every reachable state, each debt hides a change from some query. The query was
      answered before the change, none of the batches that the collection has published since affects it, and its answer
      is now another. */
  lemma UnsettledIsMissed(t: Transformation, s0: System, steps: seq<Step>, s: System, d: Debt) returns (q: Query)
    requires Initial(s0) && Reaches(t, s0, steps, s) && d in s.owed
    ensures QueryOk(q) && q.dep.id == d.id && !AffectsAny(q.dep, d.id, d.since)
    ensures SeenAs(q.dep.filter, q.xfm, d.was) != SeenNow(s.world, q, d.key)
  {
    RunKeepsDebts(t, s0, steps, s);
    assert DebtOk(s.world, d);
    var f := UnlinkedIsMissed(d.since, d.key, d.was, Get(ContentsOf(s.world, d.id), d.key), d.id);
    q := Query(Dependency(d.id, f), (_: Obj) => Part(""));
  }
}
