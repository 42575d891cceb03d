/** Transformations, their runs, and what committing a batch of runs does to a derived collection
    (pkg/krt/core.go:211-251, pkg/krt/collection.go:498-611). */
module Transformations {
  import opened Collections
  import opened Events
  import opened Filters
  import Dependencies
  import opened Derived
  import opened Announcements

  // ----- transformations -----

  /** What a transformation sees of a fetched object: all of it, or (partial fetch) a projection. */
  datatype Seen = Whole(obj: Obj) | Part(text: string)

  datatype Query = Query(dep: Dependency, xfm: Obj -> Seen)

  type Result = map<Key, Seen>

  datatype Action = Ask(query: Query) | Finish(outs: Contents, discard: bool)

  /** A transformation is deterministic but adaptive: from its input and the fetch results so far it
      either asks the next query or finishes. */
  type Transformation = (Obj, seq<Result>) -> Action

  type World = map<nat, Contents>

  function ContentsOf(w: World, id: nat): Contents {
    if id in w then w[id] else map[]
  }

  function Answer(w: World, q: Query): Result {
    View(ContentsOf(w, q.dep.id), q.dep.filter, q.xfm)
  }

  /** What the query sees of one key. */
  function SeenNow(w: World, q: Query, k: Key): Option<Seen> {
    SeenAs(q.dep.filter, q.xfm, Get(ContentsOf(w, q.dep.id), k))
  }

  datatype Entry = Entry(query: Query, result: Result)

  /** One completed run of the transformation, with everything it fetched. */
  datatype Run = Run(input: Obj, log: seq<Entry>, outs: Contents, discard: bool)

  function Results(log: seq<Entry>): seq<Result> {
    seq(|log|, n requires 0 <= n < |log| => log[n].result)
  }

  function Deps(log: seq<Entry>): (r: seq<Dependency>)
    ensures |r| == |log| && forall n | 0 <= n < |r| :: r[n] == log[n].query.dep
  {
    seq(|log|, n requires 0 <= n < |log| => log[n].query.dep)
  }

  ghost predicate Follows(t: Transformation, input: Obj, log: seq<Entry>) {
    forall n | 0 <= n < |log| :: t(input, Results(log[..n])) == Ask(log[n].query)
  }

  ghost predicate ValidRun(t: Transformation, r: Run) {
    Follows(t, r.input, r.log) && t(r.input, Results(r.log)) == Finish(r.outs, r.discard)
  }

  ghost predicate Current(w: World, e: Entry) {
    Answer(w, e.query) == e.result
  }

  /** A run from scratch in the world `w`: every fetch answered by the present contents. */
  ghost predicate FromScratch(t: Transformation, w: World, r: Run) {
    ValidRun(t, r) && forall e | e in r.log :: Current(w, e)
  }

  lemma {:induction false} SamePrefix(t: Transformation, w: World, a: Run, b: Run, n: nat)
    requires FromScratch(t, w, a) && FromScratch(t, w, b) && a.input == b.input
    requires n <= |a.log| && n <= |b.log|
    ensures a.log[..n] == b.log[..n]
  {
    if n > 0 {
      SamePrefix(t, w, a, b, n - 1);
      assert a.log[n - 1].query == b.log[n - 1].query;
      assert Current(w, a.log[n - 1]) && Current(w, b.log[n - 1]);
      assert a.log[..n] == a.log[..n - 1] + [a.log[n - 1]];
      assert b.log[..n] == b.log[..n - 1] + [b.log[n - 1]];
    }
  }

  lemma NoLongerLog(t: Transformation, w: World, a: Run, b: Run)
    requires FromScratch(t, w, a) && FromScratch(t, w, b) && a.input == b.input
    ensures |b.log| <= |a.log|
  {
    if |a.log| < |b.log| {
      assert t(b.input, Results(b.log[..|a.log|])).Ask?;
      assert a.log[..|a.log|] == a.log;
      SamePrefix(t, w, a, b, |a.log|);
    }
  }

  /** Recomputing an input from scratch has one outcome. */
  lemma ScratchIsUnique(t: Transformation, w: World, a: Run, b: Run)
    requires FromScratch(t, w, a) && FromScratch(t, w, b) && a.input == b.input
    ensures a == b
  {
    NoLongerLog(t, w, a, b);
    NoLongerLog(t, w, b, a);
    SamePrefix(t, w, a, b, |a.log|);
    assert a.log[..|a.log|] == a.log && b.log[..|b.log|] == b.log;
  }

  /** What is expected of a transformation: results are keyed and belong to its input, and a
      suppression is only used with its own projection. */
  ghost predicate QueryOk(q: Query) {
    SuppressesOnly(q.dep.filter, q.xfm)
  }

  ghost predicate TransformationOk(t: Transformation, owner: Owner) {
    && (forall i, rs :: t(i, rs).Finish? ==>
          Keyed(t(i, rs).outs) && forall o | o in t(i, rs).outs :: owner(o) == i.key)
    && (forall i, rs :: t(i, rs).Ask? ==> QueryOk(t(i, rs).query))
  }

  // ----- what is stored -----

  /** The collection, with two records kept for the argument only: the last run of each input (whether
      or not its result was kept) and the run that the stored outputs came from. */
  datatype Store = Store(coll: Coll, last: map<Key, Run>, origin: map<Key, Run>)

  function ToWork(e: Event, r: Option<Run>): Work {
    Work(e, if r.Some? then Computed(r.value.outs, Deps(r.value.log), r.value.discard)
            else Computed(map[], [], false))
  }

  /** A refreshed event and the run made for it. */
  ghost predicate JobOk(t: Transformation, e: Event, r: Option<Run>) {
    && e.WellFormed()
    && (e.kind == Delete <==> r.None?)
    && (r.Some? ==> ValidRun(t, r.value) && r.value.input == e.Latest())
  }

  ghost predicate JobsOk(t: Transformation, es: seq<Event>, rs: seq<Option<Run>>)
    ensures JobsOk(t, es, rs) ==> EventsWellFormed(es)
  {
    |es| == |rs| && forall n | 0 <= n < |es| :: JobOk(t, es[n], rs[n])
  }

  function CommitOne(st: Store, e: Event, r: Option<Run>): Store
    requires e.WellFormed()
  {
    var k := e.Key();
    var coll := ApplyOne(st.coll, ToWork(e, r));
    if e.kind == Delete || r.None? then Store(coll, st.last - {k}, st.origin - {k})
    else if Retains(st.coll, e.Latest(), ToWork(e, r).computed) then Store(coll, st.last[k := r.value], st.origin)
    else Store(coll, st.last[k := r.value], st.origin[k := r.value])
  }

  predicate EventsWellFormed(es: seq<Event>) {
    forall n | 0 <= n < |es| :: es[n].WellFormed()
  }

  function CommitAll(st: Store, es: seq<Event>, rs: seq<Option<Run>>): Store
    requires |es| == |rs| && EventsWellFormed(es)
  {
    if es == [] then st
    else
      var n := |es| - 1;
      CommitOne(CommitAll(st, es[..n], rs[..n]), es[n], rs[n])
  }

  function ToWorks(es: seq<Event>, rs: seq<Option<Run>>): (ws: seq<Work>)
    requires |es| == |rs| && EventsWellFormed(es)
    ensures |ws| == |es| && forall n | 0 <= n < |ws| :: ws[n] == ToWork(es[n], rs[n])
  {
    seq(|es|, n requires 0 <= n < |es| => ToWork(es[n], rs[n]))
  }

  function Recorded(last: map<Key, Run>): map<Key, seq<Dependency>> {
    map k | k in last :: Deps(last[k].log)
  }

  lemma RecordedCommitOne(t: Transformation, st: Store, e: Event, r: Option<Run>)
    requires JobOk(t, e, r)
    ensures Recorded(CommitOne(st, e, r).last) == RecordOne(Recorded(st.last), ToWork(e, r))
  {
  }

  /** The commit step is what `DerivedCollection.HandleChanged` does, for the outputs and for the
      recorded dependencies. */
  lemma {:induction false} CommitIsHandleChanged(t: Transformation, st: Store, es: seq<Event>, rs: seq<Option<Run>>)
    requires JobsOk(t, es, rs)
    ensures CommitAll(st, es, rs).coll == Apply(st.coll, ToWorks(es, rs))
    ensures Recorded(CommitAll(st, es, rs).last) == Record(Recorded(st.last), ToWorks(es, rs))
    decreases es
  {
    if es != [] {
      var n := |es| - 1;
      assert JobOk(t, es[n], rs[n]);
      assert JobsOk(t, es[..n], rs[..n]);
      CommitIsHandleChanged(t, st, es[..n], rs[..n]);
      assert ToWorks(es, rs)[..n] == ToWorks(es[..n], rs[..n]);
      RecordedCommitOne(t, CommitAll(st, es[..n], rs[..n]), es[n], rs[n]);
    }
  }

  ghost predicate StoredOk(t: Transformation, st: Store, k: Key)
    requires k in st.last
  {
    && ValidRun(t, st.last[k]) && st.last[k].input.key == k
    && (!st.last[k].discard ==> k in st.origin && st.origin[k] == st.last[k])
  }

  ghost predicate OriginOk(t: Transformation, st: Store, k: Key)
    requires k in st.origin
  {
    var c := st.coll;
    && ValidRun(t, st.origin[k])
    && k in c.inputs && c.inputs[k] == st.origin[k].input
    && OutputsOf(c, k) == st.origin[k].outs
    && k in st.last
    && (c.inputs[k].uid.Some? && st.last[k].input.uid.Some? ==> c.inputs[k].uid == st.last[k].input.uid)
  }

  ghost predicate StoreOk(t: Transformation, owner: Owner, st: Store) {
    && Consistent(st.coll, owner)
    && st.origin.Keys == st.coll.inputs.Keys
    && (forall k | k in st.last :: StoredOk(t, st, k))
    && (forall k | k in st.origin :: OriginOk(t, st, k))
  }

  lemma ResultsBelong(t: Transformation, owner: Owner, e: Event, r: Option<Run>)
    requires TransformationOk(t, owner) && JobOk(t, e, r)
    ensures ResultsOk(ToWork(e, r), owner)
  {
    if r.Some? {
      assert t(r.value.input, Results(r.value.log)).Finish?;
    }
  }

  /** The other inputs keep what they have. */
  lemma CommitOneFrame(t: Transformation, owner: Owner, st: Store, e: Event, r: Option<Run>, k: Key)
    requires TransformationOk(t, owner) && StoreOk(t, owner, st) && JobOk(t, e, r)
    requires k != e.Key()
    ensures var st' := CommitOne(st, e, r);
            && Get(st'.last, k) == Get(st.last, k) && Get(st'.origin, k) == Get(st.origin, k)
            && (k in st.last ==> StoredOk(t, st', k))
            && (k in st.origin ==> OriginOk(t, st', k))
  {
    var st' := CommitOne(st, e, r);
    ResultsBelong(t, owner, e, r);
    ApplyOneFrame(st.coll, ToWork(e, r), owner, k);
    SameRecords(t, st, st', k);
  }

  /** What is said about an input depends on its own records only. */
  lemma SameRecords(t: Transformation, st: Store, st': Store, k: Key)
    requires (k in st.last ==> StoredOk(t, st, k)) && (k in st.origin ==> OriginOk(t, st, k))
    requires Get(st'.last, k) == Get(st.last, k) && Get(st'.origin, k) == Get(st.origin, k)
    requires Get(st'.coll.inputs, k) == Get(st.coll.inputs, k) && OutputsOf(st'.coll, k) == OutputsOf(st.coll, k)
    ensures k in st.last ==> StoredOk(t, st', k)
    ensures k in st.origin ==> OriginOk(t, st', k)
  {
  }

  /** A retained run: the stored outputs stay those of a run on the stored input, and that input has
      the UID of the new one. */
  lemma RetainedSubject(t: Transformation, owner: Owner, st: Store, e: Event, r: Run)
    requires StoreOk(t, owner, st) && JobOk(t, e, Some(r))
    requires Retains(st.coll, e.Latest(), ToWork(e, Some(r)).computed)
    ensures var st', k := CommitOne(st, e, Some(r)), e.Key();
            StoredOk(t, st', k) && (k in st'.origin ==> OriginOk(t, st', k))
  {
    var k := e.Key();
    if k in st.origin { assert OriginOk(t, st, k); }
  }

  /** A published run: the stored outputs are its results. */
  lemma PublishedSubject(t: Transformation, owner: Owner, st: Store, e: Event, r: Run)
    requires StoreOk(t, owner, st) && JobOk(t, e, Some(r))
    requires !Retains(st.coll, e.Latest(), ToWork(e, Some(r)).computed)
    ensures var st', k := CommitOne(st, e, Some(r)), e.Key();
            StoredOk(t, st', k) && OriginOk(t, st', k)
  {
    var st', k := CommitOne(st, e, Some(r)), e.Key();
    assert st'.coll == Replaced(st.coll, e.Latest(), r.outs);
    ReplacedOutputs(st.coll, e.Latest(), r.outs);
  }

  /** The committed input: its last run is the new one, and its outputs come from a run on the stored
      input, which is the same object as the last one. */
  lemma CommitOneSubject(t: Transformation, owner: Owner, st: Store, e: Event, r: Option<Run>)
    requires StoreOk(t, owner, st) && JobOk(t, e, r)
    ensures var st', k := CommitOne(st, e, r), e.Key();
            && Get(st'.last, k) == r
            && (k in st'.last ==> StoredOk(t, st', k))
            && (k in st'.origin ==> OriginOk(t, st', k))
  {
    if r.Some? {
      if Retains(st.coll, e.Latest(), ToWork(e, r).computed) {
        RetainedSubject(t, owner, st, e, r.value);
      } else {
        PublishedSubject(t, owner, st, e, r.value);
      }
    }
  }

  lemma CommitOneKey(t: Transformation, owner: Owner, st: Store, e: Event, r: Option<Run>, k: Key)
    requires TransformationOk(t, owner) && StoreOk(t, owner, st) && JobOk(t, e, r)
    ensures var st' := CommitOne(st, e, r);
            (k in st'.last ==> StoredOk(t, st', k)) && (k in st'.origin ==> OriginOk(t, st', k))
  {
    if k == e.Key() {
      CommitOneSubject(t, owner, st, e, r);
    } else {
      CommitOneFrame(t, owner, st, e, r, k);
    }
  }

  lemma CommitOneKeys(t: Transformation, st: Store, e: Event, r: Option<Run>)
    requires JobOk(t, e, r) && st.origin.Keys == st.coll.inputs.Keys
    ensures CommitOne(st, e, r).origin.Keys == CommitOne(st, e, r).coll.inputs.Keys
  {
  }

  lemma CommitOneOk(t: Transformation, owner: Owner, st: Store, e: Event, r: Option<Run>)
    requires TransformationOk(t, owner) && StoreOk(t, owner, st) && JobOk(t, e, r)
    ensures StoreOk(t, owner, CommitOne(st, e, r))
  {
    var st' := CommitOne(st, e, r);
    ResultsBelong(t, owner, e, r);
    ApplyOneConsistent(st.coll, ToWork(e, r), owner);
    CommitOneKeys(t, st, e, r);
    forall k ensures (k in st'.last ==> StoredOk(t, st', k)) && (k in st'.origin ==> OriginOk(t, st', k)) {
      CommitOneKey(t, owner, st, e, r, k);
    }
  }

  lemma JobsPrefix(t: Transformation, es: seq<Event>, rs: seq<Option<Run>>)
    requires JobsOk(t, es, rs) && es != []
    ensures var n := |es| - 1; JobsOk(t, es[..n], rs[..n]) && JobOk(t, es[n], rs[n])
  {
  }

  lemma {:induction false} CommitAllOk(t: Transformation, owner: Owner, st: Store, es: seq<Event>, rs: seq<Option<Run>>)
    requires TransformationOk(t, owner) && StoreOk(t, owner, st) && JobsOk(t, es, rs)
    ensures StoreOk(t, owner, CommitAll(st, es, rs))
    decreases es
  {
    if es != [] {
      var n := |es| - 1;
      JobsPrefix(t, es, rs);
      CommitAllOk(t, owner, st, es[..n], rs[..n]);
      CommitOneOk(t, owner, CommitAll(st, es[..n], rs[..n]), es[n], rs[n]);
    }
  }

  /** After a commit, the last run of an input is one that the commit brought, if it brought any. */
  lemma {:induction false} CommitAllLast(t: Transformation, st: Store, es: seq<Event>, rs: seq<Option<Run>>, k: Key)
    returns (n: int)
    requires JobsOk(t, es, rs)
    ensures -1 <= n < |es|
    ensures n >= 0 ==> es[n].Key() == k && Get(CommitAll(st, es, rs).last, k) == rs[n]
    ensures n == -1 ==> Get(CommitAll(st, es, rs).last, k) == Get(st.last, k) && forall e | e in es :: e.Key() != k
    decreases es
  {
    n := -1;
    if es != [] {
      var m := |es| - 1;
      assert JobOk(t, es[m], rs[m]);
      assert JobsOk(t, es[..m], rs[..m]);
      assert es == es[..m] + [es[m]];
      if es[m].Key() == k {
        n := m;
      } else {
        n := CommitAllLast(t, st, es[..m], rs[..m], k);
      }
    }
  }
}
