/** Which batches of events are good enough for the consumers of a collection. A consumer drops a batch that does not
    affect its query (pkg/krt/collection.go:197-224, pkg/krt/filter.go:182-244). That is safe for every query exactly
    when the events of the batch link, for each key, the object that was listed to the one that is listed now. */
module Announcements {
  import opened Collections
  import opened Events
  import opened Filters

  /** The event is about `k` and has `a` on one side and `b` on the other. */
  ghost predicate Joins(e: Event, k: Key, a: Option<Obj>, b: Option<Obj>) {
    e.WellFormed() && e.Key() == k && ((e.prev == a && e.next == b) || (e.prev == b && e.next == a))
  }

  ghost predicate Joined(batch: seq<Event>, k: Key, a: Option<Obj>, b: Option<Obj>) {
    exists e | e in batch :: Joins(e, k, a, b)
  }

  ghost predicate IsPath(batch: seq<Event>, k: Key, path: seq<Option<Obj>>) {
    |path| > 1 ==> Joined(batch, k, path[0], path[1]) && IsPath(batch, k, path[1..])
  }

  ghost predicate IsPathFrom(batch: seq<Event>, k: Key, path: seq<Option<Obj>>, a: Option<Obj>, b: Option<Obj>) {
    path != [] && path[0] == a && path[|path| - 1] == b && IsPath(batch, k, path)
  }

  /** The events about `k` lead from `a` to `b`, each taken in either direction; `None` is absence. */
  ghost predicate Links(batch: seq<Event>, k: Key, a: Option<Obj>, b: Option<Obj>) {
    exists path :: IsPathFrom(batch, k, path, a, b)
  }

  lemma LinksItself(batch: seq<Event>, k: Key, a: Option<Obj>)
    ensures Links(batch, k, a, a)
  {
    assert IsPathFrom(batch, k, [a], a, a);
  }

  lemma LinksJoined(batch: seq<Event>, k: Key, a: Option<Obj>, b: Option<Obj>, c: Option<Obj>)
    requires Joined(batch, k, a, b) && Links(batch, k, b, c)
    ensures Links(batch, k, a, c)
  {
    var path :| IsPathFrom(batch, k, path, b, c);
    assert ([a] + path)[1..] == path;
    assert IsPathFrom(batch, k, [a] + path, a, c);
  }

  lemma LinksOne(batch: seq<Event>, k: Key, a: Option<Obj>, b: Option<Obj>)
    requires Joined(batch, k, a, b)
    ensures Links(batch, k, a, b)
  {
    LinksItself(batch, k, b);
    LinksJoined(batch, k, a, b, b);
  }

  lemma {:induction false} PathThen(batch: seq<Event>, k: Key, path: seq<Option<Obj>>, c: Option<Obj>)
    requires path != [] && IsPath(batch, k, path) && Links(batch, k, path[|path| - 1], c)
    ensures Links(batch, k, path[0], c)
  {
    if |path| > 1 {
      PathThen(batch, k, path[1..], c);
      LinksJoined(batch, k, path[0], path[1], c);
    }
  }

  lemma LinksThrough(batch: seq<Event>, k: Key, a: Option<Obj>, b: Option<Obj>, c: Option<Obj>)
    requires Links(batch, k, a, b) && Links(batch, k, b, c)
    ensures Links(batch, k, a, c)
  {
    var path :| IsPathFrom(batch, k, path, a, b);
    PathThen(batch, k, path, c);
  }

  lemma {:induction false} PathBack(batch: seq<Event>, k: Key, path: seq<Option<Obj>>)
    requires path != [] && IsPath(batch, k, path)
    ensures Links(batch, k, path[|path| - 1], path[0])
  {
    if |path| == 1 {
      LinksItself(batch, k, path[0]);
    } else {
      PathBack(batch, k, path[1..]);
      var e :| e in batch && Joins(e, k, path[0], path[1]);
      assert Joins(e, k, path[1], path[0]);
      LinksOne(batch, k, path[1], path[0]);
      LinksThrough(batch, k, path[|path| - 1], path[1], path[0]);
    }
  }

  lemma LinksBack(batch: seq<Event>, k: Key, a: Option<Obj>, b: Option<Obj>)
    requires Links(batch, k, a, b)
    ensures Links(batch, k, b, a)
  {
    var path :| IsPathFrom(batch, k, path, a, b);
    PathBack(batch, k, path);
  }

  /** What the events do not lead out of. */
  lemma {:induction false} PathStays(batch: seq<Event>, k: Key, path: seq<Option<Obj>>, m: set<Option<Obj>>)
    requires path != [] && IsPath(batch, k, path) && path[0] in m
    requires forall e | e in batch && e.WellFormed() && e.Key() == k :: e.prev in m <==> e.next in m
    ensures path[|path| - 1] in m
  {
    if |path| > 1 {
      var e :| e in batch && Joins(e, k, path[0], path[1]);
      PathStays(batch, k, path[1..], m);
    }
  }

  lemma LinksStay(batch: seq<Event>, k: Key, a: Option<Obj>, b: Option<Obj>, m: set<Option<Obj>>)
    requires Links(batch, k, a, b) && a in m
    requires forall e | e in batch && e.WellFormed() && e.Key() == k :: e.prev in m <==> e.next in m
    ensures b in m
  {
    var path :| IsPathFrom(batch, k, path, a, b);
    PathStays(batch, k, path, m);
  }

  lemma {:induction false} PathInMore(batch: seq<Event>, more: seq<Event>, k: Key, path: seq<Option<Obj>>)
    requires (forall e | e in batch :: e in more) && IsPath(batch, k, path)
    ensures IsPath(more, k, path)
  {
    if |path| > 1 {
      var e :| e in batch && Joins(e, k, path[0], path[1]);
      assert e in more;
      PathInMore(batch, more, k, path[1..]);
    }
  }

  lemma LinksInMore(batch: seq<Event>, more: seq<Event>, k: Key, a: Option<Obj>, b: Option<Obj>)
    requires (forall e | e in batch :: e in more) && Links(batch, k, a, b)
    ensures Links(more, k, a, b)
  {
    var path :| IsPathFrom(batch, k, path, a, b);
    PathInMore(batch, more, k, path);
    assert IsPathFrom(more, k, path, a, b);
  }

  // ----- enough -----

  /** What the consumer of a query sees of one key. */
  function SeenAs<S>(f: Filter, xfm: Obj -> S, o: Option<Obj>): Option<S> {
    if o.Some? && Matches(f, o.value, false) then Some(xfm(o.value)) else None
  }

  lemma ViewByKey<S>(c: Contents, f: Filter, xfm: Obj -> S, k: Key)
    ensures Get(View(c, f, xfm), k) == SeenAs(f, xfm, Get(c, k))
  {
  }

  lemma UnaffectedSides<S>(d: Dependency, xfm: Obj -> S, e: Event)
    requires SuppressesOnly(d.filter, xfm) && !Affects(d, d.id, e)
    ensures SeenAs(d.filter, xfm, e.prev) == SeenAs(d.filter, xfm, e.next)
  {
    if !SuppressChange(d.filter, e) {
      forall o | e.prev == Some(o) || e.next == Some(o) ensures !Matches(d.filter, o, false) {
        assert o in e.Items();
      }
    }
  }

  lemma {:induction false} UnaffectedPath<S>(d: Dependency, xfm: Obj -> S, batch: seq<Event>, k: Key,
                                             path: seq<Option<Obj>>)
    requires SuppressesOnly(d.filter, xfm) && !AffectsAny(d, d.id, batch)
    requires path != [] && IsPath(batch, k, path)
    ensures SeenAs(d.filter, xfm, path[0]) == SeenAs(d.filter, xfm, path[|path| - 1])
  {
    if |path| > 1 {
      var e :| e in batch && Joins(e, k, path[0], path[1]);
      var i :| 0 <= i < |batch| && batch[i] == e;
      assert !Affects(d, d.id, batch[i]);
      UnaffectedSides(d, xfm, e);
      UnaffectedPath(d, xfm, batch, k, path[1..]);
    }
  }

  /** A batch that does not affect a query leaves what is seen of a key as it was, if it links the two objects. */
  lemma UnaffectedLink<S>(d: Dependency, xfm: Obj -> S, batch: seq<Event>, k: Key, a: Option<Obj>, b: Option<Obj>)
    requires SuppressesOnly(d.filter, xfm) && !AffectsAny(d, d.id, batch) && Links(batch, k, a, b)
    ensures SeenAs(d.filter, xfm, a) == SeenAs(d.filter, xfm, b)
  {
    var path :| IsPathFrom(batch, k, path, a, b);
    UnaffectedPath(d, xfm, batch, k, path);
  }

  ghost predicate Announces(batch: seq<Event>, c: Contents, c': Contents) {
    forall k :: Links(batch, k, Get(c, k), Get(c', k))
  }

  /** Over a whole batch: if no event of it affects the query, the query's result is the same before and after. */
  lemma UnaffectedBatch<S>(c: Contents, c': Contents, batch: seq<Event>, d: Dependency, xfm: Obj -> S)
    requires Announces(batch, c, c') && SuppressesOnly(d.filter, xfm) && !AffectsAny(d, d.id, batch)
    ensures View(c', d.filter, xfm) == View(c, d.filter, xfm)
  {
    var v, v' := View(c, d.filter, xfm), View(c', d.filter, xfm);
    forall k ensures Get(v, k) == Get(v', k) {
      ViewByKey(c, d.filter, xfm, k);
      ViewByKey(c', d.filter, xfm, k);
      UnaffectedLink(d, xfm, batch, k, Get(c, k), Get(c', k));
    }
    assert forall k :: k in v <==> Get(v, k).Some?;
    assert forall k :: k in v' <==> Get(v', k).Some?;
  }

  // ----- necessary -----

  /** A plain selection with the suppression of a projection that sees nothing but presence. */
  ghost function Telling(keep: Obj -> bool): Filter {
    Filter(None, None, None, None, Some(keep), Some((a: Obj, b: Obj) => true), None)
  }

  /** Everything linked to an object has its key, and shares its fate: with one side of an event, the other. */
  lemma {:induction false} PathKeys(batch: seq<Event>, k: Key, path: seq<Option<Obj>>)
    requires path != [] && IsPath(batch, k, path) && (path[0].Some? ==> path[0].value.key == k)
    ensures path[|path| - 1].Some? ==> path[|path| - 1].value.key == k
  {
    if |path| > 1 { PathKeys(batch, k, path[1..]); }
  }

  lemma LinkedKey(batch: seq<Event>, k: Key, v: Option<Obj>, o: Obj)
    requires (v.Some? ==> v.value.key == k) && Links(batch, k, v, Some(o))
    ensures o.key == k
  {
    var path :| IsPathFrom(batch, k, path, v, Some(o));
    PathKeys(batch, k, path);
  }

  lemma UntoldEvent(batch: seq<Event>, k: Key, v: Option<Obj>, id: nat, e: Event, keep: Obj -> bool)
    requires e in batch && e.WellFormed()
    requires v.Some? && v.value.key == k && !Links(batch, k, v, None)
    requires forall o :: keep(o) <==> Links(batch, k, v, Some(o))
    ensures !Affects(Dependency(id, Telling(keep)), id, e)
  {
    forall o | o in e.Items() && keep(o) ensures SuppressChange(Telling(keep), e) {
      LinkedKey(batch, k, v, o);
      var other := if e.prev == Some(o) then e.next else e.prev;
      assert Joins(e, k, Some(o), other);
      LinksOne(batch, k, Some(o), other);
      LinksThrough(batch, k, v, Some(o), other);
    }
  }

  /** The condition is exact: when the events do not link what was listed to what is listed, some query is not affected
      by the batch although its result for the key changes. */
  lemma UnlinkedIsMissed(batch: seq<Event>, k: Key, a: Option<Obj>, b: Option<Obj>, id: nat) returns (f: Filter)
    requires AllWellFormed(batch) && !Links(batch, k, a, b)
    requires (a.Some? ==> a.value.key == k) && (b.Some? ==> b.value.key == k)
    ensures SuppressesOnly(f, (_: Obj) => true) && !AffectsAny(Dependency(id, f), id, batch)
    ensures SeenAs(f, (_: Obj) => true, a) != SeenAs(f, (_: Obj) => true, b)
  {
    var v, w := a, b;
    if Links(batch, k, a, None) {
      v, w := b, a;
      if Links(batch, k, b, None) {
        LinksBack(batch, k, b, None);
        LinksThrough(batch, k, a, None, b);
        assert false;
      }
      if Links(batch, k, b, a) { LinksBack(batch, k, b, a); assert false; }
    }
    if v.None? { LinksItself(batch, k, None); assert false; }
    var keep := (o: Obj) => Links(batch, k, v, Some(o));
    f := Telling(keep);
    forall i | 0 <= i < |batch| ensures !Affects(Dependency(id, f), id, batch[i]) {
      UntoldEvent(batch, k, v, id, batch[i], keep);
    }
    LinksItself(batch, k, v);
  }

  lemma {:induction false} PathOfOne(e: Event, k: Key, path: seq<Option<Obj>>)
    requires |path| > 1 && IsPath([e], k, path)
    ensures e.WellFormed() && e.Key() == k
    ensures path[0] in {e.prev, e.next} && path[|path| - 1] in {e.prev, e.next}
  {
    if |path| > 2 { PathOfOne(e, k, path[1..]); }
  }

  /** A single event announces a change exactly if it has the object before on one side and the one now on the other. */
  lemma OneEventLinks(e: Event, k: Key, a: Option<Obj>, b: Option<Obj>)
    ensures Links([e], k, a, b) <==> a == b || Joins(e, k, a, b)
  {
    if a == b {
      LinksItself([e], k, a);
    } else if Joins(e, k, a, b) {
      assert e in [e];
      LinksOne([e], k, a, b);
    } else if Links([e], k, a, b) {
      var path :| IsPathFrom([e], k, path, a, b);
      PathOfOne(e, k, path);
      assert false;
    }
  }

  // ----- strict batches are enough -----

  lemma {:induction false} StrictLinks(c: Contents, batch: seq<Event>, k: Key)
    requires Replay(c, batch).Some?
    ensures Links(batch, k, Get(c, k), Get(Replay(c, batch).value, k))
    decreases batch
  {
    if batch == [] {
      LinksItself(batch, k, Get(c, k));
    } else {
      var e, c1 := batch[0], Mirror(c, batch[0]);
      var now := Get(Replay(c, batch).value, k);
      StrictLinks(c1, batch[1..], k);
      LinksInMore(batch[1..], batch, k, Get(c1, k), now);
      if e.Key() == k {
        assert e in batch && Joins(e, k, Get(c, k), Get(c1, k));
        LinksJoined(batch, k, Get(c, k), Get(c1, k), now);
      }
    }
  }

  /** A batch that replays strictly announces the change it makes. */
  lemma StrictAnnounces(c: Contents, batch: seq<Event>)
    requires Replay(c, batch).Some?
    ensures Announces(batch, c, Replay(c, batch).value)
  {
    forall k ensures Links(batch, k, Get(c, k), Get(Replay(c, batch).value, k)) { StrictLinks(c, batch, k); }
  }
}
