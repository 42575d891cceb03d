/** What the checked join announces to those who fetch from it (pkg/krt/join.go:175-303). The join lists its sources
    directly, but publishes what its handler makes of their events later, against the sources as they are then. */
module JoinAnnouncements {
  import opened Collections
  import opened Events
  import opened Filters
  import opened Announcements
  import opened Join

  /** The two objects of an event go with its kind. */
  predicate Regular(e: Event) {
    e.WellFormed() && (e.kind == Add <==> e.prev.None?) && (e.kind == Delete <==> e.next.None?)
  }

  /** What a join lists of a source's value: where the source has nothing, what is behind it. */
  function Or(v: Option<Obj>, behind: Option<Obj>): Option<Obj> {
    if v.Some? then v else behind
  }

  ghost predicate AllKeyed(sources: seq<Contents>) {
    forall i | 0 <= i < |sources| :: Keyed(sources[i])
  }

  /** A refreshed event has on each side what the join lists of that side. */
  lemma RefreshedSides(sources: seq<Contents>, i: nat, e: Event)
    requires i < |sources| && Regular(e) && AllKeyed(sources) && i <= First(sources, e.Key(), 0)
    ensures var r, behind := RefreshOne(sources, i, e), Front(sources, e.Key(), i + 1);
            && r.Some? && r.value.WellFormed() && r.value.Key() == e.Key()
            && r.value.prev == Or(e.prev, behind) && r.value.next == Or(e.next, behind)
  {
  }

  /** If no source before `i` holds the key, the join lists what source `i` has, or else what is behind it. */
  lemma WinnerBehind(sources: seq<Contents>, k: Key, i: nat)
    requires i < |sources| && i <= First(sources, k, 0)
    ensures Winner(sources, k) == Or(Get(sources[i], k), Front(sources, k, i + 1))
  {
    var w := if k in sources[i] then i else First(sources, k, i + 1);
    assert forall q | 0 <= q < w :: k !in sources[q];
    assert First(sources, k, 0) == w;
  }

  lemma {:induction false} SameFront(a: seq<Contents>, b: seq<Contents>, k: Key, from: nat)
    requires |a| == |b| && from <= |a| && forall j | from <= j < |a| :: Get(a[j], k) == Get(b[j], k)
    ensures First(a, k, from) == First(b, k, from) && Front(a, k, from) == Front(b, k, from)
    decreases |a| - from
  {
    if from < |a| {
      assert Get(a[from], k) == Get(b[from], k);
      if k !in a[from] { SameFront(a, b, k, from + 1); }
    }
  }

  // ----- several sources change before any of their events is handled -----

  /** Each source goes by its batch from what it had to what it has. */
  ghost predicate Burst(before: seq<Contents>, batches: seq<seq<Event>>, now: seq<Contents>) {
    && |before| == |batches| == |now| && AllKeyed(before)
    && forall i | 0 <= i < |before| :: Replay(before[i], batches[i]) == Some(now[i])
  }

  /** Published are the refreshed events of all batches, handled in whatever order after all of the changes. */
  ghost predicate Refreshed(now: seq<Contents>, batches: seq<seq<Event>>, out: seq<Event>) {
    && |batches| == |now| && (forall i | 0 <= i < |batches| :: AllWellFormed(batches[i]))
    && forall e :: e in out <==> exists i :: 0 <= i < |batches| && e in EventsOf(Refresh(now, i, batches[i]))
  }

  /** The batch brings the object to the key, if only for a time. */
  ghost predicate Brings(batch: seq<Event>, k: Key, v: Option<Obj>) {
    v.Some? && exists e | e in batch :: e.WellFormed() && e.Key() == k && e.next == v
  }

  /** The source that wins now did not come in front of the one that won; or it did, but the object listed before is
      now the first one behind it, or was brought by an event of that source or of one before it. */
  ghost predicate Covered(before: seq<Contents>, batches: seq<seq<Event>>, now: seq<Contents>, k: Key)
    requires |before| == |batches| == |now|
  {
    var w := First(now, k, 0);
    || First(before, k, 0) <= w
    || Front(now, k, w + 1) == Winner(before, k)
    || exists i :: 0 <= i <= w && Brings(batches[i], k, Winner(before, k))
  }

  lemma {:induction false} RefreshHas(sources: seq<Contents>, i: nat, events: seq<Event>, n: nat)
    requires i < |sources| && AllWellFormed(events) && n < |events| && RefreshOne(sources, i, events[n]).Some?
    ensures RefreshOne(sources, i, events[n]).value in EventsOf(Refresh(sources, i, events))
  {
    var m := |events| - 1;
    var less, out := Refresh(sources, i, events[..m]), Refresh(sources, i, events);
    if n < m {
      RefreshHas(sources, i, events[..m], n);
      assert EventsOf(out)[..|less|] == EventsOf(less);
    } else {
      assert EventsOf(out)[|less|] == RefreshOne(sources, i, events[n]).value;
    }
  }

  lemma {:induction false} RefreshOnly(sources: seq<Contents>, i: nat, events: seq<Event>, e: Event) returns (n: nat)
    requires i < |sources| && AllWellFormed(events) && e in EventsOf(Refresh(sources, i, events))
    ensures n < |events| && RefreshOne(sources, i, events[n]) == Some(e)
  {
    var m := |events| - 1;
    var less, out := Refresh(sources, i, events[..m]), Refresh(sources, i, events);
    n := m;
    if RefreshOne(sources, i, events[m]) != Some(e) {
      assert EventsOf(out)[..|less|] == EventsOf(less);
      assert e in EventsOf(less) by {
        var j :| 0 <= j < |EventsOf(out)| && EventsOf(out)[j] == e;
        assert j < |less| && EventsOf(less)[j] == e;
      }
      n := RefreshOnly(sources, i, events[..m], e);
    }
  }

  /** A source in the middle of its batch. */
  lemma Midway(c: Contents, batch: seq<Event>, n: nat) returns (mid: Contents)
    requires Keyed(c) && Replay(c, batch).Some? && n <= |batch|
    ensures Replay(c, batch[..n]) == Some(mid) && Replay(mid, batch[n..]) == Replay(c, batch) && Keyed(mid)
    ensures n < |batch| ==> Strict(mid, batch[n]) && Replay(c, batch[..n + 1]) == Some(Mirror(mid, batch[n]))
  {
    assert batch == batch[..n] + batch[n..];
    ReplayConcat(c, batch[..n], batch[n..]);
    mid := Replay(c, batch[..n]).value;
    ReplayKeyed(c, batch[..n]);
    if n < |batch| {
      assert batch[..n + 1] == batch[..n] + [batch[n]];
      ReplaySnoc(c, batch[..n], batch[n]);
    }
  }

  lemma BurstKeyed(before: seq<Contents>, batches: seq<seq<Event>>, now: seq<Contents>)
    requires Burst(before, batches, now)
    ensures AllKeyed(now) && forall i | 0 <= i < |batches| :: AllWellFormed(batches[i])
  {
    forall i | 0 <= i < |now| ensures Keyed(now[i]) && AllWellFormed(batches[i]) {
      ReplayKeyed(before[i], batches[i]);
      ReplayWellFormed(before[i], batches[i]);
    }
  }

  /** One event of the winner or of a source before it: its two sides, as the join lists them, are linked. */
  lemma BurstEvent(before: seq<Contents>, batches: seq<seq<Event>>, now: seq<Contents>, out: seq<Event>, i: nat, n: nat)
    requires Burst(before, batches, now) && Refreshed(now, batches, out) && i < |now| && n < |batches[i]|
    ensures Regular(batches[i][n])
    ensures var e := batches[i][n];
            i <= First(now, e.Key(), 0) ==>
              var behind := Front(now, e.Key(), i + 1);
              Joined(out, e.Key(), Or(e.prev, behind), Or(e.next, behind))
  {
    var e := batches[i][n];
    BurstKeyed(before, batches, now);
    var mid := Midway(before[i], batches[i], n);
    if i <= First(now, e.Key(), 0) {
      RefreshedSides(now, i, e);
      RefreshHas(now, i, batches[i], n);
      var r, behind := RefreshOne(now, i, e).value, Front(now, e.Key(), i + 1);
      assert r in out && Joins(r, e.Key(), Or(e.prev, behind), Or(e.next, behind));
    }
  }

  /** Whatever the winner or a source before it had on its way is linked to what is listed now. */
  lemma {:induction false} BurstLinks(before: seq<Contents>, batches: seq<seq<Event>>, now: seq<Contents>,
                                      out: seq<Event>, k: Key, i: nat, n: nat, mid: Contents)
    requires Burst(before, batches, now) && Refreshed(now, batches, out) && i < |now| && i <= First(now, k, 0)
    requires n <= |batches[i]| && Replay(mid, batches[i][n..]) == Some(now[i])
    ensures Links(out, k, Or(Get(mid, k), Front(now, k, i + 1)), Winner(now, k))
    decreases |batches[i]| - n
  {
    var behind := Front(now, k, i + 1);
    if n == |batches[i]| {
      WinnerBehind(now, k, i);
      LinksItself(out, k, Winner(now, k));
    } else {
      var e := batches[i][n];
      assert batches[i][n..][1..] == batches[i][n + 1..];
      BurstLinks(before, batches, now, out, k, i, n + 1, Mirror(mid, e));
      if e.Key() == k {
        BurstEvent(before, batches, now, out, i, n);
        LinksJoined(out, k, Or(Get(mid, k), behind), Or(e.next, behind), Winner(now, k));
      }
    }
  }

  lemma BroughtAt(c: Contents, batch: seq<Event>, k: Key, v: Option<Obj>) returns (n: nat, mid: Contents)
    requires Keyed(c) && Replay(c, batch).Some? && Brings(batch, k, v)
    ensures n <= |batch| && Replay(mid, batch[n..]) == Replay(c, batch) && Get(mid, k) == v
  {
    var e :| e in batch && e.WellFormed() && e.Key() == k && e.next == v;
    n :| 0 <= n < |batch| && batch[n] == e;
    var was := Midway(c, batch, n);
    mid := Midway(c, batch, n + 1);
    n := n + 1;
  }

  lemma BroughtLinks(before: seq<Contents>, batches: seq<seq<Event>>, now: seq<Contents>, out: seq<Event>, k: Key,
                     i: nat, v: Option<Obj>)
    requires Burst(before, batches, now) && Refreshed(now, batches, out) && i < |now| && i <= First(now, k, 0)
    requires Brings(batches[i], k, v)
    ensures Links(out, k, v, Winner(now, k))
  {
    var n, mid := BroughtAt(before[i], batches[i], k, v);
    BurstLinks(before, batches, now, out, k, i, n, mid);
  }

  /** What a source had, or else what is behind it now, is linked to what is listed now. */
  lemma HadLinks(before: seq<Contents>, batches: seq<seq<Event>>, now: seq<Contents>, out: seq<Event>, k: Key, i: nat)
    requires Burst(before, batches, now) && Refreshed(now, batches, out) && i < |now| && i <= First(now, k, 0)
    ensures Links(out, k, Or(Get(before[i], k), Front(now, k, i + 1)), Winner(now, k))
  {
    assert batches[i][0..] == batches[i];
    BurstLinks(before, batches, now, out, k, i, 0, before[i]);
  }

  lemma CoveredLinks(before: seq<Contents>, batches: seq<seq<Event>>, now: seq<Contents>, out: seq<Event>, k: Key)
    requires Burst(before, batches, now) && Refreshed(now, batches, out) && Covered(before, batches, now, k)
    ensures Links(out, k, Winner(before, k), Winner(now, k))
  {
    var w0, w, was := First(before, k, 0), First(now, k, 0), Winner(before, k);
    if w0 == |now| == w {
      LinksItself(out, k, None);
    } else if w0 <= w {
      HadLinks(before, batches, now, out, k, w0);
    } else if Front(now, k, w + 1) == was {
      HadLinks(before, batches, now, out, k, w);
    } else {
      var i :| 0 <= i <= w && Brings(batches[i], k, was);
      BroughtLinks(before, batches, now, out, k, i, was);
    }
  }

  /** What a source has that it did not have was brought by its batch. */
  lemma {:induction false} WasBrought(c: Contents, batch: seq<Event>, k: Key, n: nat)
    requires Keyed(c) && Replay(c, batch).Some? && k !in c && n <= |batch|
    requires Replay(c, batch[..n]).Some? && k in Replay(c, batch[..n]).value
    ensures Brings(batch, k, Get(Replay(c, batch[..n]).value, k))
    decreases n
  {
    if n == 0 {
      assert false;
    } else {
      var mid := Midway(c, batch, n - 1);
      var e := batch[n - 1];
      assert e in batch;
      if e.Key() != k { WasBrought(c, batch, k, n - 1); }
    }
  }

  /** Not covered: no published event about the key has the object listed before on either side. */
  lemma UncoveredEvent(before: seq<Contents>, batches: seq<seq<Event>>, now: seq<Contents>, out: seq<Event>, k: Key,
                       r: Event)
    requires Burst(before, batches, now) && Refreshed(now, batches, out) && !Covered(before, batches, now, k)
    requires r in out && r.WellFormed() && r.Key() == k
    ensures r.prev != Winner(before, k) && r.next != Winner(before, k)
  {
    var w, was := First(now, k, 0), Winner(before, k);
    var i :| 0 <= i < |batches| && r in EventsOf(Refresh(now, i, batches[i]));
    var n := RefreshOnly(now, i, batches[i], r);
    var e := batches[i][n];
    BurstKeyed(before, batches, now);
    BurstEvent(before, batches, now, out, i, n);
    RefreshedSides(now, i, e);
    assert e.Key() == k && i <= w && k !in before[i];
    UncoveredBehind(before, batches, now, k, i);
    var mid := Midway(before[i], batches[i], n);
    assert e in batches[i];
    if e.prev.Some? { WasBrought(before[i], batches[i], k, n); }
  }

  /** A source that has come to hold a key was brought its object. */
  lemma NewcomerBrings(before: seq<Contents>, batches: seq<seq<Event>>, now: seq<Contents>, k: Key, i: nat)
    requires Burst(before, batches, now) && i < |now| && k !in before[i] && k in now[i]
    ensures Brings(batches[i], k, Some(now[i][k]))
  {
    assert batches[i][..|batches[i]|] == batches[i];
    WasBrought(before[i], batches[i], k, |batches[i]|);
  }

  lemma UncoveredWinner(before: seq<Contents>, batches: seq<seq<Event>>, now: seq<Contents>, k: Key)
    requires Burst(before, batches, now) && !Covered(before, batches, now, k)
    ensures First(now, k, 0) < First(before, k, 0) && Winner(now, k) != Winner(before, k)
    ensures Front(now, k, First(now, k, 0) + 1) != Winner(before, k)
  {
    NewcomerBrings(before, batches, now, k, First(now, k, 0));
  }

  /** Not covered: what is behind the winner, or behind a source before it, is another object. */
  lemma UncoveredBehind(before: seq<Contents>, batches: seq<seq<Event>>, now: seq<Contents>, k: Key, i: nat)
    requires Burst(before, batches, now) && !Covered(before, batches, now, k) && i <= First(now, k, 0)
    ensures i < |now| && Front(now, k, i + 1) != Winner(before, k)
  {
    UncoveredWinner(before, batches, now, k);
    if i < First(now, k, 0) { WinnerBehind(now, k, i); }
  }

  /** Exactly when a join that comes late announces the change of what it lists: several sources change, by any strict
      batches, before any of their events is handled. */
  lemma LateJoinAnnouncesIff(before: seq<Contents>, batches: seq<seq<Event>>, now: seq<Contents>, out: seq<Event>,
                             k: Key)
    requires Burst(before, batches, now) && Refreshed(now, batches, out)
    ensures Links(out, k, Winner(before, k), Winner(now, k)) <==> Covered(before, batches, now, k)
  {
    var was := Winner(before, k);
    if Covered(before, batches, now, k) {
      CoveredLinks(before, batches, now, out, k);
    } else if Links(out, k, was, Winner(now, k)) {
      forall e | e in out && e.WellFormed() && e.Key() == k ensures e.prev in {was} <==> e.next in {was} {
        UncoveredEvent(before, batches, now, out, k, e);
      }
      LinksStay(out, k, was, Winner(now, k), {was});
      UncoveredWinner(before, batches, now, k);
      assert false;
    }
  }

  lemma WinnerKeyed(sources: seq<Contents>, k: Key)
    requires AllKeyed(sources)
    ensures Winner(sources, k).Some? ==> Winner(sources, k).value.key == k
  {
  }

  lemma RefreshedWellFormed(before: seq<Contents>, batches: seq<seq<Event>>, now: seq<Contents>, out: seq<Event>)
    requires Burst(before, batches, now) && Refreshed(now, batches, out)
    ensures AllWellFormed(out)
  {
    BurstKeyed(before, batches, now);
    forall m | 0 <= m < |out| ensures out[m].WellFormed() {
      assert out[m] in out;
      var i :| 0 <= i < |batches| && out[m] in EventsOf(Refresh(now, i, batches[i]));
      var n := RefreshOnly(now, i, batches[i], out[m]);
      BurstEvent(before, batches, now, out, i, n);
      RefreshedSides(now, i, batches[i][n]);
    }
  }

  /** And so exactly when it is safe: for every query answered before the changes; otherwise some query misses them. */
  lemma LateJoinIsSafeIff(before: seq<Contents>, batches: seq<seq<Event>>, now: seq<Contents>, out: seq<Event>, k: Key,
                          id: nat) returns (f: Filter)
    requires Burst(before, batches, now) && Refreshed(now, batches, out)
    ensures Covered(before, batches, now, k) ==>
              forall g: Filter, xfm: Obj -> bool | SuppressesOnly(g, xfm) && !AffectsAny(Dependency(id, g), id, out) ::
                SeenAs(g, xfm, Winner(before, k)) == SeenAs(g, xfm, Winner(now, k))
    ensures !Covered(before, batches, now, k) ==>
              && SuppressesOnly(f, (_: Obj) => true) && !AffectsAny(Dependency(id, f), id, out)
              && SeenAs(f, (_: Obj) => true, Winner(before, k)) != SeenAs(f, (_: Obj) => true, Winner(now, k))
  {
    LateJoinAnnouncesIff(before, batches, now, out, k);
    if Covered(before, batches, now, k) {
      f := Telling((_: Obj) => true);
      forall g: Filter, xfm: Obj -> bool | SuppressesOnly(g, xfm) && !AffectsAny(Dependency(id, g), id, out)
        ensures SeenAs(g, xfm, Winner(before, k)) == SeenAs(g, xfm, Winner(now, k))
      {
        UnaffectedLink(Dependency(id, g), xfm, out, k, Winner(before, k), Winner(now, k));
      }
    } else {
      BurstKeyed(before, batches, now);
      WinnerKeyed(before, k);
      WinnerKeyed(now, k);
      RefreshedWellFormed(before, batches, now, out);
      f := UnlinkedIsMissed(out, k, Winner(before, k), Winner(now, k), id);
    }
  }

  function AfterTwo(before: seq<Contents>, i: nat, ei: Event, j: nat, ej: Event): seq<Contents>
    requires i < j < |before| && ei.WellFormed() && ej.WellFormed()
  {
    before[i := Mirror(before[i], ei)][j := Mirror(before[j], ej)]
  }

  ghost predicate TwoBatches(batches: seq<seq<Event>>, i: nat, ei: Event, j: nat, ej: Event) {
    forall q | 0 <= q < |batches| :: batches[q] == if q == i then [ei] else if q == j then [ej] else []
  }

  lemma TwoAreABurst(before: seq<Contents>, i: nat, ei: Event, j: nat, ej: Event, batches: seq<seq<Event>>)
    requires i < j < |before| == |batches| && AllKeyed(before) && Strict(before[i], ei) && Strict(before[j], ej)
    requires TwoBatches(batches, i, ei, j, ej)
    ensures Burst(before, batches, AfterTwo(before, i, ei, j, ej))
  {
    var now := AfterTwo(before, i, ei, j, ej);
    forall q | 0 <= q < |before| ensures Replay(before[q], batches[q]) == Some(now[q]) {
      if batches[q] != [] { assert batches[q][1..] == []; }
    }
  }

  lemma RefreshSingle(sources: seq<Contents>, i: nat, e: Event)
    requires i < |sources| && e.WellFormed()
    ensures var r := RefreshOne(sources, i, e);
            EventsOf(Refresh(sources, i, [e])) == if r.Some? then [r.value] else []
  {
    assert [e][..0] == [];
  }

  /** What is refreshed of the batch of any source is refreshed of one of the two events. */
  lemma OfTheTwo(now: seq<Contents>, i: nat, ei: Event, j: nat, ej: Event, batch: seq<Event>, q: nat, e: Event)
    requires i < j < |now| && q < |now| && ei.WellFormed() && ej.WellFormed()
    requires batch == if q == i then [ei] else if q == j then [ej] else []
    ensures e in EventsOf(Refresh(now, q, batch)) <==>
              (q == i && RefreshOne(now, i, ei) == Some(e)) || (q == j && RefreshOne(now, j, ej) == Some(e))
  {
    if q == i { RefreshSingle(now, i, ei); } else if q == j { RefreshSingle(now, j, ej); }
  }

  lemma TwoRefreshed(now: seq<Contents>, i: nat, ei: Event, j: nat, ej: Event, batches: seq<seq<Event>>,
                     out: seq<Event>)
    requires i < j < |now| == |batches| && ei.WellFormed() && ej.WellFormed() && TwoBatches(batches, i, ei, j, ej)
    requires forall e :: e in out <==> RefreshOne(now, i, ei) == Some(e) || RefreshOne(now, j, ej) == Some(e)
    ensures Refreshed(now, batches, out)
  {
    forall e ensures e in out <==> exists q :: 0 <= q < |batches| && e in EventsOf(Refresh(now, q, batches[q])) {
      OfTheTwo(now, i, ei, j, ej, batches[i], i, e);
      OfTheTwo(now, i, ei, j, ej, batches[j], j, e);
      if q :| 0 <= q < |batches| && e in EventsOf(Refresh(now, q, batches[q])) {
        OfTheTwo(now, i, ei, j, ej, batches[q], q, e);
      }
    }
  }

  lemma FrontSkips(sources: seq<Contents>, k: Key, from: nat, to: nat)
    requires from <= to <= |sources| && forall q | from <= q < to :: k !in sources[q]
    ensures First(sources, k, from) == First(sources, k, to) && Front(sources, k, from) == Front(sources, k, to)
  {
    var a, b := First(sources, k, from), First(sources, k, to);
    assert to <= a;
  }

  /** A source comes in front of all that hold the key, and up to `j` nothing else changes: what is behind it. */
  lemma AddInFront(before: seq<Contents>, now: seq<Contents>, k: Key, i: nat, j: nat)
    requires i < j < |before| == |now| && k !in before[i] && k in now[i]
    requires forall q | 0 <= q < j && q != i :: now[q] == before[q]
    requires forall q | 0 <= q < i :: k !in before[q]
    ensures First(now, k, 0) == i < First(before, k, 0)
    ensures if forall q | i < q < j :: k !in before[q]
            then Winner(before, k) == Front(before, k, j) && Front(now, k, i + 1) == Front(now, k, j)
            else Front(now, k, i + 1) == Winner(before, k)
  {
    FrontSkips(now, k, 0, i);
    FrontSkips(before, k, 0, i + 1);
    if forall q | i < q < j :: k !in before[q] {
      FrontSkips(before, k, i + 1, j);
      FrontSkips(now, k, i + 1, j);
    } else {
      var w := First(before, k, i + 1);
      assert w < j;
      FrontSkips(now, k, i + 1, w);
    }
  }

  /** Where the first source held the key, or another one before it does, the winner has not gone forward. */
  lemma TwoKeepOrder(before: seq<Contents>, now: seq<Contents>, k: Key, i: nat, j: nat)
    requires i < j < |before| == |now| && forall q | 0 <= q < j && q != i :: now[q] == before[q]
    requires k in before[i] || exists q :: 0 <= q < i && k in before[q]
    ensures First(before, k, 0) <= First(now, k, 0)
  {
    assert First(before, k, 0) <= i;
  }

  /** With only the first source's Add before `j`, no other object is brought in time. */
  lemma TwoBring(batches: seq<seq<Event>>, i: nat, ei: Event, j: nat, ej: Event, v: Option<Obj>)
    requires i < j < |batches| && ei.WellFormed() && ei.next.Some? && TwoBatches(batches, i, ei, j, ej)
    ensures (exists q :: 0 <= q <= i && Brings(batches[q], ei.Key(), v)) <==> v == ei.next
  {
    assert batches[i] == [ei];
    if v == ei.next { assert ei in batches[i] && Brings(batches[i], ei.Key(), v); }
  }

  lemma AddCovered(before: seq<Contents>, now: seq<Contents>, batches: seq<seq<Event>>, i: nat, ei: Event, j: nat,
                   ej: Event)
    requires i < j < |before| == |batches| == |now| && TwoBatches(batches, i, ei, j, ej)
    requires ei.WellFormed() && ei.next.Some? && ei.Key() !in before[i] && ei.Key() in now[i]
    requires forall q | 0 <= q < j && q != i :: now[q] == before[q]
    requires forall q | 0 <= q < i :: ei.Key() !in before[q]
    ensures var k := ei.Key();
            Covered(before, batches, now, k) <==>
              || (exists q :: i < q < j && k in before[q])
              || Front(before, k, j) == Front(now, k, j) || Front(before, k, j) == ei.next
  {
    AddInFront(before, now, ei.Key(), i, j);
    TwoBring(batches, i, ei, j, ej, Winner(before, ei.Key()));
  }

  lemma TwoCovered(before: seq<Contents>, i: nat, ei: Event, j: nat, ej: Event, batches: seq<seq<Event>>)
    requires i < j < |before| == |batches| && AllKeyed(before) && Strict(before[i], ei) && Strict(before[j], ej)
    requires ei.Key() == ej.Key() && TwoBatches(batches, i, ei, j, ej)
    ensures var now, k := AfterTwo(before, i, ei, j, ej), ei.Key();
            Covered(before, batches, now, k) <==>
              !(&& ei.kind == Add && (forall q | 0 <= q < j && q != i :: k !in before[q])
                && Front(before, k, j) != Front(now, k, j) && Front(before, k, j) != ei.next)
  {
    var now, k := AfterTwo(before, i, ei, j, ej), ei.Key();
    if ei.kind != Add || exists q :: 0 <= q < i && k in before[q] {
      TwoKeepOrder(before, now, k, i, j);
    } else {
      AddCovered(before, now, batches, i, ei, j, ej);
    }
  }

  /** With one event each from two sources `i` before `j`, both made before either is handled: the change is not
      announced if and only if the first is an Add, no other source before `j` holds the key, and from `j` on the first
      object for it has become another, and was not the one added. */
  lemma TwoChangesAnnounceIff(before: seq<Contents>, i: nat, ei: Event, j: nat, ej: Event, out: seq<Event>)
    requires i < j < |before| && AllKeyed(before) && Strict(before[i], ei) && Strict(before[j], ej)
    requires ei.Key() == ej.Key()
    requires var now := AfterTwo(before, i, ei, j, ej);
             forall e :: e in out <==> RefreshOne(now, i, ei) == Some(e) || RefreshOne(now, j, ej) == Some(e)
    ensures var now, k := AfterTwo(before, i, ei, j, ej), ei.Key();
            Links(out, k, Winner(before, k), Winner(now, k)) <==>
              !(&& ei.kind == Add && (forall q | 0 <= q < j && q != i :: k !in before[q])
                && Front(before, k, j) != Front(now, k, j) && Front(before, k, j) != ei.next)
  {
    var now, k := AfterTwo(before, i, ei, j, ej), ei.Key();
    var batches := seq(|before|, q => if q == i then [ei] else if q == j then [ej] else []);
    TwoAreABurst(before, i, ei, j, ej, batches);
    TwoRefreshed(now, i, ei, j, ej, batches, out);
    LateJoinAnnouncesIff(before, batches, now, out, k);
    TwoCovered(before, i, ei, j, ej, batches);
  }

  /** A join that comes late need not announce. It listed `d`; its second source turned `d` into `e` and its first
      source got `z` before either event was handled. The second source's event is dropped, and what is published says
      that `e` became `z`. Some query that was answered with `d` is not affected, although its answer is now another. */
  lemma LateJoinMisses(k: Key, d: Obj, e: Obj, z: Obj, id: nat) returns (f: Filter)
    requires d.key == e.key == z.key == k && d != e && d != z
    ensures var before: seq<Contents> := [map[], map[k := d]];
            var now: seq<Contents> := [map[k := z], map[k := e]];
            && Winner(before, k) == Some(d) && Winner(now, k) == Some(z)
            && RefreshOne(now, 1, Event(Some(d), Some(e), Update)) == None
            && RefreshOne(now, 0, Event(None, Some(z), Add)) == Some(Event(Some(e), Some(z), Update))
    ensures !AffectsAny(Dependency(id, f), id, [Event(Some(e), Some(z), Update)])
    ensures SeenAs(f, (_: Obj) => true, Some(d)) != SeenAs(f, (_: Obj) => true, Some(z))
  {
    var ei, ej, out := Event(None, Some(z), Add), Event(Some(d), Some(e), Update), [Event(Some(e), Some(z), Update)];
    var before: seq<Contents> := [map[], map[k := d]];
    var now: seq<Contents> := [map[k := z], map[k := e]];
    assert First(now, k, 1) == 1 && First(before, k, 0) == First(before, k, 1) == 1;
    TwoChangesAnnounceIff(before, 0, ei, 1, ej, out);
    f := UnlinkedIsMissed(out, k, Some(d), Some(z), id);
  }

  /** A join that handles a source's event before anything else changes announces the change of what it lists. */
  lemma PromptJoinAnnounces(sources: seq<Contents>, i: nat, e: Event, j: Key)
    requires i < |sources| && Strict(sources[i], e) && AllKeyed(sources)
    ensures var now := sources[i := Mirror(sources[i], e)];
            var r := RefreshOne(now, i, e);
            if r.None? then Winner(now, j) == Winner(sources, j)
            else Links([r.value], j, Winner(sources, j), Winner(now, j))
  {
    var now, k := sources[i := Mirror(sources[i], e)], e.Key();
    var r := RefreshOne(now, i, e);
    if j != k {
      SameFront(now, sources, j, 0);
      if r.Some? { LinksItself([r.value], j, Winner(now, j)); }
    } else if r.None? {
      SameWinner(now, sources, k);
    } else {
      forall q | 0 <= q < i ensures k !in sources[q] { assert now[q] == sources[q]; }
      WinnerBehind(now, k, i);
      WinnerBehind(sources, k, i);
      SameFront(now, sources, k, i + 1);
      RefreshedSides(now, i, e);
      OneEventLinks(r.value, k, Winner(sources, k), Winner(now, k));
    }
  }

  // ----- the sources take turns -----

  /** Everything refreshed so far: what is published, and what the handler has in hand. */
  function Said(s: State): seq<Event> {
    s.published + if s.hand.Handling? then EventsOf(s.hand.out) else []
  }

  /** Nothing about the key is waiting. */
  ghost predicate Quiet(s: State, k: Key) {
    |s.pending| == |s.sources| && forall i | 0 <= i < |s.sources| :: !About(Stream(s, i), k)
  }

  /** Sources change by strict batches, and while events about the key wait, only the source they come from changes
      it. */
  ghost predicate InTurn(s: State, a: Step, k: Key) {
    a.SourceChanges? && a.i < |s.sources| == |s.pending| ==>
      && Replay(s.sources[a.i], a.batch) == Some(a.next)
      && (About(a.batch, k) ==> forall q | 0 <= q < |s.sources| && q != a.i :: !About(Stream(s, q), k))
  }

  ghost predicate ReachesInTurn(s: State, steps: seq<Step>, s': State, k: Key)
    decreases steps
  {
    if steps == [] then s == s'
    else
      && Enabled(s, steps[0]) && InTurn(s, steps[0], k)
      && ReachesInTurn(After(s, steps[0]), steps[1..], s', k)
  }

  /** The events of a stream about `k` lead strictly from `u` to `v`. */
  ghost predicate Chain(stream: seq<Event>, k: Key, u: Option<Obj>, v: Option<Obj>)
    decreases stream
  {
    if stream == [] then u == v
    else if stream[0].WellFormed() && stream[0].Key() == k then
      Regular(stream[0]) && stream[0].prev == u && Chain(stream[1..], k, stream[0].next, v)
    else Chain(stream[1..], k, u, v)
  }

  /** `y` is one of the values that the events of the stream about `k` go through from `u` on. */
  ghost predicate OnChain(stream: seq<Event>, k: Key, u: Option<Obj>, y: Option<Obj>)
    decreases stream
  {
    || y == u
    || (stream != [] &&
        if stream[0].WellFormed() && stream[0].Key() == k then OnChain(stream[1..], k, stream[0].next, y)
        else OnChain(stream[1..], k, u, y))
  }

  lemma {:induction false} ChainConcat(a: seq<Event>, b: seq<Event>, k: Key, u: Option<Obj>, v: Option<Obj>,
                                       w: Option<Obj>)
    requires Chain(a, k, u, v) && Chain(b, k, v, w)
    ensures Chain(a + b, k, u, w)
    decreases a
  {
    if a == [] {
      assert a + b == b;
    } else {
      assert (a + b)[0] == a[0] && (a + b)[1..] == a[1..] + b;
      ChainConcat(a[1..], b, k, if a[0].WellFormed() && a[0].Key() == k then a[0].next else u, v, w);
    }
  }

  lemma {:induction false} OnLongerChain(a: seq<Event>, b: seq<Event>, k: Key, u: Option<Obj>, y: Option<Obj>)
    requires OnChain(a, k, u, y)
    ensures OnChain(a + b, k, u, y)
    decreases a
  {
    if y != u {
      assert (a + b)[0] == a[0] && (a + b)[1..] == a[1..] + b;
      OnLongerChain(a[1..], b, k, if a[0].WellFormed() && a[0].Key() == k then a[0].next else u, y);
    }
  }

  /** Without an event about the key there is only one value. */
  lemma {:induction false} ChainQuiet(stream: seq<Event>, k: Key, u: Option<Obj>)
    requires !About(stream, k)
    ensures Chain(stream, k, u, u)
    ensures forall v :: Chain(stream, k, u, v) ==> v == u
    ensures forall y :: OnChain(stream, k, u, y) ==> y == u
    decreases stream
  {
    if stream != [] {
      assert stream[0] in stream;
      assert forall e | e in stream[1..] :: e in stream;
      ChainQuiet(stream[1..], k, u);
    }
  }

  lemma {:induction false} StrictChain(c: Contents, batch: seq<Event>, k: Key)
    requires Replay(c, batch).Some?
    ensures Chain(batch, k, Get(c, k), Get(Replay(c, batch).value, k))
    decreases batch
  {
    if batch != [] { StrictChain(Mirror(c, batch[0]), batch[1..], k); }
  }

  /** The read in progress has met no holder of the key so far. */
  ghost predicate ScanKnows(s: State, k: Key) {
    s.hand.Handling? && s.hand.todo != [] && s.hand.todo[0].WellFormed() && s.hand.todo[0].Key() == k ==>
      forall q | 0 <= q < s.hand.scan.next && q < |s.sources| && q != s.hand.source :: k !in s.sources[q]
  }

  /** All that waits about `k` is from source `i`, and leads from `u` to what the source has. */
  ghost predicate Turn(s: State, k: Key, i: nat, u: Option<Obj>) {
    && i < |s.sources| == |s.pending|
    && (forall q | 0 <= q < |s.sources| && q != i :: !About(Stream(s, q), k))
    && Chain(Stream(s, i), k, u, Get(s.sources[i], k))
    && ScanKnows(s, k)
  }

  /** What the join would list if source `i` had `y`. */
  function ListedWith(sources: seq<Contents>, k: Key, i: nat, y: Option<Obj>): Option<Obj>
    requires i < |sources|
  {
    if First(sources, k, 0) < i then Winner(sources, k) else Or(y, Front(sources, k, i + 1))
  }

  lemma ListedNow(sources: seq<Contents>, k: Key, i: nat)
    requires i < |sources|
    ensures ListedWith(sources, k, i, Get(sources[i], k)) == Winner(sources, k)
  {
    if i <= First(sources, k, 0) { WinnerBehind(sources, k, i); }
  }

  /** What the others have of the key decides, not what `i` has. */
  lemma ListedSame(a: seq<Contents>, b: seq<Contents>, k: Key, i: nat, y: Option<Obj>)
    requires i < |a| == |b| && forall q | 0 <= q < |a| && q != i :: Get(a[q], k) == Get(b[q], k)
    ensures ListedWith(a, k, i, y) == ListedWith(b, k, i, y)
  {
    SameFront(a, b, k, i + 1);
    assert forall q | 0 <= q < i :: k in a[q] <==> k in b[q] by {
      forall q | 0 <= q < i ensures k in a[q] <==> k in b[q] { assert Get(a[q], k) == Get(b[q], k); }
    }
    if First(a, k, 0) < i { SameWinner(b, a, k); }
    if First(b, k, 0) < i { SameWinner(a, b, k); }
  }

  /** What was said in between links `x` to `y`. */
  ghost predicate Says(s: State, s': State, k: Key, x: Option<Obj>, y: Option<Obj>) {
    Said(s) <= Said(s') && Links(Said(s')[|Said(s)|..], k, x, y)
  }

  lemma SaysOn(s: State, s1: State, s': State, k: Key, x: Option<Obj>, y: Option<Obj>, z: Option<Obj>)
    requires Says(s, s1, k, x, y) && Says(s1, s', k, y, z)
    ensures Says(s, s', k, x, z)
  {
    var first, rest, all := Said(s1)[|Said(s)|..], Said(s')[|Said(s1)|..], Said(s')[|Said(s)|..];
    assert all == first + rest;
    LinksInMore(first, all, k, x, y);
    LinksInMore(rest, all, k, y, z);
    LinksThrough(all, k, x, y, z);
  }

  lemma SaysNothing(s: State, s': State, k: Key, x: Option<Obj>)
    requires Said(s) <= Said(s')
    ensures Says(s, s', k, x, x)
  {
    LinksItself(Said(s')[|Said(s)|..], k, x);
  }

  /** The handler is within the sources. */
  ghost predicate Framed(s: State) {
    && |s.pending| == |s.sources|
    && (s.hand.Handling? ==>
          && s.hand.source < |s.sources|
          && (s.hand.todo != [] && s.hand.todo[0].WellFormed() ==>
                match s.hand.scan
                case Higher(p) => p <= s.hand.source
                case Lower(p) => s.hand.source < p <= |s.sources|))
  }

  /** An event in hand about the key is from the source whose turn it is. */
  lemma HandInTurn(s: State, k: Key, i: nat, u: Option<Obj>)
    requires Framed(s) && Turn(s, k, i, u)
    requires s.hand.Handling? && s.hand.todo != [] && s.hand.todo[0].WellFormed() && s.hand.todo[0].Key() == k
    ensures s.hand.source == i
  {
    assert s.hand.todo[0] in Stream(s, s.hand.source);
    assert About(Stream(s, s.hand.source), k);
  }

  lemma ScanStays(s: State, s': State, k: Key, i: nat, u: Option<Obj>)
    requires Framed(s) && Turn(s, k, i, u) && s'.hand == s.hand && |s'.sources| == |s.sources|
    requires forall q | 0 <= q < |s.sources| && q != i && k !in s.sources[q] :: k !in s'.sources[q]
    ensures ScanKnows(s', k)
  {
    if s.hand.Handling? && s.hand.todo != [] && s.hand.todo[0].WellFormed() && s.hand.todo[0].Key() == k {
      HandInTurn(s, k, i, u);
    }
  }

  /** The source whose turn it is changes again. */
  lemma SameSourceChanges(s: State, a: Step, k: Key, i: nat, u: Option<Obj>, y: Option<Obj>)
    requires Framed(s) && Enabled(s, a) && InTurn(s, a, k) && Turn(s, k, i, u) && OnChain(Stream(s, i), k, u, y)
    requires a.SourceChanges? && a.i == i
    ensures var s' := After(s, a);
            && Turn(s', k, i, u) && OnChain(Stream(s', i), k, u, y)
            && Says(s, s', k, ListedWith(s.sources, k, i, y), ListedWith(s'.sources, k, i, y))
  {
    var s' := After(s, a);
    ChangeStreams(s, i, a.batch, a.next);
    StrictChain(s.sources[i], a.batch, k);
    ChainConcat(Stream(s, i), a.batch, k, u, Get(s.sources[i], k), Get(a.next, k));
    OnLongerChain(Stream(s, i), a.batch, k, u, y);
    ScanStays(s, s', k, i, u);
    ListedSame(s.sources, s'.sources, k, i, y);
    SaysNothing(s, s', k, ListedWith(s.sources, k, i, y));
  }

  /** Another source changes, but not this key. */
  lemma OtherKeyChanges(s: State, a: Step, k: Key, i: nat, u: Option<Obj>, y: Option<Obj>)
    requires Framed(s) && Enabled(s, a) && InTurn(s, a, k) && Turn(s, k, i, u) && OnChain(Stream(s, i), k, u, y)
    requires a.SourceChanges? && a.i != i && !About(a.batch, k)
    ensures var s' := After(s, a);
            && Turn(s', k, i, u) && OnChain(Stream(s', i), k, u, y)
            && Says(s, s', k, ListedWith(s.sources, k, i, y), ListedWith(s'.sources, k, i, y))
  {
    var s' := After(s, a);
    ChangeStreams(s, a.i, a.batch, a.next);
    AboutConcat(Stream(s, a.i), a.batch, k);
    ReplayEnds(s.sources[a.i], a.batch, k);
    assert forall q | 0 <= q < |s.sources| :: Get(s'.sources[q], k) == Get(s.sources[q], k);
    forall q | 0 <= q < |s.sources| && k !in s.sources[q] ensures k !in s'.sources[q] {
      assert Get(s'.sources[q], k) == Get(s.sources[q], k);
    }
    ScanStays(s, s', k, i, u);
    ListedSame(s.sources, s'.sources, k, i, y);
    SaysNothing(s, s', k, ListedWith(s.sources, k, i, y));
  }

  /** Nothing about the key is waiting, and another source begins its turn. */
  lemma TurnPasses(s: State, a: Step, k: Key, i: nat, u: Option<Obj>, y: Option<Obj>)
    requires Framed(s) && Enabled(s, a) && InTurn(s, a, k) && Turn(s, k, i, u) && OnChain(Stream(s, i), k, u, y)
    requires a.SourceChanges? && a.i != i && About(a.batch, k)
    ensures var s', v := After(s, a), Get(s.sources[a.i], k);
            && Turn(s', k, a.i, v) && OnChain(Stream(s', a.i), k, v, v)
            && Says(s, s', k, ListedWith(s.sources, k, i, y), ListedWith(s'.sources, k, a.i, v))
  {
    var s', j := After(s, a), a.i;
    var v := Get(s.sources[j], k);
    ChainQuiet(Stream(s, i), k, u);
    ListedNow(s.sources, k, i);
    ListedNow(s.sources, k, j);
    ChangeStreams(s, j, a.batch, a.next);
    ChainQuiet(Stream(s, j), k, v);
    StrictChain(s.sources[j], a.batch, k);
    ChainConcat(Stream(s, j), a.batch, k, v, v, Get(a.next, k));
    NothingInHand(s, k);
    ListedSame(s.sources, s'.sources, k, j, v);
    SaysNothing(s, s', k, Winner(s.sources, k));
  }

  lemma NothingInHand(s: State, k: Key)
    requires Framed(s) && Quiet(s, k)
    ensures s.hand.Handling? && s.hand.todo != [] && s.hand.todo[0].WellFormed() ==> s.hand.todo[0].Key() != k
  {
    if s.hand.Handling? && s.hand.todo != [] {
      assert s.hand.todo[0] in Stream(s, s.hand.source);
      assert !About(Stream(s, s.hand.source), k);
    }
  }

  /** Taking events from the queue and publishing move nothing. */
  lemma HandMoves(s: State, a: Step, k: Key, i: nat, u: Option<Obj>, y: Option<Obj>)
    requires Framed(s) && Enabled(s, a) && Turn(s, k, i, u) && OnChain(Stream(s, i), k, u, y) && (a.Begin? || a.End?)
    ensures var s' := After(s, a);
            && Turn(s', k, i, u) && OnChain(Stream(s', i), k, u, y)
            && Says(s, s', k, ListedWith(s.sources, k, i, y), ListedWith(s'.sources, k, i, y))
  {
    var s' := After(s, a);
    if a.Begin? { assert s.pending[a.i] == s.pending[a.i][..a.n] + s.pending[a.i][a.n..]; }
    assert forall q | 0 <= q < |s.sources| :: Stream(s', q) == Stream(s, q);
    assert Said(s') == Said(s);
    SaysNothing(s, s', k, ListedWith(s.sources, k, i, y));
  }

  /** A read that finds nothing. */
  lemma ScanMoves(s: State, k: Key, i: nat, u: Option<Obj>, y: Option<Obj>)
    requires Framed(s) && Enabled(s, ReadNext) && Turn(s, k, i, u) && OnChain(Stream(s, i), k, u, y)
    requires After(s, ReadNext).hand.todo == s.hand.todo
    ensures var s' := After(s, ReadNext);
            && Turn(s', k, i, u) && OnChain(Stream(s', i), k, u, y)
            && Says(s, s', k, ListedWith(s.sources, k, i, y), ListedWith(s'.sources, k, i, y))
  {
    var s' := After(s, ReadNext);
    assert forall q | 0 <= q < |s.sources| :: Stream(s', q) == Stream(s, q);
    assert Said(s') == Said(s);
    SaysNothing(s, s', k, ListedWith(s.sources, k, i, y));
  }

  /** An event about another key is done with. */
  lemma OtherKeyRead(s: State, k: Key, i: nat, u: Option<Obj>, y: Option<Obj>)
    requires Framed(s) && Enabled(s, ReadNext) && Settles(s) && Turn(s, k, i, u) && OnChain(Stream(s, i), k, u, y)
    requires s.hand.todo[0].Key() != k
    ensures var s' := After(s, ReadNext);
            && Turn(s', k, i, u) && OnChain(Stream(s', i), k, u, y)
            && Says(s, s', k, ListedWith(s.sources, k, i, y), ListedWith(s'.sources, k, i, y))
  {
    var s', j := After(s, ReadNext), s.hand.source;
    PopStream(s);
    PopSaid(s);
    AboutConcat([s.hand.todo[0]], Stream(s', j), k);
    SaysNothing(s, s', k, ListedWith(s.sources, k, i, y));
  }

  lemma PopSaid(s: State)
    requires Framed(s) && Enabled(s, ReadNext) && Settles(s)
    ensures var s', e := After(s, ReadNext), s.hand.todo[0];
            var p := s.hand.scan.next;
            Said(s') == Said(s) +
                        if s.hand.scan.Higher? then []
                        else [Decide(e, if p < |s.sources| then Some(s.sources[p][e.Key()]) else None)]
  {
  }

  /** The turn's next event is done with. */
  lemma EventPopped(s: State, k: Key, i: nat, u: Option<Obj>)
    requires Framed(s) && Enabled(s, ReadNext) && Settles(s) && Turn(s, k, i, u) && s.hand.todo[0].Key() == k
    ensures var s', e := After(s, ReadNext), s.hand.todo[0];
            && s.hand.source == i && e.prev == u && Regular(e)
            && Turn(s', k, i, e.next) && Stream(s, i) == [e] + Stream(s', i) && s'.sources == s.sources
  {
    PopStream(s);
    HandInTurn(s, k, i, u);
    var s', e := After(s, ReadNext), s.hand.todo[0];
    assert Stream(s, i)[0] == e && Stream(s, i)[1..] == Stream(s', i);
  }

  /** What is said about it links what the join listed before it to what it lists after it. */
  lemma EventRead(s: State, k: Key, i: nat, u: Option<Obj>)
    requires Framed(s) && Enabled(s, ReadNext) && Settles(s) && AllKeyed(s.sources) && ScanKnows(s, k)
    requires s.hand.todo[0].Key() == k && s.hand.source == i && s.hand.todo[0].prev == u && Regular(s.hand.todo[0])
    ensures Says(s, After(s, ReadNext), k, ListedWith(s.sources, k, i, u),
                 ListedWith(s.sources, k, i, s.hand.todo[0].next))
  {
    var s', e := After(s, ReadNext), s.hand.todo[0];
    PopSaid(s);
    if s.hand.scan.Higher? {
      assert First(s.sources, k, 0) < i;
      SaysNothing(s, s', k, Winner(s.sources, k));
    } else {
      ReadSides(s, k, i);
      var r := Said(s')[|Said(s)|];
      assert Said(s')[|Said(s)|..] == [r];
      OneEventLinks(r, k, Or(u, Front(s.sources, k, i + 1)), Or(e.next, Front(s.sources, k, i + 1)));
    }
  }

  /** The event refreshed by single reads has the same sides as one refreshed at once. */
  lemma ReadSides(s: State, k: Key, i: nat)
    requires Framed(s) && Enabled(s, ReadNext) && Settles(s) && s.hand.scan.Lower? && AllKeyed(s.sources)
    requires s.hand.source == i && s.hand.todo[0].Key() == k && Regular(s.hand.todo[0]) && ScanKnows(s, k)
    ensures i <= First(s.sources, k, 0)
    ensures var s', e, behind := After(s, ReadNext), s.hand.todo[0], Front(s.sources, k, i + 1);
            && |Said(s')| == |Said(s)| + 1
            && var r := Said(s')[|Said(s)|];
               r.WellFormed() && r.Key() == k && r.prev == Or(e.prev, behind) && r.next == Or(e.next, behind)
  {
    var p, e := s.hand.scan.next, s.hand.todo[0];
    PopSaid(s);
    FrontSkips(s.sources, k, i + 1, p);
    assert p < |s.sources| ==> k in s.sources[p];
    RefreshedSides(s.sources, i, e);
  }

  lemma ReadInTurn(s: State, k: Key, i: nat, u: Option<Obj>, y: Option<Obj>) returns (u': Option<Obj>, y': Option<Obj>)
    requires Framed(s) && Enabled(s, ReadNext) && Turn(s, k, i, u) && OnChain(Stream(s, i), k, u, y)
    requires AllKeyed(s.sources)
    ensures var s' := After(s, ReadNext);
            && Turn(s', k, i, u') && OnChain(Stream(s', i), k, u', y')
            && Says(s, s', k, ListedWith(s.sources, k, i, y), ListedWith(s'.sources, k, i, y'))
  {
    var s', e := After(s, ReadNext), s.hand.todo[0];
    u', y' := u, y;
    if s'.hand.todo == s.hand.todo {
      ScanMoves(s, k, i, u, y);
    } else if e.Key() != k {
      OtherKeyRead(s, k, i, u, y);
    } else {
      EventPopped(s, k, i, u);
      EventRead(s, k, i, u);
      PopSaid(s);
      assert Stream(s, i)[0] == e && Stream(s, i)[1..] == Stream(s', i);
      u' := e.next;
      if y == u { y' := e.next; } else { SaysNothing(s, s', k, ListedWith(s.sources, k, i, y)); }
    }
  }

  /** Every step keeps the turn, and what it says links what was to be listed to what is to be listed. */
  lemma StepInTurn(s: State, a: Step, k: Key, i: nat, u: Option<Obj>, y: Option<Obj>)
    returns (i': nat, u': Option<Obj>, y': Option<Obj>)
    requires Inv(s) && Enabled(s, a) && InTurn(s, a, k) && Turn(s, k, i, u) && OnChain(Stream(s, i), k, u, y)
    requires AllKeyed(s.sources)
    ensures var s' := After(s, a);
            && Turn(s', k, i', u') && OnChain(Stream(s', i'), k, u', y')
            && Says(s, s', k, ListedWith(s.sources, k, i, y), ListedWith(s'.sources, k, i', y'))
  {
    i', u', y' := i, u, y;
    match a
    case SourceChanges(j, batch, _) =>
      if j == i {
        SameSourceChanges(s, a, k, i, u, y);
      } else if !About(batch, k) {
        OtherKeyChanges(s, a, k, i, u, y);
      } else {
        i', u', y' := j, Get(s.sources[j], k), Get(s.sources[j], k);
        TurnPasses(s, a, k, i, u, y);
      }
    case Begin(_, _) => HandMoves(s, a, k, i, u, y);
    case ReadNext => u', y' := ReadInTurn(s, k, i, u, y);
    case End => HandMoves(s, a, k, i, u, y);
  }

  lemma {:induction false} RunInTurn(s: State, steps: seq<Step>, s': State, k: Key, i: nat, u: Option<Obj>,
                                     y: Option<Obj>)
    returns (i': nat, u': Option<Obj>, y': Option<Obj>)
    requires Inv(s) && Tagged(s) && ReachesInTurn(s, steps, s', k) && Turn(s, k, i, u) && OnChain(Stream(s, i), k, u, y)
    ensures Inv(s') && Tagged(s') && Turn(s', k, i', u') && OnChain(Stream(s', i'), k, u', y')
    ensures Says(s, s', k, ListedWith(s.sources, k, i, y), ListedWith(s'.sources, k, i', y'))
    decreases steps
  {
    if steps == [] {
      i', u', y' := i, u, y;
      SaysNothing(s, s', k, ListedWith(s.sources, k, i, y));
    } else {
      var a, s1 := steps[0], After(s, steps[0]);
      StepKeepsInv(s, a);
      TagStep(s, a);
      var i1, u1, y1 := StepInTurn(s, a, k, i, u, y);
      i', u', y' := RunInTurn(s1, steps[1..], s', k, i1, u1, y1);
      SaysOn(s, s1, s', k, ListedWith(s.sources, k, i, y), ListedWith(s1.sources, k, i1, y1),
             ListedWith(s'.sources, k, i', y'));
    }
  }

  /** A value on the way of the source whose turn it is: what it has now. */
  lemma {:induction false} EndOfChain(stream: seq<Event>, k: Key, u: Option<Obj>, v: Option<Obj>)
    requires Chain(stream, k, u, v)
    ensures OnChain(stream, k, u, v)
    decreases stream
  {
    if stream != [] {
      EndOfChain(stream[1..], k, if stream[0].WellFormed() && stream[0].Key() == k then stream[0].next else u, v);
    }
  }

  lemma {:induction false} FrameInTurn(s: State, steps: seq<Step>, s': State, k: Key)
    requires Inv(s) && Tagged(s) && ReachesInTurn(s, steps, s', k)
    ensures |s'.sources| == |s.sources| && Inv(s') && Tagged(s') && s.published <= s'.published
    decreases steps
  {
    if steps != [] {
      StepKeepsInv(s, steps[0]);
      TagStep(s, steps[0]);
      FrameInTurn(After(s, steps[0]), steps[1..], s', k);
    }
  }

  /** A join whose sources take turns announces every change: if, while events about a key wait, only the source they
      come from changes that key, then whatever was listed for it at any moment is linked, by what is published from
      that moment on, to what is listed once nothing about it waits any more. */
  lemma TurnsAnnounce(init: State, past: seq<Step>, s0: State, steps: seq<Step>, s: State, more: seq<Step>, s': State,
                      k: Key)
    requires Initial(init) && Reaches(init, past, s0) && Quiet(s0, k)
    requires ReachesInTurn(s0, steps, s, k) && ReachesInTurn(s, more, s', k) && Quiet(s', k) && s'.hand.Nothing?
    ensures s.published <= s'.published
    ensures Links(s'.published[|s.published|..], k, Winner(s.sources, k), Winner(s'.sources, k))
  {
    InitialInv(init);
    RunKeepsInv(init, past, s0);
    RunFolds(init, past, s0);
    FrameInTurn(s0, steps, s, k);
    FrameInTurn(s, more, s', k);
    if |s0.sources| == 0 {
      LinksItself(s'.published[|s.published|..], k, None);
    } else {
      var v := Get(s0.sources[0], k);
      ChainQuiet(Stream(s0, 0), k, v);
      NothingInHand(s0, k);
      var i, u, y := RunInTurn(s0, steps, s, k, 0, v, v);
      TurnEnds(s, more, s', k, i, u);
    }
  }

  lemma TurnEnds(s: State, more: seq<Step>, s': State, k: Key, i: nat, u: Option<Obj>)
    requires Inv(s) && Tagged(s) && Turn(s, k, i, u) && ReachesInTurn(s, more, s', k)
    requires Quiet(s', k) && s'.hand.Nothing?
    requires s.published <= s'.published
    ensures Links(s'.published[|s.published|..], k, Winner(s.sources, k), Winner(s'.sources, k))
  {
    var v := Get(s.sources[i], k);
    EndOfChain(Stream(s, i), k, u, v);
    var i', u', y' := RunInTurn(s, more, s', k, i, u, v);
    ChainQuiet(Stream(s', i'), k, u');
    ListedNow(s.sources, k, i);
    ListedNow(s'.sources, k, i');
    SaidIsPublished(s, s', k, Winner(s.sources, k), Winner(s'.sources, k));
  }

  /** What was in hand is published by then. */
  lemma SaidIsPublished(s: State, s': State, k: Key, x: Option<Obj>, y: Option<Obj>)
    requires Says(s, s', k, x, y) && s'.hand.Nothing? && s.published <= s'.published
    ensures Links(s'.published[|s.published|..], k, x, y)
  {
    var said, all := Said(s')[|Said(s)|..], s'.published[|s.published|..];
    assert Said(s') == s'.published;
    assert forall n | 0 <= n < |said| :: said[n] == all[n + |Said(s)| - |s.published|];
    LinksInMore(said, all, k, x, y);
  }
}
