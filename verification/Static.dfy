/** The mutable source collection (pkg/krt/static.go). */
module Static {
  import opened Collections
  import opened Events
  import opened Filters
  import opened Indexes
  import Derived
  import opened Announcements

  predicate DistinctKeys(objs: seq<Obj>) {
    forall i, j | 0 <= i < j < |objs| :: objs[i].key != objs[j].key
  }

  /** The contents given by a list: of several objects with one key, the last. */
  function Listed(objs: seq<Obj>): Contents {
    if objs == [] then map[]
    else Listed(objs[..|objs| - 1])[objs[|objs| - 1].key := objs[|objs| - 1]]
  }

  lemma {:induction false} ListedKeys(objs: seq<Obj>)
    ensures Keyed(Listed(objs))
    ensures forall k :: k in Listed(objs) <==> exists i :: 0 <= i < |objs| && objs[i].key == k
  {
    if objs != [] {
      var n := |objs| - 1;
      ListedKeys(objs[..n]);
      forall k ensures k in Listed(objs) <==> exists i :: 0 <= i < |objs| && objs[i].key == k {
        if k in Listed(objs[..n]) {
          var i :| 0 <= i < n && objs[..n][i].key == k;
          assert objs[i].key == k;
        }
        if i :| 0 <= i < |objs| && objs[i].key == k {
          if i < n { assert objs[..n][i].key == k; }
        }
      }
    }
  }

  lemma DistinctSnoc(objs: seq<Obj>, n: nat)
    requires n < |objs|
    ensures DistinctKeys(objs[..n + 1]) <==> DistinctKeys(objs[..n]) && objs[n].key !in Listed(objs[..n])
  {
    ListedKeys(objs[..n]);
    if DistinctKeys(objs[..n + 1]) {
      assert forall i | 0 <= i < n :: objs[..n][i] == objs[..n + 1][i];
      assert objs[..n + 1][n] == objs[n];
    }
    if DistinctKeys(objs[..n]) && objs[n].key !in Listed(objs[..n]) {
      var all := objs[..n + 1];
      forall i, j | 0 <= i < j < |all| ensures all[i].key != all[j].key {
        assert all[i] == objs[..n][i];
      }
    }
  }

  /** The state of a reset in progress: what is left of the old contents, and what is new. */
  datatype Progress = Progress(rest: Contents, taken: Contents, indexes: IndexSet, events: seq<Event>)

  /** The change that taking one object makes. */
  function Incoming(rest: Contents, o: Obj): Event {
    if o.key in rest then Event(Some(rest[o.key]), Some(o), Update) else Event(None, Some(o), Add)
  }

  function Removal(c: Contents, k: Key): Event
    requires k in c
  {
    Event(Some(c[k]), None, Delete)
  }

  /** The events of a reset for the objects given: one that is held already as it is makes none. */
  function Takings(start: Contents, objs: seq<Obj>): seq<Event> {
    if objs == [] then []
    else
      var n := |objs| - 1;
      var e := Incoming(start - Listed(objs[..n]).Keys, objs[n]);
      Takings(start, objs[..n]) + if e.prev == e.next then [] else [e]
  }

  // ----- how a reset replays -----

  /** While no key has come twice, the events so far lead from the old contents to the new ones plus the
      rest; from the first repeated key on, they replay no more. */
  ghost predicate OnTrack(start: Contents, objs: seq<Obj>, rest: Contents, events: seq<Event>) {
    if DistinctKeys(objs) then Replay(start, events) == Some(rest + Listed(objs)) else Replay(start, events).None?
  }

  /** Taking an object of a new key moves the key from what is left to what is new. */
  lemma TakeMoves(start: Contents, taken: Contents, o: Obj)
    requires Keyed(start) && o.key !in taken
    ensures var rest := start - taken.Keys;
            Mirror(rest + taken, Incoming(rest, o)) == (start - taken[o.key := o].Keys) + taken[o.key := o]
  {
    var rest, more := start - taken.Keys, taken[o.key := o];
    assert more.Keys == taken.Keys + {o.key};
    assert (rest + taken)[o.key := o] == (start - more.Keys) + more;
  }

  lemma TakeDistinct(start: Contents, less: seq<Obj>, o: Obj, events: seq<Event>)
    requires Keyed(start) && o.key !in Listed(less)
    requires Replay(start, events) == Some((start - Listed(less).Keys) + Listed(less))
    ensures var e := Incoming(start - Listed(less).Keys, o);
            Replay(start, events + if e.prev == e.next then [] else [e]) ==
            Some((start - Listed(less)[o.key := o].Keys) + Listed(less)[o.key := o])
  {
    var rest, taken := start - Listed(less).Keys, Listed(less);
    var e, now := Incoming(rest, o), rest + taken;
    assert Get(now, o.key) == Get(rest, o.key);
    TakeMoves(start, taken, o);
    if e.prev == e.next {
      assert Mirror(now, e) == now && events + [] == events;
    } else {
      ReplaySnoc(start, events, e);
    }
  }

  /** A key that comes again is announced as an Add although it is there. */
  lemma TakeRepeated(start: Contents, less: seq<Obj>, o: Obj, events: seq<Event>)
    requires OnTrack(start, less, start - Listed(less).Keys, events) && (DistinctKeys(less) ==> o.key in Listed(less))
    ensures var e := Incoming(start - Listed(less).Keys, o);
            Replay(start, events + if e.prev == e.next then [] else [e]).None?
  {
    var rest := start - Listed(less).Keys;
    var e := Incoming(rest, o);
    if DistinctKeys(less) {
      assert !Strict(rest + Listed(less), e);
      ReplaySnoc(start, events, e);
    } else {
      assert events + [] == events;
      ReplayConcat(start, events, [e]);
    }
  }

  lemma {:induction false} TakingsOnTrack(start: Contents, objs: seq<Obj>)
    requires Keyed(start)
    ensures OnTrack(start, objs, start - Listed(objs).Keys, Takings(start, objs))
  {
    if objs == [] {
      assert (start - Listed(objs).Keys) + Listed(objs) == start;
    } else {
      var n := |objs| - 1;
      var less, o := objs[..n], objs[n];
      TakingsOnTrack(start, less);
      DistinctSnoc(objs, n);
      assert objs[..n + 1] == objs;
      if DistinctKeys(objs) {
        TakeDistinct(start, less, o, Takings(start, less));
      } else {
        TakeRepeated(start, less, o, Takings(start, less));
      }
    }
  }

  /** A Delete for what is left keeps on track. */
  lemma DropOne(start: Contents, objs: seq<Obj>, rest: Contents, events: seq<Event>, k: Key)
    requires rest.Keys !! Listed(objs).Keys && Keyed(rest) && OnTrack(start, objs, rest, events) && k in rest
    ensures OnTrack(start, objs, rest - {k}, events + [Removal(rest, k)])
  {
    var e, now := Removal(rest, k), rest + Listed(objs);
    if DistinctKeys(objs) {
      assert Mirror(now, e) == (rest - {k}) + Listed(objs);
      ReplaySnoc(start, events, e);
    } else {
      ReplayConcat(start, events, [e]);
    }
  }

  // ----- what a reset announces -----

  predicate FirstGiven(objs: seq<Obj>, i: nat)
    requires i < |objs|
  {
    forall j | 0 <= j < i :: objs[j].key != objs[i].key
  }

  /** Only the first object given for a key meets the one that was held; any further one comes as an Add. */
  function Taking(start: Contents, objs: seq<Obj>, i: nat): Event
    requires i < |objs|
  {
    if FirstGiven(objs, i) then Incoming(start, objs[i]) else Event(None, Some(objs[i]), Add)
  }

  lemma TakingNow(start: Contents, objs: seq<Obj>)
    requires objs != []
    ensures var n := |objs| - 1; Incoming(start - Listed(objs[..n]).Keys, objs[n]) == Taking(start, objs, n)
  {
    var n := |objs| - 1;
    ListedKeys(objs[..n]);
    if objs[n].key in Listed(objs[..n]) {
      var i :| 0 <= i < n && objs[..n][i].key == objs[n].key;
      assert objs[i].key == objs[n].key;
    } else {
      assert forall j | 0 <= j < n :: objs[..n][j] == objs[j];
    }
  }

  lemma TakingBefore(start: Contents, objs: seq<Obj>, i: nat)
    requires i < |objs| - 1
    ensures Taking(start, objs[..|objs| - 1], i) == Taking(start, objs, i)
  {
    var less := objs[..|objs| - 1];
    assert forall j | 0 <= j <= i :: less[j] == objs[j];
  }

  lemma {:induction false} TakingIn(start: Contents, objs: seq<Obj>, i: nat)
    requires i < |objs| && Taking(start, objs, i).prev != Taking(start, objs, i).next
    ensures Taking(start, objs, i) in Takings(start, objs)
  {
    TakingNow(start, objs);
    if i < |objs| - 1 {
      TakingBefore(start, objs, i);
      TakingIn(start, objs[..|objs| - 1], i);
    }
  }

  lemma {:induction false} TakingsOnly(start: Contents, objs: seq<Obj>, e: Event) returns (i: nat)
    requires e in Takings(start, objs)
    ensures i < |objs| && e == Taking(start, objs, i)
  {
    TakingNow(start, objs);
    i := |objs| - 1;
    if e != Taking(start, objs, i) {
      i := TakingsOnly(start, objs[..|objs| - 1], e);
      TakingBefore(start, objs, i);
    }
  }

  /** All events of a reset: those for the objects given, and a Delete for each object held under a key not given. */
  ghost predicate ResetEvents(start: Contents, objs: seq<Obj>, events: seq<Event>) {
    && (forall e | e in Takings(start, objs) :: e in events)
    && (forall k | k in start && k !in Listed(objs) :: Removal(start, k) in events)
    && (forall e | e in events :: e in Takings(start, objs) ||
          exists k :: k in start && k !in Listed(objs) && e == Removal(start, k))
  }

  /** The same key is given again after its first object. */
  predicate GivenAgain(objs: seq<Obj>, i: nat)
    requires i < |objs|
  {
    exists j | i < j < |objs| :: objs[j].key == objs[i].key
  }

  /** After the first object given for its key, that object is given again, or the one that was held is. */
  predicate Returns(was: Contents, objs: seq<Obj>, i: nat)
    requires i < |objs|
  {
    exists j | i < j < |objs| ::
      objs[j].key == objs[i].key && (objs[j] == objs[i] || Get(was, objs[i].key) == Some(objs[j]))
  }

  /** Of every key that is held and given more than once, the object held or the first one given comes again. */
  predicate RepeatsReturn(was: Contents, objs: seq<Obj>) {
    forall i | 0 <= i < |objs| && FirstGiven(objs, i) && objs[i].key in was && GivenAgain(objs, i) ::
      Returns(was, objs, i)
  }

  lemma {:induction false} FirstOfKey(objs: seq<Obj>, k: Key, j: nat) returns (i: nat)
    requires j < |objs| && objs[j].key == k
    ensures i <= j && objs[i].key == k && FirstGiven(objs, i)
  {
    i := j;
    if !FirstGiven(objs, j) {
      var m :| 0 <= m < j && objs[m].key == k;
      i := FirstOfKey(objs, k, m);
    }
  }

  lemma {:induction false} ListedIsLast(objs: seq<Obj>, k: Key) returns (i: nat)
    requires k in Listed(objs)
    ensures i < |objs| && objs[i].key == k && Listed(objs)[k] == objs[i]
    ensures forall j | i < j < |objs| :: objs[j].key != k
  {
    var n := |objs| - 1;
    if objs[n].key == k {
      i := n;
    } else {
      i := ListedIsLast(objs[..n], k);
      assert forall j | i < j < n :: objs[..n][j] == objs[j];
    }
  }

  /** An object given for a key is linked to what its event has on the other side. */
  lemma TakingLinks(start: Contents, objs: seq<Obj>, events: seq<Event>, i: nat)
    requires Keyed(start) && ResetEvents(start, objs, events) && i < |objs|
    ensures Links(events, objs[i].key, Taking(start, objs, i).prev, Some(objs[i]))
  {
    var e, k := Taking(start, objs, i), objs[i].key;
    if e.prev == e.next {
      LinksItself(events, k, e.prev);
    } else {
      TakingIn(start, objs, i);
      assert e in events && Joins(e, k, e.prev, e.next);
      LinksOne(events, k, e.prev, e.next);
    }
  }

  /** A further object given for a key comes as an Add, so it is linked to absence and to every other such object. */
  lemma FurtherLinks(start: Contents, objs: seq<Obj>, events: seq<Event>, i: nat, j: nat)
    requires Keyed(start) && ResetEvents(start, objs, events) && i < |objs| && j < |objs| && objs[i].key == objs[j].key
    requires Taking(start, objs, i).prev.None? && Taking(start, objs, j).prev.None?
    ensures Links(events, objs[i].key, Some(objs[i]), Some(objs[j]))
  {
    var k := objs[i].key;
    TakingLinks(start, objs, events, i);
    TakingLinks(start, objs, events, j);
    LinksBack(events, k, None, Some(objs[i]));
    LinksThrough(events, k, Some(objs[i]), None, Some(objs[j]));
  }

  lemma ReturnedLinks(start: Contents, objs: seq<Obj>, events: seq<Event>, i: nat, last: nat)
    requires Keyed(start) && ResetEvents(start, objs, events) && i < last < |objs| && FirstGiven(objs, i)
    requires objs[i].key == objs[last].key && objs[i].key in start && Returns(start, objs, i)
    ensures Links(events, objs[i].key, Some(start[objs[i].key]), Some(objs[last]))
  {
    var k := objs[i].key;
    var j :| i < j < |objs| && objs[j].key == k && (objs[j] == objs[i] || Some(start[k]) == Some(objs[j]));
    FurtherLinks(start, objs, events, j, last);
    if objs[j] == objs[i] {
      TakingLinks(start, objs, events, i);
      LinksThrough(events, k, Some(start[k]), Some(objs[i]), Some(objs[last]));
    }
  }

  /** Without a return, a further object given for the key is neither the one held nor the first one given. */
  lemma UnreturnedEvent(start: Contents, objs: seq<Obj>, events: seq<Event>, i: nat, e: Event)
    requires Keyed(start) && ResetEvents(start, objs, events) && i < |objs| && FirstGiven(objs, i)
    requires objs[i].key in start && !Returns(start, objs, i)
    requires e in events && e.WellFormed() && e.Key() == objs[i].key
    ensures var m := {Some(start[objs[i].key]), Some(objs[i])}; e.prev in m <==> e.next in m
  {
    assert objs[i].key in Listed(objs) by { ListedKeys(objs); }
    var j := TakingsOnly(start, objs, e);
    assert objs[j].key == objs[i].key && (FirstGiven(objs, j) <==> j == i);
    if j != i { assert e == Event(None, Some(objs[j]), Add) && i < j; }
  }

  /** Without a return, no event leads out of the object held and the first one given. */
  lemma UnreturnedStays(start: Contents, objs: seq<Obj>, events: seq<Event>, i: nat, last: nat)
    requires Keyed(start) && ResetEvents(start, objs, events) && i < last < |objs| && FirstGiven(objs, i)
    requires objs[i].key == objs[last].key && objs[i].key in start && !Returns(start, objs, i)
    ensures !Links(events, objs[i].key, Some(start[objs[i].key]), Some(objs[last]))
  {
    var k := objs[i].key;
    var m := {Some(start[k]), Some(objs[i])};
    forall e | e in events && e.WellFormed() && e.Key() == k ensures e.prev in m <==> e.next in m {
      UnreturnedEvent(start, objs, events, i, e);
    }
    if Links(events, k, Some(start[k]), Some(objs[last])) {
      LinksStay(events, k, Some(start[k]), Some(objs[last]), m);
      assert false;
    }
  }

  /** A key that was held and is given is announced if and only if it is given once, or something of it returns. */
  lemma GivenAnnouncedIff(start: Contents, objs: seq<Obj>, events: seq<Event>, i: nat)
    requires Keyed(start) && ResetEvents(start, objs, events) && i < |objs| && FirstGiven(objs, i)
    requires objs[i].key in start
    ensures var k := objs[i].key;
            Links(events, k, Get(start, k), Get(Listed(objs), k)) <==> !GivenAgain(objs, i) || Returns(start, objs, i)
  {
    var k := objs[i].key;
    ListedKeys(objs);
    var last := ListedIsLast(objs, k);
    if last == i {
      TakingLinks(start, objs, events, i);
    } else {
      assert i < last by { if last < i { assert false; } }
      if Returns(start, objs, i) {
        ReturnedLinks(start, objs, events, i, last);
      } else {
        UnreturnedStays(start, objs, events, i, last);
      }
    }
  }

  /** A key that was not held, or is not given, is always announced. */
  lemma OtherAnnounced(start: Contents, objs: seq<Obj>, events: seq<Event>, k: Key)
    requires Keyed(start) && ResetEvents(start, objs, events) && (k !in start || k !in Listed(objs))
    ensures Links(events, k, Get(start, k), Get(Listed(objs), k))
  {
    if k in Listed(objs) {
      var last := ListedIsLast(objs, k);
      TakingLinks(start, objs, events, last);
    } else if k in start {
      var e := Removal(start, k);
      assert e in events && Joins(e, k, e.prev, e.next);
      LinksOne(events, k, e.prev, e.next);
    } else {
      LinksItself(events, k, None);
    }
  }

  /** Exactly when the batch of a reset is enough for those who fetch from the collection. */
  lemma ResetAnnouncesIff(start: Contents, objs: seq<Obj>, events: seq<Event>)
    requires Keyed(start) && ResetEvents(start, objs, events)
    ensures Announces(events, start, Listed(objs)) <==> RepeatsReturn(start, objs)
  {
    if Announces(events, start, Listed(objs)) {
      forall i | 0 <= i < |objs| && FirstGiven(objs, i) && objs[i].key in start && GivenAgain(objs, i)
        ensures Returns(start, objs, i)
      {
        var k := objs[i].key;
        assert Links(events, k, Get(start, k), Get(Listed(objs), k));
        GivenAnnouncedIff(start, objs, events, i);
      }
    }
    if RepeatsReturn(start, objs) {
      forall k ensures Links(events, k, Get(start, k), Get(Listed(objs), k)) {
        ListedKeys(objs);
        if k in start && k in Listed(objs) {
          var last := ListedIsLast(objs, k);
          var i := FirstOfKey(objs, k, last);
          GivenAnnouncedIff(start, objs, events, i);
        } else {
          OtherAnnounced(start, objs, events, k);
        }
      }
    }
  }

  lemma ResetWellFormed(start: Contents, objs: seq<Obj>, events: seq<Event>)
    requires Keyed(start) && ResetEvents(start, objs, events)
    ensures AllWellFormed(events)
  {
    forall n | 0 <= n < |events| ensures events[n].WellFormed() {
      assert events[n] in events;
      if events[n] in Takings(start, objs) { var i := TakingsOnly(start, objs, events[n]); }
    }
  }

  /** A reset need not announce. It held `a` and is given `b` and then `c` for the same key: an Update to `b`, if that
      is another, and an Add of `c` are published. Some query that was answered with `a` is not affected, although its
      answer is now another. */
  lemma RepeatedKeyMisses(k: Key, a: Obj, b: Obj, c: Obj, events: seq<Event>, id: nat) returns (f: Filter)
    requires a.key == b.key == c.key == k && a != c && b != c && ResetEvents(map[k := a], [b, c], events)
    ensures Listed([b, c]) == map[k := c] && !AffectsAny(Dependency(id, f), id, events)
    ensures SeenAs(f, (_: Obj) => true, Some(a)) != SeenAs(f, (_: Obj) => true, Some(c))
  {
    var start, objs := map[k := a], [b, c];
    assert objs[..1] == [b] && [b][..0] == [];
    assert Listed(objs) == Listed([b])[k := c] == map[k := c];
    assert FirstGiven(objs, 0) && objs[1].key == objs[0].key && !Returns(start, objs, 0);
    GivenAnnouncedIff(start, objs, events, 0);
    ResetWellFormed(start, objs, events);
    f := UnlinkedIsMissed(events, k, Some(a), Some(c), id);
  }

  // ----- the indexes of a reset -----

  /** Some of the objects has the key `k` and extracts to `b`. */
  ghost predicate Gives(extract: Obj -> seq<string>, objs: seq<Obj>, b: string, k: Key) {
    exists i :: 0 <= i < |objs| && objs[i].key == k && b in extract(objs[i])
  }

  /** During a reset, a key is in the buckets of its old object, and once it has been given in those of all objects
      given for it. */
  ghost predicate Gathered(idx: Index, rest: Contents, objs: seq<Obj>) {
    && Tidy(idx.buckets)
    && forall b, k :: Holds(idx.buckets, b, k) <==>
         (k in rest && b in idx.extract(rest[k])) || Gives(idx.extract, objs, b, k)
  }

  lemma GivesSnoc(extract: Obj -> seq<string>, objs: seq<Obj>, n: nat, b: string, k: Key)
    requires n < |objs|
    ensures Gives(extract, objs[..n + 1], b, k) <==>
              Gives(extract, objs[..n], b, k) || (objs[n].key == k && b in extract(objs[n]))
  {
    var less, more := objs[..n], objs[..n + 1];
    assert more == less + [objs[n]];
    if Gives(extract, less, b, k) {
      var i :| 0 <= i < |less| && less[i].key == k && b in extract(less[i]);
      assert more[i] == less[i];
    }
    if objs[n].key == k && b in extract(objs[n]) { assert more[n] == objs[n]; }
    if Gives(extract, more, b, k) {
      var i :| 0 <= i < |more| && more[i].key == k && b in extract(more[i]);
      if i < n { assert less[i] == more[i]; }
    }
  }

  /** A key that is still in the old contents has not been given. */
  lemma NotGiven(extract: Obj -> seq<string>, rest: Contents, objs: seq<Obj>, b: string, k: Key)
    requires rest.Keys !! Listed(objs).Keys && k in rest
    ensures !Gives(extract, objs, b, k)
  {
    ListedKeys(objs);
  }

  lemma TakeGathers(idx: Index, rest: Contents, objs: seq<Obj>, n: nat, r: Index)
    requires n < |objs| && Gathered(idx, rest, objs[..n]) && rest.Keys !! Listed(objs[..n]).Keys
    requires if objs[n].key in rest && rest[objs[n].key] == objs[n] then r == idx
             else Moved(idx, Incoming(rest, objs[n]), objs[n].key, r)
    ensures Gathered(r, rest - {objs[n].key}, objs[..n + 1])
  {
    var o, rest' := objs[n], rest - {objs[n].key};
    forall b, k ensures Holds(r.buckets, b, k) <==>
      (k in rest' && b in r.extract(rest'[k])) || Gives(r.extract, objs[..n + 1], b, k)
    {
      GivesSnoc(idx.extract, objs, n, b, k);
      if k in rest { NotGiven(idx.extract, rest, objs[..n], b, k); }
    }
  }

  lemma DropGathers(idx: Index, rest: Contents, objs: seq<Obj>, k: Key, r: Index)
    requires Gathered(idx, rest, objs) && rest.Keys !! Listed(objs).Keys && k in rest
    requires Moved(idx, Removal(rest, k), k, r)
    ensures Gathered(r, rest - {k}, objs)
  {
    forall b ensures !Gives(idx.extract, objs, b, k) { NotGiven(idx.extract, rest, objs, b, k); }
  }

  ghost predicate GatheredAll(indexes: IndexSet, rest: Contents, objs: seq<Obj>) {
    forall n | n in indexes :: Gathered(indexes[n], rest, objs)
  }

  ghost predicate SameExtractors(a: IndexSet, b: IndexSet) {
    a.Keys == b.Keys && forall n | n in a :: a[n].extract == b[n].extract
  }

  /** Every object given extracts only to buckets of the last object given for its key. */
  ghost predicate Fits(extract: Obj -> seq<string>, objs: seq<Obj>) {
    forall i, b | 0 <= i < |objs| && b in extract(objs[i]) ::
      objs[i].key in Listed(objs) && b in extract(Listed(objs)[objs[i].key])
  }

  /** After a reset an index is exact if and only if the objects given fit. */
  lemma GatheredIsExactIff(idx: Index, objs: seq<Obj>)
    requires Gathered(idx, map[], objs)
    ensures Exact(idx, Listed(objs)) <==> Fits(idx.extract, objs)
  {
    var c := Listed(objs);
    ListedKeys(objs);
    forall b, k | k in c && b in idx.extract(c[k]) ensures Holds(idx.buckets, b, k) {
      var i := ListedIsLast(objs, k);
      assert Gives(idx.extract, objs, b, k);
    }
    if Exact(idx, c) {
      forall i, b | 0 <= i < |objs| && b in idx.extract(objs[i])
        ensures objs[i].key in c && b in idx.extract(c[objs[i].key])
      {
        assert Gives(idx.extract, objs, b, objs[i].key);
        assert Holds(idx.buckets, b, objs[i].key);
      }
    }
  }

  /** All objects given for one key are equal. */
  ghost predicate OneEach(objs: seq<Obj>) {
    forall i, j | 0 <= i < |objs| && 0 <= j < |objs| && objs[i].key == objs[j].key :: objs[i] == objs[j]
  }

  /** Every index there could be stays exact if and only if all objects given for one key are equal: an index that tells
      two of them apart finds the earlier one in a bucket of its own. */
  lemma EveryIndexFitsIff(objs: seq<Obj>)
    ensures OneEach(objs) <==> forall extract: Obj -> seq<string> :: Fits(extract, objs)
  {
    ListedKeys(objs);
    if OneEach(objs) {
      forall extract: Obj -> seq<string> ensures Fits(extract, objs) {
        forall i, b | 0 <= i < |objs| && b in extract(objs[i])
          ensures objs[i].key in Listed(objs) && b in extract(Listed(objs)[objs[i].key])
        {
          var j := ListedIsLast(objs, objs[i].key);
        }
      }
    }
    if forall extract: Obj -> seq<string> :: Fits(extract, objs) {
      forall i, j | 0 <= i < |objs| && 0 <= j < |objs| && objs[i].key == objs[j].key ensures objs[i] == objs[j] {
        FitsTelling(objs, i);
        FitsTelling(objs, j);
      }
    }
  }

  lemma FitsTelling(objs: seq<Obj>, i: nat)
    requires i < |objs| && forall extract: Obj -> seq<string> :: Fits(extract, objs)
    ensures objs[i].key in Listed(objs) && Listed(objs)[objs[i].key] == objs[i]
  {
    var tell := (o: Obj) => if o == objs[i] then ["it"] else [];
    assert Fits(tell, objs) && "it" in tell(objs[i]);
  }

  lemma ExactAfterReset(indexes: IndexSet, objs: seq<Obj>)
    requires GatheredAll(indexes, map[], objs)
    ensures forall n | n in indexes :: Exact(indexes[n], Listed(objs)) <==> Fits(indexes[n].extract, objs)
    ensures OneEach(objs) ==> ExactAll(indexes, Listed(objs))
  {
    EveryIndexFitsIff(objs);
    forall n | n in indexes ensures Exact(indexes[n], Listed(objs)) <==> Fits(indexes[n].extract, objs) {
      GatheredIsExactIff(indexes[n], objs);
    }
  }

  // ----- the code -----

  method TakeOne(p: Progress, objs: seq<Obj>, n: nat, ghost start: Contents) returns (r: Progress)
    requires n < |objs| && p.taken == Listed(objs[..n])
    requires p.rest == start - p.taken.Keys && p.events == Takings(start, objs[..n])
    ensures r.taken == Listed(objs[..n + 1]) && SameExtractors(p.indexes, r.indexes)
    ensures r.rest == start - r.taken.Keys && r.events == Takings(start, objs[..n + 1])
    ensures GatheredAll(p.indexes, p.rest, objs[..n]) ==> GatheredAll(r.indexes, r.rest, objs[..n + 1])
  {
    var o := objs[n];
    var indexes, events := p.indexes, p.events;
    var e := Incoming(p.rest, o);
    if !(o.key in p.rest && p.rest[o.key] == o) {
      indexes := UpdateIndexes(indexes, e, o.key);
      events := events + [e];
    }
    r := Progress(p.rest - {o.key}, p.taken[o.key := o], indexes, events);
    assert objs[..n + 1][..n] == objs[..n];
    if GatheredAll(p.indexes, p.rest, objs[..n]) {
      forall m | m in indexes ensures Gathered(indexes[m], r.rest, objs[..n + 1]) {
        TakeGathers(p.indexes[m], p.rest, objs, n, indexes[m]);
      }
    }
  }

  method TakeAll(vals: Contents, indexes: IndexSet, objs: seq<Obj>) returns (p: Progress)
    ensures p.taken == Listed(objs) && SameExtractors(indexes, p.indexes)
    ensures p.rest == vals - p.taken.Keys && p.events == Takings(vals, objs)
    ensures ExactAll(indexes, vals) ==> GatheredAll(p.indexes, p.rest, objs)
  {
    p := Progress(vals, map[], indexes, []);
    for n := 0 to |objs|
      invariant p.taken == Listed(objs[..n]) && SameExtractors(indexes, p.indexes)
      invariant p.rest == vals - p.taken.Keys && p.events == Takings(vals, objs[..n])
      invariant ExactAll(indexes, vals) ==> GatheredAll(p.indexes, p.rest, objs[..n])
    {
      p := TakeOne(p, objs, n, vals);
    }
    assert objs[..|objs|] == objs;
  }

  /** What has been dropped so far has been announced, and nothing else. */
  ghost predicate Dropped(p: Progress, r: Progress) {
    && r.rest.Keys <= p.rest.Keys && (forall k | k in r.rest :: r.rest[k] == p.rest[k])
    && (forall e | e in p.events :: e in r.events)
    && (forall k | k in p.rest && k !in r.rest :: Removal(p.rest, k) in r.events)
    && (forall e | e in r.events :: e in p.events || exists k | k in p.rest :: e == Removal(p.rest, k))
  }

  method DropRest(p: Progress, objs: seq<Obj>, ghost start: Contents) returns (r: Progress)
    requires p.taken == Listed(objs) && p.rest.Keys !! p.taken.Keys && Keyed(p.rest)
    requires OnTrack(start, objs, p.rest, p.events)
    ensures r.rest == map[] && r.taken == p.taken && OnTrack(start, objs, r.rest, r.events)
    ensures Dropped(p, r) && SameExtractors(p.indexes, r.indexes)
    ensures GatheredAll(p.indexes, p.rest, objs) ==> GatheredAll(r.indexes, map[], objs)
  {
    r := p;
    var todo := p.rest.Keys;
    while todo != {}
      invariant Dropped(p, r)
      invariant todo == r.rest.Keys && todo <= p.rest.Keys
      invariant r.taken == p.taken && r.rest.Keys !! r.taken.Keys && Keyed(r.rest)
      invariant OnTrack(start, objs, r.rest, r.events)
      invariant SameExtractors(p.indexes, r.indexes)
      invariant GatheredAll(p.indexes, p.rest, objs) ==> GatheredAll(r.indexes, r.rest, objs)
    {
      var k :| k in todo;
      todo := todo - {k};
      ghost var was := r;
      r := DropKey(r, objs, k, start);
      DropMore(p, was, k, r);
    }
    assert r.rest == map[];
  }

  lemma DropMore(p: Progress, r: Progress, k: Key, r': Progress)
    requires Dropped(p, r) && k in r.rest
    requires r'.rest == r.rest - {k} && r'.events == r.events + [Removal(r.rest, k)]
    ensures Dropped(p, r')
  {
    assert Removal(r.rest, k) == Removal(p.rest, k) && Removal(p.rest, k) in r'.events;
  }

  method DropKey(p: Progress, objs: seq<Obj>, k: Key, ghost start: Contents) returns (r: Progress)
    requires p.taken == Listed(objs) && p.rest.Keys !! p.taken.Keys && Keyed(p.rest)
    requires OnTrack(start, objs, p.rest, p.events)
    requires k in p.rest
    ensures r.rest == p.rest - {k} && r.taken == p.taken && r.events == p.events + [Removal(p.rest, k)]
    ensures OnTrack(start, objs, r.rest, r.events) && SameExtractors(p.indexes, r.indexes)
    ensures GatheredAll(p.indexes, p.rest, objs) ==> GatheredAll(r.indexes, r.rest, objs)
  {
    var e := Removal(p.rest, k);
    var indexes := UpdateIndexes(p.indexes, e, k);
    DropOne(start, objs, p.rest, p.events, k);
    r := Progress(p.rest - {k}, p.taken, indexes, p.events + [e]);
    if GatheredAll(p.indexes, p.rest, objs) {
      forall m | m in indexes ensures Gathered(indexes[m], r.rest, objs) {
        DropGathers(p.indexes[m], p.rest, objs, k, indexes[m]);
      }
    }
  }

  lemma DroppedAll(start: Contents, objs: seq<Obj>, taken: Progress, p: Progress)
    requires taken.events == Takings(start, objs) && taken.rest == start - Listed(objs).Keys
    requires Dropped(taken, p) && p.rest == map[]
    ensures ResetEvents(start, objs, p.events)
  {
    forall k | k in start && k !in Listed(objs) ensures Removal(start, k) in p.events {
      assert k in taken.rest && Removal(taken.rest, k) == Removal(start, k);
    }
    forall e | e in p.events && e !in Takings(start, objs)
      ensures exists k :: k in start && k !in Listed(objs) && e == Removal(start, k)
    {
      var k :| k in taken.rest && e == Removal(taken.rest, k);
      assert e == Removal(start, k);
    }
  }

  method ResetAll(vals: Contents, indexes: IndexSet, objs: seq<Obj>) returns (p: Progress)
    requires Keyed(vals)
    ensures p.taken == Listed(objs) && SameExtractors(indexes, p.indexes)
    ensures OnTrack(vals, objs, map[], p.events)
    ensures Announces(p.events, vals, Listed(objs)) <==> RepeatsReturn(vals, objs)
    ensures ExactAll(indexes, vals) ==> GatheredAll(p.indexes, map[], objs)
  {
    var taken := TakeAll(vals, indexes, objs);
    TakingsOnTrack(vals, objs);
    p := DropRest(taken, objs, vals);
    DroppedAll(vals, objs, taken, p);
    ResetAnnouncesIff(vals, objs, p.events);
  }

  class StaticCollection {
    var vals: Contents
    var indexes: IndexSet

    ghost predicate Valid()
      reads this
    {
      Keyed(vals) && ExactAll(indexes, vals)
    }

    constructor (objs: seq<Obj>)
      ensures Valid() && vals == Listed(objs) && indexes == map[]
    {
      ListedKeys(objs);
      vals, indexes := Listed(objs), map[];
    }

    /** Replaces the whole contents and publishes the difference. The published batch turns the old contents
        into the new ones by strict replay if and only if no key is given twice. It announces the change to those who
        fetch if and only if, of every key that is held and given more than once, the object held or the first one
        given comes again. An index that was exact stays
        so if and only if the objects given for one key fit the last of them. */
    method Reset(objs: seq<Obj>) returns (events: seq<Event>)
      requires Keyed(vals)
      modifies this
      ensures Keyed(vals) && vals == Listed(objs) && SameExtractors(old(indexes), indexes)
      ensures DistinctKeys(objs) <==> Replay(old(vals), events).Some?
      ensures DistinctKeys(objs) ==> Replay(old(vals), events) == Some(vals)
      ensures Announces(events, old(vals), vals) <==> RepeatsReturn(old(vals), objs)
      ensures ExactAll(old(indexes), old(vals)) ==>
                forall n | n in indexes :: Exact(indexes[n], vals) <==> Fits(indexes[n].extract, objs)
      ensures ExactAll(old(indexes), old(vals)) && OneEach(objs) ==> Valid()
    {
      ListedKeys(objs);
      var p := ResetAll(vals, indexes, objs);
      assert map[] + p.taken == p.taken;
      vals, indexes, events := p.taken, p.indexes, p.events;
      if ExactAll(old(indexes), old(vals)) { ExactAfterReset(indexes, objs); }
    }

    /** Adds or replaces one object. Unconditionally it always publishes; conditionally an equal object is
        kept quiet about. */
    method UpdateObject(o: Obj, conditional: bool) returns (events: seq<Event>)
      requires Valid()
      modifies this
      ensures Valid() && vals == old(vals)[o.key := o]
      ensures Replay(old(vals), events) == Some(vals)
      ensures events == [] <==> conditional && Get(old(vals), o.key) == Some(o)
    {
      var e := Incoming(vals, o);
      if e.prev == e.next && conditional {
        assert vals == vals[o.key := o];
        return [];
      }
      indexes := Publish(vals, indexes, e);
      vals := vals[o.key := o];
      events := [e];
      ReplaySnoc(old(vals), [], e);
    }

    method DeleteObject(k: Key) returns (events: seq<Event>)
      requires Valid()
      modifies this
      ensures Valid() && vals == old(vals) - {k}
      ensures Replay(old(vals), events) == Some(vals)
    {
      if k !in vals {
        assert vals == vals - {k};
        return [];
      }
      var e := Removal(vals, k);
      indexes := Publish(vals, indexes, e);
      vals := vals - {k};
      events := [e];
      ReplaySnoc(old(vals), [], e);
    }

    /** Deletes everything the filter accepts, from the map that is being gone through. */
    method DeleteObjects(filter: Obj -> bool) returns (events: seq<Event>)
      requires Valid()
      modifies this
      ensures Valid()
      ensures vals == map k | k in old(vals) && !filter(old(vals)[k]) :: old(vals)[k]
      ensures Replay(old(vals), events) == Some(vals)
    {
      events := [];
      var todo := vals.Keys;
      while todo != {}
        invariant Valid() && todo <= vals.Keys <= old(vals).Keys
        invariant forall k | k in vals :: vals[k] == old(vals)[k]
        invariant forall k | k in old(vals) && k !in todo :: k in vals <==> !filter(old(vals)[k])
        invariant Replay(old(vals), events) == Some(vals)
        decreases todo
      {
        var k :| k in todo;
        todo := todo - {k};
        if filter(vals[k]) {
          var e := Removal(vals, k);
          indexes := Publish(vals, indexes, e);
          ReplaySnoc(old(vals), events, e);
          vals := vals - {k};
          events := events + [e];
        }
      }
    }

    /** What a new handler that asks for the existing state is sent first. */
    method InitialEvents() returns (events: seq<Event>)
      requires Valid()
      ensures Derived.AreAdds(vals, events) && Replay(map[], events) == Some(vals)
    {
      events := Derived.AddsFor(vals);
      Derived.AddsReplay(vals, events);
    }
  }

  method Publish(vals: Contents, indexes: IndexSet, e: Event) returns (r: IndexSet)
    requires ExactAll(indexes, vals) && Strict(vals, e)
    ensures ExactAll(r, Mirror(vals, e))
  {
    r := UpdateIndexes(indexes, e, e.Key());
    MovedKeepsExact(indexes, vals, e, r);
  }
}
