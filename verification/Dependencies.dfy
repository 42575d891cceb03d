/** Which inputs of a derived collection an event of another collection affects: the recorded
    dependencies, the reverse index over them, and the lookup (pkg/krt/collection.go:35-224). */
module Dependencies {
  import opened Collections
  import opened Events
  import opened Filters

  datatype FetchType = UnknownIndexType | IndexType | GetKeyType | DoNotIndex

  datatype IndexedDependency = IndexedDependency(id: nat, key: string, typ: FetchType)

  datatype ExtractorKey = ExtractorKey(uid: nat, filterUid: nat, typ: FetchType)

  type Extractor = Obj -> seq<string>

  datatype Reverse =
    | NotIndexed
    | Reverse(keys: set<string>, typ: FetchType, extract: Extractor, filterUid: nat)

  function GetKeyExtractor(): Extractor {
    (o: Obj) => [o.key]
  }

  function ReverseIndexKey(f: Filter): (r: Reverse) {
    if f.keys.Some? && f.keys.value != {} then Reverse(f.keys.value, GetKeyType, GetKeyExtractor(), 0)
    else if f.index.Some? then
      Reverse({f.index.value.key}, IndexType, f.index.value.extract, f.index.value.uid)
    else NotIndexed
  }

  /** The bucket `b` of the reverse index is one that dependency `d` files its input under. */
  predicate Points(d: Dependency, b: IndexedDependency) {
    var r := ReverseIndexKey(d.filter);
    r.Reverse? && b.id == d.id && b.typ == r.typ && b.key in r.keys
  }

  /** The slot of the extractor table that dependency `d` fills. */
  function Slot(d: Dependency): ExtractorKey {
    var r := ReverseIndexKey(d.filter);
    if r.Reverse? then ExtractorKey(d.id, r.filterUid, r.typ) else ExtractorKey(d.id, 0, DoNotIndex)
  }

  predicate DepsAffected(deps: seq<Dependency>, source: nat, e: Event) {
    exists j | 0 <= j < |deps| :: Affects(deps[j], source, e)
  }

  /** The reference: check every dependency of every input against every event, in full. */
  function Affected(recorded: map<Key, seq<Dependency>>, source: nat, events: seq<Event>): set<Key> {
    set i | i in recorded && exists n | 0 <= n < |events| :: DepsAffected(recorded[i], source, events[n])
  }

  // ----- the prefiltered match -----

  /** Whether the index hit already establishes the key and index parts of this filter. */
  predicate PreFiltered(f: Filter, indexed: ExtractorKey, key: string) {
    if indexed.typ == IndexType && f.index.Some? then
      f.keys.None? && f.index.value.uid == indexed.filterUid && f.index.value.key == key
    else
      indexed.typ == GetKeyType && f.keys.Some? && key in f.keys.value
  }

  /** `key` was obtained from `item` through the extractor that `indexed` stands for. */
  ghost predicate Extracted(registry: nat -> Extractor, indexed: ExtractorKey, item: Obj, key: string) {
    && (indexed.typ == GetKeyType ==> key == item.key)
    && (indexed.typ == IndexType ==> key in registry(indexed.filterUid)(item))
  }

  /** One index, one extractor: `uid` determines the extraction function. */
  ghost predicate Registered(registry: nat -> Extractor, d: Dependency) {
    && Supported(d.filter)
    && (d.filter.index.Some? ==> d.filter.index.value.extract == registry(d.filter.index.value.uid))
  }

  /** Skipping the prefiltered checks never changes the answer. */
  lemma PreFilteredIsSound(registry: nat -> Extractor, d: Dependency, indexed: ExtractorKey, item: Obj, key: string)
    requires Registered(registry, d) && Extracted(registry, indexed, item, key)
    ensures Matches(d.filter, item, PreFiltered(d.filter, indexed, key)) == Matches(d.filter, item, false)
  {
  }

  predicate MatchesSome(deps: seq<Dependency>, source: nat, e: Event, item: Obj) {
    exists j | 0 <= j < |deps| ::
      deps[j].id == source && !SuppressChange(deps[j].filter, e) && Matches(deps[j].filter, item, false)
  }

  method ObjectChanged(deps: seq<Dependency>, source: nat, e: Event, item: Obj,
                       indexed: ExtractorKey, key: string, ghost registry: nat -> Extractor)
    returns (changed: bool)
    requires forall d | d in deps :: Registered(registry, d)
    requires Extracted(registry, indexed, item, key)
    ensures changed == MatchesSome(deps, source, e, item)
  {
    for j := 0 to |deps|
      invariant forall m | 0 <= m < j :: !(deps[m].id == source && !SuppressChange(deps[m].filter, e)
                                           && Matches(deps[m].filter, item, false))
    {
      var d := deps[j];
      if d.id != source { continue; }
      if SuppressChange(d.filter, e) { continue; }
      PreFilteredIsSound(registry, d, indexed, item, key);
      if Matches(d.filter, item, PreFiltered(d.filter, indexed, key)) {
        return true;
      }
    }
    return false;
  }

  lemma AffectedThroughItem(deps: seq<Dependency>, source: nat, e: Event)
    ensures DepsAffected(deps, source, e) <==> exists o | o in e.Items() :: MatchesSome(deps, source, e, o)
  {
    if DepsAffected(deps, source, e) {
      var j :| 0 <= j < |deps| && Affects(deps[j], source, e);
      var o :| o in e.Items() && Matches(deps[j].filter, o, false);
      assert MatchesSome(deps, source, e, o);
    }
    if o :| o in e.Items() && MatchesSome(deps, source, e, o) {
      var j :| 0 <= j < |deps| && deps[j].id == source && !SuppressChange(deps[j].filter, e)
               && Matches(deps[j].filter, o, false);
      assert Affects(deps[j], source, e);
    }
  }

  // ----- filing one dependency -----

  method Unfile(m: MultiMap<IndexedDependency, Key>, d: Dependency, input: Key)
    returns (r: MultiMap<IndexedDependency, Key>)
    requires Tidy(m)
    ensures Tidy(r)
    ensures forall b, i :: Holds(r, b, i) <==> Holds(m, b, i) && !(i == input && Points(d, b))
  {
    r := m;
    var rev := ReverseIndexKey(d.filter);
    if rev.Reverse? {
      var todo := rev.keys;
      while todo != {}
        invariant todo <= rev.keys && Tidy(r)
        invariant forall b, i :: Holds(r, b, i) <==>
                    Holds(m, b, i) && !(i == input && Points(d, b) && b.key !in todo)
      {
        var k :| k in todo;
        r := DeleteCleanupLast(r, IndexedDependency(d.id, k, rev.typ), input);
        todo := todo - {k};
      }
    }
  }

  method File(m: MultiMap<IndexedDependency, Key>, d: Dependency, input: Key)
    returns (r: MultiMap<IndexedDependency, Key>)
    requires Tidy(m)
    ensures Tidy(r)
    ensures forall b, i :: Holds(r, b, i) <==> Holds(m, b, i) || (i == input && Points(d, b))
  {
    r := m;
    var rev := ReverseIndexKey(d.filter);
    if rev.Reverse? {
      var todo := rev.keys;
      while todo != {}
        invariant todo <= rev.keys && Tidy(r)
        invariant forall b, i :: Holds(r, b, i) <==>
                    Holds(m, b, i) || (i == input && Points(d, b) && b.key !in todo)
      {
        var k :| k in todo;
        r := InsertOrNew(r, IndexedDependency(d.id, k, rev.typ), input);
        todo := todo - {k};
      }
    }
  }

  /** An extractor is as its slot says. */
  ghost predicate CorrectExtractors(registry: nat -> Extractor, extractors: map<ExtractorKey, Option<Extractor>>) {
    forall ek | ek in extractors ::
      match ek.typ
      case GetKeyType => extractors[ek] == Some(GetKeyExtractor())
      case IndexType => extractors[ek] == Some(registry(ek.filterUid))
      case DoNotIndex => extractors[ek] == None
      case UnknownIndexType => false
  }

  /** An input is in exactly the buckets that its dependencies point to. */
  ghost predicate Filed(deps: map<Key, seq<Dependency>>, m: MultiMap<IndexedDependency, Key>) {
    forall b, i :: Holds(m, b, i) <==> i in deps && exists d :: d in deps[i] && Points(d, b)
  }

  lemma FiledAgain(deps: map<Key, seq<Dependency>>, m: MultiMap<IndexedDependency, Key>, input: Key,
                   more: seq<Dependency>, r: MultiMap<IndexedDependency, Key>)
    requires Filed(deps, m) && input !in deps
    requires forall b, i :: Holds(r, b, i) <==> Holds(m, b, i) || (i == input && exists d :: d in more && Points(d, b))
    ensures Filed(deps[input := more], r)
  {
  }

  /** Files all dependencies of one input under their buckets. */
  method FileAll(m: MultiMap<IndexedDependency, Key>, deps: seq<Dependency>, input: Key)
    returns (r: MultiMap<IndexedDependency, Key>)
    requires Tidy(m)
    ensures Tidy(r)
    ensures forall b, i :: Holds(r, b, i) <==> Holds(m, b, i) || (i == input && exists d :: d in deps && Points(d, b))
  {
    r := m;
    for n := 0 to |deps|
      invariant Tidy(r)
      invariant forall b, i :: Holds(r, b, i) <==>
                  Holds(m, b, i) || (i == input && exists d :: d in deps[..n] && Points(d, b))
    {
      assert deps[..n + 1] == deps[..n] + [deps[n]];
      r := File(r, deps[n], input);
    }
    assert deps[..|deps|] == deps;
  }

  /** Notes the extractor of each dependency in its slot. */
  method NoteExtractors(m: map<ExtractorKey, Option<Extractor>>, deps: seq<Dependency>,
                        ghost registry: nat -> Extractor)
    returns (r: map<ExtractorKey, Option<Extractor>>)
    requires CorrectExtractors(registry, m) && forall d | d in deps :: Registered(registry, d)
    ensures CorrectExtractors(registry, r) && m.Keys <= r.Keys && forall d | d in deps :: Slot(d) in r
  {
    r := m;
    for n := 0 to |deps|
      invariant CorrectExtractors(registry, r) && m.Keys <= r.Keys && forall d | d in deps[..n] :: Slot(d) in r
    {
      assert deps[n] in deps && deps[..n + 1] == deps[..n] + [deps[n]];
      var rev := ReverseIndexKey(deps[n].filter);
      r := r[Slot(deps[n]) := if rev.Reverse? then Some(rev.extract) else None];
    }
    assert deps[..|deps|] == deps;
  }

  class DependencyState {
    var objectDependencies: map<Key, seq<Dependency>>
    var indexedDependencies: MultiMap<IndexedDependency, Key>
    // Never shrinks: extractors of dependencies that are gone stay behind.
    var extractors: map<ExtractorKey, Option<Extractor>>
    ghost const registry: nat -> Extractor

    ghost predicate FiledExactly()
      reads this
    {
      Filed(objectDependencies, indexedDependencies)
    }

    ghost predicate ExtractorsCorrect()
      reads this
    {
      CorrectExtractors(registry, extractors)
    }

    ghost predicate Valid()
      reads this
    {
      && (forall i, d | i in objectDependencies && d in objectDependencies[i] ::
            Registered(registry, d) && Slot(d) in extractors)
      && Tidy(indexedDependencies)
      && FiledExactly()
      && ExtractorsCorrect()
    }

    constructor (ghost registry: nat -> Extractor)
      ensures Valid() && objectDependencies == map[] && this.registry == registry
    {
      objectDependencies, indexedDependencies, extractors := map[], map[], map[];
      this.registry := registry;
    }

    /** Replaces everything recorded for one input. */
    method Update(input: Key, deps: seq<Dependency>)
      requires Valid()
      requires forall d | d in deps :: Registered(registry, d)
      modifies this
      ensures Valid()
      ensures objectDependencies == old(objectDependencies)[input := deps]
    {
      Remove(input);
      var filed := FileAll(indexedDependencies, deps, input);
      FiledAgain(objectDependencies, indexedDependencies, input, deps, filed);
      var noted := NoteExtractors(extractors, deps, registry);
      assert forall i, d | i in objectDependencies && d in objectDependencies[i] :: Slot(d) in noted;
      objectDependencies, indexedDependencies := objectDependencies[input := deps], filed;
      extractors := noted;
      assert FiledExactly() && ExtractorsCorrect();
    }

    method Remove(input: Key)
      requires Valid()
      modifies this`objectDependencies, this`indexedDependencies
      ensures Valid()
      ensures objectDependencies == old(objectDependencies) - {input}
    {
      if input !in objectDependencies { return; }
      var gone := objectDependencies[input];
      objectDependencies := objectDependencies - {input};
      for n := 0 to |gone|
        modifies this`indexedDependencies
        invariant Tidy(indexedDependencies)
        invariant forall b, i :: Holds(indexedDependencies, b, i) <==>
                    old(Holds(indexedDependencies, b, i)) &&
                    !(i == input && exists d :: d in gone[..n] && Points(d, b))
      {
        assert gone[n] in gone && gone[..n + 1] == gone[..n] + [gone[n]];
        indexedDependencies := Unfile(indexedDependencies, gone[n], input);
      }
      assert gone[..|gone|] == gone;
    }

    /** The extractor slots to go through for a source, none if some dependency on it could not
        be indexed (then everything has to be scanned). */
    method ExtractorKeys(source: nat) returns (keys: set<ExtractorKey>)
      requires Valid()
      ensures (forall ek | ek in extractors && ek.uid == source :: ek.typ != DoNotIndex) ==>
                keys == set ek | ek in extractors && ek.uid == source
      ensures (exists ek | ek in extractors && ek.uid == source :: ek.typ == DoNotIndex) ==> keys == {}
    {
      keys := {};
      var todo := extractors.Keys;
      while todo != {}
        invariant todo <= extractors.Keys
        invariant keys == set ek | ek in extractors.Keys - todo && ek.uid == source
        invariant forall ek | ek in keys :: ek.typ != DoNotIndex
      {
        var ek :| ek in todo;
        todo := todo - {ek};
        if ek.typ == DoNotIndex && ek.uid == source {
          return {};
        }
        if ek.typ != UnknownIndexType && ek.uid == source {
          keys := keys + {ek};
        }
      }
    }

    /** The inputs affected by `e`, as far as one key of one item leads to them. */
    method ThroughBucket(source: nat, e: Event, item: Obj, indexed: ExtractorKey, key: string, found: set<Key>)
      returns (changed: set<Key>)
      requires Valid() && item in e.Items()
      requires Extracted(registry, indexed, item, key)
      ensures changed == found + set i | Holds(indexedDependencies, IndexedDependency(source, key, indexed.typ), i)
                                       && i in objectDependencies
                                       && MatchesSome(objectDependencies[i], source, e, item)
    {
      changed := found;
      var b := IndexedDependency(source, key, indexed.typ);
      if b !in indexedDependencies { return; }
      var todo := indexedDependencies[b];
      while todo != {}
        invariant todo <= indexedDependencies[b]
        invariant changed == found + set i | i in indexedDependencies[b] - todo && i in objectDependencies
                                           && MatchesSome(objectDependencies[i], source, e, item)
      {
        var i :| i in todo;
        assert Holds(indexedDependencies, b, i);
        todo := todo - {i};
        if i !in changed {
          var hit := ObjectChanged(objectDependencies[i], source, e, item, indexed, key, registry);
          if hit { changed := changed + {i}; }
        }
      }
    }

    /** The inputs with a dependency that `e` affects. */
    ghost function Hit(source: nat, e: Event): set<Key>
      reads this
    {
      set i | i in objectDependencies && DepsAffected(objectDependencies[i], source, e)
    }

    /** Input `i` has a dependency filed under slot `ek` that `item` matches. */
    ghost predicate Reaches(ek: ExtractorKey, source: nat, e: Event, item: Obj, i: Key)
      reads this
    {
      && i in objectDependencies
      && exists d :: d in objectDependencies[i] && Slot(d) == ek && d.id == source
                     && !SuppressChange(d.filter, e) && Matches(d.filter, item, false)
    }

    /** The inputs that `item` leads to through the given bucket names. */
    ghost function Via(source: nat, e: Event, item: Obj, typ: FetchType, keys: seq<string>): set<Key>
      reads this
    {
      set i | i in objectDependencies && MatchesSome(objectDependencies[i], source, e, item)
              && exists k :: k in keys && Holds(indexedDependencies, IndexedDependency(source, k, typ), i)
    }

    method ThroughExtractor(source: nat, e: Event, item: Obj, ek: ExtractorKey, found: set<Key>)
      returns (changed: set<Key>)
      requires Valid() && item in e.Items()
      requires ek in extractors && ek.uid == source && ek.typ != DoNotIndex
      ensures changed == found + Via(source, e, item, ek.typ, extractors[ek].value(item))
    {
      changed := found;
      var extract := extractors[ek].value;
      var keys := extract(item);
      for n := 0 to |keys|
        invariant changed == found + Via(source, e, item, ek.typ, keys[..n])
      {
        assert keys[..n + 1] == keys[..n] + [keys[n]];
        changed := ThroughBucket(source, e, item, ek, keys[n], changed);
      }
      assert keys[..|keys|] == keys;
    }

    lemma ViaIsHit(source: nat, e: Event, item: Obj, typ: FetchType, keys: seq<string>)
      requires item in e.Items()
      ensures Via(source, e, item, typ, keys) <= Hit(source, e)
    {
      forall i | i in Via(source, e, item, typ, keys) ensures i in Hit(source, e) {
        AffectedThroughItem(objectDependencies[i], source, e);
      }
    }

    lemma ReachesVia(ek: ExtractorKey, source: nat, e: Event, item: Obj, i: Key)
      requires Valid() && ek in extractors && ek.typ != DoNotIndex
      requires Reaches(ek, source, e, item, i)
      ensures i in Via(source, e, item, ek.typ, extractors[ek].value(item))
    {
      var d :| d in objectDependencies[i] && Slot(d) == ek && d.id == source
               && !SuppressChange(d.filter, e) && Matches(d.filter, item, false);
      var k := ReachedBucket(d, item, i);
      assert Holds(indexedDependencies, IndexedDependency(source, k, ek.typ), i);
    }

    /** A matching item extracts to a bucket that the dependency is filed under. */
    lemma ReachedBucket(d: Dependency, item: Obj, i: Key) returns (k: string)
      requires Valid() && i in objectDependencies && d in objectDependencies[i]
      requires Slot(d).typ != DoNotIndex && Matches(d.filter, item, false)
      ensures k in extractors[Slot(d)].value(item) && Points(d, IndexedDependency(d.id, k, Slot(d).typ))
    {
      k := if Slot(d).typ == GetKeyType then item.key else d.filter.index.value.key;
      var keys := extractors[Slot(d)].value(item);
      assert Slot(d).typ == GetKeyType ==> keys[0] == item.key;
    }

    /** The inputs that the given items of `e` lead to through the extractor in slot `ek`. */
    ghost function ViaItems(source: nat, e: Event, ek: ExtractorKey, items: seq<Obj>): set<Key>
      reads this
      requires Valid() && ek in extractors && ek.typ != DoNotIndex
    {
      if items == [] then {}
      else var o := items[|items| - 1];
        ViaItems(source, e, ek, items[..|items| - 1]) + Via(source, e, o, ek.typ, extractors[ek].value(o))
    }

    lemma {:induction false} ViaItemsMember(source: nat, e: Event, ek: ExtractorKey, items: seq<Obj>, o: Obj)
      requires Valid() && ek in extractors && ek.typ != DoNotIndex && o in items
      ensures Via(source, e, o, ek.typ, extractors[ek].value(o)) <= ViaItems(source, e, ek, items)
      decreases items
    {
      if o != items[|items| - 1] { ViaItemsMember(source, e, ek, items[..|items| - 1], o); }
    }

    lemma {:induction false} ViaItemsAreHit(source: nat, e: Event, ek: ExtractorKey, items: seq<Obj>)
      requires Valid() && ek in extractors && ek.typ != DoNotIndex
      requires forall o | o in items :: o in e.Items()
      ensures ViaItems(source, e, ek, items) <= Hit(source, e)
      decreases items
    {
      if items != [] {
        var o := items[|items| - 1];
        ViaItemsAreHit(source, e, ek, items[..|items| - 1]);
        ViaIsHit(source, e, o, ek.typ, extractors[ek].value(o));
      }
    }

    ghost function ViaSlot(source: nat, e: Event, ek: ExtractorKey): set<Key>
      reads this
      requires Valid() && ek in extractors && ek.typ != DoNotIndex
    {
      ViaItems(source, e, ek, e.Items())
    }

    method ThroughSlot(source: nat, e: Event, ek: ExtractorKey, found: set<Key>) returns (changed: set<Key>)
      requires Valid() && ek in extractors && ek.uid == source && ek.typ != DoNotIndex
      ensures changed == found + ViaSlot(source, e, ek)
    {
      changed := found;
      var items := e.Items();
      for n := 0 to |items|
        invariant changed == found + ViaItems(source, e, ek, items[..n])
      {
        assert items[..n + 1][..n] == items[..n];
        changed := ThroughExtractor(source, e, items[n], ek, changed);
      }
      assert items[..|items|] == items;
    }

    /** Going through every slot of the source finds every affected input. */
    lemma HitHasSlot(source: nat, e: Event, i: Key) returns (ek: ExtractorKey)
      requires Valid() && i in Hit(source, e)
      requires forall ek | ek in extractors && ek.uid == source :: ek.typ != DoNotIndex
      ensures ek in extractors && ek.uid == source && i in ViaSlot(source, e, ek)
    {
      var j :| 0 <= j < |objectDependencies[i]| && Affects(objectDependencies[i][j], source, e);
      var d := objectDependencies[i][j];
      var o :| o in e.Items() && Matches(d.filter, o, false);
      ek := Slot(d);
      assert Reaches(ek, source, e, o, i);
      ReachesVia(ek, source, e, o, i);
      ViaItemsMember(source, e, ek, e.Items(), o);
    }

    method ThroughIndexes(source: nat, e: Event, slots: set<ExtractorKey>, found: set<Key>)
      returns (changed: set<Key>)
      requires Valid()
      requires slots == set ek | ek in extractors && ek.uid == source
      requires forall ek | ek in slots :: ek.typ != DoNotIndex
      ensures changed == found + Hit(source, e)
    {
      changed := found;
      var todo := slots;
      while todo != {}
        invariant todo <= slots
        invariant found <= changed <= found + Hit(source, e)
        invariant forall ek | ek in slots && ek !in todo :: ViaSlot(source, e, ek) <= changed
      {
        var ek :| ek in todo;
        todo := todo - {ek};
        ViaItemsAreHit(source, e, ek, e.Items());
        changed := ThroughSlot(source, e, ek, changed);
      }
      forall i | i in Hit(source, e) ensures i in changed {
        var ek := HitHasSlot(source, e, i);
        assert ek in slots && i in ViaSlot(source, e, ek);
      }
    }

    method InputAffected(i: Key, source: nat, e: Event) returns (hit: bool)
      requires Valid() && i in objectDependencies
      ensures hit == DepsAffected(objectDependencies[i], source, e)
    {
      AffectedThroughItem(objectDependencies[i], source, e);
      var items := e.Items();
      for n := 0 to |items|
        invariant forall m | 0 <= m < n :: !MatchesSome(objectDependencies[i], source, e, items[m])
      {
        hit := ObjectChanged(objectDependencies[i], source, e, items[n],
                             ExtractorKey(0, 0, UnknownIndexType), "", registry);
        if hit {
          assert items[n] in e.Items();
          return;
        }
      }
      return false;
    }

    method ScanAll(source: nat, e: Event, found: set<Key>) returns (changed: set<Key>)
      requires Valid()
      ensures changed == found + Hit(source, e)
    {
      changed := found;
      var todo := objectDependencies.Keys;
      while todo != {}
        invariant todo <= objectDependencies.Keys
        invariant changed == found + (Hit(source, e) - todo)
      {
        var i :| i in todo;
        todo := todo - {i};
        if i !in changed {
          var hit := InputAffected(i, source, e);
          if hit { changed := changed + {i}; }
        }
      }
    }

    /** The fast lookup returns exactly the inputs that the full check of every dependency
        against every event finds. */
    method ChangedInputKeys(source: nat, events: seq<Event>) returns (changed: set<Key>)
      requires Valid()
      ensures changed == Affected(objectDependencies, source, events)
    {
      changed := {};
      var slots := ExtractorKeys(source);
      for n := 0 to |events|
        invariant changed == Affected(objectDependencies, source, events[..n])
      {
        AffectedSnoc(source, events, n);
        if slots != {} {
          changed := ThroughIndexes(source, events[n], slots, changed);
        } else {
          changed := ScanAll(source, events[n], changed);
        }
        if |objectDependencies| > 0 && |changed| >= |objectDependencies| {
          AllFound(source, events, n + 1, changed);
          return;
        }
      }
      assert events[..|events|] == events;
    }

    lemma AffectedSnoc(source: nat, events: seq<Event>, n: nat)
      requires n < |events|
      ensures Affected(objectDependencies, source, events[..n + 1]) ==
              Affected(objectDependencies, source, events[..n]) + Hit(source, events[n])
    {
      var a, b := events[..n], events[..n + 1];
      assert forall m | 0 <= m < n :: b[m] == a[m];
      assert b[n] == events[n];
    }

    /** Once every input is found, the remaining events cannot add anything. */
    lemma AllFound(source: nat, events: seq<Event>, n: nat, changed: set<Key>)
      requires n <= |events| && changed == Affected(objectDependencies, source, events[..n])
      requires |changed| >= |objectDependencies|
      ensures changed == Affected(objectDependencies, source, events)
    {
      FullSubset(changed, objectDependencies.Keys);
      forall i | i in changed ensures i in Affected(objectDependencies, source, events) {
        var m :| 0 <= m < n && DepsAffected(objectDependencies[i], source, events[..n][m]);
        assert events[..n][m] == events[m];
      }
    }
  }

  lemma {:induction false} FullSubset<T>(a: set<T>, b: set<T>)
    requires a <= b && |a| >= |b|
    ensures a == b
  {
    if a != {} {
      var x :| x in a;
      FullSubset(a - {x}, b - {x});
    }
  }
}
