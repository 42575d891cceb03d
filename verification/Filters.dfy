/** Fetch filters, the fetch paths, and what an event can do to a fetched result
    (pkg/krt/filter.go, pkg/krt/fetch.go). */
module Filters {
  import opened Collections
  import opened Events

  /** One use of an index inside a filter. `uid` is unique per index, so it stands for
      the extractor: see `Dependencies.Registered`. */
  datatype IndexFilter = IndexFilter(uid: nat, extract: Obj -> seq<string>, key: string)

  datatype Filter = Filter(
    keys: Option<set<Key>>,
    selects: Option<map<string, string>>,
    selectsNonEmpty: Option<map<string, string>>,
    labels: Option<map<string, string>>,
    generic: Option<Obj -> bool>,
    suppress: Option<(Obj, Obj) -> bool>,
    index: Option<IndexFilter>)

  predicate SubsetOf(a: map<string, string>, b: map<string, string>) {
    forall k | k in a :: k in b && b[k] == a[k]
  }

  /** The checks that are left once the key and index constraints are known to hold. */
  predicate Residual(f: Filter, o: Obj) {
    && (f.selects.Some? ==> SubsetOf(o.selector, f.selects.value))
    && (f.selectsNonEmpty.Some? ==> o.selector != map[] && SubsetOf(o.selector, f.selectsNonEmpty.value))
    && (f.labels.Some? ==> SubsetOf(f.labels.value, o.labels))
    && (f.generic.Some? ==> f.generic.value(o))
  }

  predicate Matches(f: Filter, o: Obj, forList: bool) {
    && (!forList ==>
          && (f.keys.Some? ==> o.key in f.keys.value)
          && (f.index.Some? ==> f.index.value.key in f.index.value.extract(o)))
    && Residual(f, o)
  }

  /** An update is skipped only when the object stays selected and the projection that the
      consumer sees does not change. */
  predicate SuppressChange(f: Filter, e: Event) {
    && f.suppress.Some? && e.prev.Some? && e.next.Some?
    && Matches(f, e.prev.value, false) && Matches(f, e.next.value, false)
    && f.suppress.value(e.prev.value, e.next.value)
  }

  /** One recorded query: a collection and the filter it was fetched with. */
  datatype Dependency = Dependency(id: nat, filter: Filter)

  /** The reference meaning of "this event of collection `source` affects this query". */
  predicate Affects(d: Dependency, source: nat, e: Event) {
    && d.id == source
    && !SuppressChange(d.filter, e)
    && exists o | o in e.Items() :: Matches(d.filter, o, false)
  }

  ghost predicate AffectsAny(d: Dependency, source: nat, events: seq<Event>) {
    exists i | 0 <= i < |events| :: Affects(d, source, events[i])
  }

  // ----- what a fetch returns -----

  /** Keys and an index in one filter are refused by a panic (filter.go:58-61). */
  predicate Supported(f: Filter) {
    f.keys.Some? && f.index.Some? ==> f.keys.value == {}
  }

  /** The collection of objects selected by a filter: what every fetch path has to return. */
  function Selected(c: Contents, f: Filter): Contents {
    map k | k in c && Matches(f, c[k], false) :: c[k]
  }

  /** A list returned by a fetch stands for `m`: the same objects, each exactly once. */
  ghost predicate Lists(list: seq<Obj>, m: Contents) {
    && (forall o :: o in list <==> o.key in m && m[o.key] == o)
    && (forall i, j | 0 <= i < j < |list| :: list[i].key != list[j].key)
  }

  /** What a bucket of an exact index holds (see module Indexes). */
  function Bucket(c: Contents, extract: Obj -> seq<string>, key: string): set<Key> {
    set k | k in c && key in extract(c[k])
  }

  predicate HasResidual(f: Filter) {
    f.selects.Some? || f.selectsNonEmpty.Some? || f.labels.Some? || f.generic.Some?
  }

  method ListKeys(c: Contents, keys: set<Key>) returns (list: seq<Obj>)
    requires Keyed(c)
    ensures Lists(list, map k | k in c && k in keys :: c[k])
  {
    list := [];
    var todo := keys;
    while todo != {}
      invariant todo <= keys
      invariant Lists(list, map k | k in c && k in keys - todo :: c[k])
    {
      var k :| k in todo;
      todo := todo - {k};
      if k in c { list := list + [c[k]]; }
    }
  }

  method FilterList(list: seq<Obj>, f: Filter, ghost m: Contents) returns (r: seq<Obj>)
    requires Lists(list, m)
    ensures Lists(r, map k | k in m && Residual(f, m[k]) :: m[k])
  {
    r := [];
    for n := 0 to |list|
      invariant forall o :: o in r <==> o in list[..n] && Residual(f, o)
      invariant forall i, j | 0 <= i < j < |r| :: r[i].key != r[j].key
    {
      if Residual(f, list[n]) {
        forall i | 0 <= i < |r| ensures r[i].key != list[n].key {
          assert r[i] in list[..n];
        }
        r := r + [list[n]];
      }
    }
    assert list[..|list|] == list;
  }

  /** Listing by `keys` and filtering what is left is the selection, when `keys` stands for the key and index checks. */
  lemma Narrowed(c: Contents, f: Filter, keys: set<Key>, m: Contents)
    requires Keyed(c)
    requires forall k | k in c ::
      k in keys <==>
        && (f.keys.Some? ==> k in f.keys.value)
        && (f.index.Some? ==> f.index.value.key in f.index.value.extract(c[k]))
    requires m == map k | k in c && k in keys :: c[k]
    ensures (map k | k in m && Residual(f, m[k]) :: m[k]) == Selected(c, f)
    ensures !HasResidual(f) ==> m == Selected(c, f)
  {
  }

  /** The three fetch paths: by key, through an index bucket, by scanning. Whichever is taken,
      the list is the selection by the full filter. `bucket` is what the index lookup found. */
  method Fetch(c: Contents, f: Filter, bucket: set<Key>) returns (list: seq<Obj>)
    requires Keyed(c) && Supported(f)
    requires f.index.Some? ==> bucket == Bucket(c, f.index.value.extract, f.index.value.key)
    ensures Lists(list, Selected(c, f))
  {
    var keys := if f.keys.Some? then f.keys.value else if f.index.Some? then bucket else c.Keys;
    list := ListKeys(c, keys);
    ghost var m := map k | k in c && k in keys :: c[k];
    Narrowed(c, f, keys, m);
    if HasResidual(f) {
      list := FilterList(list, f, m);
    }
  }

  // ----- an event that does not affect a query does not change its result -----

  /** What the consumer of a fetch sees of each selected object. A plain fetch sees the whole
      object; a partial fetch sees a projection, here any value of type `S`. */
  function View<S>(c: Contents, f: Filter, xfm: Obj -> S): map<Key, S> {
    map k | k in c && Matches(f, c[k], false) :: xfm(c[k])
  }

  /** A suppression function may only be installed together with the projection it compares
      (PartialFetch); a plain fetch installs none. */
  ghost predicate SuppressesOnly<S>(f: Filter, xfm: Obj -> S) {
    f.suppress.Some? ==> forall a, b :: f.suppress.value(a, b) ==> xfm(a) == xfm(b)
  }

  lemma UnaffectedView<S>(c: Contents, e: Event, d: Dependency, xfm: Obj -> S)
    requires Keyed(c) && Strict(c, e)
    requires SuppressesOnly(d.filter, xfm)
    requires !Affects(d, d.id, e)
    ensures View(Mirror(c, e), d.filter, xfm) == View(c, d.filter, xfm)
  {
    var f := d.filter;
    if !SuppressChange(f, e) {
      forall o | e.prev == Some(o) || e.next == Some(o) ensures !Matches(f, o, false) {
        assert o in e.Items();
      }
    }
  }

  /** The converse for one plain fetch: an event that affects it and changes the stored object
      really changes the result, so no recomputation is triggered without cause. */
  lemma AffectedView(c: Contents, e: Event, d: Dependency)
    requires Keyed(c) && Strict(c, e)
    requires d.filter.suppress.None? && Affects(d, d.id, e) && e.prev != e.next
    ensures Selected(Mirror(c, e), d.filter) != Selected(c, d.filter)
  {
    var f, k := d.filter, e.Key();
    var o :| o in e.Items() && Matches(f, o, false);
    if e.next == Some(o) {
      assert Get(Selected(Mirror(c, e), f), k) == Some(o);
      assert Get(Selected(c, f), k) != Some(o);
    } else {
      assert Get(Selected(c, f), k) == Some(o);
      assert Get(Selected(Mirror(c, e), f), k) != Some(o);
    }
  }
}
