/** The inverted index kept by derived, merged and static collections. The three index types
    of the source (collectionIndex, joinCollectionIndex, staticListIndex) share this code. */
module Indexes {
  import opened Collections
  import opened Events
  import Filters

  datatype Index = Index(extract: Obj -> seq<string>, buckets: MultiMap<string, Key>)

  type IndexSet = map<string, Index>

  /** Every bucket holds exactly the keys whose object extracts to it, and none is empty. */
  ghost predicate Exact(idx: Index, c: Contents) {
    && Tidy(idx.buckets)
    && forall b, k :: Holds(idx.buckets, b, k) <==> k in c && b in idx.extract(c[k])
  }

  ghost predicate ExactAll(indexes: IndexSet, c: Contents) {
    forall n | n in indexes :: Exact(indexes[n], c)
  }

  /** What an index update does to the memberships, for any event: the buckets of Old lose the
      key, then the buckets of New gain it. Nothing else moves. */
  ghost predicate Moved(idx: Index, e: Event, key: Key, r: Index) {
    && r.extract == idx.extract
    && (Tidy(idx.buckets) ==> Tidy(r.buckets))
    && forall b, k :: Holds(r.buckets, b, k) <==>
         || (Holds(idx.buckets, b, k) && !(k == key && e.prev.Some? && b in idx.extract(e.prev.value)))
         || (k == key && e.next.Some? && b in idx.extract(e.next.value))
  }

  ghost predicate MovedAll(indexes: IndexSet, e: Event, key: Key, r: IndexSet) {
    && r.Keys == indexes.Keys
    && forall n | n in indexes :: Moved(indexes[n], e, key, r[n])
  }

  method RemoveKey(idx: Index, o: Obj, key: Key) returns (r: Index)
    ensures r.extract == idx.extract
    ensures Tidy(idx.buckets) ==> Tidy(r.buckets)
    ensures forall b, k :: Holds(r.buckets, b, k) <==>
              Holds(idx.buckets, b, k) && !(k == key && b in idx.extract(o))
  {
    var names := idx.extract(o);
    var buckets := idx.buckets;
    for n := 0 to |names|
      invariant Tidy(idx.buckets) ==> Tidy(buckets)
      invariant forall b, k :: Holds(buckets, b, k) <==>
                  Holds(idx.buckets, b, k) && !(k == key && b in names[..n])
    {
      buckets := DeleteCleanupLast(buckets, names[n], key);
      assert names[..n + 1] == names[..n] + [names[n]];
    }
    assert names[..|names|] == names;
    r := Index(idx.extract, buckets);
  }

  method InsertKey(idx: Index, o: Obj, key: Key) returns (r: Index)
    ensures r.extract == idx.extract
    ensures Tidy(idx.buckets) ==> Tidy(r.buckets)
    ensures forall b, k :: Holds(r.buckets, b, k) <==>
              Holds(idx.buckets, b, k) || (k == key && b in idx.extract(o))
  {
    var names := idx.extract(o);
    var buckets := idx.buckets;
    for n := 0 to |names|
      invariant Tidy(idx.buckets) ==> Tidy(buckets)
      invariant forall b, k :: Holds(buckets, b, k) <==>
                  Holds(idx.buckets, b, k) || (k == key && b in names[..n])
    {
      buckets := InsertOrNew(buckets, names[n], key);
      assert names[..n + 1] == names[..n] + [names[n]];
    }
    assert names[..|names|] == names;
    r := Index(idx.extract, buckets);
  }

  method UpdateIndex(idx: Index, e: Event, key: Key) returns (r: Index)
    ensures Moved(idx, e, key, r)
  {
    r := idx;
    if e.prev.Some? { r := RemoveKey(r, e.prev.value, key); }
    if e.next.Some? { r := InsertKey(r, e.next.value, key); }
  }

  method UpdateIndexes(indexes: IndexSet, e: Event, key: Key) returns (r: IndexSet)
    ensures MovedAll(indexes, e, key, r)
  {
    r := indexes;
    var todo := indexes.Keys;
    while todo != {}
      invariant todo <= indexes.Keys == r.Keys
      invariant forall n | n in todo :: r[n] == indexes[n]
      invariant forall n | n in indexes && n !in todo :: Moved(indexes[n], e, key, r[n])
    {
      var n :| n in todo;
      todo := todo - {n};
      var idx := UpdateIndex(r[n], e, key);
      r := r[n := idx];
    }
  }

  lemma OneKeepsExact(idx: Index, c: Contents, e: Event, r: Index)
    requires e.WellFormed() && e.prev == Get(c, e.Key())
    requires Exact(idx, c) && Moved(idx, e, e.Key(), r)
    ensures Exact(r, Mirror(c, e))
  {
  }

  /** An exact index stays exact when the event carries the stored object as Old. */
  lemma MovedKeepsExact(indexes: IndexSet, c: Contents, e: Event, r: IndexSet)
    requires ExactAll(indexes, c)
    requires e.WellFormed() && e.prev == Get(c, e.Key())
    requires MovedAll(indexes, e, e.Key(), r)
    ensures ExactAll(r, Mirror(c, e))
  {
    forall n | n in r ensures Exact(r[n], Mirror(c, e)) {
      OneKeepsExact(indexes[n], c, e, r[n]);
    }
  }

  /** Building an index over existing contents, one Add at a time. */
  method BuildIndex(extract: Obj -> seq<string>, c: Contents) returns (r: Index)
    requires Keyed(c)
    ensures r.extract == extract && Exact(r, c)
  {
    r := Index(extract, map[]);
    var todo := c.Keys;
    while todo != {}
      invariant todo <= c.Keys
      invariant r.extract == extract
      invariant Exact(r, c - todo)
    {
      var k :| k in todo;
      var e := Event(None, Some(c[k]), Add);
      r := UpdateIndex(r, e, k);
      todo := todo - {k};
    }
    assert c - {} == c;
  }

  /** With an exact index, a lookup lists exactly the objects that extract to the key: the bucket
      is the one `Filters.Fetch` relies on, and no entry of it is missing from the contents. */
  method Lookup(idx: Index, c: Contents, key: string) returns (list: seq<Obj>, bucket: set<Key>)
    requires Keyed(c) && Exact(idx, c)
    ensures bucket == Filters.Bucket(c, idx.extract, key) && bucket <= c.Keys
    ensures Filters.Lists(list, map k | k in c && key in idx.extract(c[k]) :: c[k])
  {
    bucket := if key in idx.buckets then idx.buckets[key] else {};
    assert forall k :: k in bucket <==> Holds(idx.buckets, key, k);
    list := Filters.ListKeys(c, bucket);
    assert (map k | k in c && k in bucket :: c[k]) == (map k | k in c && key in idx.extract(c[k]) :: c[k]);
  }
}
