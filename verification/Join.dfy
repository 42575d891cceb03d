/** The checked join: several collections as one, the first collection that holds a key winning
    (pkg/krt/join.go). The sources publish their changes independently; the handler of a source's batch
    reads the other sources one at a time, while all of them keep changing. */
module Join {
  import opened Collections
  import opened Events
  import Derived

  // ----- the reference: first collection wins -----

  /** The first collection from `from` on that holds `k`; `|sources|` if none does. */
  function First(sources: seq<Contents>, k: Key, from: nat): (w: nat)
    requires from <= |sources|
    ensures from <= w <= |sources|
    ensures forall i | from <= i < w :: k !in sources[i]
    ensures w < |sources| ==> k in sources[w]
    decreases |sources| - from
  {
    if from == |sources| || k in sources[from] then from else First(sources, k, from + 1)
  }

  /** The object of the first collection from `from` on that holds `k`. */
  function Front(sources: seq<Contents>, k: Key, from: nat): Option<Obj>
    requires from <= |sources|
  {
    var w := First(sources, k, from);
    if w < |sources| then Some(sources[w][k]) else None
  }

  function Winner(sources: seq<Contents>, k: Key): Option<Obj> {
    Front(sources, k, 0)
  }

  method GetKey(sources: seq<Contents>, k: Key) returns (r: Option<Obj>)
    ensures r == Winner(sources, k)
  {
    for i := 0 to |sources|
      invariant First(sources, k, 0) == First(sources, k, i)
    {
      if k in sources[i] { return Some(sources[i][k]); }
    }
    return None;
  }

  /** Of several objects with one key, the first collection's is kept. */
  method MergeFirst(sources: seq<Contents>) returns (m: Contents)
    ensures forall k :: Get(m, k) == Winner(sources, k)
  {
    m := map[];
    for i := 0 to |sources|
      invariant forall k :: Get(m, k) == (if First(sources, k, 0) < i then Winner(sources, k) else None)
    {
      forall k ensures k in m <==> First(sources, k, 0) < i { assert k in m <==> Get(m, k).Some?; }
      var unseen := map k | k in sources[i] && k !in m :: sources[i][k];
      m := m + unseen;
    }
  }

  /** Listing filters what is left after merging, so a filtered-out winner hides the objects behind it. */
  method ListFiltered(sources: seq<Contents>, filter: Option<Obj -> bool>) returns (m: Contents)
    ensures forall k :: Get(m, k) == var w := Winner(sources, k);
              if w.Some? && filter.Some? && !filter.value(w.value) then None else w
  {
    var all := MergeFirst(sources);
    m := if filter.Some? then map k | k in all && filter.value(all[k]) :: all[k] else all;
    forall k ensures Get(all, k) == Winner(sources, k) {}
  }

  // ----- refreshing one event -----

  /** What becomes of an event of the authoritative source, given the first lower-priority object. */
  function Decide(e: Event, lower: Option<Obj>): (r: Event)
    requires e.WellFormed()
  {
    if e.kind == Delete then
      if lower.Some? then Event(e.prev, lower, Update) else e
    else
      if lower.Some? && e.kind == Add then Event(lower, e.next, Update) else e
  }

  /** The effect of a refreshed event on the processed state. */
  function Process(c: Contents, k: Key, e: Event): Contents {
    if e.kind == Delete || e.next.None? then c - {k} else c[k := e.next.value]
  }

  // ----- the machine -----

  datatype Scan = Higher(next: nat) | Lower(next: nat)

  /** A refreshed event together with the key it was refreshed for. */
  datatype Out = Out(key: Key, event: Event)

  datatype Hand =
    | Nothing
    | Handling(source: nat, todo: seq<Event>, scan: Scan, out: seq<Out>)

  datatype State = State(
    sources: seq<Contents>,
    pending: seq<seq<Event>>,       // per source, in the order published
    processed: Contents,
    hand: Hand,
    published: seq<Event>)          // everything distributed to the handlers so far

  datatype Step =
    | SourceChanges(i: nat, batch: seq<Event>, next: Contents)
    | Begin(i: nat, n: nat)
    | ReadNext
    | End

  function EventsOf(out: seq<Out>): seq<Event> {
    seq(|out|, n requires 0 <= n < |out| => out[n].event)
  }

  function ProcessAll(c: Contents, out: seq<Out>): Contents {
    if out == [] then c
    else
      var n := |out| - 1;
      Process(ProcessAll(c, out[..n]), out[n].key, out[n].event)
  }

  predicate Clean(stream: seq<Event>) {
    forall e | e in stream :: e.WellFormed() && (e.kind == Delete <==> e.next.None?)
  }

  predicate About(stream: seq<Event>, k: Key) {
    exists e | e in stream :: e.WellFormed() && e.Key() == k
  }

  /** The last event about `k` in the stream carries the value the source has now. */
  ghost predicate Ends(stream: seq<Event>, k: Key, v: Option<Obj>) {
    forall n | 0 <= n < |stream| && stream[n].WellFormed() && stream[n].Key() == k && !About(stream[n + 1..], k) ::
      stream[n].next == v
  }

  /** A source's batch tells its change: it is about every key that changed, and its last event about a key carries the
      object that the source has now. Strict batches do (`StrictTells`), and so do batches with repeated events. */
  ghost predicate Tells(c: Contents, batch: seq<Event>, c': Contents) {
    && Keyed(c') && Clean(batch)
    && forall k :: Ends(batch, k, Get(c', k)) && (About(batch, k) || Get(c', k) == Get(c, k))
  }

  ghost predicate Enabled(s: State, a: Step) {
    match a
    case SourceChanges(i, batch, next) => i < |s.sources| == |s.pending| && Tells(s.sources[i], batch, next)
    case Begin(i, n) => s.hand.Nothing? && i < |s.pending| == |s.sources| && n <= |s.pending[i]|
    case ReadNext => s.hand.Handling? && s.hand.todo != [] && s.hand.todo[0].WellFormed()
    case End => s.hand.Handling? && s.hand.todo == []
  }

  /** One step of refreshing the first event in hand: at most one source is read. */
  function ReadOne(sources: seq<Contents>, h: Hand): Hand
    requires h.Handling? && h.todo != [] && h.todo[0].WellFormed()
  {
    var e := h.todo[0];
    var k := e.Key();
    match h.scan
    case Higher(p) =>
      if p < h.source && p < |sources| then
        if k in sources[p] then h.(todo := h.todo[1..], scan := Higher(0))
        else h.(scan := Higher(p + 1))
      else h.(scan := Lower(h.source + 1))
    case Lower(p) =>
      if p < |sources| && k !in sources[p] then h.(scan := Lower(p + 1))
      else
        var lower := if p < |sources| then Some(sources[p][k]) else None;
        h.(todo := h.todo[1..], scan := Higher(0), out := h.out + [Out(k, Decide(e, lower))])
  }

  function After(s: State, a: Step): State
    requires Enabled(s, a)
  {
    match a
    case SourceChanges(i, batch, next) =>
      s.(sources := s.sources[i := next],
         pending := s.pending[i := s.pending[i] + batch])
    case Begin(i, n) =>
      s.(pending := s.pending[i := s.pending[i][n..]], hand := Handling(i, s.pending[i][..n], Higher(0), []))
    case ReadNext => s.(hand := ReadOne(s.sources, s.hand))
    case End =>
      s.(processed := ProcessAll(s.processed, s.hand.out), hand := Nothing,
         published := s.published + EventsOf(s.hand.out))
  }

  ghost predicate Reaches(s: State, steps: seq<Step>, s': State)
    decreases steps
  {
    if steps == [] then s == s' else Enabled(s, steps[0]) && Reaches(After(s, steps[0]), steps[1..], s')
  }

  /** Freshly registered: nothing processed, every existing object announced. */
  ghost predicate Initial(s: State) {
    && |s.pending| == |s.sources| && s.processed == map[] && s.hand.Nothing? && s.published == []
    && forall i | 0 <= i < |s.sources| :: Tells(map[], s.pending[i], s.sources[i])
  }

  // ----- streams of events -----

  /** Everything of source `i` that has not been refreshed yet. */
  function Stream(s: State, i: nat): seq<Event>
    requires i < |s.pending|
  {
    (if s.hand.Handling? && s.hand.source == i then s.hand.todo else []) + s.pending[i]
  }

  lemma AboutConcat(a: seq<Event>, b: seq<Event>, k: Key)
    ensures About(a + b, k) <==> About(a, k) || About(b, k)
  {
    if About(a, k) { var e :| e in a && e.WellFormed() && e.Key() == k; assert e in a + b; }
    if About(b, k) { var e :| e in b && e.WellFormed() && e.Key() == k; assert e in a + b; }
  }

  lemma EndsTail(stream: seq<Event>, k: Key, v: Option<Obj>)
    requires stream != [] && Ends(stream, k, v)
    ensures Ends(stream[1..], k, v)
  {
    var t := stream[1..];
    forall n | 0 <= n < |t| && t[n].WellFormed() && t[n].Key() == k && !About(t[n + 1..], k) ensures t[n].next == v {
      assert t[n] == stream[n + 1] && t[n + 1..] == stream[n + 2..];
    }
  }

  lemma {:induction false} ReplayEnds(c: Contents, batch: seq<Event>, k: Key)
    requires Replay(c, batch).Some?
    ensures Clean(batch) && Ends(batch, k, Get(Replay(c, batch).value, k))
    ensures !About(batch, k) ==> Get(Replay(c, batch).value, k) == Get(c, k)
    decreases batch
  {
    if batch != [] {
      var e, rest := batch[0], batch[1..];
      var c' := Mirror(c, e);
      ReplayEnds(c', rest, k);
      assert batch == [e] + rest;
      AboutConcat([e], rest, k);
      forall n | 0 <= n < |batch| && batch[n].WellFormed() && batch[n].Key() == k && !About(batch[n + 1..], k)
        ensures batch[n].next == Get(Replay(c, batch).value, k)
      {
        if n > 0 {
          assert batch[n] == rest[n - 1] && batch[n + 1..] == rest[n..];
        }
      }
    }
  }

  lemma StrictTells(c: Contents, batch: seq<Event>)
    requires Keyed(c) && Replay(c, batch).Some?
    ensures Tells(c, batch, Replay(c, batch).value)
  {
    ReplayKeyed(c, batch);
    ReplayEnds(c, batch, "");
    forall k ensures Ends(batch, k, Get(Replay(c, batch).value, k))
      && (About(batch, k) || Get(Replay(c, batch).value, k) == Get(c, k))
    {
      ReplayEnds(c, batch, k);
    }
  }

  lemma EndsAppend(stream: seq<Event>, batch: seq<Event>, k: Key, v: Option<Obj>, v': Option<Obj>)
    requires Ends(stream, k, v) && Ends(batch, k, v')
    requires !About(batch, k) ==> v' == v
    ensures Ends(stream + batch, k, v')
  {
    var all := stream + batch;
    forall n | 0 <= n < |all| && all[n].WellFormed() && all[n].Key() == k && !About(all[n + 1..], k)
      ensures all[n].next == v'
    {
      if n < |stream| {
        assert all[n + 1..] == stream[n + 1..] + batch;
        AboutConcat(stream[n + 1..], batch, k);
      } else {
        var m := n - |stream|;
        assert all[n] == batch[m] && all[n + 1..] == batch[m + 1..];
      }
    }
  }

  // ----- the invariant -----

  function Virtual(s: State): Contents {
    if s.hand.Handling? then ProcessAll(s.processed, s.hand.out) else s.processed
  }

  /** No event about `k` from the first `n` sources is waiting. */
  ghost predicate Silent(s: State, n: nat, k: Key)
    requires |s.pending| == |s.sources|
  {
    forall i | 0 <= i < n && i < |s.sources| :: !About(Stream(s, i), k)
  }

  /** If nothing about `k` is waiting from the winner and the sources before it, the processed state has
      the winner's object; if no source holds `k` and nothing about it is waiting at all, it has none. */
  ghost predicate Converged(s: State, k: Key)
    requires |s.pending| == |s.sources|
  {
    Silent(s, First(s.sources, k, 0) + 1, k) ==> Get(Virtual(s), k) == Winner(s.sources, k)
  }

  /** A source that the scan found without `k` still lacks it, or will say so. */
  ghost predicate Absent(s: State, q: nat, k: Key)
    requires q < |s.pending| == |s.sources|
  {
    k !in s.sources[q] || About(Stream(s, q), k)
  }

  ghost predicate ScanOk(s: State)
    requires |s.pending| == |s.sources|
  {
    s.hand.Handling? ==>
      && s.hand.source < |s.sources|
      && (s.hand.todo != [] && s.hand.todo[0].WellFormed() ==>
            var k := s.hand.todo[0].Key();
            match s.hand.scan
            case Higher(p) => p <= s.hand.source && forall q | 0 <= q < p :: Absent(s, q, k)
            case Lower(p) =>
              && s.hand.source < p <= |s.sources|
              && forall q | 0 <= q < p && q != s.hand.source :: Absent(s, q, k))
  }

  ghost predicate StreamsOk(s: State)
    requires |s.pending| == |s.sources|
  {
    forall i | 0 <= i < |s.sources| ::
      Clean(Stream(s, i)) && forall k :: Ends(Stream(s, i), k, Get(s.sources[i], k))
  }

  ghost predicate Inv(s: State) {
    && |s.pending| == |s.sources|
    && StreamsOk(s)
    && ScanOk(s)
    && forall k :: Converged(s, k)
  }

  lemma InitialInv(s: State)
    requires Initial(s)
    ensures Inv(s)
  {
    forall i | 0 <= i < |s.sources|
      ensures Clean(Stream(s, i)) && forall k :: Ends(Stream(s, i), k, Get(s.sources[i], k))
    {
      assert Stream(s, i) == s.pending[i];
      forall k ensures Clean(Stream(s, i)) && Ends(Stream(s, i), k, Get(s.sources[i], k)) {
        assert Ends(s.pending[i], k, Get(s.sources[i], k));
      }
    }
    forall k ensures Converged(s, k) {
      var w := First(s.sources, k, 0);
      if w < |s.sources| {
        assert Stream(s, w) == s.pending[w];
        assert About(s.pending[w], k);
      }
    }
  }

  // ----- a source changes -----

  lemma ChangeStreams(s: State, i: nat, batch: seq<Event>, next: Contents)
    requires Enabled(s, SourceChanges(i, batch, next))
    ensures var s' := After(s, SourceChanges(i, batch, next));
            && Stream(s', i) == Stream(s, i) + batch
            && forall j | 0 <= j < |s.sources| && j != i :: Stream(s', j) == Stream(s, j)
  {
  }

  lemma ChangeStream(s: State, i: nat, batch: seq<Event>, next: Contents, k: Key)
    requires Inv(s) && Enabled(s, SourceChanges(i, batch, next))
    ensures var s' := After(s, SourceChanges(i, batch, next));
            Clean(Stream(s', i)) && Ends(Stream(s', i), k, Get(s'.sources[i], k))
  {
    var s' := After(s, SourceChanges(i, batch, next));
    ChangeStreams(s, i, batch, next);
    assert Ends(batch, k, Get(next, k));
    EndsAppend(Stream(s, i), batch, k, Get(s.sources[i], k), Get(s'.sources[i], k));
  }

  lemma ChangeAbsent(s: State, i: nat, batch: seq<Event>, next: Contents, q: nat, k: Key)
    requires Inv(s) && Enabled(s, SourceChanges(i, batch, next)) && q < |s.sources| && Absent(s, q, k)
    ensures Absent(After(s, SourceChanges(i, batch, next)), q, k)
  {
    ChangeStreams(s, i, batch, next);
    if q == i {
      AboutConcat(Stream(s, i), batch, k);
      assert Ends(batch, k, Get(next, k));
    }
  }

  /** A change that is not about `k`, or comes from behind the winner, leaves the winner alone. */
  lemma SameWinner(a: seq<Contents>, b: seq<Contents>, k: Key)
    requires |a| == |b|
    requires forall j | 0 <= j <= First(b, k, 0) && j < |b| :: Get(a[j], k) == Get(b[j], k)
    ensures First(a, k, 0) == First(b, k, 0) && Winner(a, k) == Winner(b, k)
  {
    var w := First(b, k, 0);
    forall j | 0 <= j < w ensures k !in a[j] { assert Get(a[j], k) == Get(b[j], k); }
    if w < |b| { assert Get(a[w], k) == Get(b[w], k); }
  }

  lemma ChangeConverged(s: State, i: nat, batch: seq<Event>, next: Contents, k: Key)
    requires Inv(s) && Enabled(s, SourceChanges(i, batch, next))
    ensures Converged(After(s, SourceChanges(i, batch, next)), k)
  {
    var s' := After(s, SourceChanges(i, batch, next));
    ChangeStreams(s, i, batch, next);
    AboutConcat(Stream(s, i), batch, k);
    assert Ends(batch, k, Get(next, k));
    var w := First(s'.sources, k, 0);
    if Silent(s', w + 1, k) {
      forall j | 0 <= j <= w && j < |s'.sources| ensures Get(s.sources[j], k) == Get(s'.sources[j], k) {
        assert !About(Stream(s', j), k);
      }
      SameWinner(s.sources, s'.sources, k);
      forall j | 0 <= j < w + 1 && j < |s.sources| ensures !About(Stream(s, j), k) {
        assert !About(Stream(s', j), k);
      }
      assert Converged(s, k);
    }
  }

  lemma ChangeStep(s: State, i: nat, batch: seq<Event>, next: Contents)
    requires Inv(s) && Enabled(s, SourceChanges(i, batch, next))
    ensures Inv(After(s, SourceChanges(i, batch, next)))
  {
    var s' := After(s, SourceChanges(i, batch, next));
    ChangeStreams(s, i, batch, next);
    forall j | 0 <= j < |s'.sources|
      ensures Clean(Stream(s', j)) && forall k :: Ends(Stream(s', j), k, Get(s'.sources[j], k))
    {
      if j == i {
        ChangeStream(s, i, batch, next, "");
        forall k ensures Ends(Stream(s', j), k, Get(s'.sources[j], k)) { ChangeStream(s, i, batch, next, k); }
      }
    }
    forall q, k | 0 <= q < |s.sources| && Absent(s, q, k) ensures Absent(s', q, k) {
      ChangeAbsent(s, i, batch, next, q, k);
    }
    forall k ensures Converged(s', k) { ChangeConverged(s, i, batch, next, k); }
  }

  // ----- the handler -----

  /** Steps that move no event keep the streams, and with them everything else. */
  lemma SameStreams(s: State, s': State)
    requires Inv(s) && s'.sources == s.sources && |s'.pending| == |s.pending|
    requires forall i | 0 <= i < |s.sources| :: Stream(s', i) == Stream(s, i)
    requires Virtual(s') == Virtual(s) && ScanOk(s')
    ensures Inv(s')
  {
    forall k ensures Converged(s', k) {
      assert Converged(s, k);
      var n := First(s.sources, k, 0) + 1;
      if Silent(s', n, k) {
        forall i | 0 <= i < n && i < |s.sources| ensures !About(Stream(s, i), k) { assert !About(Stream(s', i), k); }
      }
    }
  }

  lemma BeginStep(s: State, i: nat, n: nat)
    requires Inv(s) && Enabled(s, Begin(i, n))
    ensures Inv(After(s, Begin(i, n)))
  {
    var s' := After(s, Begin(i, n));
    assert s.pending[i] == s.pending[i][..n] + s.pending[i][n..];
    SameStreams(s, s');
  }

  lemma EndStep(s: State)
    requires Inv(s) && Enabled(s, End)
    ensures Inv(After(s, End))
  {
    SameStreams(s, After(s, End));
  }

  ghost predicate Settles(s: State)
    requires Enabled(s, ReadNext)
  {
    After(s, ReadNext).hand.todo == s.hand.todo[1..]
  }

  /** A read that finds nothing: the scan goes on, knowing a little more. */
  lemma ScanOn(s: State)
    requires Inv(s) && Enabled(s, ReadNext) && After(s, ReadNext).hand.todo == s.hand.todo
    ensures Inv(After(s, ReadNext))
  {
    var s' := After(s, ReadNext);
    assert forall i | 0 <= i < |s.sources| :: Stream(s', i) == Stream(s, i);
    assert forall q, k | 0 <= q < |s.sources| :: Absent(s', q, k) <==> Absent(s, q, k);
    SameStreams(s, s');
  }

  /** The event in hand is done with. */
  lemma PopStream(s: State)
    requires |s.pending| == |s.sources| && Enabled(s, ReadNext) && Settles(s) && s.hand.source < |s.sources|
    ensures var s' := After(s, ReadNext);
            && Stream(s, s.hand.source) == [s.hand.todo[0]] + Stream(s', s.hand.source)
            && (forall j | 0 <= j < |s.sources| && j != s.hand.source :: Stream(s', j) == Stream(s, j))
  {
  }

  lemma PopStreams(s: State)
    requires Inv(s) && Enabled(s, ReadNext) && Settles(s)
    ensures var s' := After(s, ReadNext);
            && Stream(s, s.hand.source) == [s.hand.todo[0]] + Stream(s', s.hand.source)
            && (forall j | 0 <= j < |s.sources| && j != s.hand.source :: Stream(s', j) == Stream(s, j))
            && StreamsOk(s') && ScanOk(s')
  {
    var s', i := After(s, ReadNext), s.hand.source;
    PopStream(s);
    assert Stream(s', i) == Stream(s, i)[1..];
    forall k ensures Ends(Stream(s', i), k, Get(s'.sources[i], k)) {
      EndsTail(Stream(s, i), k, Get(s.sources[i], k));
    }
  }

  /** Everything but the subject of the event in hand is as before. */
  lemma PopOther(s: State, k: Key)
    requires Inv(s) && Enabled(s, ReadNext) && Settles(s) && k != s.hand.todo[0].Key()
    requires Get(Virtual(After(s, ReadNext)), k) == Get(Virtual(s), k)
    ensures Converged(After(s, ReadNext), k)
  {
    var s', i := After(s, ReadNext), s.hand.source;
    PopStreams(s);
    AboutConcat([s.hand.todo[0]], Stream(s', i), k);
    assert Converged(s, k);
    var n := First(s.sources, k, 0) + 1;
    if Silent(s', n, k) {
      forall j | 0 <= j < n && j < |s.sources| ensures !About(Stream(s, j), k) { assert !About(Stream(s', j), k); }
    }
  }

  /** Dropping: a source of higher priority holds the key, so the winner is before this source. */
  lemma DropConverged(s: State)
    requires Inv(s) && Enabled(s, ReadNext) && Settles(s) && s.hand.scan.Higher?
    ensures Converged(After(s, ReadNext), s.hand.todo[0].Key())
  {
    var s', i, k := After(s, ReadNext), s.hand.source, s.hand.todo[0].Key();
    PopStreams(s);
    var n := First(s.sources, k, 0) + 1;
    assert s.hand.scan.next < i && k in s.sources[s.hand.scan.next];
    assert n <= i;
    assert Converged(s, k);
    if Silent(s', n, k) {
      forall j | 0 <= j < n && j < |s.sources| ensures !About(Stream(s, j), k) { assert !About(Stream(s', j), k); }
    }
  }

  /** If nothing else about the key is waiting, the event in hand carries the source's present value. */
  lemma LastWord(s: State)
    requires Inv(s) && Enabled(s, ReadNext) && Settles(s)
    requires !About(Stream(After(s, ReadNext), s.hand.source), s.hand.todo[0].Key())
    ensures s.hand.todo[0].next == Get(s.sources[s.hand.source], s.hand.todo[0].Key())
  {
    PopStreams(s);
    var stream, k := Stream(s, s.hand.source), s.hand.todo[0].Key();
    assert Ends(stream, k, Get(s.sources[s.hand.source], k));
    assert stream[0].WellFormed() && stream[0].Key() == k && !About(stream[1..], k);
  }

  /** A source that the scan has passed and that holds the key now still has something to say. */
  lemma PassedIsUnsettled(s: State, q: nat)
    requires Inv(s) && Enabled(s, ReadNext) && Settles(s) && s.hand.scan.Lower?
    requires q < s.hand.scan.next && q != s.hand.source && s.hand.todo[0].Key() in s.sources[q]
    ensures About(Stream(After(s, ReadNext), q), s.hand.todo[0].Key())
  {
    PopStreams(s);
    assert Absent(s, q, s.hand.todo[0].Key());
  }

  lemma EmitConverged(s: State)
    requires Inv(s) && Enabled(s, ReadNext) && Settles(s) && s.hand.scan.Lower?
    ensures Converged(After(s, ReadNext), s.hand.todo[0].Key())
  {
    var s', i, e, p := After(s, ReadNext), s.hand.source, s.hand.todo[0], s.hand.scan.next;
    var k := e.Key();
    PopStreams(s);
    var w := First(s.sources, k, 0);
    if Silent(s', w + 1, k) {
      // Nothing the scan has passed can be the winner.
      if w < p && w != i { PassedIsUnsettled(s, w); }
      assert w == i || p <= w;
      assert !About(Stream(s', i), k);
      LastWord(s);
      assert e in Stream(s, i);
      EmittedValue(s);
    }
  }

  lemma EmittedValue(s: State)
    requires Inv(s) && Enabled(s, ReadNext) && Settles(s) && s.hand.scan.Lower?
    ensures var s', k := After(s, ReadNext), s.hand.todo[0].Key();
            var p := s.hand.scan.next;
            var lower := if p < |s.sources| then Some(s.sources[p][k]) else None;
            Virtual(s') == Process(Virtual(s), k, Decide(s.hand.todo[0], lower))
  {
    var s' := After(s, ReadNext);
    assert s'.hand.out[..|s.hand.out|] == s.hand.out;
  }

  lemma ReadStep(s: State)
    requires Inv(s) && Enabled(s, ReadNext)
    ensures Inv(After(s, ReadNext))
  {
    if !Settles(s) {
      ScanOn(s);
    } else {
      var s' := After(s, ReadNext);
      PopStreams(s);
      if s.hand.scan.Lower? { EmittedValue(s); }
      forall k ensures Converged(s', k) {
        if k != s.hand.todo[0].Key() { PopOther(s, k); }
        else if s.hand.scan.Higher? { DropConverged(s); }
        else { EmitConverged(s); }
      }
    }
  }

  lemma StepKeepsInv(s: State, a: Step)
    requires Inv(s) && Enabled(s, a)
    ensures Inv(After(s, a))
  {
    match a
    case SourceChanges(i, batch, next) => ChangeStep(s, i, batch, next);
    case Begin(i, n) => BeginStep(s, i, n);
    case ReadNext => ReadStep(s);
    case End => EndStep(s);
  }

  lemma {:induction false} RunKeepsInv(s: State, steps: seq<Step>, s': State)
    requires Inv(s) && Reaches(s, steps, s')
    ensures Inv(s')
    decreases steps
  {
    if steps != [] {
      StepKeepsInv(s, steps[0]);
      RunKeepsInv(After(s, steps[0]), steps[1..], s');
    }
  }

  // ----- the theorems -----

  /** The join converges key by key, under any interleaving: between handler calls, if nothing about `k` is
      waiting from the winning source and those before it, the processed state has the winner's object; if no
      source holds `k` and nothing about `k` is waiting, the processed state does not have it. */
  lemma JoinConverges(s0: State, steps: seq<Step>, s: State, k: Key)
    requires Initial(s0) && Reaches(s0, steps, s) && s.hand.Nothing?
    ensures |s.pending| == |s.sources|
    ensures (forall i | 0 <= i <= First(s.sources, k, 0) && i < |s.sources| :: !About(s.pending[i], k)) ==>
              Get(s.processed, k) == Winner(s.sources, k)
  {
    InitialInv(s0);
    RunKeepsInv(s0, steps, s);
    assert Converged(s, k);
    assert forall i | 0 <= i < |s.sources| :: Stream(s, i) == s.pending[i];
  }

  /** With nothing waiting, the processed state is the first-wins union that GetKey and ListFiltered compute. */
  lemma JoinQuiescent(s0: State, steps: seq<Step>, s: State, listed: Contents)
    requires Initial(s0) && Reaches(s0, steps, s) && s.hand.Nothing?
    requires forall i | 0 <= i < |s.pending| :: s.pending[i] == []
    requires forall k :: Get(listed, k) == Winner(s.sources, k)
    ensures s.processed == listed
  {
    forall k ensures Get(s.processed, k) == Get(listed, k) { JoinConverges(s0, steps, s, k); }
    forall k ensures k in s.processed <==> k in listed { assert Get(s.processed, k) == Get(listed, k); }
    forall k | k in listed ensures s.processed[k] == listed[k] { assert Get(s.processed, k) == Get(listed, k); }
  }

  // ----- what a handler of the join makes of its events -----

  /** Old values are not relied on: an event sets or removes its key. */
  function Fold(c: Contents, events: seq<Event>): Contents
    requires AllWellFormed(events)
  {
    if events == [] then c
    else
      var n := |events| - 1;
      Process(Fold(c, events[..n]), events[n].Key(), events[n])
  }

  lemma {:induction false} FoldConcat(c: Contents, a: seq<Event>, b: seq<Event>)
    requires AllWellFormed(a) && AllWellFormed(b)
    ensures Fold(c, a + b) == Fold(Fold(c, a), b)
  {
    if b == [] {
      assert a + b == a;
    } else {
      var n := |b| - 1;
      FoldConcat(c, a, b[..n]);
      assert (a + b)[..|a + b| - 1] == a + b[..n];
    }
  }

  lemma {:induction false} ReplayIsFold(c: Contents, events: seq<Event>)
    requires AllWellFormed(events) && Replay(c, events).Some?
    ensures Fold(c, events) == Replay(c, events).value
    decreases events
  {
    if events != [] {
      var first, rest := [events[0]], events[1..];
      assert first[..0] == [] && events == first + rest;
      ReplayIsFold(Mirror(c, events[0]), rest);
      FoldConcat(c, first, rest);
    }
  }

  ghost predicate OutsOk(out: seq<Out>) {
    forall n | 0 <= n < |out| :: out[n].event.WellFormed() && out[n].event.Key() == out[n].key
  }

  lemma {:induction false} FoldIsProcess(c: Contents, out: seq<Out>)
    requires OutsOk(out)
    ensures AllWellFormed(EventsOf(out)) && Fold(c, EventsOf(out)) == ProcessAll(c, out)
    ensures Keyed(c) ==> Keyed(ProcessAll(c, out))
  {
    if out != [] {
      var n := |out| - 1;
      FoldIsProcess(c, out[..n]);
      assert EventsOf(out)[..n] == EventsOf(out[..n]);
    }
  }

  /** Sources and processed state are keyed, and every refreshed event is about the key it was refreshed for. */
  ghost predicate Tagged(s: State) {
    && (forall i | 0 <= i < |s.sources| :: Keyed(s.sources[i])) && Keyed(s.processed)
    && (s.hand.Handling? ==> OutsOk(s.hand.out)) && AllWellFormed(s.published)
  }

  lemma TagStep(s: State, a: Step)
    requires Inv(s) && Enabled(s, a) && Tagged(s)
    ensures Tagged(After(s, a))
  {
    if a.End? { FoldIsProcess(s.processed, s.hand.out); }
    if a.ReadNext? {
      assert s.hand.todo[0] == Stream(s, s.hand.source)[0];
      assert Clean(Stream(s, s.hand.source));
    }
  }

  /** Over any run, the events distributed turn the old processed state into the new one. */
  lemma {:induction false} RunFolds(s: State, steps: seq<Step>, s': State)
    requires Inv(s) && Tagged(s) && Reaches(s, steps, s')
    ensures Tagged(s') && s.published <= s'.published && AllWellFormed(s'.published[|s.published|..])
    ensures Fold(s.processed, s'.published[|s.published|..]) == s'.processed
    decreases steps
  {
    if steps != [] {
      var a, s1 := steps[0], After(s, steps[0]);
      StepKeepsInv(s, a);
      TagStep(s, a);
      RunFolds(s1, steps[1..], s');
      if a.End? {
        FoldIsProcess(s.processed, s.hand.out);
        var news := EventsOf(s.hand.out);
        assert s'.published[|s.published|..] == news + s'.published[|s1.published|..];
        FoldConcat(s.processed, news, s'.published[|s1.published|..]);
      }
    }
  }

  /** A handler that registers between two handler calls and is first sent the processed state as Adds folds what it
      receives to the processed state at any later such moment. So it converges to the winners with it: see
      `JoinConverges`. */
  lemma HandlerFolds(s0: State, steps: seq<Step>, s: State, adds: seq<Event>, more: seq<Step>, s': State)
    requires Initial(s0) && Reaches(s0, steps, s) && Derived.AreAdds(s.processed, adds) && Reaches(s, more, s')
    ensures s.published <= s'.published && AllWellFormed(adds + s'.published[|s.published|..])
    ensures Fold(map[], adds + s'.published[|s.published|..]) == s'.processed
  {
    InitialInv(s0);
    RunKeepsInv(s0, steps, s);
    RunFolds(s0, steps, s);
    RunFolds(s, more, s');
    Derived.AddsReplay(s.processed, adds);
    ReplayWellFormed(map[], adds);
    ReplayIsFold(map[], adds);
    FoldConcat(map[], adds, s'.published[|s.published|..]);
  }

  // ----- the handler as it runs undisturbed -----

  /** The refreshed form of one event, or nothing, when no source changes in between. */
  function RefreshOne(sources: seq<Contents>, i: nat, e: Event): Option<Event>
    requires i < |sources| && e.WellFormed()
  {
    var k := e.Key();
    if First(sources, k, 0) < i then None else Some(Decide(e, Front(sources, k, i + 1)))
  }

  function Refresh(sources: seq<Contents>, i: nat, events: seq<Event>): seq<Out>
    requires i < |sources| && AllWellFormed(events)
  {
    if events == [] then []
    else
      var n := |events| - 1;
      var r := RefreshOne(sources, i, events[n]);
      Refresh(sources, i, events[..n]) + (if r.Some? then [Out(events[n].Key(), r.value)] else [])
  }

  /** Reading on without interruption refreshes the event in hand exactly so. */
  lemma {:induction false} Uninterrupted(sources: seq<Contents>, h: Hand) returns (h': Hand)
    requires h.Handling? && h.source < |sources| && h.todo != [] && h.todo[0].WellFormed()
    requires match h.scan
             case Higher(p) => p <= h.source && forall q | 0 <= q < p :: h.todo[0].Key() !in sources[q]
             case Lower(p) =>
               && h.source < p <= |sources|
               && (forall q | 0 <= q < h.source :: h.todo[0].Key() !in sources[q])
               && (forall q | h.source < q < p :: h.todo[0].Key() !in sources[q])
    ensures h' == Handling(h.source, h.todo[1..], Higher(0),
                           var r := RefreshOne(sources, h.source, h.todo[0]);
                           h.out + if r.Some? then [Out(h.todo[0].Key(), r.value)] else [])
    ensures exists n: nat :: h' == ReadMany(sources, h, n)
    decreases h.scan.Higher?, |sources| - h.scan.next
  {
    var next := ReadOne(sources, h);
    if next.todo == h.todo[1..] && next.scan == Higher(0) {
      h' := next;
      if h.scan.Higher? {
        assert First(sources, h.todo[0].Key(), 0) <= h.scan.next;
      } else {
        assert First(sources, h.todo[0].Key(), h.source + 1) == h.scan.next;
        assert First(sources, h.todo[0].Key(), 0) >= h.source;
      }
      assert h' == ReadMany(sources, h, 1);
    } else {
      h' := Uninterrupted(sources, next);
      var n: nat :| h' == ReadMany(sources, next, n);
      assert h' == ReadMany(sources, h, n + 1);
    }
  }

  function ReadMany(sources: seq<Contents>, h: Hand, n: nat): Hand
    decreases n
  {
    if n == 0 || !(h.Handling? && h.todo != [] && h.todo[0].WellFormed()) then h
    else ReadMany(sources, ReadOne(sources, h), n - 1)
  }

  class JoinCollection {
    var processedState: Contents

    constructor ()
      ensures processedState == map[]
    {
      processedState := map[];
    }

    /** What a new handler that asks for the existing state is sent first: the processed state, not a listing. */
    method InitialEvents() returns (events: seq<Event>)
      ensures Derived.AreAdds(processedState, events)
    {
      events := Derived.AddsFor(processedState);
    }

    /** Refreshing a batch against the present contents of all sources. */
    static method RefreshEvents(sources: seq<Contents>, events: seq<Event>, i: nat) returns (out: seq<Out>)
      requires i < |sources| && AllWellFormed(events)
      ensures out == Refresh(sources, i, events)
    {
      out := [];
      for n := 0 to |events|
        invariant out == Refresh(sources, i, events[..n])
      {
        assert events[..n + 1][..n] == events[..n];
        var e := events[n];
        var k := e.Key();
        var hasHigherPriority := false;
        for q := 0 to i
          invariant !hasHigherPriority && First(sources, k, 0) == First(sources, k, q)
        {
          if k in sources[q] {
            hasHigherPriority := true;
            break;
          }
        }
        if hasHigherPriority { continue; }
        var lower := None;
        for q := i + 1 to |sources|
          invariant lower.None? && First(sources, k, i + 1) == First(sources, k, q)
        {
          if k in sources[q] {
            lower := Some(sources[q][k]);
            break;
          }
        }
        out := out + [Out(k, Decide(e, lower))];
      }
      assert events[..|events|] == events;
    }

    method HandleSubCollectionEvents(sources: seq<Contents>, events: seq<Event>, i: nat) returns (out: seq<Out>)
      requires i < |sources| && AllWellFormed(events)
      modifies this
      ensures out == Refresh(sources, i, events)
      ensures processedState == ProcessAll(old(processedState), out)
    {
      out := RefreshEvents(sources, events, i);
      for n := 0 to |out|
        invariant processedState == ProcessAll(old(processedState), out[..n])
      {
        assert out[..n + 1][..n] == out[..n];
        var k, e := out[n].key, out[n].event;
        if e.kind == Delete || e.next.None? {
          processedState := processedState - {k};
        } else {
          processedState := processedState[k := e.next.value];
        }
      }
      assert out[..|out|] == out;
    }
  }
}
