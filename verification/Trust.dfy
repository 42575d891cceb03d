/** The canonicalizing union of CA certificates (pkg/clienttrust/bundle.go) and its two callers
    (pkg/compiler/gateways.go:260-302, pkg/gatewaydeployer/agentgateway_sources.go:79-106). */
module Trust {
  import opened Collections

  type Bytes = string

  datatype Block = Block(kind: string, headers: nat, bytes: Bytes)

  datatype Cert = Cert(raw: Bytes, basicConstraintsValid: bool, isCA: bool, notAfter: int)

  /** The library calls: PEM decoding of a first block with the unread tail, PEM encoding of a CERTIFICATE block,
      X.509 parsing, SHA-256 read as a number (hexadecimal text of one length sorts like the numbers it denotes) and
      Unicode white space. */
  datatype Codec = Codec(
    decode: Bytes -> Option<(Block, Bytes)>,
    encode: Bytes -> Bytes,
    parse: Bytes -> Option<Cert>,
    digest: Bytes -> nat,
    space: char -> bool)

  const BEGIN := "-----BEGIN CERTIFICATE-----"
  const BEGIN_ANY := "-----BEGIN "
  const LIMIT := 900 * 1024
  const WARN_SECONDS := 30 * 24 * 3600

  // ----- text -----

  function TrimLeft(c: Codec, s: Bytes): Bytes {
    if s != [] && c.space(s[0]) then TrimLeft(c, s[1..]) else s
  }

  function TrimRight(c: Codec, s: Bytes): Bytes {
    if s != [] && c.space(s[|s| - 1]) then TrimRight(c, s[..|s| - 1]) else s
  }

  function Trim(c: Codec, s: Bytes): (r: Bytes)
    ensures |r| <= |s|
  {
    TrimLeftShrinks(c, s);
    TrimRightShrinks(c, TrimLeft(c, s));
    TrimRight(c, TrimLeft(c, s))
  }

  lemma TrimLeftShrinks(c: Codec, s: Bytes)
    ensures |TrimLeft(c, s)| <= |s|
  {
  }

  lemma TrimRightShrinks(c: Codec, s: Bytes)
    ensures TrimRight(c, s) <= s
  {
  }

  /** What follows the first line. */
  function AfterLine(s: Bytes): (r: Bytes)
    ensures s != [] ==> |r| < |s|
  {
    if s == [] then [] else if s[0] == '\n' then s[1..] else AfterLine(s[1..])
  }

  /** Occurrences that do not overlap. */
  function Count(s: Bytes, sep: Bytes): nat
    requires sep != []
  {
    if |s| < |sep| then 0
    else if sep <= s then 1 + Count(s[|sep|..], sep)
    else Count(s[1..], sep)
  }

  // ----- the library's promises -----

  /** A CA certificate in canonical form. */
  predicate Authority(c: Codec, raw: Bytes) {
    var p := c.parse(raw);
    p.Some? && p.value.basicConstraintsValid && p.value.isCA
  }

  /** One PEM certificate block: recognised at the start of a text, and counted once. */
  ghost predicate OneBlock(c: Codec, text: Bytes) {
    BEGIN <= text && Count(text, BEGIN_ANY) == 1
  }

  /** The round trip of section 5 of RFC 7468: an encoded certificate is read back from the start of any text, also
      when its last line end is cut off. */
  ghost predicate RoundTrips(c: Codec, raw: Bytes) {
    var e := c.encode(raw);
    && OneBlock(c, e) && OneBlock(c, TrimRight(c, e))
    && c.decode(TrimRight(c, e)) == Some((Block("CERTIFICATE", 0, raw), []))
    && forall rest: Bytes :: c.decode(e + rest) == Some((Block("CERTIFICATE", 0, raw), rest))
  }

  /** Decoding leaves a shorter tail of its text. */
  ghost predicate Consumes(c: Codec, s: Bytes) {
    c.decode(s).Some? ==>
      var tail := c.decode(s).value.1;
      |tail| < |s| && s[|s| - |tail|..] == tail
  }

  ghost predicate Lawful(c: Codec) {
    && (forall s :: Consumes(c, s))
    && (forall raw :: Authority(c, raw) ==> RoundTrips(c, raw))
    && (forall raw :: c.parse(raw).Some? ==> c.parse(raw).value.raw == raw)
    && (forall a, b :: c.digest(a) == c.digest(b) ==> a == b)
    && !c.space('-')
  }

  // ----- reading one source -----

  datatype Fault = NotACertificate | InvalidPem | InvalidCertificate | NotAuthority | EmptySource

  datatype Scanned = Certs(raws: seq<Bytes>) | Failed(why: Fault)

  function Before(raw: Bytes, s: Scanned): Scanned {
    if s.Certs? then Certs([raw] + s.raws) else s
  }

  /** One block at the start of a trimmed text: what is wrong with it, or its certificate and the unread tail. */
  function ReadBlock(c: Codec, text: Bytes): Result
    requires Lawful(c)
  {
    if !(BEGIN <= text) then Bad(NotACertificate)
    else
      var d := c.decode(text);
      if d.None? then Bad(InvalidPem)
      else
        var (block, tail) := d.value;
        assert Consumes(c, text);
        if block.kind != "CERTIFICATE" || block.headers > 0 then Bad(InvalidPem)
        else if Count(text[..|text| - |tail|], BEGIN_ANY) != 1 then Bad(InvalidPem)
        else
          var p := c.parse(block.bytes);
          if p.None? then Bad(InvalidCertificate)
          else if !p.value.basicConstraintsValid || !p.value.isCA then Bad(NotAuthority)
          else Good(p.value.raw, tail)
  }

  datatype Result = Bad(why: Fault) | Good(raw: Bytes, tail: Bytes)

  lemma ReadBlockGood(c: Codec, text: Bytes)
    requires Lawful(c) && ReadBlock(c, text).Good?
    ensures |ReadBlock(c, text).tail| < |text| && Authority(c, ReadBlock(c, text).raw)
  {
    assert Consumes(c, text);
  }

  /** The certificates of a text, in order, or the first fault. */
  function Scan(c: Codec, rest: Bytes): Scanned
    requires Lawful(c)
    decreases |rest|
  {
    var text := Trim(c, rest);
    if text == [] then Certs([])
    else if text[0] == '#' then Scan(c, AfterLine(text))
    else
      var r := ReadBlock(c, text);
      if r.Bad? then Failed(r.why)
      else
        ReadBlockGood(c, text);
        Before(r.raw, Scan(c, r.tail))
  }

  // ----- what a merge is, without its loops -----

  /** What is wrong with a source, if anything. */
  function FaultOf(c: Codec, source: Bytes): Option<Fault>
    requires Lawful(c)
  {
    var s := Scan(c, source);
    if s.Failed? then Some(s.why) else if s.raws == [] then Some(EmptySource) else None
  }

  ghost predicate AllGood(c: Codec, sources: seq<Bytes>)
    requires Lawful(c)
  {
    forall s | s in sources :: FaultOf(c, s).None?
  }

  function RawsOf(c: Codec, source: Bytes): set<Bytes>
    requires Lawful(c)
  {
    var s := Scan(c, source);
    if s.Certs? then set r | r in s.raws else {}
  }

  ghost function Union(c: Codec, sources: seq<Bytes>): set<Bytes>
    requires Lawful(c)
  {
    set s, r | s in sources && r in RawsOf(c, s) :: r
  }

  ghost predicate Ordered(c: Codec, raws: seq<Bytes>) {
    forall i, j | 0 <= i < j < |raws| :: c.digest(raws[i]) < c.digest(raws[j])
  }

  function EncodeAll(c: Codec, raws: seq<Bytes>): Bytes {
    if raws == [] then [] else c.encode(raws[0]) + EncodeAll(c, raws[1..])
  }

  ghost predicate IsFirst(c: Codec, raws: set<Bytes>, f: Bytes) {
    f in raws && forall r | r in raws :: c.digest(f) <= c.digest(r)
  }

  lemma {:induction false} FirstExists(c: Codec, raws: set<Bytes>) returns (f: Bytes)
    requires raws != {}
    ensures IsFirst(c, raws, f)
    decreases |raws|
  {
    f :| f in raws;
    var others := raws - {f};
    if others != {} {
      var g := FirstExists(c, others);
      assert forall r | r in raws :: r == f || r in others;
      if c.digest(g) < c.digest(f) { f := g; }
    } else {
      assert raws == {f};
    }
  }

  lemma OrderedCons(c: Codec, raws: set<Bytes>, f: Bytes, o: seq<Bytes>)
    requires Lawful(c) && IsFirst(c, raws, f) && Ordered(c, o) && forall r :: r in o <==> r in raws - {f}
    ensures Ordered(c, [f] + o)
    ensures forall r :: r in [f] + o <==> r in raws
  {
    forall r | r in o ensures c.digest(f) < c.digest(r) {
      assert r in raws - {f};
    }
  }

  /** The certificates by increasing digest. */
  ghost function Order(c: Codec, raws: set<Bytes>): (o: seq<Bytes>)
    requires Lawful(c)
    ensures Ordered(c, o)
    ensures forall r :: r in o <==> r in raws
    decreases |raws|
  {
    if raws == {} then []
    else
      assert exists f :: IsFirst(c, raws, f) by { var f := FirstExists(c, raws); }
      var f :| IsFirst(c, raws, f);
      var o := Order(c, raws - {f});
      OrderedCons(c, raws, f, o);
      [f] + o
  }

  ghost function Bundle(c: Codec, raws: set<Bytes>): Bytes
    requires Lawful(c)
  {
    EncodeAll(c, Order(c, raws))
  }

  /** Merging `sources` succeeds with `bytes`. */
  ghost predicate Merges(c: Codec, sources: seq<Bytes>, bytes: Bytes)
    requires Lawful(c)
  {
    && sources != [] && AllGood(c, sources)
    && bytes == Bundle(c, Union(c, sources)) && |bytes| <= LIMIT
  }

  predicate Expires(c: Codec, raw: Bytes, now: int) {
    c.parse(raw).Some? && c.parse(raw).value.notAfter < now + WARN_SECONDS
  }

  /** The digests warned about. */
  ghost function Expiring(c: Codec, raws: set<Bytes>, now: int): set<nat> {
    set r | r in raws && Expires(c, r, now) :: c.digest(r)
  }

  // ----- order -----

  lemma OrderedTail(c: Codec, raws: seq<Bytes>)
    requires Ordered(c, raws) && raws != []
    ensures Ordered(c, raws[1..])
    ensures forall r :: r in raws[1..] <==> r in raws && r != raws[0]
  {
    forall r ensures r in raws[1..] <==> r in raws && r != raws[0] {
      if r in raws && r != raws[0] {
        var i :| 0 <= i < |raws| && raws[i] == r;
        assert raws[1..][i - 1] == r;
      }
    }
  }

  lemma OrderedHead(c: Codec, raws: seq<Bytes>, r: Bytes)
    requires Ordered(c, raws) && r in raws
    ensures c.digest(raws[0]) <= c.digest(r)
  {
  }

  lemma {:induction false} OrderIsUnique(c: Codec, a: seq<Bytes>, b: seq<Bytes>)
    requires Lawful(c) && Ordered(c, a) && Ordered(c, b) && forall r :: r in a <==> r in b
    ensures a == b
    decreases |a|
  {
    assert |b| > 0 ==> b[0] in a;
    if a != [] {
      assert a[0] in b;
      OrderedHead(c, a, b[0]);
      OrderedHead(c, b, a[0]);
      OrderedTail(c, a);
      OrderedTail(c, b);
      OrderIsUnique(c, a[1..], b[1..]);
      assert a == [a[0]] + a[1..] && b == [b[0]] + b[1..];
    }
  }

  // ----- the written bundle is read back -----

  lemma {:induction false} TrimRightKeeps(c: Codec, a: Bytes, b: Bytes)
    requires TrimRight(c, b) != []
    ensures TrimRight(c, a + b) == a + TrimRight(c, b)
    decreases |b|
  {
    assert (a + b)[|a + b| - 1] == b[|b| - 1];
    if c.space(b[|b| - 1]) {
      TrimRightKeeps(c, a, b[..|b| - 1]);
      assert (a + b)[..|a + b| - 1] == a + b[..|b| - 1];
    }
  }

  lemma {:induction false} TrimRightTwice(c: Codec, s: Bytes)
    ensures TrimRight(c, TrimRight(c, s)) == TrimRight(c, s)
    decreases |s|
  {
    if s != [] && c.space(s[|s| - 1]) { TrimRightTwice(c, s[..|s| - 1]); }
  }

  lemma {:induction false} TrimRightSolid(c: Codec, s: Bytes)
    requires s != [] && !c.space(s[0])
    ensures TrimRight(c, s) != [] && TrimRight(c, s)[0] == s[0]
    decreases |s|
  {
    if c.space(s[|s| - 1]) { TrimRightSolid(c, s[..|s| - 1]); }
  }

  /** Trimming a text that starts solid on the right first does not change how it is scanned. */
  lemma ScanTrimmed(c: Codec, s: Bytes)
    requires Lawful(c) && s != [] && !c.space(s[0])
    ensures Trim(c, s) == TrimRight(c, s)
    ensures Scan(c, TrimRight(c, s)) == Scan(c, s)
  {
    TrimRightSolid(c, s);
    TrimRightTwice(c, s);
  }

  /** Reading one encoded certificate followed by `more`. */
  lemma ReadEncoded(c: Codec, raw: Bytes, more: Bytes)
    requires Lawful(c) && Authority(c, raw)
    ensures ReadBlock(c, c.encode(raw) + more) == Good(raw, more)
    ensures ReadBlock(c, TrimRight(c, c.encode(raw))) == Good(raw, [])
  {
    assert RoundTrips(c, raw);
    var e := c.encode(raw);
    assert (e + more)[..|e + more| - |more|] == e;
    var t := TrimRight(c, e);
    assert t[..|t| - 0] == t;
  }

  /** One unfolding of the scan at a block. */
  lemma ScanOne(c: Codec, text: Bytes, raw: Bytes, tail: Bytes)
    requires Lawful(c) && text != [] && text[0] == '-'
    requires ReadBlock(c, TrimRight(c, text)) == Good(raw, tail)
    ensures Scan(c, text) == Before(raw, Scan(c, tail))
  {
    ScanTrimmed(c, text);
    TrimRightSolid(c, text);
  }

  lemma EncodedStart(c: Codec, raw: Bytes)
    requires Lawful(c) && Authority(c, raw)
    ensures c.encode(raw) != [] && c.encode(raw)[0] == '-'
  {
    assert RoundTrips(c, raw);
    assert BEGIN[0] == '-';
  }

  lemma ScanLast(c: Codec, raw: Bytes)
    requires Lawful(c) && Authority(c, raw)
    ensures Scan(c, c.encode(raw)) == Certs([raw])
  {
    EncodedStart(c, raw);
    ReadEncoded(c, raw, []);
    ScanOne(c, c.encode(raw), raw, []);
  }

  lemma ScanMore(c: Codec, raw: Bytes, more: Bytes)
    requires Lawful(c) && Authority(c, raw) && more != [] && more[0] == '-'
    ensures Scan(c, c.encode(raw) + more) == Before(raw, Scan(c, more))
  {
    EncodedStart(c, raw);
    TrimRightSolid(c, more);
    TrimRightKeeps(c, c.encode(raw), more);
    ReadEncoded(c, raw, TrimRight(c, more));
    ScanTrimmed(c, more);
    ScanOne(c, c.encode(raw) + more, raw, TrimRight(c, more));
  }

  lemma {:induction false} ScanEncoded(c: Codec, raws: seq<Bytes>)
    requires Lawful(c) && forall r | r in raws :: Authority(c, r)
    ensures Scan(c, EncodeAll(c, raws)) == Certs(raws)
    ensures raws != [] ==> EncodeAll(c, raws) != [] && EncodeAll(c, raws)[0] == '-'
    decreases |raws|
  {
    if raws != [] {
      var raw, more := raws[0], EncodeAll(c, raws[1..]);
      EncodedStart(c, raw);
      ScanEncoded(c, raws[1..]);
      assert raws == [raw] + raws[1..];
      if raws[1..] == [] {
        assert c.encode(raw) + more == c.encode(raw);
        ScanLast(c, raw);
      } else {
        ScanMore(c, raw, more);
      }
    }
  }

  lemma {:induction false} ScanValid(c: Codec, rest: Bytes)
    requires Lawful(c) && Scan(c, rest).Certs?
    ensures forall r | r in Scan(c, rest).raws :: Authority(c, r)
    decreases |rest|
  {
    var text := Trim(c, rest);
    if text != [] {
      if text[0] == '#' {
        ScanValid(c, AfterLine(text));
      } else {
        ReadBlockGood(c, text);
        ScanValid(c, ReadBlock(c, text).tail);
      }
    }
  }

  lemma UnionValid(c: Codec, sources: seq<Bytes>)
    requires Lawful(c)
    ensures forall r | r in Union(c, sources) :: Authority(c, r)
  {
    forall r | r in Union(c, sources) ensures Authority(c, r) {
      var s :| s in sources && r in RawsOf(c, s);
      ScanValid(c, s);
    }
  }

  /** A bundle, read as a source, holds the certificates it was made of. */
  lemma BundleReadsBack(c: Codec, raws: set<Bytes>)
    requires Lawful(c) && forall r | r in raws :: Authority(c, r)
    ensures Scan(c, Bundle(c, raws)) == Certs(Order(c, raws))
    ensures RawsOf(c, Bundle(c, raws)) == raws
    ensures raws != {} ==> FaultOf(c, Bundle(c, raws)).None?
  {
    var o := Order(c, raws);
    ScanEncoded(c, o);
    SameElements(o, raws);
  }

  lemma SameElements(o: seq<Bytes>, raws: set<Bytes>)
    requires forall r :: r in o <==> r in raws
    ensures (set r | r in o) == raws
    ensures raws != {} ==> o != []
  {
  }

  lemma UnionOfOne(c: Codec, s: Bytes)
    requires Lawful(c)
    ensures Union(c, [s]) == RawsOf(c, s)
  {
  }

  lemma GoodIsNotEmpty(c: Codec, s: Bytes)
    requires Lawful(c) && FaultOf(c, s).None?
    ensures RawsOf(c, s) != {}
  {
    assert Scan(c, s).raws[0] in RawsOf(c, s);
  }

  lemma GoodUnion(c: Codec, sources: seq<Bytes>)
    requires Lawful(c) && AllGood(c, sources)
    ensures Union(c, sources) != {} <==> sources != []
  {
    if sources != [] {
      GoodIsNotEmpty(c, sources[0]);
      var r :| r in RawsOf(c, sources[0]);
      assert sources[0] in sources && r in Union(c, sources);
    }
  }

  // ----- the size of a bundle -----

  /** The first of an ordered list is not in another one whose members it has, unless it is first there too. */
  lemma FirstIsFirst(c: Codec, few: seq<Bytes>, many: seq<Bytes>)
    requires Ordered(c, few) && Ordered(c, many) && many != [] && forall r | r in few :: r in many
    ensures few != [] && many[0] in few ==> few[0] == many[0]
  {
    if few != [] && many[0] in few {
      var i :| 0 <= i < |few| && few[i] == many[0];
      assert few[0] in many;
      var j :| 0 <= j < |many| && many[j] == few[0];
    }
  }

  /** Fewer certificates never take more room. */
  lemma {:induction false} FewerAreShorter(c: Codec, few: seq<Bytes>, many: seq<Bytes>)
    requires Ordered(c, few) && Ordered(c, many) && forall r | r in few :: r in many
    ensures |EncodeAll(c, few)| <= |EncodeAll(c, many)|
    decreases |many|
  {
    if few != [] {
      assert few[0] in few;
      FirstIsFirst(c, few, many);
      OrderedTail(c, many);
      if few[0] == many[0] {
        OrderedTail(c, few);
        FewerAreShorter(c, few[1..], many[1..]);
      } else {
        FewerAreShorter(c, few, many[1..]);
      }
    }
  }

  lemma SmallerUnionSmallerBundle(c: Codec, few: set<Bytes>, many: set<Bytes>)
    requires Lawful(c) && few <= many
    ensures |Bundle(c, few)| <= |Bundle(c, many)|
  {
    var a, b := Order(c, few), Order(c, many);
    assert forall r | r in a :: r in b;
    FewerAreShorter(c, a, b);
  }

  // ----- main results -----

  /** Order and repetition of sources do not matter: the same texts give the same bytes and warnings, or none. */
  lemma SourcesAreASet(c: Codec, a: seq<Bytes>, b: seq<Bytes>, bytes: Bytes, now: int)
    requires Lawful(c) && forall s :: s in a <==> s in b
    ensures Merges(c, a, bytes) <==> Merges(c, b, bytes)
    ensures Expiring(c, Union(c, a), now) == Expiring(c, Union(c, b), now)
  {
    assert Union(c, a) == Union(c, b);
    if a != [] { assert a[0] in b; }
    if b != [] { assert b[0] in a; }
  }

  /** A merged bundle is its own canonical form. */
  lemma MergeIsAFixedPoint(c: Codec, sources: seq<Bytes>, bytes: Bytes)
    requires Lawful(c) && Merges(c, sources, bytes)
    ensures Merges(c, [bytes], bytes) && Union(c, [bytes]) == Union(c, sources)
  {
    UnionValid(c, sources);
    GoodUnion(c, sources);
    BundleReadsBack(c, Union(c, sources));
    UnionOfOne(c, bytes);
  }

  /** `canon` is `sources`, each replaced by its own merge. */
  ghost predicate Canonical(c: Codec, sources: seq<Bytes>, canon: seq<Bytes>)
    requires Lawful(c)
  {
    |canon| == |sources| && forall i | 0 <= i < |sources| :: Merges(c, [sources[i]], canon[i])
  }

  lemma CanonicalSame(c: Codec, s: Bytes, t: Bytes)
    requires Lawful(c) && Merges(c, [s], t)
    ensures RawsOf(c, t) == RawsOf(c, s) && FaultOf(c, t).None? && FaultOf(c, s).None?
  {
    MergeIsAFixedPoint(c, [s], t);
    UnionOfOne(c, s);
    UnionOfOne(c, t);
    assert t in [t];
    assert s in [s];
  }

  lemma CanonicalUnion(c: Codec, sources: seq<Bytes>, canon: seq<Bytes>)
    requires Lawful(c) && Canonical(c, sources, canon)
    ensures Union(c, canon) == Union(c, sources) && AllGood(c, canon) && AllGood(c, sources)
  {
    forall i | 0 <= i < |sources|
      ensures RawsOf(c, canon[i]) == RawsOf(c, sources[i])
      ensures FaultOf(c, canon[i]).None? && FaultOf(c, sources[i]).None?
    {
      CanonicalSame(c, sources[i], canon[i]);
    }
    forall r ensures r in Union(c, canon) <==> r in Union(c, sources) {
      if r in Union(c, canon) {
        var t :| t in canon && r in RawsOf(c, t);
        var i :| 0 <= i < |canon| && canon[i] == t;
        assert sources[i] in sources && r in RawsOf(c, sources[i]);
      }
      if r in Union(c, sources) {
        var s :| s in sources && r in RawsOf(c, s);
        var i :| 0 <= i < |sources| && sources[i] == s;
        assert canon[i] in canon && r in RawsOf(c, canon[i]);
      }
    }
  }

  /** Merging canonicalized sources and merging raw ones give the same bundle, or both fail. */
  lemma CanonicalizingFirstChangesNothing(c: Codec, sources: seq<Bytes>, canon: seq<Bytes>, bytes: Bytes)
    requires Lawful(c) && Canonical(c, sources, canon)
    ensures Merges(c, canon, bytes) <==> Merges(c, sources, bytes)
  {
    CanonicalUnion(c, sources, canon);
  }

  /** A source of a merge that succeeds also merges alone: the size limit cannot reject a part of an accepted whole. */
  lemma PartsMerge(c: Codec, sources: seq<Bytes>, bytes: Bytes, s: Bytes)
    requires Lawful(c) && Merges(c, sources, bytes) && s in sources
    ensures Merges(c, [s], Bundle(c, RawsOf(c, s)))
  {
    UnionOfOne(c, s);
    SmallerUnionSmallerBundle(c, RawsOf(c, s), Union(c, sources));
  }

  /** The compiler canonicalizes every additional source and merges the results behind the baseline. */
  ghost predicate CompilerBundle(c: Codec, baseline: Bytes, extras: seq<Bytes>, bytes: Bytes)
    requires Lawful(c)
  {
    exists canon :: Canonical(c, extras, canon) && Merges(c, [baseline] + canon, bytes)
  }

  /** The deployer validates every additional source and merges the raw texts behind the baseline. */
  ghost predicate DeployerBundle(c: Codec, baseline: Bytes, extras: seq<Bytes>, bytes: Bytes)
    requires Lawful(c)
  {
    && (forall s | s in extras :: exists t :: Merges(c, [s], t))
    && Merges(c, [baseline] + extras, bytes)
  }

  lemma UnionBehind(c: Codec, baseline: Bytes, rest: seq<Bytes>)
    requires Lawful(c)
    ensures Union(c, [baseline] + rest) == RawsOf(c, baseline) + Union(c, rest)
    ensures AllGood(c, [baseline] + rest) <==> FaultOf(c, baseline).None? && AllGood(c, rest)
  {
    var all := [baseline] + rest;
    assert baseline in all;
    assert forall s :: s in all <==> s == baseline || s in rest;
  }

  lemma BehindBaseline(c: Codec, baseline: Bytes, extras: seq<Bytes>, canon: seq<Bytes>, bytes: Bytes)
    requires Lawful(c) && Canonical(c, extras, canon)
    ensures Merges(c, [baseline] + canon, bytes) <==> Merges(c, [baseline] + extras, bytes)
  {
    CanonicalUnion(c, extras, canon);
    UnionBehind(c, baseline, canon);
    UnionBehind(c, baseline, extras);
  }

  /** The two callers agree, on success and on failure, and both agree with one plain merge of the raw texts. */
  lemma CallersAgree(c: Codec, baseline: Bytes, extras: seq<Bytes>, bytes: Bytes)
    requires Lawful(c)
    ensures CompilerBundle(c, baseline, extras, bytes) <==> DeployerBundle(c, baseline, extras, bytes)
    ensures DeployerBundle(c, baseline, extras, bytes) <==> Merges(c, [baseline] + extras, bytes)
  {
    if CompilerBundle(c, baseline, extras, bytes) {
      var canon :| Canonical(c, extras, canon) && Merges(c, [baseline] + canon, bytes);
      BehindBaseline(c, baseline, extras, canon, bytes);
    }
    if Merges(c, [baseline] + extras, bytes) {
      var canon := seq(|extras|, i requires 0 <= i < |extras| => Bundle(c, RawsOf(c, extras[i])));
      forall s | s in extras ensures Merges(c, [s], Bundle(c, RawsOf(c, s))) {
        PartsMerge(c, [baseline] + extras, bytes, s);
      }
      assert Canonical(c, extras, canon);
      BehindBaseline(c, baseline, extras, canon, bytes);
    }
  }

  // ----- the code -----

  datatype MergeError = AtSource(index: nat, why: Fault) | NoCertificates | TooLarge

  datatype MergeResult = Ok(bytes: Bytes, warnings: seq<nat>) | Error(error: MergeError)

  /** What the table and the warnings hold after the certificates `raws`. */
  ghost predicate Tabled(c: Codec, certs: map<nat, Bytes>, warnings: seq<nat>, raws: set<Bytes>, now: int) {
    && (forall d | d in certs :: c.digest(certs[d]) == d && certs[d] in raws)
    && (forall r | r in raws :: c.digest(r) in certs)
    && multiset(warnings) == multiset(Expiring(c, raws, now))
  }

  lemma ExpiringGrows(c: Codec, raws: set<Bytes>, now: int, raw: Bytes)
    requires forall r | r in raws :: c.digest(r) != c.digest(raw)
    ensures c.digest(raw) !in Expiring(c, raws, now)
    ensures Expiring(c, raws + {raw}, now)
         == Expiring(c, raws, now) + (if Expires(c, raw, now) then {c.digest(raw)} else {})
  {
  }

  lemma OneMore(warnings: seq<nat>, digests: set<nat>, d: nat)
    requires multiset(warnings) == multiset(digests) && d !in digests
    ensures multiset(warnings + [d]) == multiset(digests + {d})
  {
  }

  lemma WarningsGrow(c: Codec, raw: Bytes, now: int, warnings: seq<nat>, raws: set<Bytes>)
    requires multiset(warnings) == multiset(Expiring(c, raws, now))
    requires forall r | r in raws :: c.digest(r) != c.digest(raw)
    ensures multiset(if Expires(c, raw, now) then warnings + [c.digest(raw)] else warnings)
         == multiset(Expiring(c, raws + {raw}, now))
  {
    ExpiringGrows(c, raws, now, raw);
    var before := Expiring(c, raws, now);
    assert before + {} == before;
    OneMore(warnings, before, c.digest(raw));
  }

  lemma NewCertificate(c: Codec, raw: Bytes, now: int, certs: map<nat, Bytes>, warnings: seq<nat>, raws: set<Bytes>)
    requires Tabled(c, certs, warnings, raws, now) && c.digest(raw) !in certs
    ensures Tabled(c, certs[c.digest(raw) := raw],
                   if Expires(c, raw, now) then warnings + [c.digest(raw)] else warnings, raws + {raw}, now)
  {
    WarningsGrow(c, raw, now, warnings, raws);
  }

  lemma KnownCertificate(c: Codec, raw: Bytes, now: int, certs: map<nat, Bytes>, warnings: seq<nat>, raws: set<Bytes>)
    requires Lawful(c) && Tabled(c, certs, warnings, raws, now) && c.digest(raw) in certs
    ensures raws + {raw} == raws
  {
    assert certs[c.digest(raw)] == raw;
  }

  /** A certificate read from a source: a new one is tabled, and warned about when it expires soon. */
  method Note(c: Codec, raw: Bytes, now: int, certs0: map<nat, Bytes>, warnings0: seq<nat>, ghost raws: set<Bytes>)
    returns (certs: map<nat, Bytes>, warnings: seq<nat>)
    requires Lawful(c) && Tabled(c, certs0, warnings0, raws, now)
    ensures Tabled(c, certs, warnings, raws + {raw}, now)
  {
    certs, warnings := certs0, warnings0;
    var digest := c.digest(raw);
    if digest !in certs {
      NewCertificate(c, raw, now, certs, warnings, raws);
      certs := certs[digest := raw];
      if Expires(c, raw, now) { warnings := warnings + [digest]; }
    } else {
      KnownCertificate(c, raw, now, certs, warnings, raws);
    }
  }

  lemma {:induction false} TrimLeftSolid(c: Codec, s: Bytes)
    ensures TrimLeft(c, s) == [] || !c.space(TrimLeft(c, s)[0])
    decreases |s|
  {
    if s != [] && c.space(s[0]) { TrimLeftSolid(c, s[1..]); }
  }

  lemma ScanOfTrim(c: Codec, rest: Bytes)
    requires Lawful(c)
    ensures Scan(c, Trim(c, rest)) == Scan(c, rest)
  {
    var t := TrimLeft(c, rest);
    TrimLeftSolid(c, rest);
    if t != [] {
      TrimRightSolid(c, t);
      TrimRightTwice(c, t);
    }
  }

  /** `done` followed by what is still to be read. */
  ghost function Behind(done: seq<Bytes>, s: Scanned): Scanned {
    if s.Certs? then Certs(done + s.raws) else s
  }

  lemma BehindMore(done: seq<Bytes>, raw: Bytes, s: Scanned)
    ensures Behind(done, Before(raw, s)) == Behind(done + [raw], s)
  {
    if s.Certs? { assert done + ([raw] + s.raws) == done + [raw] + s.raws; }
  }

  lemma OneMoreDone(raws: set<Bytes>, done: seq<Bytes>, raw: Bytes)
    ensures raws + (set r | r in done) + {raw} == raws + (set r | r in done + [raw])
  {
  }

  /** The loop over one source. */
  method AddSource(c: Codec, source: Bytes, now: int, certs0: map<nat, Bytes>, warnings0: seq<nat>,
                   ghost raws: set<Bytes>)
    returns (fault: Option<Fault>, certs: map<nat, Bytes>, warnings: seq<nat>)
    requires Lawful(c) && Tabled(c, certs0, warnings0, raws, now)
    ensures fault == FaultOf(c, source)
    ensures fault.None? ==> Tabled(c, certs, warnings, raws + RawsOf(c, source), now)
  {
    certs, warnings := certs0, warnings0;
    var rest, count := source, 0;
    ghost var done: seq<Bytes> := [];
    assert raws + (set r | r in done) == raws;
    while |Trim(c, rest)| > 0
      invariant count == |done|
      invariant Scan(c, source) == Behind(done, Scan(c, rest))
      invariant Tabled(c, certs, warnings, raws + (set r | r in done), now)
      decreases |rest|
    {
      ScanOfTrim(c, rest);
      rest := Trim(c, rest);
      if rest[0] == '#' {
        rest := AfterLine(rest);
      } else {
        var r := ReadBlock(c, rest);
        if r.Bad? { return Some(r.why), certs, warnings; }
        ReadBlockGood(c, rest);
        certs, warnings := Note(c, r.raw, now, certs, warnings, raws + (set x | x in done));
        BehindMore(done, r.raw, Scan(c, r.tail));
        OneMoreDone(raws, done, r.raw);
        done := done + [r.raw];
        count := count + 1;
        rest := r.tail;
      }
    }
    fault := if count == 0 then Some(EmptySource) else None;
  }

  // ----- sorting, as the library does it: the same keys, ascending -----

  ghost predicate Ascending(s: seq<nat>) {
    forall i, j | 0 <= i < j < |s| :: s[i] <= s[j]
  }

  function Insert(s: seq<nat>, k: nat): (r: seq<nat>)
    ensures multiset(r) == multiset(s) + multiset{k}
  {
    if s == [] || s[|s| - 1] <= k then s + [k]
    else
      assert s == s[..|s| - 1] + [s[|s| - 1]];
      Insert(s[..|s| - 1], k) + [s[|s| - 1]]
  }

  lemma AscendingSnoc(s: seq<nat>, k: nat)
    requires Ascending(s) && forall x | x in s :: x <= k
    ensures Ascending(s + [k])
  {
    forall i, j | 0 <= i < j < |s + [k]| ensures (s + [k])[i] <= (s + [k])[j] {
      assert s[i] in s;
    }
  }

  lemma {:induction false} InsertAscending(s: seq<nat>, k: nat)
    requires Ascending(s)
    ensures Ascending(Insert(s, k))
  {
    if s == [] || s[|s| - 1] <= k {
      AscendingSnoc(s, k);
    } else {
      var init, last := s[..|s| - 1], s[|s| - 1];
      InsertAscending(init, k);
      forall x | x in Insert(init, k) ensures x <= last {
        assert x in multiset(init) + multiset{k};
      }
      AscendingSnoc(Insert(init, k), last);
    }
  }

  function Sort(keys: seq<nat>): (r: seq<nat>)
    ensures multiset(r) == multiset(keys) && Ascending(r)
  {
    if keys == [] then []
    else
      var n := |keys| - 1;
      assert keys == keys[..n] + [keys[n]];
      InsertAscending(Sort(keys[..n]), keys[n]);
      Insert(Sort(keys[..n]), keys[n])
  }

  lemma Twice(s: seq<nat>, i: nat, j: nat)
    requires i < j < |s|
    ensures s[i] == s[j] ==> multiset(s)[s[i]] >= 2
  {
    assert s == s[..i] + [s[i]] + s[i + 1..j] + [s[j]] + s[j + 1..];
  }

  /** Sorted keys without repetition are strictly ascending. */
  lemma Strictly(s: seq<nat>, keys: set<nat>)
    requires Ascending(s) && multiset(s) == multiset(keys)
    ensures forall i, j | 0 <= i < j < |s| :: s[i] < s[j]
    ensures forall k :: k in s <==> k in keys
  {
    forall i, j | 0 <= i < j < |s| ensures s[i] < s[j] { Twice(s, i, j); }
    forall k ensures k in s <==> k in keys {
      assert k in s <==> k in multiset(s);
      assert k in keys <==> k in multiset(keys);
    }
  }

  /** The keys of a table, in the arbitrary order of a range over it. */
  method Keys(certs: map<nat, Bytes>) returns (keys: seq<nat>)
    ensures multiset(keys) == multiset(certs.Keys)
  {
    keys := [];
    var todo := certs.Keys;
    while todo != {}
      invariant todo <= certs.Keys
      invariant multiset(keys) == multiset(certs.Keys - todo)
      decreases |todo|
    {
      var k :| k in todo;
      OneMore(keys, certs.Keys - todo, k);
      assert certs.Keys - todo + {k} == certs.Keys - (todo - {k});
      keys, todo := keys + [k], todo - {k};
    }
    assert certs.Keys - {} == certs.Keys;
  }

  ghost function Looked(certs: map<nat, Bytes>, keys: seq<nat>): seq<Bytes>
    requires forall k | k in keys :: k in certs
  {
    seq(|keys|, i requires 0 <= i < |keys| => certs[keys[i]])
  }

  /** The table in the order of its sorted keys is the canonical order of the certificates. */
  lemma TableOrder(c: Codec, certs: map<nat, Bytes>, warnings: seq<nat>, raws: set<Bytes>, now: int, keys: seq<nat>)
    requires Lawful(c) && Tabled(c, certs, warnings, raws, now)
    requires Ascending(keys) && multiset(keys) == multiset(certs.Keys)
    ensures forall k :: k in keys <==> k in certs
    ensures Looked(certs, keys) == Order(c, raws)
  {
    Strictly(keys, certs.Keys);
    LookedOrdered(c, certs, keys);
    var o := Looked(certs, keys);
    forall r ensures r in o <==> r in raws { TableHolds(c, certs, warnings, raws, now, keys, r); }
    OrderIsUnique(c, o, Order(c, raws));
  }

  lemma LookedOrdered(c: Codec, certs: map<nat, Bytes>, keys: seq<nat>)
    requires forall d | d in certs :: c.digest(certs[d]) == d
    requires forall i, j | 0 <= i < j < |keys| :: keys[i] < keys[j]
    requires forall k :: k in keys ==> k in certs
    ensures Ordered(c, Looked(certs, keys))
  {
  }

  lemma TableHolds(c: Codec, certs: map<nat, Bytes>, warnings: seq<nat>, raws: set<Bytes>, now: int, keys: seq<nat>,
                   r: Bytes)
    requires Lawful(c) && Tabled(c, certs, warnings, raws, now) && forall k :: k in keys <==> k in certs
    ensures r in Looked(certs, keys) <==> r in raws
  {
    var o := Looked(certs, keys);
    if r in o {
      var i :| 0 <= i < |o| && o[i] == r;
      assert keys[i] in certs;
    }
    if r in raws {
      var d := c.digest(r);
      assert certs[d] == r;
      var i :| 0 <= i < |keys| && keys[i] == d;
      assert o[i] == r;
    }
  }

  lemma {:induction false} EncodeSnoc(c: Codec, raws: seq<Bytes>, raw: Bytes)
    ensures EncodeAll(c, raws + [raw]) == EncodeAll(c, raws) + c.encode(raw)
    decreases |raws|
  {
    if raws == [] {
      assert raws + [raw] == [raw];
    } else {
      EncodeSnoc(c, raws[1..], raw);
      assert (raws + [raw])[1..] == raws[1..] + [raw];
    }
  }

  /** Writes the certificates in the order of `keys`. */
  method Write(c: Codec, certs: map<nat, Bytes>, keys: seq<nat>) returns (bytes: Bytes)
    requires forall k | k in keys :: k in certs
    ensures bytes == EncodeAll(c, Looked(certs, keys))
  {
    bytes := [];
    var o := Looked(certs, keys);
    for n := 0 to |keys|
      invariant bytes == EncodeAll(c, o[..n])
    {
      EncodeSnoc(c, o[..n], certs[keys[n]]);
      assert o[..n + 1] == o[..n] + [certs[keys[n]]];
      bytes := bytes + c.encode(certs[keys[n]]);
    }
    assert o[..|keys|] == o;
  }

  lemma UnionSnoc(c: Codec, sources: seq<Bytes>, s: Bytes)
    requires Lawful(c)
    ensures Union(c, sources + [s]) == Union(c, sources) + RawsOf(c, s)
    ensures AllGood(c, sources + [s]) <==> AllGood(c, sources) && FaultOf(c, s).None?
  {
    var all := sources + [s];
    assert forall x :: x in all <==> x in sources || x == s;
  }

  /** The loop over the sources: the first fault with its index, or the table of all certificates. */
  method AddSources(c: Codec, sources: seq<Bytes>, now: int)
    returns (fault: Option<MergeError>, certs: map<nat, Bytes>, warnings: seq<nat>)
    requires Lawful(c)
    ensures fault.None? ==> AllGood(c, sources) && Tabled(c, certs, warnings, Union(c, sources), now)
    ensures fault.Some? ==> FirstFault(c, sources, fault.value)
  {
    certs, warnings := map[], [];
    assert Union(c, sources[..0]) == {};
    for n := 0 to |sources|
      invariant AllGood(c, sources[..n])
      invariant Tabled(c, certs, warnings, Union(c, sources[..n]), now)
    {
      var why;
      why, certs, warnings := AddSource(c, sources[n], now, certs, warnings, Union(c, sources[..n]));
      if why.Some? { return Some(AtSource(n, why.value)), certs, warnings; }
      UnionSnoc(c, sources[..n], sources[n]);
      assert sources[..n + 1] == sources[..n] + [sources[n]];
    }
    assert sources[..|sources|] == sources;
    fault := None;
  }

  /** `e` names the first bad source and what is wrong with it. */
  ghost predicate FirstFault(c: Codec, sources: seq<Bytes>, e: MergeError)
    requires Lawful(c)
  {
    && e.AtSource? && e.index < |sources|
    && FaultOf(c, sources[e.index]) == Some(e.why) && AllGood(c, sources[..e.index])
  }

  /** The merge: exactly the reference's bytes and warnings, or the reason why there are none. */
  method Merge(c: Codec, sources: seq<Bytes>, now: int) returns (r: MergeResult)
    requires Lawful(c)
    ensures r.Ok? ==> Merges(c, sources, r.bytes)
    ensures r.Ok? ==> Ascending(r.warnings) && multiset(r.warnings) == multiset(Expiring(c, Union(c, sources), now))
    ensures r.Error? ==>
      match r.error
      case AtSource(_, _) => FirstFault(c, sources, r.error)
      case NoCertificates => sources == []
      case TooLarge => AllGood(c, sources) && |Bundle(c, Union(c, sources))| > LIMIT
  {
    var fault, certs, warnings := AddSources(c, sources, now);
    if fault.Some? { return Error(fault.value); }
    ghost var raws := Union(c, sources);
    GoodUnion(c, sources);
    if |certs| == 0 {
      assert forall x | x in raws :: c.digest(x) in certs;
      return Error(NoCertificates);
    }
    var keys := Keys(certs);
    TableOrder(c, certs, warnings, raws, now, Sort(keys));
    assert raws != {} by { var d :| d in certs; assert certs[d] in raws; }
    var bytes := Write(c, certs, Sort(keys));
    if |bytes| > LIMIT { return Error(TooLarge); }
    return Ok(bytes, Sort(warnings));
  }
}
