/** The gateway agent's local secret discovery (pkg/gatewayagent/sds.go, identity.go): a state-of-the-world xDS stream
    per client, woken through a one-slot channel whenever the identity changes. */
module Sds {
  import opened Collections

  const IDENTITY := "default"
  const ROOT := "ROOTCA"

  type Secret = string

  datatype Identity = Identity(certificate: Option<Secret>, root: Secret)

  /** The canonical list of requested names: sorted, each once; `None` if some name is not a local secret. */
  function LocalSecretNames(names: seq<string>): (r: Option<seq<string>>)
    ensures r.None? <==> exists n :: n in names && n !in {IDENTITY, ROOT}
    ensures r.Some? ==> Distinct(r.value) && forall n :: n in r.value <==> n in names
  {
    if exists n | n in names :: n != IDENTITY && n != ROOT then None
    else Some((if ROOT in names then [ROOT] else []) + (if IDENTITY in names then [IDENTITY] else []))
  }

  /** Neither the order of the names nor repetitions make a difference. */
  lemma NamesAsSet(a: seq<string>, b: seq<string>)
    requires forall n :: n in a <==> n in b
    ensures LocalSecretNames(a) == LocalSecretNames(b)
  {
    assert forall n :: n in a ==> n in b;
    assert forall n :: n in b ==> n in a;
  }

  /** What a response for the names carries at an identity; a missing certificate cannot be rendered. */
  function Render(i: Identity, names: seq<string>): Option<seq<Secret>> {
    if names == [] then Some([])
    else
      var n := |names| - 1;
      var r := Render(i, names[..n]);
      if r.None? then None
      else if names[n] == IDENTITY then
        if i.certificate.Some? then Some(r.value + [i.certificate.value]) else None
      else if names[n] == ROOT then Some(r.value + [i.root])
      else None
  }

  datatype Response = Response(version: nat, names: seq<string>, secrets: seq<Secret>, nonce: nat)

  /** `Due`: the loop has decided to send and has not read the identity yet. `Writing`: it has, and the response is
      on its way out. */
  datatype Phase = Waiting | Due | Writing(response: Response) | Ended

  /** The empty nonce of a request or of a new stream is 0; nonces sent start at 1. */
  datatype Stream = Stream(names: seq<string>, nonce: nat, token: bool, phase: Phase, sent: seq<Response>)

  datatype State = State(
    identity: Identity,
    expires: int,
    version: nat,
    streams: map<nat, Stream>,
    history: map<nat, Identity>)     // the identity at every version so far

  datatype Request = Request(typeOk: bool, responseNonce: nat, names: seq<string>)

  // ----- steps -----

  /** Wakes every stream; a full slot stays full. */
  function Notify(s: State, i: Identity): State {
    s.(identity := i,
       version := s.version + 1,
       streams := map id | id in s.streams :: s.streams[id].(token := true),
       history := s.history[s.version + 1 := i])
  }

  /** One request, as the loop handles it. */
  function OnRequest(st: Stream, r: Request): Stream {
    if !r.typeOk then st.(phase := Ended)
    else if r.responseNonce != 0 && r.responseNonce != st.nonce then st
    else
      var names := LocalSecretNames(r.names);
      if names.None? then st.(phase := Ended)
      else
        var changed := names.value != st.names;
        st.(names := names.value,
            phase := if names.value != [] && (r.responseNonce == 0 || changed) then Due else Waiting)
  }

  /** Reading the identity for a response; an unavailable or expired certificate ends the stream. */
  function Generate(s: State, st: Stream, now: int): Stream {
    var r := Render(s.identity, st.names);
    if r.None? || (IDENTITY in st.names && now >= s.expires) then st.(phase := Ended)
    else st.(nonce := st.nonce + 1, phase := Writing(Response(s.version, st.names, r.value, st.nonce + 1)))
  }

  datatype Step =
    | Open(id: nat)
    | NewCertificate(secret: Secret, expires: int)
    | NewRoot(secret: Secret)
    | Receive(id: nat, request: Request)
    | Wake(id: nat)
    | Read(id: nat, now: int)
    | Deliver(id: nat)
    | Hangup(id: nat)

  predicate Enabled(s: State, a: Step) {
    match a
    case Open(id) => id !in s.streams
    case NewCertificate(_, _) => true
    case NewRoot(_) => true
    case Receive(id, _) => id in s.streams && s.streams[id].phase.Waiting?
    case Wake(id) => id in s.streams && s.streams[id].phase.Waiting? && s.streams[id].token
    case Read(id, _) => id in s.streams && s.streams[id].phase.Due?
    case Deliver(id) => id in s.streams && s.streams[id].phase.Writing?
    case Hangup(id) => id in s.streams
  }

  function After(s: State, a: Step): State
    requires Enabled(s, a)
  {
    match a
    case Open(id) => s.(streams := s.streams[id := Stream([], 0, false, Waiting, [])])
    case NewCertificate(secret, expires) =>
      Notify(s, s.identity.(certificate := Some(secret))).(expires := expires)
    case NewRoot(secret) => if secret == s.identity.root then s else Notify(s, s.identity.(root := secret))
    case Receive(id, r) => s.(streams := s.streams[id := OnRequest(s.streams[id], r)])
    case Wake(id) =>
      var st := s.streams[id].(token := false);
      s.(streams := s.streams[id := if st.names != [] then st.(phase := Due) else st])
    case Read(id, now) => s.(streams := s.streams[id := Generate(s, s.streams[id], now)])
    case Deliver(id) =>
      var st := s.streams[id];
      s.(streams := s.streams[id := st.(phase := Waiting, sent := st.sent + [st.phase.response])])
    case Hangup(id) => s.(streams := s.streams - {id})
  }

  ghost predicate Reaches(s: State, steps: seq<Step>, s': State)
    decreases steps
  {
    if steps == [] then s == s' else Enabled(s, steps[0]) && Reaches(After(s, steps[0]), steps[1..], s')
  }

  /** The agent starts at version 1, with a root and no certificate. */
  function Started(root: Secret): State {
    State(Identity(None, root), 0, 1, map[], map[1 := Identity(None, root)])
  }

  // ----- the invariant -----

  lemma NamesEmptiness(names: seq<string>)
    ensures LocalSecretNames(names) == Some([]) <==> names == []
  {
    var r := LocalSecretNames(names);
    if names != [] && r.Some? { assert names[0] in r.value; }
    if r.Some? && r.value != [] { assert r.value[0] in names; }
  }

  /** The response the client has last been sent, or is being sent. */
  function Latest(st: Stream): Option<Response> {
    if st.phase.Writing? then Some(st.phase.response)
    else if st.sent == [] then None
    else Some(st.sent[|st.sent| - 1])
  }

  /** A live stream that asked for something has the current version, or is about to get it. */
  ghost predicate UpToDate(s: State, st: Stream) {
    st.phase.Ended? || st.names == [] || st.token || st.phase.Due?
    || (Latest(st).Some? && Latest(st).value.version == s.version && Latest(st).value.names == st.names)
  }

  /** A response carries what its version stood for. */
  ghost predicate Faithful(s: State, r: Response) {
    r.version in s.history && Render(s.history[r.version], r.names) == Some(r.secrets)
  }

  /** The names a stream keeps are in canonical form. */
  ghost predicate Canonical(names: seq<string>) {
    LocalSecretNames(names) == Some(names)
  }

  ghost predicate StreamOk(s: State, st: Stream) {
    && UpToDate(s, st) && Canonical(st.names)
    && (forall n | 0 <= n < |st.sent| :: Faithful(s, st.sent[n]) && st.sent[n].nonce == n + 1)
    && (st.phase.Writing? ==> Faithful(s, st.phase.response) && st.phase.response.nonce == st.nonce)
    && st.nonce == |st.sent| + (if st.phase.Writing? then 1 else 0)
  }

  ghost predicate Inv(s: State) {
    && s.version in s.history && s.history[s.version] == s.identity
    && (forall v | v in s.history :: v <= s.version)
    && forall id | id in s.streams :: StreamOk(s, s.streams[id])
  }

  lemma NotifyKeeps(s: State, i: Identity, id: nat)
    requires Inv(s) && id in s.streams
    ensures StreamOk(Notify(s, i), Notify(s, i).streams[id])
  {
    var s' := Notify(s, i);
    var st := s.streams[id];
    assert StreamOk(s, st);
    forall n | 0 <= n < |st.sent| ensures Faithful(s', st.sent[n]) { assert Faithful(s, st.sent[n]); }
  }

  lemma NotifyInv(s: State, i: Identity)
    requires Inv(s)
    ensures Inv(Notify(s, i))
  {
    forall id | id in s.streams ensures StreamOk(Notify(s, i), Notify(s, i).streams[id]) { NotifyKeeps(s, i, id); }
  }

  lemma GenerateOk(s: State, st: Stream, now: int)
    requires Inv(s) && StreamOk(s, st) && st.phase.Due?
    ensures StreamOk(s, Generate(s, st, now))
  {
  }

  /** A step on one stream leaves the identity and the other streams alone. */
  lemma OneStream(s: State, id: nat, st: Stream)
    requires Inv(s) && StreamOk(s, st)
    ensures Inv(s.(streams := s.streams[id := st]))
  {
    var s' := s.(streams := s.streams[id := st]);
    forall j | j in s'.streams ensures StreamOk(s', s'.streams[j]) {
      var sj := s'.streams[j];
      assert StreamOk(s, sj);
      forall n | 0 <= n < |sj.sent| ensures Faithful(s', sj.sent[n]) { assert Faithful(s, sj.sent[n]); }
    }
  }

  lemma RequestOk(s: State, st: Stream, r: Request)
    requires StreamOk(s, st) && st.phase.Waiting?
    ensures StreamOk(s, OnRequest(st, r))
  {
  }

  lemma DeliverOk(s: State, st: Stream)
    requires StreamOk(s, st) && st.phase.Writing?
    ensures StreamOk(s, st.(phase := Waiting, sent := st.sent + [st.phase.response]))
  {
  }

  lemma StepKeepsInv(s: State, a: Step)
    requires Inv(s) && Enabled(s, a)
    ensures Inv(After(s, a))
  {
    match a
    case Open(id) =>
      NamesEmptiness([]);
      OneStream(s, id, Stream([], 0, false, Waiting, []));
    case NewCertificate(secret, expires) => CertificateStep(s, secret, expires);
    case NewRoot(secret) => NotifyInv(s, s.identity.(root := secret));
    case Receive(id, r) =>
      RequestOk(s, s.streams[id], r);
      OneStream(s, id, OnRequest(s.streams[id], r));
    case Wake(id) =>
      var st := s.streams[id].(token := false);
      OneStream(s, id, if st.names != [] then st.(phase := Due) else st);
    case Read(id, now) =>
      GenerateOk(s, s.streams[id], now);
      OneStream(s, id, Generate(s, s.streams[id], now));
    case Deliver(id) =>
      DeliverOk(s, s.streams[id]);
      OneStream(s, id, s.streams[id].(phase := Waiting, sent := s.streams[id].sent + [s.streams[id].phase.response]));
    case Hangup(id) => HangupStep(s, id);
  }

  lemma CertificateStep(s: State, secret: Secret, expires: int)
    requires Inv(s)
    ensures Inv(Notify(s, s.identity.(certificate := Some(secret))).(expires := expires))
  {
    var mid := Notify(s, s.identity.(certificate := Some(secret)));
    var s' := mid.(expires := expires);
    NotifyInv(s, s.identity.(certificate := Some(secret)));
    forall j | j in s'.streams ensures StreamOk(s', s'.streams[j]) {
      var sj := s'.streams[j];
      assert StreamOk(mid, sj);
      forall n | 0 <= n < |sj.sent| ensures Faithful(s', sj.sent[n]) { assert Faithful(mid, sj.sent[n]); }
    }
  }

  lemma HangupStep(s: State, id: nat)
    requires Inv(s)
    ensures Inv(s.(streams := s.streams - {id}))
  {
    var s' := s.(streams := s.streams - {id});
    forall j | j in s'.streams ensures StreamOk(s', s'.streams[j]) {
      var sj := s'.streams[j];
      assert StreamOk(s, sj);
      forall n | 0 <= n < |sj.sent| ensures Faithful(s', sj.sent[n]) { assert Faithful(s, sj.sent[n]); }
    }
  }

  lemma {:induction false} RunKeepsInv(s: State, steps: seq<Step>, s': State)
    requires Inv(s) && Reaches(s, steps, s')
    ensures Inv(s')
    decreases steps
  {
    if steps != [] {
      StepKeepsInv(s, steps[0]);
      RunKeepsInv(After(s, steps[0]), steps[1..], s');
    }
  }

  // ----- the theorems -----

  /** No lost update: in every reachable state, a live stream that asked for something has last been sent (or is being
      sent) the current version for its names, or holds a wake-up, or has just taken one and not yet read. */
  lemma NoLostUpdate(root: Secret, steps: seq<Step>, s: State, id: nat)
    requires Reaches(Started(root), steps, s) && id in s.streams
    ensures UpToDate(s, s.streams[id])
  {
    RunKeepsInv(Started(root), steps, s);
  }

  /** Among all responses of all streams, version and names determine the secrets. */
  lemma VersionsAreContents(root: Secret, steps: seq<Step>, s: State, i: nat, j: nat, m: nat, n: nat)
    requires Reaches(Started(root), steps, s) && i in s.streams && j in s.streams
    requires m < |s.streams[i].sent| && n < |s.streams[j].sent|
    requires s.streams[i].sent[m].version == s.streams[j].sent[n].version
    requires s.streams[i].sent[m].names == s.streams[j].sent[n].names
    ensures s.streams[i].sent[m].secrets == s.streams[j].sent[n].secrets
  {
    RunKeepsInv(Started(root), steps, s);
    assert StreamOk(s, s.streams[i]) && StreamOk(s, s.streams[j]);
    assert Faithful(s, s.streams[i].sent[m]) && Faithful(s, s.streams[j].sent[n]);
  }

  /** The nonces of a stream increase with every response, and the one it compares acknowledgements with is the last
      one sent. */
  lemma NoncesIncrease(root: Secret, steps: seq<Step>, s: State, id: nat, m: nat, n: nat)
    requires Reaches(Started(root), steps, s) && id in s.streams && m < n < |s.streams[id].sent|
    ensures s.streams[id].sent[m].nonce < s.streams[id].sent[n].nonce
    ensures s.streams[id].phase.Waiting? ==> s.streams[id].nonce == s.streams[id].sent[|s.streams[id].sent| - 1].nonce
  {
    RunKeepsInv(Started(root), steps, s);
    assert StreamOk(s, s.streams[id]);
  }

  ghost predicate SameNames(a: seq<string>, b: seq<string>) {
    forall n :: n in a <==> n in b
  }

  ghost predicate AllLocal(names: seq<string>) {
    forall n | n in names :: n in {IDENTITY, ROOT}
  }

  lemma StreamOutcome(st: Stream, r: Request)
    requires Canonical(st.names) && st.phase.Waiting? && r.typeOk
    ensures var st' := OnRequest(st, r);
            if r.responseNonce != 0 && r.responseNonce != st.nonce then st' == st
            else if !AllLocal(r.names) then st'.phase.Ended?
            else if r.responseNonce != 0 && SameNames(r.names, st.names) then st' == st
            else SameNames(st'.names, r.names) && (st'.phase.Due? <==> r.names != [])
  {
    NamesEmptiness(r.names);
    if SameNames(r.names, st.names) { NamesAsSet(r.names, st.names); }
  }

  /** What a request does, in every reachable state. A stale nonce changes nothing. An acknowledgement or
      rejection of the last response that asks for the same names, in whatever order and however often, changes
      nothing either: in particular nothing is sent. A first request, or one for other names, is answered if it
      asks for any; one for a name that is not local ends the stream. */
  lemma RequestOutcome(root: Secret, steps: seq<Step>, s: State, id: nat, r: Request)
    requires Reaches(Started(root), steps, s) && Enabled(s, Receive(id, r)) && r.typeOk
    ensures var st, s' := s.streams[id], After(s, Receive(id, r));
            var st' := s'.streams[id];
            if r.responseNonce != 0 && r.responseNonce != st.nonce then s' == s
            else if !AllLocal(r.names) then st'.phase.Ended?
            else if r.responseNonce != 0 && SameNames(r.names, st.names) then s' == s
            else SameNames(st'.names, r.names) && (st'.phase.Due? <==> r.names != [])
  {
    RunKeepsInv(Started(root), steps, s);
    var st := s.streams[id];
    assert StreamOk(s, st);
    StreamOutcome(st, r);
    assert s.streams[id := st] == s.streams;
  }

  // ----- the code -----

  /** The identity manager together with the loops of its streams. */
  class LocalSds {
    var identity: Identity
    var expires: int
    var version: nat
    var streams: map<nat, Stream>
    var renew: bool                         // the renewal loop has been told to start over
    ghost var history: map<nat, Identity>

    ghost function Model(): State
      reads this
    {
      State(identity, expires, version, streams, history)
    }

    constructor (root: Secret)
      ensures Model() == Started(root) && !renew
    {
      identity, expires, version, streams, renew := Identity(None, root), 0, 1, map[], false;
      history := map[1 := Identity(None, root)];
    }

    /** A stream registers its slot before it reads its first request. */
    method OpenStream(id: nat)
      requires id !in streams
      modifies this`streams
      ensures Model() == After(old(Model()), Open(id))
    {
      streams := streams[id := Stream([], 0, false, Waiting, [])];
    }

    /** Counts the version and fills every slot. */
    method NotifyLocked()
      modifies this`version, this`streams, this`history
      ensures Model() == Notify(old(Model()), identity)
    {
      version := version + 1;
      history := history[version := identity];
      var todo := streams.Keys;
      while todo != {}
        modifies this`streams
        invariant todo <= streams.Keys == old(streams).Keys
        invariant forall id | id in streams ::
                    streams[id] == if id in todo then old(streams)[id] else old(streams)[id].(token := true)
      {
        var id :| id in todo;
        todo := todo - {id};
        if !streams[id].token { streams := streams[id := streams[id].(token := true)]; }
      }
    }

    method SetCertificate(secret: Secret, until: int)
      modifies this
      ensures Model() == After(old(Model()), NewCertificate(secret, until)) && renew == old(renew)
    {
      identity, expires := identity.(certificate := Some(secret)), until;
      NotifyLocked();
    }

    /** A changed root also makes the renewal loop start over. */
    method PollRoot(secret: Secret)
      modifies this
      ensures Model() == After(old(Model()), NewRoot(secret))
      ensures renew <==> old(renew) || secret != old(identity).root
    {
      if secret != identity.root {
        identity := identity.(root := secret);
        NotifyLocked();
        renew := true;
      }
    }

    /** The version and the secrets for the names, read together; nothing if the certificate is asked for and cannot be
        served. */
    method GenerateSecrets(names: seq<string>, now: int) returns (r: Option<(nat, seq<Secret>)>)
      ensures r.None? <==> Render(identity, names).None? || (IDENTITY in names && now >= expires)
      ensures r.Some? ==> r.value.0 == version && Render(identity, names) == Some(r.value.1)
    {
      var secrets := [];
      for n := 0 to |names|
        invariant Render(identity, names[..n]) == Some(secrets)
        invariant IDENTITY in names[..n] ==> now < expires
      {
        assert names[..n + 1][..n] == names[..n] && names[..n + 1] == names[..n] + [names[n]];
        RenderFails(identity, names, n + 1);
        if names[n] == IDENTITY {
          if identity.certificate.None? || now >= expires { return None; }
          secrets := secrets + [identity.certificate.value];
        } else if names[n] != ROOT {
          return None;
        } else {
          secrets := secrets + [identity.root];
        }
      }
      assert names[..|names|] == names;
      return Some((version, secrets));
    }

    /** Handles one request of a stream up to the decision to send. */
    method HandleRequest(id: nat, r: Request)
      requires id in streams && streams[id].phase.Waiting?
      modifies this`streams
      ensures Model() == After(old(Model()), Receive(id, r))
    {
      var st := streams[id];
      if !r.typeOk {
        streams := streams[id := st.(phase := Ended)];
        return;
      }
      if r.responseNonce != 0 && r.responseNonce != st.nonce {
        assert streams[id := st] == streams;
        return;
      }
      var requested := LocalSecretNames(r.names);
      if requested.None? {
        streams := streams[id := st.(phase := Ended)];
        return;
      }
      var changed := requested.value != st.names;
      st := st.(names := requested.value);
      if |st.names| != 0 && (r.responseNonce == 0 || changed) { st := st.(phase := Due); }
      streams := streams[id := st];
    }

    /** Takes the wake-up of a stream. */
    method HandleWake(id: nat)
      requires id in streams && streams[id].phase.Waiting? && streams[id].token
      modifies this`streams
      ensures Model() == After(old(Model()), Wake(id))
    {
      var st := streams[id].(token := false);
      if |st.names| != 0 { st := st.(phase := Due); }
      streams := streams[id := st];
    }

    /** Generates the response that is due, with the next nonce, or ends the stream. */
    method Prepare(id: nat, now: int)
      requires id in streams && streams[id].phase.Due?
      modifies this`streams
      ensures Model() == After(old(Model()), Read(id, now))
    {
      var st := streams[id];
      var r := GenerateSecrets(st.names, now);
      if r.None? {
        st := st.(phase := Ended);
      } else {
        var nonce := st.nonce + 1;
        st := st.(nonce := nonce, phase := Writing(Response(r.value.0, st.names, r.value.1, nonce)));
      }
      streams := streams[id := st];
    }

    /** The response is out. */
    method Delivered(id: nat)
      requires id in streams && streams[id].phase.Writing?
      modifies this`streams
      ensures Model() == After(old(Model()), Deliver(id))
    {
      var st := streams[id];
      streams := streams[id := st.(phase := Waiting, sent := st.sent + [st.phase.response])];
    }

    /** The stream is over: its slot is taken out. */
    method CloseStream(id: nat)
      requires id in streams
      modifies this`streams
      ensures Model() == After(old(Model()), Hangup(id))
    {
      streams := streams - {id};
    }
  }

  lemma {:induction false} RenderFails(i: Identity, names: seq<string>, n: nat)
    requires n <= |names|
    ensures Render(i, names[..n]).None? ==> Render(i, names).None?
    decreases |names| - n
  {
    if n < |names| {
      RenderFails(i, names, n + 1);
      assert names[..n + 1][..n] == names[..n];
    } else {
      assert names[..n] == names;
    }
  }
}
