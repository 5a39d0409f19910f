/** The three-message handshake between two devices over a network that controls every
    message, with signatures, the key exchange and the key derivation as ideal functions. */
module Handshake {
  import opened Bytes
  import Replay
  import Secure
  import Trust

  type Bs = seq<byte>

  /** The signed fields of handshake_init and handshake_response. */
  datatype Hello = Hello(kind: string, deviceId: string, publicKey: string, ephemeral: string, nonce: string,
                         name: string)

  const INIT := "handshake_init"
  const RESPONSE := "handshake_response"

  /** The library functions. Keys are named by their public half. */
  datatype Crypto = Crypto(
    json: Hello -> Bs,
    fromHex: string -> Option<Bs>,
    toHex: Bs -> string,
    deviceIdOf: Bs -> string,
    sign: (Bs, Bs) -> Bs,
    verify: (Bs, Bs, Bs) -> bool,
    ephemeralOf: Bs -> string,
    exchange: (Bs, string) -> Option<Bs>,
    hash: Bs -> Bs,
    hkdf: (Bs, Bs, string) -> Bs)

  const NEWLINE: byte := 10

  /** Canonical JSON determines the fields and contains no newline; hexadecimal is read back
      as written. */
  ghost predicate Encodes(c: Crypto) {
    && (forall h, h' :: c.json(h) == c.json(h') ==> h == h')
    && (forall h :: NEWLINE !in c.json(h))
    && (forall b :: c.fromHex(c.toHex(b)) == Some(b) && IsAscii(c.toHex(b)))
  }

  // ---- transcripts ------------------------------------------------------------------

  const RESPONDER_DOMAIN := "peerc-v2-handshake-responder\n"
  const INITIATOR_DOMAIN := "peerc-v2-handshake-initiator\n"

  function ResponderTranscript(c: Crypto, init: Hello, resp: Hello): Bs {
    Ascii(RESPONDER_DOMAIN) + (c.json(init) + [NEWLINE] + c.json(resp))
  }

  function InitiatorTranscript(responderTranscript: Bs, responderSig: string): Bs {
    Ascii(INITIATOR_DOMAIN) + (responderTranscript + [NEWLINE] + Ascii(responderSig))
  }

  function FinalTranscript(initiatorTranscript: Bs, initiatorSig: string): Bs {
    initiatorTranscript + [NEWLINE] + Ascii(initiatorSig)
  }

  lemma CutAtNewline(a: Bs, b: Bs, a': Bs, b': Bs)
    requires NEWLINE !in a && NEWLINE !in a' && a + [NEWLINE] + b == a' + [NEWLINE] + b'
    ensures a == a' && b == b'
  {
    var whole, whole' := a + [NEWLINE] + b, a' + [NEWLINE] + b';
    assert whole[|a|] == NEWLINE && whole'[|a'|] == NEWLINE;
    assert a == whole[..|a|] && a' == whole'[..|a'|];
    assert b == whole[|a| + 1..] && b' == whole'[|a'| + 1..];
  }

  lemma CutPrefix(p: Bs, a: Bs, b: Bs)
    requires p + a == p + b
    ensures a == b
  {
    assert a == (p + a)[|p|..] && b == (p + b)[|p|..];
  }

  lemma ResponderTranscriptInjective(c: Crypto, i: Hello, r: Hello, i': Hello, r': Hello)
    requires Encodes(c) && ResponderTranscript(c, i, r) == ResponderTranscript(c, i', r')
    ensures i == i' && r == r'
  {
    CutPrefix(Ascii(RESPONDER_DOMAIN), c.json(i) + [NEWLINE] + c.json(r), c.json(i') + [NEWLINE] + c.json(r'));
    CutAtNewline(c.json(i), c.json(r), c.json(i'), c.json(r'));
  }

  lemma CutThree(p: Bs, d: Bs, a: Bs, b: Bs, s: Bs, a': Bs, b': Bs, s': Bs)
    requires NEWLINE !in a && NEWLINE !in a' && NEWLINE !in b && NEWLINE !in b'
    requires p + ((d + (a + [NEWLINE] + b)) + [NEWLINE] + s) == p + ((d + (a' + [NEWLINE] + b')) + [NEWLINE] + s')
    ensures a == a' && b == b' && s == s'
  {
    var x, x' := b + [NEWLINE] + s, b' + [NEWLINE] + s';
    assert (d + (a + [NEWLINE] + b)) + [NEWLINE] + s == d + (a + [NEWLINE] + x);
    assert (d + (a' + [NEWLINE] + b')) + [NEWLINE] + s' == d + (a' + [NEWLINE] + x');
    CutPrefix(p, d + (a + [NEWLINE] + x), d + (a' + [NEWLINE] + x'));
    CutPrefix(d, a + [NEWLINE] + x, a' + [NEWLINE] + x');
    CutAtNewline(a, x, a', x');
    CutAtNewline(b, s, b', s');
  }

  /** The signature string may itself contain newlines (whitespace is legal there), and still
      the transcript determines all its parts. */
  lemma InitiatorTranscriptInjective(c: Crypto, i: Hello, r: Hello, s: string, i': Hello, r': Hello, s': string)
    requires Encodes(c) && IsAscii(s) && IsAscii(s')
    requires InitiatorTranscript(ResponderTranscript(c, i, r),
                                 s) == InitiatorTranscript(ResponderTranscript(c, i', r'), s')
    ensures i == i' && r == r' && s == s'
  {
    CutThree(Ascii(INITIATOR_DOMAIN), Ascii(RESPONDER_DOMAIN), c.json(i), c.json(r), Ascii(s), c.json(i'), c.json(r'),
             Ascii(s'));
    AsciiInjective(s, s');
  }

  lemma DomainsDiffer(c: Crypto, i: Hello, r: Hello, t: Bs, s: string)
    ensures !(Ascii(INITIATOR_DOMAIN) <= ResponderTranscript(c, i, r))
    ensures !(Ascii(RESPONDER_DOMAIN) <= InitiatorTranscript(t, s))
  {
    assert RESPONDER_DOMAIN[19] == 'r' && INITIATOR_DOMAIN[19] == 'i';
    assert ResponderTranscript(c, i, r)[19] == Ascii(RESPONDER_DOMAIN)[19];
    assert InitiatorTranscript(t, s)[19] == Ascii(INITIATOR_DOMAIN)[19];
  }

  // ---- what each role verifies -------------------------------------------------------

  /** _verify_device_identity: the device id is the hash of the key it comes with. */
  predicate IdentityOk(c: Crypto, h: Hello) {
    c.fromHex(h.publicKey).Some? && c.deviceIdOf(c.fromHex(h.publicKey).value) == h.deviceId
  }

  predicate SignatureOk(c: Crypto, publicKey: string, sig: string, message: Bs) {
    && c.fromHex(publicKey).Some? && IsAscii(sig) && c.fromHex(sig).Some?
    && c.verify(c.fromHex(publicKey).value, c.fromHex(sig).value, message)
  }

  function Signature(c: Crypto, me: Bs, message: Bs): string {
    c.toHex(c.sign(me, message))
  }

  function OwnHello(c: Crypto, kind: string, me: Bs, eph: Bs, nonce: string, name: string): Hello {
    Hello(kind, c.deviceIdOf(me), c.toHex(me), c.ephemeralOf(eph), nonce, name)
  }

  // ---- sessions of honest devices and a hostile network ---------------------------------

  datatype Response = Response(resp: Hello, sig: string)

  /** `got` is the verified response, after which the finish message is sent; `finish` the
      verified finish signature. */
  datatype Session =
    | Initiator(me: Bs, eph: Bs, init: Hello, got: Option<Response>)
    | Responder(me: Bs, eph: Bs, init: Hello, resp: Hello, finish: Option<string>)

  function SignedResponse(c: Crypto, s: Session): Bs
    requires s.Responder?
  {
    ResponderTranscript(c, s.init, s.resp)
  }

  function ResponseSig(c: Crypto, s: Session): string
    requires s.Responder?
  {
    Signature(c, s.me, SignedResponse(c, s))
  }

  /** What an initiator signs, and what a responder expects to have been signed. */
  function SignedFinish(c: Crypto, s: Session): Bs
    requires s.Initiator? ==> s.got.Some?
  {
    if s.Initiator? then InitiatorTranscript(ResponderTranscript(c, s.init, s.got.value.resp), s.got.value.sig)
    else InitiatorTranscript(SignedResponse(c, s), ResponseSig(c, s))
  }

  function FinishSig(c: Crypto, s: Session): string
    requires s.Initiator? && s.got.Some?
  {
    Signature(c, s.me, SignedFinish(c, s))
  }

  /** All sessions, everything honest devices ever signed, and every peer identity any of
      them recorded in its trust store. */
  datatype State = State(sessions: seq<Session>, signed: set<(Bs, Bs)>, recorded: set<(string, string)>)

  const EMPTY := State([], {}, {})

  /** Every message content comes from the network. `nonceNew` is the replay check and
      `welcome` the trust check (neither revoked nor key-changed). */
  datatype Event =
    | StartInitiator(me: Bs, eph: Bs, nonce: string, name: string)
    | OnInit(me: Bs, eph: Bs, nonce: string, name: string, init: Hello, nonceNew: bool, welcome: bool)
    | OnResponse(i: nat, resp: Hello, sig: string, nonceNew: bool, welcome: bool)
    | OnFinish(i: nat, sig: string)
    | SignOther(me: Bs, message: Bs)

  predicate TakesInit(c: Crypto, init: Hello, nonceNew: bool, welcome: bool) {
    init.kind == INIT && nonceNew && IdentityOk(c, init) && welcome
  }

  predicate TakesResponse(c: Crypto, init: Hello, resp: Hello, sig: string, nonceNew: bool, welcome: bool) {
    && resp.kind == RESPONSE && nonceNew && IdentityOk(c, resp) && welcome
    && SignatureOk(c, resp.publicKey, sig, ResponderTranscript(c, init, resp))
  }

  function Step(c: Crypto, s: State, e: Event): State {
    match e
    case StartInitiator(me, eph, nonce, name) =>
      s.(sessions := s.sessions + [Initiator(me, eph, OwnHello(c, INIT, me, eph, nonce, name), None)])
    case OnInit(me, eph, nonce, name, init, nonceNew, welcome) =>
      if !TakesInit(c, init, nonceNew, welcome) then s
      else
        var r := Responder(me, eph, init, OwnHello(c, RESPONSE, me, eph, nonce, name), None);
        s.(sessions := s.sessions + [r], signed := s.signed + {(me, SignedResponse(c, r))})
    case OnResponse(i, resp, sig, nonceNew, welcome) =>
      if i < |s.sessions| && s.sessions[i].Initiator? && s.sessions[i].got.None?
         && TakesResponse(c, s.sessions[i].init, resp, sig, nonceNew, welcome) then
        var t := s.sessions[i].(got := Some(Response(resp, sig)));
        State(s.sessions[i := t], s.signed + {(t.me, SignedFinish(c, t))},
              s.recorded + {(resp.deviceId, resp.publicKey)})
      else s
    case OnFinish(i, sig) =>
      if i < |s.sessions| && s.sessions[i].Responder? && s.sessions[i].finish.None?
         && SignatureOk(c, s.sessions[i].init.publicKey, sig, SignedFinish(c, s.sessions[i])) then
        var t := s.sessions[i].(finish := Some(sig));
        s.(sessions := s.sessions[i := t], recorded := s.recorded + {(t.init.deviceId, t.init.publicKey)})
      else s
    case SignOther(me, message) => s.(signed := s.signed + {(me, message)})
  }

  function Run(c: Crypto, events: seq<Event>): State {
    if events == [] then EMPTY else Step(c, Run(c, events[..|events| - 1]), events[|events| - 1])
  }

  function OwnNonce(s: Session): string { if s.Initiator? then s.init.nonce else s.resp.nonce }

  /** A signature verifies under an honest key only if its owner signed exactly that message. */
  ghost predicate Unforged(c: Crypto, s: State, honest: set<Bs>, publicKey: string, sig: string, message: Bs) {
    SignatureOk(c, publicKey, sig, message) && c.fromHex(publicKey).value in honest
    ==> (c.fromHex(publicKey).value, message) in s.signed
  }

  /** Ideal signatures, nonces never drawn twice, and other uses of the identity keys kept out
      of the two handshake domains. */
  ghost predicate Admissible(c: Crypto, honest: set<Bs>, s: State, e: Event) {
    match e
    case StartInitiator(me, _, nonce, _) => forall i :: 0 <= i < |s.sessions| ==> OwnNonce(s.sessions[i]) != nonce
    case OnInit(me, _, nonce, _, _, _, _) => forall i :: 0 <= i < |s.sessions| ==> OwnNonce(s.sessions[i]) != nonce
    case OnResponse(i, resp, sig, _, _) =>
      i < |s.sessions| ==> Unforged(c, s, honest, resp.publicKey, sig, ResponderTranscript(c, s.sessions[i].init, resp))
    case OnFinish(i, sig) =>
      i < |s.sessions| && s.sessions[i].Responder? ==>
        Unforged(c, s, honest, s.sessions[i].init.publicKey, sig, SignedFinish(c, s.sessions[i]))
    case SignOther(me, message) => !(Ascii(RESPONDER_DOMAIN) <= message) && !(Ascii(INITIATOR_DOMAIN) <= message)
  }

  ghost predicate AdmissibleRun(c: Crypto, honest: set<Bs>, events: seq<Event>) {
    events == [] || (AdmissibleRun(c, honest, events[..|events| - 1])
                     && Admissible(c, honest, Run(c, events[..|events| - 1]), events[|events| - 1]))
  }

  // ---- what holds in every reachable state ------------------------------------------------

  predicate Replied(s: Session) { s.Initiator? && s.got.Some? }
  predicate Finished(s: Session) { s.Responder? && s.finish.Some? }

  ghost predicate ResponsesAreLogged(c: Crypto, s: State) {
    forall u :: u in s.signed && Ascii(RESPONDER_DOMAIN) <= u.1 ==>
      exists j :: 0 <= j < |s.sessions| && s.sessions[j].Responder? && s.sessions[j].me == u.0
        && SignedResponse(c, s.sessions[j]) == u.1
  }

  ghost predicate FinishesAreLogged(c: Crypto, s: State) {
    forall u :: u in s.signed && Ascii(INITIATOR_DOMAIN) <= u.1 ==>
      exists i :: 0 <= i < |s.sessions| && Replied(s.sessions[i]) && s.sessions[i].me == u.0
        && SignedFinish(c, s.sessions[i]) == u.1
  }

  /** A session says who it is, and what it has accepted so far was signed by whom it names. */
  ghost predicate Sound(c: Crypto, honest: set<Bs>, signed: set<(Bs, Bs)>, t: Session) {
    if t.Initiator? then
      && t.init == OwnHello(c, INIT, t.me, t.eph, t.init.nonce, t.init.name)
      && (t.got.Some? ==>
            var resp := t.got.value.resp;
            && resp.kind == RESPONSE && IdentityOk(c, resp) && IsAscii(t.got.value.sig)
            && (c.fromHex(resp.publicKey).value in honest ==>
                  (c.fromHex(resp.publicKey).value, ResponderTranscript(c, t.init, resp)) in signed))
    else
      && t.resp == OwnHello(c, RESPONSE, t.me, t.eph, t.resp.nonce, t.resp.name)
      && t.init.kind == INIT && IdentityOk(c, t.init)
      && (t.finish.Some? ==>
            && IsAscii(t.finish.value)
            && (c.fromHex(t.init.publicKey).value in honest ==>
                  (c.fromHex(t.init.publicKey).value, SignedFinish(c, t)) in signed))
  }

  ghost predicate AllSound(c: Crypto, honest: set<Bs>, s: State) {
    forall i :: 0 <= i < |s.sessions| ==> Sound(c, honest, s.signed, s.sessions[i])
  }

  ghost predicate NoncesDiffer(s: State) {
    forall i, j :: 0 <= i < j < |s.sessions| ==> OwnNonce(s.sessions[i]) != OwnNonce(s.sessions[j])
  }

  predicate Vouches(t: Session, r: (string, string)) {
    || (Replied(t) && (t.got.value.resp.deviceId, t.got.value.resp.publicKey) == r)
    || (Finished(t) && (t.init.deviceId, t.init.publicKey) == r)
  }

  /** Trust is recorded only for a peer whose signature some session has verified. */
  ghost predicate RecordsAreEarned(s: State) {
    forall r :: r in s.recorded ==> exists i :: 0 <= i < |s.sessions| && Vouches(s.sessions[i], r)
  }

  ghost predicate Inv(c: Crypto, honest: set<Bs>, s: State) {
    ResponsesAreLogged(c, s) && FinishesAreLogged(c, s) && AllSound(c, honest, s) && NoncesDiffer(s)
      && RecordsAreEarned(s)
  }

  /** Sessions are only added, or move from waiting to verified. */
  predicate Grows(s: State, s': State) {
    && |s.sessions| <= |s'.sessions| && s.signed <= s'.signed
    && forall i :: 0 <= i < |s.sessions| ==>
         || s'.sessions[i] == s.sessions[i]
         || (s.sessions[i].Initiator? && s.sessions[i].got.None?
             && s'.sessions[i].Initiator? && s'.sessions[i] == s.sessions[i].(got := s'.sessions[i].got))
         || (s.sessions[i].Responder? && s.sessions[i].finish.None?
             && s'.sessions[i].Responder? && s'.sessions[i] == s.sessions[i].(finish := s'.sessions[i].finish))
  }

  lemma StepGrows(c: Crypto, s: State, e: Event)
    ensures Grows(s, Step(c, s, e))
  {
  }

  lemma StepKeepsResponseLog(c: Crypto, honest: set<Bs>, s: State, e: Event)
    requires ResponsesAreLogged(c, s) && Admissible(c, honest, s, e)
    ensures ResponsesAreLogged(c, Step(c, s, e))
  {
    var s' := Step(c, s, e);
    StepGrows(c, s, e);
    forall u | u in s'.signed && Ascii(RESPONDER_DOMAIN) <= u.1
      ensures exists j :: 0 <= j < |s'.sessions| && s'.sessions[j].Responder? && s'.sessions[j].me == u.0
                && SignedResponse(c, s'.sessions[j]) == u.1
    {
      if u in s.signed {
        var j :| 0 <= j < |s.sessions| && s.sessions[j].Responder? && s.sessions[j].me == u.0
                 && SignedResponse(c, s.sessions[j]) == u.1;
        assert SignedResponse(c, s'.sessions[j]) == u.1;
      } else if e.OnResponse? {
        var t := s'.sessions[e.i];
        DomainsDiffer(c, t.init, t.init, ResponderTranscript(c, t.init, t.got.value.resp), t.got.value.sig);
      } else if e.OnInit? {
        assert SignedResponse(c, s'.sessions[|s.sessions|]) == u.1;
      }
    }
  }

  lemma StepKeepsFinishLog(c: Crypto, honest: set<Bs>, s: State, e: Event)
    requires FinishesAreLogged(c, s) && Admissible(c, honest, s, e)
    ensures FinishesAreLogged(c, Step(c, s, e))
  {
    var s' := Step(c, s, e);
    StepGrows(c, s, e);
    forall u | u in s'.signed && Ascii(INITIATOR_DOMAIN) <= u.1
      ensures exists i :: 0 <= i < |s'.sessions| && Replied(s'.sessions[i]) && s'.sessions[i].me == u.0
                && SignedFinish(c, s'.sessions[i]) == u.1
    {
      if u in s.signed {
        var i :| 0 <= i < |s.sessions| && Replied(s.sessions[i]) && s.sessions[i].me == u.0
          && SignedFinish(c, s.sessions[i]) == u.1;
        assert s'.sessions[i] == s.sessions[i];
      } else if e.OnInit? {
        var t := s'.sessions[|s.sessions|];
        DomainsDiffer(c, t.init, t.resp, [], "");
      } else if e.OnResponse? {
        assert SignedFinish(c, s'.sessions[e.i]) == u.1;
      }
    }
  }

  lemma StepKeepsSound(c: Crypto, honest: set<Bs>, s: State, e: Event)
    requires AllSound(c, honest, s) && Admissible(c, honest, s, e)
    ensures AllSound(c, honest, Step(c, s, e))
  {
    var s' := Step(c, s, e);
    forall i | 0 <= i < |s'.sessions| ensures Sound(c, honest, s'.signed, s'.sessions[i]) {
      if i < |s.sessions| {
        assert Sound(c, honest, s.signed, s.sessions[i]);
      }
    }
  }

  lemma StepKeepsNonces(c: Crypto, honest: set<Bs>, s: State, e: Event)
    requires NoncesDiffer(s) && Admissible(c, honest, s, e)
    ensures NoncesDiffer(Step(c, s, e))
  {
    StepGrows(c, s, e);
    var s' := Step(c, s, e);
    assert forall i :: 0 <= i < |s.sessions| ==> OwnNonce(s'.sessions[i]) == OwnNonce(s.sessions[i]);
  }

  lemma StepKeepsRecords(c: Crypto, s: State, e: Event)
    requires RecordsAreEarned(s)
    ensures RecordsAreEarned(Step(c, s, e))
  {
    var s' := Step(c, s, e);
    StepGrows(c, s, e);
    forall r | r in s'.recorded ensures exists i :: 0 <= i < |s'.sessions| && Vouches(s'.sessions[i], r) {
      if r in s.recorded {
        var i :| 0 <= i < |s.sessions| && Vouches(s.sessions[i], r);
        assert Vouches(s'.sessions[i], r);
      } else {
        assert Vouches(s'.sessions[e.i], r);
      }
    }
  }

  lemma {:induction false} RunKeepsInv(c: Crypto, honest: set<Bs>, events: seq<Event>)
    requires AdmissibleRun(c, honest, events)
    ensures Inv(c, honest, Run(c, events))
    decreases |events|
  {
    if events != [] {
      var before := events[..|events| - 1];
      RunKeepsInv(c, honest, before);
      var s, e := Run(c, before), events[|events| - 1];
      StepKeepsResponseLog(c, honest, s, e);
      StepKeepsFinishLog(c, honest, s, e);
      StepKeepsSound(c, honest, s, e);
      StepKeepsNonces(c, honest, s, e);
      StepKeepsRecords(c, s, e);
    }
  }

  // ---- agreement --------------------------------------------------------------------------

  /** The two hold identical init fields, response fields and responder signature string, and
      each is the peer the other names. */
  predicate Agree(c: Crypto, i: Session, r: Session) {
    && Replied(i) && r.Responder?
    && i.init == r.init && i.got.value.resp == r.resp && i.got.value.sig == ResponseSig(c, r)
    && c.fromHex(r.init.publicKey) == Some(i.me) && c.fromHex(i.got.value.resp.publicKey) == Some(r.me)
  }

  /** A responder that completes with an honest initiator agrees with exactly one session, one
      of that initiator's, and no other responder session agrees with that one. */
  lemma ResponderAgreement(c: Crypto, honest: set<Bs>, events: seq<Event>, j: nat)
    requires Encodes(c) && AdmissibleRun(c, honest, events)
    requires var s := Run(c, events);
             && j < |s.sessions| && Finished(s.sessions[j])
             && c.fromHex(s.sessions[j].init.publicKey).Some? && c.fromHex(s.sessions[j].init.publicKey).value in honest
    ensures var ss := Run(c, events).sessions;
            exists i :: 0 <= i < |ss| && Agree(c, ss[i], ss[j])
              && (forall i' :: 0 <= i' < |ss| && Agree(c, ss[i'], ss[j]) ==> i' == i)
              && (forall j' :: 0 <= j' < |ss| && Agree(c, ss[i], ss[j']) ==> j' == j)
  {
    RunKeepsInv(c, honest, events);
    var s := Run(c, events);
    var i := AgreeingInitiator(c, honest, s, j);
    var t, r := s.sessions[i], s.sessions[j];
    forall i' | 0 <= i' < |s.sessions| && Agree(c, s.sessions[i'], r) ensures i' == i {
      assert OwnNonce(s.sessions[i']) == OwnNonce(t);
    }
    forall j' | 0 <= j' < |s.sessions| && Agree(c, t, s.sessions[j']) ensures j' == j {
      assert OwnNonce(s.sessions[j']) == OwnNonce(r);
    }
  }

  lemma AgreeingInitiator(c: Crypto, honest: set<Bs>, s: State, j: nat) returns (i: nat)
    requires Encodes(c) && Inv(c, honest, s) && j < |s.sessions| && Finished(s.sessions[j])
    requires var key := c.fromHex(s.sessions[j].init.publicKey); key.Some? && key.value in honest
    ensures i < |s.sessions| && Agree(c, s.sessions[i], s.sessions[j])
  {
    var r := s.sessions[j];
    assert Sound(c, honest, s.signed, r);
    var key := c.fromHex(r.init.publicKey).value;
    var u := (key, SignedFinish(c, r));
    assert u in s.signed && Ascii(INITIATOR_DOMAIN) <= u.1;
    i :| 0 <= i < |s.sessions| && Replied(s.sessions[i]) && s.sessions[i].me == key
      && SignedFinish(c, s.sessions[i]) == u.1;
    var t := s.sessions[i];
    assert Sound(c, honest, s.signed, t);
    InitiatorTranscriptInjective(c, t.init, t.got.value.resp, t.got.value.sig, r.init, r.resp, ResponseSig(c, r));
  }

  /** An initiator that accepts a response under an honest responder's key shares all init and
      response fields with one of that responder's sessions. The signature string need not be
      the same one: hexadecimal can be respelled. */
  lemma InitiatorAgreement(c: Crypto, honest: set<Bs>, events: seq<Event>, i: nat)
    requires Encodes(c) && AdmissibleRun(c, honest, events)
    requires var s := Run(c, events);
             && i < |s.sessions| && Replied(s.sessions[i])
             && c.fromHex(s.sessions[i].got.value.resp.publicKey).Some?
             && c.fromHex(s.sessions[i].got.value.resp.publicKey).value in honest
    ensures var ss := Run(c, events).sessions;
            exists j :: 0 <= j < |ss| && ss[j].Responder? && Some(ss[j].me) == c.fromHex(ss[i].got.value.resp.publicKey)
              && ss[j].init == ss[i].init && ss[j].resp == ss[i].got.value.resp
  {
    RunKeepsInv(c, honest, events);
    var s := Run(c, events);
    var t := s.sessions[i];
    assert Sound(c, honest, s.signed, t);
    var u := (c.fromHex(t.got.value.resp.publicKey).value, ResponderTranscript(c, t.init, t.got.value.resp));
    assert u in s.signed && Ascii(RESPONDER_DOMAIN) <= u.1;
    var j :| 0 <= j < |s.sessions| && s.sessions[j].Responder? && s.sessions[j].me == u.0
      && SignedResponse(c, s.sessions[j]) == u.1;
    ResponderTranscriptInjective(c, t.init, t.got.value.resp, s.sessions[j].init, s.sessions[j].resp);
  }

  /** An identity in a trust store that belongs to an honest device was put there after that
      device itself signed a transcript. */
  lemma RecordedMeansSigned(c: Crypto, honest: set<Bs>, events: seq<Event>, id: string, key: string)
    requires AdmissibleRun(c, honest, events) && (id, key) in Run(c, events).recorded
    ensures c.fromHex(key).Some? && c.deviceIdOf(c.fromHex(key).value) == id
    ensures c.fromHex(key).value in honest ==>
              exists u :: u in Run(c, events).signed && u.0 == c.fromHex(key).value
                && (Ascii(RESPONDER_DOMAIN) <= u.1 || Ascii(INITIATOR_DOMAIN) <= u.1)
  {
    RunKeepsInv(c, honest, events);
    var s := Run(c, events);
    var i :| 0 <= i < |s.sessions| && Vouches(s.sessions[i], (id, key));
    var t := s.sessions[i];
    assert Sound(c, honest, s.signed, t);
    if c.fromHex(key).value in honest {
      var u := (c.fromHex(key).value,
                if t.Initiator? then ResponderTranscript(c, t.init, t.got.value.resp) else SignedFinish(c, t));
      assert u in s.signed;
    }
  }

  // ---- session keys -----------------------------------------------------------------------

  const INFO_INIT_TO_RESP := "peerc-v2:initiator-to-responder"
  const INFO_RESP_TO_INIT := "peerc-v2:responder-to-initiator"
  const INFO_SESSION_ID := "peerc-v2:session-id"

  datatype SessionKeys = SessionKeys(sendKey: Bs, recvKey: Bs, sessionId: string)

  /** derive_session_keys; None is the KDFError for inputs of the wrong length. */
  function DeriveSessionKeys(c: Crypto, secret: Bs, salt: Bs, isInitiator: bool): (r: Option<SessionKeys>)
    ensures r.Some? <==> |secret| == 32 && |salt| == 32
  {
    if |secret| != 32 || |salt| != 32 then None
    else
      var toResponder, toInitiator := c.hkdf(secret, salt, INFO_INIT_TO_RESP), c.hkdf(secret, salt, INFO_RESP_TO_INIT);
      var id := c.toHex(c.hkdf(secret, salt, INFO_SESSION_ID));
      Some(if isInitiator then SessionKeys(toResponder, toInitiator, id) else SessionKeys(toInitiator, toResponder, id))
  }

  /** The two roles derive the same two keys the other way round, and one session id. */
  lemma DerivedKeysMirror(c: Crypto, secret: Bs, salt: Bs)
    ensures Mirrored(DeriveSessionKeys(c, secret, salt, true), DeriveSessionKeys(c, secret, salt, false))
  {
  }

  /** Which key is for which direction: what the initiator sends under and the responder receives
      under, and the other way round, come from the label of that direction; the session id
      from a third. */
  lemma KeysByDirection(c: Crypto, secret: Bs, salt: Bs, isInitiator: bool)
    requires |secret| == 32 && |salt| == 32
    ensures var k := DeriveSessionKeys(c, secret, salt, isInitiator);
            && k.Some?
            && c.hkdf(secret, salt, "peerc-v2:initiator-to-responder")
               == (if isInitiator then k.value.sendKey else k.value.recvKey)
            && c.hkdf(secret, salt, "peerc-v2:responder-to-initiator")
               == (if isInitiator then k.value.recvKey else k.value.sendKey)
            && k.value.sessionId == c.toHex(c.hkdf(secret, salt, "peerc-v2:session-id"))
  {
  }

  /** Both ends compute the same secret from their own private and the other's public part. */
  ghost predicate ExchangeAgrees(c: Crypto) {
    forall x, y :: c.exchange(x, c.ephemeralOf(y)) == c.exchange(y, c.ephemeralOf(x))
      && c.exchange(x, c.ephemeralOf(y)).Some?
  }

  function TranscriptOf(c: Crypto, s: Session): Bs
    requires Replied(s) || Finished(s)
  {
    FinalTranscript(SignedFinish(c, s), if s.Initiator? then FinishSig(c, s) else s.finish.value)
  }

  function TranscriptHash(c: Crypto, s: Session): Bs
    requires Replied(s) || Finished(s)
  {
    c.hash(TranscriptOf(c, s))
  }

  predicate Collide(c: Crypto, a: Bs, b: Bs) { a != b && c.hash(a) == c.hash(b) }

  function SharedSecret(c: Crypto, s: Session): Option<Bs>
    requires Replied(s) || Finished(s)
  {
    c.exchange(s.eph, if s.Initiator? then s.got.value.resp.ephemeral else s.init.ephemeral)
  }

  function KeysOf(c: Crypto, s: Session): Option<SessionKeys>
    requires Replied(s) || Finished(s)
  {
    if SharedSecret(c, s).None? then None
    else DeriveSessionKeys(c, SharedSecret(c, s).value, TranscriptHash(c, s), s.Initiator?)
  }

  predicate Mirrored(a: Option<SessionKeys>, b: Option<SessionKeys>) {
    && (a.Some? <==> b.Some?)
    && (a.Some? ==>
          && a.value.sendKey == b.value.recvKey && a.value.recvKey == b.value.sendKey
          && a.value.sessionId == b.value.sessionId)
  }

  /** Agreeing sessions hold the same transcript hash if, and unless their two transcripts
      collide only if, the finish signature string arrived as it was sent; and then their keys
      mirror. */
  lemma KeysMirrorWhenFinishUnchanged(c: Crypto, honest: set<Bs>, events: seq<Event>, i: nat, j: nat)
    requires Encodes(c) && ExchangeAgrees(c) && AdmissibleRun(c, honest, events)
    requires var ss := Run(c, events).sessions;
             i < |ss| && j < |ss| && Agree(c, ss[i], ss[j]) && Finished(ss[j])
    ensures var ss := Run(c, events).sessions;
            && SharedSecret(c, ss[i]) == SharedSecret(c, ss[j]) && SharedSecret(c, ss[i]).Some?
            && (ss[j].finish.value == FinishSig(c, ss[i]) ==>
                  TranscriptHash(c, ss[i]) == TranscriptHash(c, ss[j]) && Mirrored(KeysOf(c, ss[i]), KeysOf(c, ss[j])))
            && (TranscriptHash(c, ss[i]) == TranscriptHash(c, ss[j]) ==>
                  || ss[j].finish.value == FinishSig(c, ss[i])
                  || Collide(c, TranscriptOf(c, ss[i]), TranscriptOf(c, ss[j])))
  {
    RunKeepsInv(c, honest, events);
    var s := Run(c, events);
    var a, b := s.sessions[i], s.sessions[j];
    assert Sound(c, honest, s.signed, a) && Sound(c, honest, s.signed, b);
    assert SignedFinish(c, a) == SignedFinish(c, b);
    if TranscriptOf(c, a) == TranscriptOf(c, b) {
      var t := SignedFinish(c, a) + [NEWLINE];
      CutPrefix(t, Ascii(FinishSig(c, a)), Ascii(b.finish.value));
      AsciiInjective(FinishSig(c, a), b.finish.value);
    }
  }

  /** Keys derived under different labels, when those outputs differ, make a channel that never
      seals twice under the same key and nonce. */
  lemma DerivedChannelNeverReusesNonces(c: Crypto, secret: Bs, salt: Bs, aead: Secure.Aead,
                                        events: seq<Secure.NetEvent>)
    requires |secret| == 32 && |salt| == 32
    requires c.hkdf(secret, salt, INFO_INIT_TO_RESP) != c.hkdf(secret, salt, INFO_RESP_TO_INIT)
    ensures var k := DeriveSessionKeys(c, secret, salt, true).value;
            k.sendKey != k.recvKey
              && Secure.NoRepeats(Secure.NetRun(aead, Secure.Start(k.sendKey, k.recvKey), events).used)
  {
    var k := DeriveSessionKeys(c, secret, salt, true).value;
    Secure.NonceNeverReused(aead, k.sendKey, k.recvKey, events);
  }

  // ---- the roles over a device's own trust store and nonce cache -----------------------

  const MAX_PEER_NAME_LENGTH: nat := 64

  predicate Welcome(d: Trust.Decision) {
    !d.IsRevoked? && !d.KeyChanged?
  }

  function Truncated(name: string): string {
    if |name| <= MAX_PEER_NAME_LENGTH then name else name[..MAX_PEER_NAME_LENGTH]
  }

  /** What _record_trust asks of the trust store for an earlier decision. */
  function TrustOp(peer: Hello, d: Trust.Decision, allowed: bool, now: real): Option<Trust.Op> {
    match d
    case Unknown => Some(Trust.FirstSeen(peer.deviceId, peer.publicKey, Truncated(peer.name), allowed, now))
    case IsPending => Some(Trust.Touch(peer.deviceId, now))
    case IsTrusted => Some(Trust.Touch(peer.deviceId, now))
    case _ => None
  }

  function AfterTrustOp(s: Trust.State, op: Option<Trust.Op>): Trust.State {
    if op.Some? then Trust.Apply(s, op.value) else s
  }

  // ---- what the handshake does not ask the trust store --------------------------------

  /** The handshake asks check, not check_with_rotation, so it welcomes everybody the latter
      welcomes, and beyond that exactly those tainted by another device: not revoked themselves,
      but connected to one that is. */
  lemma WelcomedThoughTaintedIff(s: Trust.State, id: Trust.Id, key: string)
    ensures Welcome(Trust.Verdict(s, id, key)) ==> Welcome(Trust.Assess(s, id, key))
    ensures Welcome(Trust.Assess(s, id, key)) && !Welcome(Trust.Verdict(s, id, key)) <==>
              && Trust.Tainted(s, id)
              && (id in s.devices ==> s.devices[id].publicKey == key && s.devices[id].status != Trust.Revoked)
  {
    Trust.ConnectedSelf(s.rows, id);
  }

  /** And so for ever: whatever happens to the store, whoever is connected to a tainted device
      is welcomed until its own row is revoked. */
  lemma TaintedIsWelcomedUntilRevoked(s: Trust.State, ops: seq<Trust.Op>, id: Trust.Id, member: Trust.Id, key: string)
    requires Trust.Tainted(s, id) && Trust.Connected(Trust.Run(s, ops).rows, id, member)
    requires member in s.devices && s.devices[member].publicKey == key
    ensures !Welcome(Trust.Verdict(Trust.Run(s, ops), member, key)) && member in Trust.Run(s, ops).devices
    ensures Welcome(Trust.Assess(Trust.Run(s, ops), member, key)) <==>
              Trust.Run(s, ops).devices[member].status != Trust.Revoked
  {
    Trust.TaintIsPermanent(s, ops, id, member, key);
    Trust.RunExtends(s, ops);
  }

  /** The concrete case: "a" is approved, rotates to "b" and is then revoked. */
  lemma SuccessorOfRevokedIsWelcomed(ka: string, kb: string)
    ensures var cert := Trust.Cert("a", "b", ka, kb, 0.0);
            var s := Trust.Run(Trust.EMPTY, [Trust.FirstSeen("a", ka, "", true, 0.0), Trust.Approve("a"),
                                             Trust.Rotate(cert, true, 0.0), Trust.Revoke("a", "x")]);
            Welcome(Trust.Assess(s, "b", kb)) && Trust.Verdict(s, "b", kb) == Trust.IsRevoked
  {
    var cert := Trust.Cert("a", "b", ka, kb, 0.0);
    var o1, o2 := Trust.FirstSeen("a", ka, "", true, 0.0), Trust.Approve("a");
    var o3, o4 := Trust.Rotate(cert, true, 0.0), Trust.Revoke("a", "x");
    var s1 := Trust.Apply(Trust.EMPTY, o1);
    assert [o1][..0] == [] && Trust.Run(Trust.EMPTY, [o1]) == s1;
    var s2 := Trust.Apply(s1, o2);
    assert [o1, o2][..1] == [o1] && Trust.Run(Trust.EMPTY, [o1, o2]) == s2;
    var s3 := Trust.Apply(s2, o3);
    assert [o1, o2, o3][..2] == [o1, o2] && Trust.Run(Trust.EMPTY, [o1, o2, o3]) == s3;
    var s4 := Trust.Apply(s3, o4);
    assert [o1, o2, o3, o4][..3] == [o1, o2, o3] && Trust.Run(Trust.EMPTY, [o1, o2, o3, o4]) == s4;
    assert s4.rows == [cert] && Trust.Leads(s4.rows, "a", "b");
    Trust.ConnectedSelf(s4.rows, "b");
    assert Trust.Linked(s4.rows, "b", "a");
    Trust.ConnectedStep(s4.rows, "b", "b", "a");
  }

  /** A responder decides on the initiator when it answers, and completes on that decision. */
  predicate Completes(c: Crypto, s: Trust.State, t: Session, d: Trust.Decision, sig: string, allowed: bool)
    requires t.Responder?
  {
    && SignatureOk(c, t.init.publicKey, sig, SignedFinish(c, t))
    && (d.Unknown? ==> t.init.deviceId !in s.devices && allowed)
  }

  /** Whatever the store went through in between: a handshake completes with a device that the
      store would by now refuse if and only if the device was known when the handshake began
      and has been revoked since. */
  lemma CompletesThoughRefusedIff(c: Crypto, s: Trust.State, ops: seq<Trust.Op>, t: Session, sig: string, allowed: bool)
    requires t.Responder? && Welcome(Trust.Assess(s, t.init.deviceId, t.init.publicKey))
    requires SignatureOk(c, t.init.publicKey, sig, SignedFinish(c, t))
    ensures var now := Trust.Run(s, ops);
            var d := Trust.Assess(s, t.init.deviceId, t.init.publicKey);
            Completes(c, now, t, d, sig, allowed) && !Welcome(Trust.Assess(now, t.init.deviceId, t.init.publicKey)) <==>
              && t.init.deviceId in s.devices && t.init.deviceId in now.devices
              && now.devices[t.init.deviceId].status == Trust.Revoked
  {
    Trust.RunExtends(s, ops);
  }

  /** Revoking it while the finish is awaited is enough. */
  lemma RevokedMeanwhileStillCompletes(c: Crypto, s: Trust.State, t: Session, sig: string, allowed: bool, actor: string)
    requires t.Responder? && Welcome(Trust.Assess(s, t.init.deviceId, t.init.publicKey))
    requires SignatureOk(c, t.init.publicKey, sig, SignedFinish(c, t)) && t.init.deviceId in s.devices
    ensures var now := Trust.Run(s, [Trust.Revoke(t.init.deviceId, actor)]);
            && Trust.Assess(now, t.init.deviceId, t.init.publicKey) == Trust.IsRevoked
            && Completes(c, now, t, Trust.Assess(s, t.init.deviceId, t.init.publicKey), sig, allowed)
  {
    var op := Trust.Revoke(t.init.deviceId, actor);
    assert [op][..0] == [] && Trust.Run(s, [op]) == Trust.Apply(s, op);
  }

  // ---- one device: its answers, its trust store, its nonces ---------------------------

  /** The signature, both it and the key written in hexadecimal, is the key's on the message. */
  predicate Verifies(c: Crypto, key: string, sig: string, message: Bs) {
    && (forall i :: 0 <= i < |sig| ==> sig[i] < 128 as char) && c.fromHex(sig).Some? && c.fromHex(key).Some?
    && c.verify(c.fromHex(key).value, c.fromHex(sig).value, message)
  }

  /** When a responder completes: the finish signature verifies over both messages and its own
      signature, and somebody who was unknown still is, and is allowed. */
  lemma CompletesIff(c: Crypto, s: Trust.State, t: Session, d: Trust.Decision, sig: string, allowed: bool)
    requires t.Responder?
    ensures Completes(c, s, t, d, sig, allowed) <==>
              && Verifies(c, t.init.publicKey, sig,
                          InitiatorTranscript(ResponderTranscript(c, t.init, t.resp),
                                              c.toHex(c.sign(t.me, ResponderTranscript(c, t.init, t.resp)))))
              && (d == Trust.Unknown ==> t.init.deviceId !in s.devices && allowed)
  {
  }

  /** Held and not yet forgotten. */
  predicate Remembered(seen: Replay.Seen, nonce: string, now: real, ttl: real) {
    nonce in seen && now - seen[nonce] <= ttl
  }

  /** Nothing in the store speaks against the device: it is unknown, or known under exactly this
      key and not revoked. */
  predicate Unopposed(s: Trust.State, id: string, key: string) {
    id in s.devices ==> s.devices[id].publicKey == key && s.devices[id].status != Trust.Revoked
  }

  /** A responder's first half. */
  function Answer(c: Crypto, me: Bs, name: string, trust: Trust.State, seen: Replay.Seen, ttl: real,
                  init: Hello, eph: Bs, nonce: string, now: real)
    : (Replay.Seen, Option<(Hello, string, Trust.Decision)>)
  {
    var d := Trust.Assess(trust, init.deviceId, init.publicKey);
    var added := Replay.AddNonce(seen, init.nonce, now, ttl);
    var resp := OwnHello(c, RESPONSE, me, eph, nonce, name);
    (if init.kind == INIT then added.0 else seen,
     if TakesInit(c, init, added.1, Welcome(d))
     then Some((resp, Signature(c, me, ResponderTranscript(c, init, resp)), d)) else None)
  }

  /** Who is answered: an init message whose nonce is not remembered, whose device id is that of
      its key, and against which nothing in the store speaks. The answer is signed over both
      messages, and the nonce is remembered from then on. */
  lemma AnswersIff(c: Crypto, me: Bs, name: string, trust: Trust.State, seen: Replay.Seen, ttl: real,
                   init: Hello, eph: Bs, nonce: string, now: real)
    requires ttl >= 0.0
    ensures var (seen', r) := Answer(c, me, name, trust, seen, ttl, init, eph, nonce, now);
            && (r.Some? <==>
                  && init.kind == "handshake_init" && !Remembered(seen, init.nonce, now, ttl)
                  && c.fromHex(init.publicKey).Some? && c.deviceIdOf(c.fromHex(init.publicKey).value) == init.deviceId
                  && Unopposed(trust, init.deviceId, init.publicKey))
            && (r.Some? ==>
                  var (resp, sig, d) := r.value;
                  && resp == Hello("handshake_response", c.deviceIdOf(me), c.toHex(me), c.ephemeralOf(eph), nonce, name)
                  && sig == c.toHex(c.sign(me, ResponderTranscript(c, init, resp)))
                  && (d == Trust.Unknown <==> init.deviceId !in trust.devices))
            && (init.kind == "handshake_init" ==> Remembered(seen', init.nonce, now, ttl))
  {
  }

  /** The initiator's half: the store, the cache and the finish signature afterwards. */
  function TakeUp(c: Crypto, me: Bs, trust: Trust.State, seen: Replay.Seen, ttl: real, init: Hello, resp: Hello,
                  sig: string, allowed: bool, now: real): (Trust.State, Replay.Seen, Option<string>)
  {
    var d := Trust.Assess(trust, resp.deviceId, resp.publicKey);
    var added := Replay.AddNonce(seen, resp.nonce, now, ttl);
    var taken := TakesResponse(c, init, resp, sig, added.1, Welcome(d));
    (if taken then AfterTrustOp(trust, TrustOp(resp, d, allowed, now)) else trust,
     if resp.kind == RESPONSE then added.0 else seen,
     if taken && (d.Unknown? ==> allowed)
     then Some(Signature(c, me, InitiatorTranscript(ResponderTranscript(c, init, resp), sig))) else None)
  }

  /** Which response is taken up, likewise; the peer's signature must verify too, and somebody
      unknown must be allowed. */
  lemma TakesUpIff(c: Crypto, me: Bs, trust: Trust.State, seen: Replay.Seen, ttl: real, init: Hello, resp: Hello,
                   sig: string, allowed: bool, now: real)
    requires ttl >= 0.0
    ensures var (trust', seen', r) := TakeUp(c, me, trust, seen, ttl, init, resp, sig, allowed, now);
            && (r.Some? <==>
                  && resp.kind == "handshake_response" && !Remembered(seen, resp.nonce, now, ttl)
                  && c.fromHex(resp.publicKey).Some? && c.deviceIdOf(c.fromHex(resp.publicKey).value) == resp.deviceId
                  && Unopposed(trust, resp.deviceId, resp.publicKey)
                  && Verifies(c, resp.publicKey, sig, ResponderTranscript(c, init, resp))
                  && (resp.deviceId in trust.devices || allowed))
            && (r.Some? ==>
                  && r.value == c.toHex(c.sign(me, InitiatorTranscript(ResponderTranscript(c, init, resp), sig)))
                  && Greeted(trust, trust', resp, now))
            && (r.None? ==> trust' == trust)
            && (resp.kind == "handshake_response" ==> Remembered(seen', resp.nonce, now, ttl))
  {
  }

  /** What recording a peer does: it is in the store under its key, seen now, as it was before
      or, if it was unknown, pending under a name cut to 64 characters. Nobody else changes. */
  predicate Greeted(before: Trust.State, after: Trust.State, peer: Hello, now: real) {
    && peer.deviceId in after.devices && after.rows == before.rows
    && after.devices - {peer.deviceId} == before.devices - {peer.deviceId}
    && var d := after.devices[peer.deviceId];
       && d.publicKey == peer.publicKey && d.lastSeen == now
       && if peer.deviceId in before.devices then d == before.devices[peer.deviceId].(lastSeen := now)
          else && d.status == Trust.Pending && d.name <= peer.name
               && |d.name| == if |peer.name| < 64 then |peer.name| else 64
  }

  /** A responder that completes has recorded the peer just so, if nothing spoke against it
      when it was answered and its row has not changed keys since, which rows never do. */
  lemma CompletingGreets(c: Crypto, was: Trust.State, ops: seq<Trust.Op>, t: Session, sig: string, allowed: bool,
                         now: real)
    requires t.Responder? && Unopposed(was, t.init.deviceId, t.init.publicKey)
    requires var d := Trust.Assess(was, t.init.deviceId, t.init.publicKey);
             Completes(c, Trust.Run(was, ops), t, d, sig, allowed)
    ensures var d := Trust.Assess(was, t.init.deviceId, t.init.publicKey);
            var s := Trust.Run(was, ops);
            Greeted(s, AfterTrustOp(s, TrustOp(t.init, d, allowed, now)), t.init, now)
  {
    Trust.RunExtends(was, ops);
  }

  /** A device at home: its trust store, its nonce cache, and whom it has answered. */
  datatype Home = Home(trust: Trust.State, seen: Replay.Seen, answered: seq<Hello>)

  datatype HomeEvent =
    | InitArrives(init: Hello, eph: Bs, nonce: string, now: real)
    | ResponseArrives(init: Hello, resp: Hello, sig: string, allowed: bool, now: real)
    | StoreChanges(op: Trust.Op)

  function HomeStep(c: Crypto, me: Bs, name: string, ttl: real, h: Home, e: HomeEvent): Home {
    match e
    case InitArrives(init, eph, nonce, now) =>
      var (seen, r) := Answer(c, me, name, h.trust, h.seen, ttl, init, eph, nonce, now);
      h.(seen := seen, answered := if r.Some? then h.answered + [init] else h.answered)
    case ResponseArrives(init, resp, sig, allowed, now) =>
      var (trust, seen, _) := TakeUp(c, me, h.trust, h.seen, ttl, init, resp, sig, allowed, now);
      h.(trust := trust, seen := seen)
    case StoreChanges(op) => h.(trust := Trust.Apply(h.trust, op))
  }

  function HomeRun(c: Crypto, me: Bs, name: string, ttl: real, events: seq<HomeEvent>): Home {
    if events == [] then Home(Trust.EMPTY, map[], [])
    else HomeStep(c, me, name, ttl, HomeRun(c, me, name, ttl, events[..|events| - 1]), events[|events| - 1])
  }

  /** The moment an init message was answered. */
  predicate AnsweredAt(h: Home, ttl: real, e: HomeEvent, init: Hello) {
    && e.InitArrives? && e.init == init && !Remembered(h.seen, init.nonce, e.now, ttl)
    && Unopposed(h.trust, init.deviceId, init.publicKey)
  }

  /** Over every run of a device, whatever else happens to its store: it has answered only those
      whose nonce it did not remember, and who then were unknown to it or known under exactly
      that key and not revoked. */
  lemma {:induction false} AnsweredWereUnopposed(c: Crypto, me: Bs, name: string, ttl: real, events: seq<HomeEvent>,
                                                 init: Hello)
    requires ttl >= 0.0 && init in HomeRun(c, me, name, ttl, events).answered
    ensures exists i :: 0 <= i < |events| && AnsweredAt(HomeRun(c, me, name, ttl, events[..i]), ttl, events[i], init)
    decreases |events|
  {
    var front, e := events[..|events| - 1], events[|events| - 1];
    var h := HomeRun(c, me, name, ttl, front);
    if init in h.answered {
      AnsweredWereUnopposed(c, me, name, ttl, front, init);
      var i :| 0 <= i < |front| && AnsweredAt(HomeRun(c, me, name, ttl, front[..i]), ttl, front[i], init);
      assert front[..i] == events[..i] && front[i] == events[i];
    } else {
      AnsweredStep(c, me, name, ttl, h, e, init);
    }
  }

  lemma AnsweredStep(c: Crypto, me: Bs, name: string, ttl: real, h: Home, e: HomeEvent, init: Hello)
    requires ttl >= 0.0 && init !in h.answered && init in HomeStep(c, me, name, ttl, h, e).answered
    ensures AnsweredAt(h, ttl, e, init)
  {
    if e.InitArrives? { AnswersIff(c, me, name, h.trust, h.seen, ttl, e.init, e.eph, e.nonce, e.now); }
  }

  class Device {
    const c: Crypto
    const me: Bs
    const name: string
    const store: Trust.TrustStore
    const cache: Replay.NonceCache

    constructor (c: Crypto, me: Bs, name: string, store: Trust.TrustStore, cache: Replay.NonceCache)
      ensures this.c == c && this.me == me && this.name == name && this.store == store && this.cache == cache
    {
      this.c, this.me, this.name, this.store, this.cache := c, me, name, store, cache;
    }

    /** False when record_first_seen raises, which ends the handshake. */
    method RecordTrust(peer: Hello, d: Trust.Decision, allowed: bool, now: real) returns (ok: bool)
      modifies store
      ensures store.View() == AfterTrustOp(old(store.View()), TrustOp(peer, d, allowed, now))
      ensures ok <==> (d.Unknown? ==> peer.deviceId !in old(store.devices) && allowed)
    {
      ok := true;
      match d {
        case Unknown => ok := store.RecordFirstSeen(peer.deviceId, peer.publicKey, Truncated(peer.name), allowed, now);
        case IsPending => store.TouchLastSeen(peer.deviceId, now);
        case IsTrusted => store.TouchLastSeen(peer.deviceId, now);
        case _ =>
      }
    }

    /** A responder's first half: it never touches the trust store. */
    method AnswerInit(init: Hello, eph: Bs, nonce: string,
                      now: real) returns (r: Option<(Hello, string, Trust.Decision)>)
      modifies cache
      ensures (cache.seen, r)
           == Answer(c, me, name, store.View(), old(cache.seen), cache.ttl, init, eph, nonce, now)
    {
      if init.kind != INIT {
        return None;
      }
      var isNew := cache.CheckAndAdd(init.nonce, now);
      if !isNew || !IdentityOk(c, init) {
        return None;
      }
      var d := store.Check(init.deviceId, init.publicKey);
      if !Welcome(d) {
        return None;
      }
      var resp := OwnHello(c, RESPONSE, me, eph, nonce, name);
      return Some((resp, Signature(c, me, ResponderTranscript(c, init, resp)), d));
    }

    /** A responder's second half: the trust store is written exactly when the initiator's
        signature verifies. */
    method TakeFinish(t: Session, d: Trust.Decision, sig: string, allowed: bool, now: real) returns (ok: bool)
      requires t.Responder?
      modifies store
      ensures store.View() == if SignatureOk(c, t.init.publicKey, sig, SignedFinish(c, t))
                              then AfterTrustOp(old(store.View()), TrustOp(t.init, d, allowed, now))
                              else old(store.View())
      ensures ok <==> Completes(c, old(store.View()), t, d, sig, allowed)
    {
      var expected := InitiatorTranscript(ResponderTranscript(c, t.init, t.resp),
                                          Signature(c, t.me, ResponderTranscript(c, t.init, t.resp)));
      if !SignatureOk(c, t.init.publicKey, sig, expected) {
        return false;
      }
      ok := RecordTrust(t.init, d, allowed, now);
    }

    /** The initiator's half: Some is the finish signature it sends. The trust store is
        written exactly when every check, the signature last, has passed. */
    method TakeResponse(init: Hello, resp: Hello, sig: string, allowed: bool, now: real) returns (r: Option<string>)
      modifies store, cache
      ensures (store.View(), cache.seen, r)
           == TakeUp(c, me, old(store.View()), old(cache.seen), cache.ttl, init, resp, sig, allowed, now)
    {
      if resp.kind != RESPONSE {
        return None;
      }
      var isNew := cache.CheckAndAdd(resp.nonce, now);
      if !isNew || !IdentityOk(c, resp) {
        return None;
      }
      var d := store.Check(resp.deviceId, resp.publicKey);
      if !Welcome(d) {
        return None;
      }
      var transcript := ResponderTranscript(c, init, resp);
      if !SignatureOk(c, resp.publicKey, sig, transcript) {
        return None;
      }
      var ok := RecordTrust(resp, d, allowed, now);
      if !ok {
        return None;
      }
      return Some(Signature(c, me, InitiatorTranscript(transcript, sig)));
    }
  }
}
