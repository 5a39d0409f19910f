/** The counter-nonce channel and the encrypted transport on top of it, against a network that
    may drop, replay, reorder or alter frames. */
module Secure {
  import opened Bytes
  import Framing
  import Chunker

  const NONCE_LEN: nat := 12
  const SEQUENCE_SIZE: nat := 8
  const TAG_LEN: nat := 16
  const MIN_ENCRYPTED_PAYLOAD_LEN: nat := SEQUENCE_SIZE + TAG_LEN

  type Key = seq<byte>

  /** The AEAD as an ideal function pair; the associated data is always empty here. */
  datatype Aead = Aead(seal: (Key, seq<byte>, seq<byte>) -> seq<byte>,
                       open: (Key, seq<byte>, seq<byte>) -> Option<seq<byte>>)

  /** Decrypting what was sealed gives it back, and sealing adds a tag. */
  ghost predicate Correct(c: Aead) {
    forall k, n, p :: c.open(k, n, c.seal(k, n, p)) == Some(p) && |c.seal(k, n, p)| == |p| + TAG_LEN
  }

  /** _construct_nonce; None is SequenceExhaustedError. */
  function Nonce(sequence: int): (n: Option<seq<byte>>)
    ensures n.Some? <==> 0 <= sequence < Pow256(NONCE_LEN)
  {
    if 0 <= sequence < Pow256(NONCE_LEN) then Some(Pack(NONCE_LEN, sequence)) else None
  }

  lemma NonceInjective(i: int, j: int)
    requires Nonce(i).Some? && Nonce(i) == Nonce(j)
    ensures i == j
  {
    PackInjective(NONCE_LEN, i, j);
  }

  /** One side of a session: its two keys and its two counters. */
  datatype Endpoint = Endpoint(sendKey: Key, recvKey: Key, sendSeq: nat, recvSeq: nat)

  datatype Encrypted = Encrypted(sequence: nat, ciphertext: seq<byte>)

  function Encrypt(c: Aead, e: Endpoint, plaintext: seq<byte>): (Endpoint, Option<Encrypted>) {
    match Nonce(e.sendSeq)
    case None => (e, None)
    case Some(n) => (e.(sendSeq := e.sendSeq + 1), Some(Encrypted(e.sendSeq, c.seal(e.sendKey, n, plaintext))))
  }

  datatype Decryption = Plain(text: seq<byte>) | ReplayOrReorder | Forged | Exhausted

  function Decrypt(c: Aead, e: Endpoint, sequence: int, ciphertext: seq<byte>): (Endpoint, Decryption) {
    if sequence != e.recvSeq then (e, ReplayOrReorder)
    else match Nonce(sequence)
      case None => (e, Exhausted)
      case Some(n) =>
        match c.open(e.recvKey, n, ciphertext)
        case None => (e, Forged)
        case Some(p) => (e.(recvSeq := e.recvSeq + 1), Plain(p))
  }

  // ---- the wire layout -------------------------------------------------------

  /** What the transport carries; Raw is a plaintext whose first byte is no known marker. */
  /** The counter moves exactly with a plaintext, which only the expected number can give. */
  lemma CounterMovesWithPlaintext(c: Aead, e: Endpoint, sequence: int, ciphertext: seq<byte>)
    ensures var (e', d) := Decrypt(c, e, sequence, ciphertext);
            if d.Plain? then sequence == e.recvSeq && e' == e.(recvSeq := e.recvSeq + 1) else e' == e
  {
  }

  datatype Message = Json(text: seq<byte>) | Binary(payload: seq<byte>) | Relay(chunk: seq<byte>) | Raw(all: seq<byte>)

  const TYPE_JSON: byte := 74
  const TYPE_BINARY: byte := 66
  const TYPE_RELAY: byte := 82

  function Inner(m: Message): seq<byte> {
    match m
    case Json(b) => [TYPE_JSON] + b
    case Binary(b) => [TYPE_BINARY] + b
    case Relay(b) => [TYPE_RELAY] + b
    case Raw(b) => b
  }

  /** None is the empty payload the transport refuses. */
  function FromInner(p: seq<byte>): Option<Message> {
    if p == [] then None
    else if p[0] == TYPE_JSON then Some(Json(p[1..]))
    else if p[0] == TYPE_BINARY then Some(Binary(p[1..]))
    else if p[0] == TYPE_RELAY then Some(Relay(p[1..]))
    else Some(Raw(p))
  }

  lemma FromInnerOfInner(m: Message)
    requires !m.Raw?
    ensures FromInner(Inner(m)) == Some(m)
  {
  }

  /** And every inner text that is not empty is some message's, whatever its marker. */
  lemma InnerOfFromInner(p: seq<byte>)
    ensures FromInner(p).Some? <==> p != []
    ensures p != [] ==> Inner(FromInner(p).value) == p
    ensures p != [] ==> (FromInner(p).value.Json? <==> p[0] == 'J' as int as byte)
    ensures p != [] ==> (FromInner(p).value.Binary? <==> p[0] == 'B' as int as byte)
    ensures p != [] ==> (FromInner(p).value.Relay? <==> p[0] == 'R' as int as byte)
  {
  }

  /** _send_encrypted: the frame payload for one message. None is a counter too large for the
      nonce or for the eight-byte header; only the former leaves the counter where it was. */
  function Send(c: Aead, e: Endpoint, m: Message): (Endpoint, Option<seq<byte>>) {
    var (e', f) := Encrypt(c, e, Inner(m));
    if f.None? || f.value.sequence >= Pow256(SEQUENCE_SIZE) then (e', None)
    else (e', Some(Pack(SEQUENCE_SIZE, f.value.sequence) + f.value.ciphertext))
  }

  datatype Received = Got(message: Message) | Refused | Empty

  /** receive_frame, once the frame has been read. `Empty` is the one odd case: the channel
      accepted the frame but its plaintext was empty. */
  function Receive(c: Aead, e: Endpoint, payload: seq<byte>): (Endpoint, Received) {
    if |payload| < MIN_ENCRYPTED_PAYLOAD_LEN then (e, Refused)
    else
      var (e', d) := Decrypt(c, e, Unpack(payload[..SEQUENCE_SIZE]), payload[SEQUENCE_SIZE..]);
      match d
      case Plain(p) => (e', if FromInner(p).Some? then Got(FromInner(p).value) else Empty)
      case _ => (e', Refused)
  }

  // ---- the channel as an object -----------------------------------------------

  class SecureChannel {
    const aead: Aead
    const sendKey: Key
    const recvKey: Key
    var sendSequence: nat
    var expectedRecvSequence: nat

    constructor (aead: Aead, sendKey: Key, recvKey: Key)
      ensures this.aead == aead && View() == Endpoint(sendKey, recvKey, 0, 0)
    {
      this.aead, this.sendKey, this.recvKey := aead, sendKey, recvKey;
      sendSequence, expectedRecvSequence := 0, 0;
    }

    ghost function View(): Endpoint
      reads this
    {
      Endpoint(sendKey, recvKey, sendSequence, expectedRecvSequence)
    }

    method EncryptMessage(plaintext: seq<byte>) returns (r: Option<Encrypted>)
      modifies this`sendSequence
      ensures (View(), r) == Encrypt(aead, old(View()), plaintext)
    {
      var nonce := Nonce(sendSequence);
      if nonce.None? {
        return None;
      }
      r := Some(Encrypted(sendSequence, aead.seal(sendKey, nonce.value, plaintext)));
      sendSequence := sendSequence + 1;
    }

    /** A refused frame leaves the receive counter unchanged. */
    method DecryptMessage(sequence: int, ciphertext: seq<byte>) returns (r: Decryption)
      modifies this`expectedRecvSequence
      ensures (View(), r) == Decrypt(aead, old(View()), sequence, ciphertext)
      ensures expectedRecvSequence == old(expectedRecvSequence) + (if r.Plain? then 1 else 0)
    {
      if sequence != expectedRecvSequence {
        return ReplayOrReorder;
      }
      var nonce := Nonce(sequence);
      if nonce.None? {
        return Exhausted;
      }
      var p := aead.open(recvKey, nonce.value, ciphertext);
      if p.None? {
        return Forged;
      }
      expectedRecvSequence := expectedRecvSequence + 1;
      return Plain(p.value);
    }

    method SendMessage(m: Message) returns (r: Option<seq<byte>>)
      modifies this`sendSequence
      ensures (View(), r) == Send(aead, old(View()), m)
    {
      var f := EncryptMessage(Inner(m));
      if f.None? || f.value.sequence >= Pow256(SEQUENCE_SIZE) {
        return None;
      }
      return Some(Pack(SEQUENCE_SIZE, f.value.sequence) + f.value.ciphertext);
    }

    method ReceiveFrame(payload: seq<byte>) returns (r: Received)
      modifies this`expectedRecvSequence
      ensures (View(), r) == Receive(aead, old(View()), payload)
    {
      if |payload| < MIN_ENCRYPTED_PAYLOAD_LEN {
        return Refused;
      }
      var d := DecryptMessage(Unpack(payload[..SEQUENCE_SIZE]), payload[SEQUENCE_SIZE..]);
      if !d.Plain? {
        return Refused;
      }
      var m := FromInner(d.text);
      return if m.Some? then Got(m.value) else Empty;
    }
  }

  // ---- two endpoints and a hostile network ------------------------------------

  /** Both endpoints, what each has sent, what each has accepted, and every key and nonce that
      was ever given to the cipher for sealing. */
  datatype Net = Net(a: Endpoint, b: Endpoint, sentA: seq<Message>, sentB: seq<Message>,
                     gotA: seq<Message>, gotB: seq<Message>, used: seq<(Key, seq<byte>)>)

  datatype NetEvent = SendA(m: Message) | SendB(m: Message) | ToA(payload: seq<byte>) | ToB(payload: seq<byte>)

  function Start(keyAB: Key, keyBA: Key): Net {
    Net(Endpoint(keyAB, keyBA, 0, 0), Endpoint(keyBA, keyAB, 0, 0), [], [], [], [], [])
  }

  function NowUsed(e: Endpoint): seq<(Key, seq<byte>)> {
    if Nonce(e.sendSeq).Some? then [(e.sendKey, Nonce(e.sendSeq).value)] else []
  }

  function Took(got: seq<Message>, r: Received): seq<Message> {
    if r.Got? then got + [r.message] else got
  }

  function NetStep(c: Aead, s: Net, e: NetEvent): Net {
    match e
    case SendA(m) =>
      var (a, wire) := Send(c, s.a, m);
      s.(a := a, used := s.used + NowUsed(s.a), sentA := if a != s.a then s.sentA + [m] else s.sentA)
    case SendB(m) =>
      var (b, wire) := Send(c, s.b, m);
      s.(b := b, used := s.used + NowUsed(s.b), sentB := if b != s.b then s.sentB + [m] else s.sentB)
    case ToA(payload) =>
      var (a, r) := Receive(c, s.a, payload);
      s.(a := a, gotA := Took(s.gotA, r))
    case ToB(payload) =>
      var (b, r) := Receive(c, s.b, payload);
      s.(b := b, gotB := Took(s.gotB, r))
  }

  function NetRun(c: Aead, s: Net, events: seq<NetEvent>): Net {
    if events == [] then s else NetStep(c, NetRun(c, s, events[..|events| - 1]), events[|events| - 1])
  }

  /** Ideal AEAD: a ciphertext opens under a key and nonce only if the peer sealed exactly it,
      with that key and that nonce. */
  ghost predicate NoForgery(c: Aead, key: Key, sent: seq<Message>, payload: seq<byte>) {
    |payload| >= MIN_ENCRYPTED_PAYLOAD_LEN ==>
      var n := Nonce(Unpack(payload[..SEQUENCE_SIZE]));
      n.Some? && c.open(key, n.value, payload[SEQUENCE_SIZE..]).Some? ==>
        exists i :: 0 <= i < |sent| && Nonce(i) == n && payload[SEQUENCE_SIZE..] == c.seal(key, n.value, Inner(sent[i]))
  }

  ghost predicate Unforged(c: Aead, s: Net, e: NetEvent) {
    match e
    case ToA(payload) => NoForgery(c, s.a.recvKey, s.sentB, payload)
    case ToB(payload) => NoForgery(c, s.b.recvKey, s.sentA, payload)
    case SendA(m) => !m.Raw?
    case SendB(m) => !m.Raw?
  }

  ghost predicate UnforgedRun(c: Aead, s: Net, events: seq<NetEvent>) {
    events == [] || (UnforgedRun(c, s, events[..|events| - 1])
                     && Unforged(c, NetRun(c, s, events[..|events| - 1]), events[|events| - 1]))
  }

  ghost predicate Agree(got: seq<Message>, sent: seq<Message>, receiver: Endpoint, sender: Endpoint) {
    && receiver.recvKey == sender.sendKey
    && |got| == receiver.recvSeq && |sent| == sender.sendSeq
    && got <= sent
    && forall i :: 0 <= i < |sent| ==> !sent[i].Raw?
  }

  /** A delivery either leaves everything as it was or accepts exactly the next message sent. */
  lemma DeliveryAcceptsNext(c: Aead, receiver: Endpoint, sender: Endpoint, got: seq<Message>, sent: seq<Message>,
                            payload: seq<byte>)
    requires Correct(c) && Agree(got, sent, receiver, sender) && NoForgery(c, receiver.recvKey, sent, payload)
    ensures var (r', r) := Receive(c, receiver, payload);
            && !r.Empty?
            && (r.Refused? ==> r' == receiver)
            && (r.Got? ==>
                  && |got| < |sent| && r.message == sent[|got|]
                  && r' == receiver.(recvSeq := receiver.recvSeq + 1))
            && Agree(Took(got, r), sent, r', sender)
  {
    if |payload| >= MIN_ENCRYPTED_PAYLOAD_LEN && Unpack(payload[..SEQUENCE_SIZE]) == receiver.recvSeq {
      var n := Nonce(receiver.recvSeq);
      if n.Some? && c.open(receiver.recvKey, n.value, payload[SEQUENCE_SIZE..]).Some? {
        var i :| 0 <= i < |sent| && Nonce(i) == n
          && payload[SEQUENCE_SIZE..] == c.seal(receiver.recvKey, n.value, Inner(sent[i]));
        NonceInjective(receiver.recvSeq, i);
        assert c.open(receiver.recvKey, n.value, payload[SEQUENCE_SIZE..]) == Some(Inner(sent[i]));
        FromInnerOfInner(sent[i]);
      }
    }
  }

  ghost predicate NetInv(s: Net) {
    Agree(s.gotB, s.sentA, s.b, s.a) && Agree(s.gotA, s.sentB, s.a, s.b)
  }

  lemma NetStepKeepsInv(c: Aead, s: Net, e: NetEvent)
    requires Correct(c) && NetInv(s) && Unforged(c, s, e)
    ensures NetInv(NetStep(c, s, e))
  {
    match e
    case SendA(m) =>
    case SendB(m) =>
    case ToA(payload) => DeliveryAcceptsNext(c, s.a, s.b, s.gotA, s.sentB, payload);
    case ToB(payload) => DeliveryAcceptsNext(c, s.b, s.a, s.gotB, s.sentA, payload);
  }

  /** Whatever the network does, what each side has accepted is a prefix of what the other has
      sent, message by message and with the right kinds. */
  lemma {:induction false} AcceptedIsPrefixOfSent(c: Aead, keyAB: Key, keyBA: Key, events: seq<NetEvent>)
    requires Correct(c) && UnforgedRun(c, Start(keyAB, keyBA), events)
    ensures var s := NetRun(c, Start(keyAB, keyBA), events);
            && NetInv(s) && s.gotB <= s.sentA && s.gotA <= s.sentB
            && s.a.sendKey == keyAB && s.b.sendKey == keyBA
    decreases |events|
  {
    if events != [] {
      AcceptedIsPrefixOfSent(c, keyAB, keyBA, events[..|events| - 1]);
      NetStepKeepsInv(c, NetRun(c, Start(keyAB, keyBA), events[..|events| - 1]), events[|events| - 1]);
    }
  }

  // ---- nonce reuse ------------------------------------------------------------

  ghost predicate NoRepeats(used: seq<(Key, seq<byte>)>) {
    forall i, j :: 0 <= i < j < |used| ==> used[i] != used[j]
  }

  ghost predicate SealedBefore(e: Endpoint, u: (Key, seq<byte>)) {
    u.0 == e.sendKey && exists i: nat :: i < e.sendSeq && Nonce(i) == Some(u.1)
  }

  /** The log holds only nonces of counters already passed, under the sender's own key. */
  ghost predicate Covered(e: Endpoint, e': Endpoint, used: seq<(Key, seq<byte>)>) {
    forall i :: 0 <= i < |used| ==> SealedBefore(e, used[i]) || SealedBefore(e', used[i])
  }

  ghost predicate UsedInv(s: Net) {
    Covered(s.a, s.b, s.used) && NoRepeats(s.used)
  }

  lemma PassedNonceDiffers(e: Endpoint, u: (Key, seq<byte>))
    requires SealedBefore(e, u) && Nonce(e.sendSeq).Some?
    ensures u.1 != Nonce(e.sendSeq).value
  {
    var k: nat :| k < e.sendSeq && Nonce(k) == Some(u.1);
    if u.1 == Nonce(e.sendSeq).value { NonceInjective(k, e.sendSeq); }
  }

  lemma StillSealed(e: Endpoint, e': Endpoint, u: (Key, seq<byte>))
    requires SealedBefore(e, u) && e'.sendKey == e.sendKey && e'.sendSeq >= e.sendSeq
    ensures SealedBefore(e', u)
  {
    var k: nat :| k < e.sendSeq && Nonce(k) == Some(u.1);
    assert k < e'.sendSeq;
  }

  /** One side seals once more: the nonce is new, and the log stays covered. */
  lemma SealKeepsUsed(me: Endpoint, me': Endpoint, other: Endpoint, used: seq<(Key, seq<byte>)>)
    requires me.sendKey != other.sendKey && Covered(me, other, used) && NoRepeats(used)
    requires me' == if Nonce(me.sendSeq).Some? then me.(sendSeq := me.sendSeq + 1) else me
    ensures Covered(me', other, used + NowUsed(me)) && NoRepeats(used + NowUsed(me))
  {
    forall i | 0 <= i < |used|
      ensures SealedBefore(me', used[i]) || SealedBefore(other, used[i])
      ensures Nonce(me.sendSeq).Some? ==> used[i] != (me.sendKey, Nonce(me.sendSeq).value)
    {
      if SealedBefore(me, used[i]) {
        StillSealed(me, me', used[i]);
        if Nonce(me.sendSeq).Some? { PassedNonceDiffers(me, used[i]); }
      }
    }
  }

  lemma NetStepKeepsUsed(c: Aead, s: Net, e: NetEvent)
    requires s.a.sendKey != s.b.sendKey && UsedInv(s)
    ensures UsedInv(NetStep(c, s, e))
    ensures NetStep(c, s, e).a.sendKey == s.a.sendKey && NetStep(c, s, e).b.sendKey == s.b.sendKey
  {
    match e
    case SendA(m) => SealKeepsUsed(s.a, Send(c, s.a, m).0, s.b, s.used);
    case SendB(m) => SealKeepsUsed(s.b, Send(c, s.b, m).0, s.a, s.used);
    case ToA(payload) => CoveredIgnoresReceive(s.a, Receive(c, s.a, payload).0, s.b, s.used);
    case ToB(payload) => CoveredIgnoresReceive(s.b, Receive(c, s.b, payload).0, s.a, s.used);
  }

  lemma CoveredIgnoresReceive(me: Endpoint, me': Endpoint, other: Endpoint, used: seq<(Key, seq<byte>)>)
    requires Covered(me, other, used) && me'.sendKey == me.sendKey && me'.sendSeq == me.sendSeq
    ensures Covered(me', other, used)
  {
    forall i | 0 <= i < |used| ensures SealedBefore(me', used[i]) || SealedBefore(other, used[i]) {
      if SealedBefore(me, used[i]) { StillSealed(me, me', used[i]); }
    }
  }

  /** No key and nonce are ever used together twice, in either direction, on any run: exactly
      because the two directions have different keys. */
  lemma {:induction false} NonceNeverReused(c: Aead, keyAB: Key, keyBA: Key, events: seq<NetEvent>)
    requires keyAB != keyBA
    ensures var s := NetRun(c, Start(keyAB, keyBA), events);
            UsedInv(s) && s.a.sendKey == keyAB && s.b.sendKey == keyBA
    decreases |events|
  {
    if events != [] {
      NonceNeverReused(c, keyAB, keyBA, events[..|events| - 1]);
      NetStepKeepsUsed(c, NetRun(c, Start(keyAB, keyBA), events[..|events| - 1]), events[|events| - 1]);
    }
  }

  lemma FirstMessagesCollide(c: Aead, key: Key, m: Message, m': Message)
    ensures !NoRepeats(NetRun(c, Start(key, key), [SendA(m), SendB(m')]).used)
  {
    var e1, e2 := SendA(m), SendB(m');
    var s0 := Start(key, key);
    assert [e1][..0] == [] && [e1, e2][..1] == [e1];
    var s1 := NetStep(c, s0, e1);
    assert NetRun(c, s0, [e1]) == s1 && s1.used == [(key, Nonce(0).value)] && s1.b.sendSeq == 0;
    var used := NetStep(c, s1, e2).used;
    assert used[0] == used[1];
  }

  ghost predicate NeverRepeats(c: Aead, keyAB: Key, keyBA: Key) {
    forall events :: NoRepeats(NetRun(c, Start(keyAB, keyBA), events).used)
  }

  /** With one key for both directions, the first message each way already reuses a nonce; with
      two, nothing ever does. */
  lemma NeverRepeatsIffKeysDiffer(c: Aead, keyAB: Key, keyBA: Key)
    ensures NeverRepeats(c, keyAB, keyBA) <==> keyAB != keyBA
  {
    if keyAB == keyBA {
      FirstMessagesCollide(c, keyAB, Binary([]), Binary([]));
    } else {
      forall events ensures NoRepeats(NetRun(c, Start(keyAB, keyBA), events).used) {
        NonceNeverReused(c, keyAB, keyBA, events);
      }
    }
  }

  // ---- whole streams -------------------------------------------------------------

  /** The frames a sender produces for a list of messages. */
  function WireFrames(c: Aead, e: Endpoint, ms: seq<Message>): seq<Framing.Frame>
    requires e.sendSeq + |ms| <= Pow256(SEQUENCE_SIZE)
    decreases |ms|
  {
    if ms == [] then []
    else
      HeaderFitsNonce();
      var (e', payload) := Send(c, e, ms[0]);
      [Framing.Frame(Framing.Binary, payload.value)] + WireFrames(c, e', ms[1..])
  }

  lemma HeaderFitsNonce()
    ensures Pow256(SEQUENCE_SIZE) <= Pow256(NONCE_LEN)
  {
    Pow256Values();
  }

  /** A receive loop over the frames of one connection; it stops at the first refusal. */
  function Accept(c: Aead, e: Endpoint, frames: seq<Framing.Frame>): seq<Message>
    decreases |frames|
  {
    if frames == [] || frames[0].kind != Framing.Binary then []
    else
      var (e', r) := Receive(c, e, frames[0].payload);
      if r.Got? then [r.message] + Accept(c, e', frames[1..]) else []
  }

  predicate Carriable(m: Message) {
    !m.Raw? && |Inner(m)| + MIN_ENCRYPTED_PAYLOAD_LEN <= Framing.MAX_MESSAGE_SIZE
  }

  /** One message: what _send_encrypted puts on the wire, receive_frame gives back. */
  lemma SentIsReceived(c: Aead, sender: Endpoint, receiver: Endpoint, m: Message)
    requires Correct(c) && receiver.recvKey == sender.sendKey && receiver.recvSeq == sender.sendSeq
    requires sender.sendSeq < Pow256(SEQUENCE_SIZE) && Carriable(m)
    ensures var (sender', payload) := Send(c, sender, m);
            && sender' == sender.(sendSeq := sender.sendSeq + 1)
            && payload.Some? && Framing.Sendable(Framing.Frame(Framing.Binary, payload.value))
            && Receive(c, receiver, payload.value) == (receiver.(recvSeq := receiver.recvSeq + 1), Got(m))
  {
    HeaderFitsNonce();
    var n := sender.sendSeq;
    var header, ct := Pack(SEQUENCE_SIZE, n), c.seal(sender.sendKey, Nonce(n).value, Inner(m));
    var payload := header + ct;
    assert Send(c, sender, m).1 == Some(payload);
    assert |ct| == |Inner(m)| + TAG_LEN && c.open(sender.sendKey, Nonce(n).value, ct) == Some(Inner(m));
    UnpackPack(SEQUENCE_SIZE, n);
    assert payload[..SEQUENCE_SIZE] == header && payload[SEQUENCE_SIZE..] == ct;
    FromInnerOfInner(m);
  }

  lemma AcceptCons(c: Aead, e: Endpoint, e': Endpoint, f: Framing.Frame, m: Message, rest: seq<Framing.Frame>)
    requires f.kind == Framing.Binary && Receive(c, e, f.payload) == (e', Got(m))
    ensures Accept(c, e, [f] + rest) == [m] + Accept(c, e', rest)
  {
    assert ([f] + rest)[1..] == rest;
  }

  lemma {:induction false} WireFramesAreAccepted(c: Aead, sender: Endpoint, receiver: Endpoint, ms: seq<Message>)
    requires Correct(c) && receiver.recvKey == sender.sendKey && receiver.recvSeq == sender.sendSeq
    requires sender.sendSeq + |ms| <= Pow256(SEQUENCE_SIZE) && forall i :: 0 <= i < |ms| ==> Carriable(ms[i])
    ensures Framing.AllSendable(WireFrames(c, sender, ms)) && Accept(c, receiver, WireFrames(c, sender, ms)) == ms
    decreases |ms|
  {
    if ms != [] {
      SentIsReceived(c, sender, receiver, ms[0]);
      var sender', receiver' := Send(c, sender, ms[0]).0, receiver.(recvSeq := receiver.recvSeq + 1);
      WireFramesAreAccepted(c, sender', receiver', ms[1..]);
      var f, rest := Framing.Frame(Framing.Binary, Send(c, sender, ms[0]).1.value), WireFrames(c, sender', ms[1..]);
      assert WireFrames(c, sender, ms) == [f] + rest;
      AcceptCons(c, receiver, receiver', f, ms[0], rest);
      assert ms == [ms[0]] + ms[1..];
    }
  }

  /** What the sender wrote, encrypted, framed and concatenated, comes out of the receiver as
      the same messages with the same kinds. */
  lemma SecureStreamRoundTrip(c: Aead, sender: Endpoint, receiver: Endpoint, ms: seq<Message>)
    requires Correct(c) && receiver.recvKey == sender.sendKey && receiver.recvSeq == sender.sendSeq
    requires sender.sendSeq + |ms| <= Pow256(SEQUENCE_SIZE) && forall i :: 0 <= i < |ms| ==> Carriable(ms[i])
    ensures var frames := WireFrames(c, sender, ms);
            Framing.AllSendable(frames)
              && Accept(c, receiver, Framing.ReadingOf(Framing.EncodeAll(frames)).frames) == ms
  {
    WireFramesAreAccepted(c, sender, receiver, ms);
    Framing.RoundTrip(WireFrames(c, sender, ms));
  }

  /** Cut off anywhere, the stream yields a prefix of the messages. */
  lemma TruncatedStreamIsPrefix(c: Aead, sender: Endpoint, receiver: Endpoint, ms: seq<Message>, received: seq<byte>)
    requires Correct(c) && receiver.recvKey == sender.sendKey && receiver.recvSeq == sender.sendSeq
    requires sender.sendSeq + |ms| <= Pow256(SEQUENCE_SIZE) && forall i :: 0 <= i < |ms| ==> Carriable(ms[i])
    requires var frames := WireFrames(c, sender, ms);
             Framing.AllSendable(frames) && received <= Framing.EncodeAll(frames)
    ensures Accept(c, receiver, Framing.ReadingOf(received).frames) <= ms
  {
    var frames := WireFrames(c, sender, ms);
    WireFramesAreAccepted(c, sender, receiver, ms);
    Framing.PrefixDecodesToPrefix(frames, received);
    AcceptIsMonotone(c, receiver, Framing.ReadingOf(received).frames, frames);
  }

  lemma {:induction false} AcceptIsMonotone(c: Aead, e: Endpoint, fs: seq<Framing.Frame>, gs: seq<Framing.Frame>)
    requires fs <= gs
    ensures Accept(c, e, fs) <= Accept(c, e, gs)
    decreases |fs|
  {
    if fs != [] && fs[0].kind == Framing.Binary {
      assert fs[0] == gs[0];
      AcceptIsMonotone(c, Receive(c, e, fs[0].payload).0, fs[1..], gs[1..]);
    }
  }

  function FileMessage(tid: seq<byte>, c: Chunker.Chunk): Message {
    var p := Chunker.EncodeFileData(Chunker.FileData(tid, c.index, c.offset, c.data));
    Binary(if p.Some? then p.value else [])
  }

  function FileMessages(tid: seq<byte>, chunks: seq<Chunker.Chunk>): seq<Message> {
    seq(|chunks|, i requires 0 <= i < |chunks| => FileMessage(tid, chunks[i]))
  }

  /** A whole acceptable file, streamed from any aligned offset through file header, marker,
      encryption and framing, is decoded as exactly read_chunks' chunks, whose data together
      are the rest of the file. */
  lemma FileSurvivesTheStack(c: Aead, sender: Endpoint, receiver: Endpoint, tid: seq<byte>, src: seq<byte>, pos: nat)
    requires Correct(c) && receiver.recvKey == sender.sendKey && receiver.recvSeq == sender.sendSeq
    requires |tid| == 16 && |src| <= Chunker.MAX_INCOMING_FILE_SIZE && pos <= |src| && pos % Chunker.CHUNK_SIZE == 0
    requires sender.sendSeq + |Chunker.ChunkList(src, pos, pos / Chunker.CHUNK_SIZE,
                                                 Chunker.CHUNK_SIZE)| <= Pow256(SEQUENCE_SIZE)
    ensures var chunks := Chunker.ChunkList(src, pos, pos / Chunker.CHUNK_SIZE, Chunker.CHUNK_SIZE);
            var frames := WireFrames(c, sender, FileMessages(tid, chunks));
            && Framing.AllSendable(frames)
            && var received := Accept(c, receiver, Framing.ReadingOf(Framing.EncodeAll(frames)).frames);
            && |received| == |chunks|
            && (forall i :: 0 <= i < |chunks| ==>
                  && received[i].Binary?
                  && Chunker.DecodeFileData(received[i].payload) ==
                     Some(Chunker.FileData(tid, chunks[i].index, chunks[i].offset, chunks[i].data)))
            && Flatten(Chunker.Payloads(chunks)) == src[pos..]
  {
    var chunks := Chunker.ChunkList(src, pos, pos / Chunker.CHUNK_SIZE, Chunker.CHUNK_SIZE);
    var ms := FileMessages(tid, chunks);
    forall i | 0 <= i < |chunks|
      ensures Carriable(ms[i])
      ensures Chunker.DecodeFileData(ms[i].payload)
           == Some(Chunker.FileData(tid, chunks[i].index, chunks[i].offset, chunks[i].data))
    {
      Chunker.ChunkFitsWire(tid, src, pos, i);
    }
    SecureStreamRoundTrip(c, sender, receiver, ms);
    Chunker.ChunksReassemble(src, pos, pos / Chunker.CHUNK_SIZE, Chunker.CHUNK_SIZE);
  }
}
