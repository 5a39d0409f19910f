/** The relay tunnel: A's bytes travel as opaque chunks over A's session with the relay R,
    through a pipe at R, and over R's session with B, where they feed B's stream reader. */
module Relay {
  import opened Bytes
  import Framing
  import Secure

  type Addr = string

  /** What became of a chunk handed to a session. Any failure drops the session, but the
      chunk may or may not have left before it. */
  datatype Outcome = Sent | Lost | SentThenFailed

  // ---- R's routing tables ---------------------------------------------------------

  /** `connections` are the established sessions, `sent` the relay chunks put on each. */
  datatype Router = Router(connections: set<Addr>, pipes: map<Addr, Addr>,
                           tunnels: map<Addr, seq<byte>>, sent: map<Addr, seq<seq<byte>>>)

  function SentTo(r: Router, x: Addr): seq<seq<byte>> {
    if x in r.sent then r.sent[x] else []
  }

  function OpenPipe(pipes: map<Addr, Addr>, x: Addr, y: Addr): map<Addr, Addr> {
    pipes[x := y][y := x]
  }

  function ClosePipe(pipes: map<Addr, Addr>, x: Addr): map<Addr, Addr> {
    if x in pipes then pipes - {x, pipes[x]} else pipes
  }

  function SendRelay(r: Router, x: Addr, payload: seq<byte>, o: Outcome): Router {
    if x !in r.connections then r
    else
      var kept := if o == Sent then r.connections else r.connections - {x};
      var sent := if o == Lost then r.sent else r.sent[x := SentTo(r, x) + [payload]];
      r.(connections := kept, sent := sent)
  }

  /** The read loop of a session ends: its pipe is torn down on both sides. */
  function SessionEnds(r: Router, x: Addr): Router {
    r.(connections := r.connections - {x}, pipes := ClosePipe(r.pipes, x), tunnels := r.tunnels - {x})
  }

  /** A relay chunk arrives on the session at x. A session no longer established is dropped
      instead; with no pipe and no tunnel the chunk starts a tunnel of R's own. */
  function OnRelay(r: Router, limit: nat, x: Addr, payload: seq<byte>, o: Outcome): Router {
    if x !in r.connections then SessionEnds(r, x)
    else if x in r.pipes then SendRelay(r, r.pipes[x], payload, o)
    else if x in r.tunnels then r.(tunnels := r.tunnels[x := r.tunnels[x] + payload])
    else if |r.connections| < limit then r.(tunnels := r.tunnels[x := payload])
    else r
  }

  /** Both ends of every pipe name each other. */
  predicate Symmetric(pipes: map<Addr, Addr>) {
    forall x :: x in pipes ==> pipes[x] in pipes && pipes[pipes[x]] == x
  }

  /** Opening a pipe over an end that is paired with a third party leaves that party's entry
      behind; otherwise, and only otherwise, the table stays symmetric. */
  lemma OpenKeepsSymmetryIff(pipes: map<Addr, Addr>, x: Addr, y: Addr)
    requires Symmetric(pipes)
    ensures Symmetric(OpenPipe(pipes, x, y)) <==> NoThirdParty(pipes, x, y)
  {
    var p := OpenPipe(pipes, x, y);
    if !NoThirdParty(pipes, x, y) {
      var z := if x in pipes && pipes[x] != x && pipes[x] != y then pipes[x] else pipes[y];
      assert z in p && p[z] == pipes[z] && p[p[z]] != z;
    }
  }

  predicate NoThirdParty(pipes: map<Addr, Addr>, x: Addr, y: Addr) {
    && (x in pipes ==> pipes[x] == x || pipes[x] == y)
    && (y in pipes ==> pipes[y] == x || pipes[y] == y)
  }

  lemma CloseKeepsSymmetry(pipes: map<Addr, Addr>, x: Addr)
    requires Symmetric(pipes)
    ensures Symmetric(ClosePipe(pipes, x)) && x !in ClosePipe(pipes, x)
  {
    if x in pipes {
      var p := ClosePipe(pipes, x);
      forall z | z in p ensures p[z] in p && p[p[z]] == z {
        assert pipes[pipes[z]] == z;
      }
    }
  }

  /** The part of ConnectionManager that routes relay chunks. */
  class ConnectionManager {
    const maxConnections: nat
    var connections: set<Addr>
    var relayPipes: map<Addr, Addr>
    var relayTunnels: map<Addr, seq<byte>>
    var sent: map<Addr, seq<seq<byte>>>

    constructor (maxConnections: nat)
      ensures View() == Router({}, map[], map[], map[]) && this.maxConnections == maxConnections
    {
      this.maxConnections := maxConnections;
      connections, relayPipes, relayTunnels, sent := {}, map[], map[], map[];
    }

    ghost function View(): Router
      reads this
    {
      Router(connections, relayPipes, relayTunnels, sent)
    }

    method OpenRelayPipe(x: Addr, y: Addr)
      modifies this`relayPipes
      ensures View() == old(View()).(pipes := OpenPipe(old(relayPipes), x, y))
      ensures relayPipes[x] == y && relayPipes[y] == x
    {
      relayPipes := relayPipes[x := y];
      relayPipes := relayPipes[y := x];
    }

    method CloseRelayPipe(x: Addr)
      modifies this`relayPipes
      ensures View() == old(View()).(pipes := ClosePipe(old(relayPipes), x))
    {
      if x in relayPipes {
        var paired := relayPipes[x];
        relayPipes := relayPipes - {x};
        relayPipes := relayPipes - {paired};
        assert relayPipes == old(relayPipes) - {x, paired};
      }
    }

    method SendRelayData(x: Addr, payload: seq<byte>, o: Outcome) returns (ok: bool)
      modifies this`connections, this`sent
      ensures View() == SendRelay(old(View()), x, payload, o)
      ensures ok <==> x in old(connections) && o == Sent
    {
      if x !in connections {
        return false;
      }
      if o != Lost {
        sent := sent[x := (if x in sent then sent[x] else []) + [payload]];
      }
      if o != Sent {
        connections := connections - {x};
        return false;
      }
      return true;
    }

    method EndSession(x: Addr)
      modifies this
      ensures View() == SessionEnds(old(View()), x)
    {
      connections := connections - {x};
      CloseRelayPipe(x);
      relayTunnels := relayTunnels - {x};
    }

    method OnRelayChunk(x: Addr, payload: seq<byte>, o: Outcome)
      modifies this
      ensures View() == OnRelay(old(View()), maxConnections, x, payload, o)
    {
      if x !in connections {
        EndSession(x);
      } else if x in relayPipes {
        var _ := SendRelayData(relayPipes[x], payload, o);
      } else if x in relayTunnels {
        relayTunnels := relayTunnels[x := relayTunnels[x] + payload];
      } else if |connections| < maxConnections {
        relayTunnels := relayTunnels[x := payload];
      }
    }
  }

  // ---- A's writer ---------------------------------------------------------------------

  /** RelayedStreamWriter over A's session with R; `up` while that session is registered. */
  datatype Writer = Writer(pending: seq<byte>, closed: bool, up: bool, sent: seq<seq<byte>>)

  function WriteTo(w: Writer, data: seq<byte>): Writer {
    if w.closed then w else w.(pending := w.pending + data)
  }

  function DrainTo(w: Writer, o: Outcome): Writer {
    if w.closed || w.pending == [] then w
    else if !w.up then w.(pending := [])
    else w.(pending := [], up := o == Sent, sent := if o == Lost then w.sent else w.sent + [w.pending])
  }

  class RelayedStreamWriter {
    var pending: seq<byte>
    var closed: bool
    var up: bool
    var sent: seq<seq<byte>>

    constructor ()
      ensures View() == Writer([], false, true, [])
    {
      pending, closed, up, sent := [], false, true, [];
    }

    ghost function View(): Writer
      reads this
    {
      Writer(pending, closed, up, sent)
    }

    method Write(data: seq<byte>)
      modifies this`pending
      ensures View() == WriteTo(old(View()), data)
    {
      if closed || data == [] {
        return;
      }
      pending := pending + data;
    }

    /** All pending bytes leave as one chunk, or are dropped when the session is gone. */
    method Drain(o: Outcome)
      modifies this`pending, this`up, this`sent
      ensures View() == DrainTo(old(View()), o)
    {
      if closed || pending == [] {
        return;
      }
      var chunk := pending;
      pending := [];
      if up {
        if o != Lost {
          sent := sent + [chunk];
        }
        if o != Sent {
          up := false;
        }
      }
    }

    method Close()
      modifies this`closed
      ensures View() == old(View()).(closed := true)
    {
      closed := true;
    }
  }

  // ---- one tunnel from A to B through R -------------------------------------------------

  /** B's reader: what was read from it, what it still buffers, and whether chunks reach it. */
  datatype Reader = Reader(read: seq<byte>, buffer: seq<byte>, attached: bool)

  /** `wrote` is every byte ever given to A's writer; `atR` and `atB` count the chunks of A's
      and of R's session that have arrived. */
  datatype Tunnel = Tunnel(w: Writer, wrote: seq<byte>, atR: nat, r: Router, atB: nat, b: Reader)

  datatype Event =
    | Write(data: seq<byte>) | Drain(o: Outcome) | CloseWriter | SessionWithRFails
    | ArriveAtR(o: Outcome)
    | OtherChunkAtR(x: Addr, payload: seq<byte>, o: Outcome)
    | ROpens(x: Addr, y: Addr) | RCloses(x: Addr) | REnds(x: Addr) | RSendFails(x: Addr) | RConnects(x: Addr)
    | ArriveAtB | Detach | Read(n: nat)

  datatype Ends = Ends(a: Addr, b: Addr, limit: nat)

  /** readexactly at a moment when it can finish; after EOF a short buffer is handed out whole. */
  function ReadFrom(b: Reader, n: nat): Reader {
    if n <= |b.buffer| then b.(read := b.read + b.buffer[..n], buffer := b.buffer[n..])
    else if b.attached then b
    else b.(read := b.read + b.buffer, buffer := [])
  }

  function Step(k: Ends, s: Tunnel, e: Event): Tunnel {
    match e
    case Write(data) => s.(w := WriteTo(s.w, data), wrote := s.wrote + data)
    case Drain(o) => s.(w := DrainTo(s.w, o))
    case CloseWriter => s.(w := s.w.(closed := true))
    case SessionWithRFails => s.(w := s.w.(up := false))
    case ArriveAtR(o) =>
      if s.atR < |s.w.sent| then s.(atR := s.atR + 1, r := OnRelay(s.r, k.limit, k.a, s.w.sent[s.atR], o)) else s
    case OtherChunkAtR(x, payload, o) => s.(r := OnRelay(s.r, k.limit, x, payload, o))
    case ROpens(x, y) => s.(r := s.r.(pipes := OpenPipe(s.r.pipes, x, y)))
    case RCloses(x) => s.(r := s.r.(pipes := ClosePipe(s.r.pipes, x)))
    case REnds(x) => s.(r := SessionEnds(s.r, x))
    case RSendFails(x) => s.(r := s.r.(connections := s.r.connections - {x}))
    case RConnects(x) => s.(r := s.r.(connections := s.r.connections + {x}))
    case ArriveAtB =>
      if s.atB < |SentTo(s.r, k.b)| then
        s.(atB := s.atB + 1, b := if s.b.attached then s.b.(buffer := s.b.buffer + SentTo(s.r, k.b)[s.atB]) else s.b)
      else s
    case Detach => s.(b := s.b.(attached := false))
    case Read(n) => s.(b := ReadFrom(s.b, n))
  }

  function Run(k: Ends, s: Tunnel, events: seq<Event>): Tunnel {
    if events == [] then s else Step(k, Run(k, s, events[..|events| - 1]), events[|events| - 1])
  }

  /** One tunnel's life: neither end's address is registered or piped again, and other pipes
      are opened only over free ends. Everything else may happen at any time. */
  predicate Allowed(k: Ends, s: Tunnel, e: Event) {
    match e
    case OtherChunkAtR(x, _, _) => x != k.a
    case ROpens(x, y) => {x, y} !! {k.a, k.b} && NoThirdParty(s.r.pipes, x, y)
    case RConnects(x) => x != k.a && x != k.b
    case _ => true
  }

  predicate AllowedRun(k: Ends, s: Tunnel, events: seq<Event>) {
    events == [] || (AllowedRun(k, s, events[..|events| - 1])
                     && Allowed(k, Run(k, s, events[..|events| - 1]), events[|events| - 1]))
  }

  /** The tunnel just opened, whatever else R is doing. */
  predicate Fresh(k: Ends, s: Tunnel) {
    && k.a != k.b && s.w == Writer([], false, true, []) && s.wrote == [] && s.atR == 0
    && s.atB == |SentTo(s.r, k.b)| && s.b == Reader([], [], true)
    && Symmetric(s.r.pipes) && k.a in s.r.pipes && s.r.pipes[k.a] == k.b
  }

  // ---- the FIFO invariant ------------------------------------------------------------------

  predicate Forwarding(k: Ends, r: Router) {
    k.a in r.connections && k.b in r.connections && k.a in r.pipes && r.pipes[k.a] == k.b
  }

  predicate OnlyFromA(k: Ends, r: Router) {
    Symmetric(r.pipes) && (k.b in r.pipes ==> r.pipes[k.b] == k.a)
  }

  function Got(s: Tunnel): seq<byte> { s.b.read + s.b.buffer }

  function OnWireToB(k: Ends, s: Tunnel): seq<byte>
    requires s.atB <= |SentTo(s.r, k.b)|
  {
    Flatten(SentTo(s.r, k.b)[s.atB..])
  }

  function OnWireToR(s: Tunnel): seq<byte>
    requires s.atR <= |s.w.sent|
  {
    Flatten(s.w.sent[s.atR..])
  }

  /** How the bytes at each place line up with what A wrote, given which links still work. */
  predicate Lined(got: seq<byte>, toB: seq<byte>, toR: seq<byte>, pending: seq<byte>, wrote: seq<byte>,
                  attached: bool, forwarding: bool, writing: bool) {
    && got <= wrote
    && (attached ==> got + toB <= wrote)
    && (attached && forwarding ==> got + toB + toR <= wrote)
    && (attached && forwarding && writing ==> got + toB + toR + pending == wrote)
  }

  ghost predicate Inv(k: Ends, s: Tunnel) {
    && k.a != k.b && OnlyFromA(k, s.r)
    && s.atR <= |s.w.sent| && s.atB <= |SentTo(s.r, k.b)|
    && Lined(Got(s), OnWireToB(k, s), OnWireToR(s), s.w.pending, s.wrote,
             s.b.attached, Forwarding(k, s.r), s.w.up && !s.w.closed)
  }

  lemma WriteKeepsInv(k: Ends, s: Tunnel, data: seq<byte>)
    requires Inv(k, s)
    ensures Inv(k, Step(k, s, Write(data)))
  {
    var got, toB, toR := Got(s), OnWireToB(k, s), OnWireToR(s);
    assert got + toB + toR + (s.w.pending + data) == got + toB + toR + s.w.pending + data;
  }

  lemma LinedDrains(got: seq<byte>, toB: seq<byte>, toR: seq<byte>, pending: seq<byte>, wrote: seq<byte>,
                    attached: bool, forwarding: bool, writing: bool)
    requires Lined(got, toB, toR, pending, wrote, attached, forwarding, true)
    ensures Lined(got, toB, toR + pending, [], wrote, attached, forwarding, writing)
  {
    assert got + toB + (toR + pending) == got + toB + toR + pending;
    assert got + toB + (toR + pending) + [] == got + toB + (toR + pending);
  }

  lemma DrainKeepsInv(k: Ends, s: Tunnel, o: Outcome)
    requires Inv(k, s)
    ensures Inv(k, Step(k, s, Drain(o)))
  {
    var w := DrainTo(s.w, o);
    if !s.w.closed && s.w.pending != [] && s.w.up && o != Lost {
      assert w.sent[s.atR..] == s.w.sent[s.atR..] + [s.w.pending];
      FlattenSnoc(s.w.sent[s.atR..], s.w.pending);
      LinedDrains(Got(s), OnWireToB(k, s), OnWireToR(s), s.w.pending, s.wrote,
                  s.b.attached, Forwarding(k, s.r), w.up && !w.closed);
    } else {
      assert w.sent == s.w.sent;
    }
  }

  lemma ASideKeepsInv(k: Ends, s: Tunnel, e: Event)
    requires Inv(k, s) && (e.Write? || e.Drain? || e.CloseWriter? || e.SessionWithRFails?)
    ensures Inv(k, Step(k, s, e))
  {
    match e {
      case Write(data) => WriteKeepsInv(k, s, data);
      case Drain(o) => DrainKeepsInv(k, s, o);
      case CloseWriter =>
      case SessionWithRFails =>
    }
  }

  lemma BSideKeepsInv(k: Ends, s: Tunnel, e: Event)
    requires Inv(k, s) && (e.ArriveAtB? || e.Detach? || e.Read?)
    ensures Inv(k, Step(k, s, e))
  {
    var s' := Step(k, s, e);
    if e.ArriveAtB? {
      if s.atB < |SentTo(s.r, k.b)| {
        var chunk := SentTo(s.r, k.b)[s.atB];
        assert SentTo(s.r, k.b)[s.atB..] == [chunk] + SentTo(s.r, k.b)[s.atB + 1..];
        assert OnWireToB(k, s) == chunk + OnWireToB(k, s');
        if s.b.attached { assert Got(s') == Got(s) + chunk; }
      }
    } else {
      assert Got(s') == Got(s);
    }
  }

  /** Anything R does that puts nothing on B's session only ever breaks links. */
  lemma QuietAtRKeepsInv(k: Ends, s: Tunnel, r': Router)
    requires Inv(k, s) && OnlyFromA(k, r') && SentTo(r', k.b) == SentTo(s.r, k.b)
    requires Forwarding(k, r') ==> Forwarding(k, s.r)
    ensures Inv(k, s.(r := r'))
  {
  }

  lemma RouterKeepsOnlyFromA(k: Ends, r: Router, x: Addr, payload: seq<byte>, o: Outcome)
    requires OnlyFromA(k, r)
    ensures OnlyFromA(k, OnRelay(r, k.limit, x, payload, o)) && OnlyFromA(k, SessionEnds(r, x))
    ensures OnlyFromA(k, r.(pipes := ClosePipe(r.pipes, x)))
  {
    CloseKeepsSymmetry(r.pipes, x);
  }

  lemma OtherAtRKeepsInv(k: Ends, s: Tunnel, e: Event)
    requires Inv(k, s) && Allowed(k, s, e)
    requires e.OtherChunkAtR? || e.ROpens? || e.RCloses? || e.REnds? || e.RSendFails? || e.RConnects?
    ensures Inv(k, Step(k, s, e))
  {
    var s' := Step(k, s, e);
    match e
    case OtherChunkAtR(x, payload, o) =>
      RouterKeepsOnlyFromA(k, s.r, x, payload, o);
      assert x in s.r.pipes ==> s.r.pipes[x] != k.b;
      QuietAtRKeepsInv(k, s, s'.r);
    case ROpens(x, y) =>
      OpenKeepsSymmetryIff(s.r.pipes, x, y);
      QuietAtRKeepsInv(k, s, s'.r);
    case RCloses(x) => RouterKeepsOnlyFromA(k, s.r, x, [], Sent); QuietAtRKeepsInv(k, s, s'.r);
    case REnds(x) => RouterKeepsOnlyFromA(k, s.r, x, [], Sent); QuietAtRKeepsInv(k, s, s'.r);
    case RSendFails(x) => QuietAtRKeepsInv(k, s, s'.r);
    case RConnects(x) => QuietAtRKeepsInv(k, s, s'.r);
  }

  lemma RouterForwards(k: Ends, r: Router, chunk: seq<byte>, o: Outcome)
    requires k.a != k.b
    ensures var r' := OnRelay(r, k.limit, k.a, chunk, o);
            if Forwarding(k, r) && o != Lost then SentTo(r', k.b) == SentTo(r, k.b) + [chunk]
            else SentTo(r', k.b) == SentTo(r, k.b) && !Forwarding(k, r')
    ensures Forwarding(k, OnRelay(r, k.limit, k.a, chunk, o)) ==> Forwarding(k, r)
  {
  }

  /** A chunk moves from one wire to the next, or is lost and breaks the chain. */
  lemma LinedAdvances(got: seq<byte>, toB: seq<byte>, chunk: seq<byte>, toR: seq<byte>, pending: seq<byte>,
                      wrote: seq<byte>, attached: bool, forwarding: bool, writing: bool)
    requires Lined(got, toB, chunk + toR, pending, wrote, attached, true, writing)
    ensures Lined(got, toB + chunk, toR, pending, wrote, attached, forwarding, writing)
  {
    assert got + (toB + chunk) + toR == got + toB + (chunk + toR);
    assert got + (toB + chunk) <= got + toB + (chunk + toR);
  }

  lemma ForwardKeepsInv(k: Ends, s: Tunnel, o: Outcome)
    requires Inv(k, s) && s.atR < |s.w.sent|
    ensures Inv(k, Step(k, s, ArriveAtR(o)))
  {
    var s' := Step(k, s, ArriveAtR(o));
    var chunk := s.w.sent[s.atR];
    RouterKeepsOnlyFromA(k, s.r, k.a, chunk, o);
    RouterForwards(k, s.r, chunk, o);
    assert s.w.sent[s.atR..] == [chunk] + s.w.sent[s.atR + 1..];
    assert OnWireToR(s) == chunk + OnWireToR(s');
    if Forwarding(k, s.r) && o != Lost {
      assert SentTo(s'.r, k.b)[s.atB..] == SentTo(s.r, k.b)[s.atB..] + [chunk];
      FlattenSnoc(SentTo(s.r, k.b)[s.atB..], chunk);
      LinedAdvances(Got(s), OnWireToB(k, s), chunk, OnWireToR(s'), s.w.pending, s.wrote,
                    s.b.attached, Forwarding(k, s'.r), s.w.up && !s.w.closed);
    }
  }

  lemma StepKeepsInv(k: Ends, s: Tunnel, e: Event)
    requires Inv(k, s) && Allowed(k, s, e)
    ensures Inv(k, Step(k, s, e))
  {
    if e.Write? || e.Drain? || e.CloseWriter? || e.SessionWithRFails? {
      ASideKeepsInv(k, s, e);
    } else if e.ArriveAtB? || e.Detach? || e.Read? {
      BSideKeepsInv(k, s, e);
    } else if e.ArriveAtR? {
      if s.atR < |s.w.sent| { ForwardKeepsInv(k, s, e.o); }
    } else {
      OtherAtRKeepsInv(k, s, e);
    }
  }

  predicate Unbroken(k: Ends, s: Tunnel) {
    s.w.up && !s.w.closed && Forwarding(k, s.r) && s.b.attached
  }

  predicate Idle(k: Ends, s: Tunnel) {
    s.w.pending == [] && s.atR == |s.w.sent| && s.atB == |SentTo(s.r, k.b)|
  }

  /** Over every interleaving of writes, drains, forwards, failures, cross traffic and EOF in
      one tunnel's life, B has read a prefix of what A wrote; and while no link has failed and
      nothing is in transit, B has all of it. */
  lemma {:induction false} TunnelIsFifo(k: Ends, s: Tunnel, events: seq<Event>)
    requires Fresh(k, s) && AllowedRun(k, s, events)
    ensures var t := Run(k, s, events);
            && Inv(k, t) && t.b.read <= t.wrote
            && (Unbroken(k, t) && Idle(k, t) ==> Got(t) == t.wrote)
    decreases |events|
  {
    if events == [] {
      assert s.r.pipes[s.r.pipes[k.a]] == k.a;
    } else {
      TunnelIsFifo(k, s, events[..|events| - 1]);
      StepKeepsInv(k, Run(k, s, events[..|events| - 1]), events[|events| - 1]);
    }
  }

  /** Closing is for good: whatever is written or drained afterwards, nothing more leaves. */
  lemma {:induction false} ClosedWriterIsSilent(k: Ends, s: Tunnel, events: seq<Event>)
    requires s.w.closed
    ensures Run(k, s, events).w.closed && Run(k, s, events).w.sent == s.w.sent
    ensures Run(k, s, events).w.pending == s.w.pending
    decreases |events|
  {
    if events != [] {
      ClosedWriterIsSilent(k, s, events[..|events| - 1]);
    }
  }

  /** So the frames B decodes are a prefix of those A sent. */
  lemma TunnelFramesArePrefix(k: Ends, s: Tunnel, events: seq<Event>, frames: seq<Framing.Frame>)
    requires Fresh(k, s) && AllowedRun(k, s, events) && Framing.AllSendable(frames)
    requires Run(k, s, events).wrote <= Framing.EncodeAll(frames)
    ensures Framing.ReadingOf(Run(k, s, events).b.read).frames <= frames
  {
    TunnelIsFifo(k, s, events);
    Framing.PrefixDecodesToPrefix(frames, Run(k, s, events).b.read);
  }

  /** And the messages of the secure session nested in the tunnel are a prefix too. */
  lemma NestedSessionIsPrefix(k: Ends, s: Tunnel, events: seq<Event>, c: Secure.Aead,
                              sender: Secure.Endpoint, receiver: Secure.Endpoint, ms: seq<Secure.Message>)
    requires Fresh(k, s) && AllowedRun(k, s, events) && Secure.Correct(c)
    requires receiver.recvKey == sender.sendKey && receiver.recvSeq == sender.sendSeq
    requires sender.sendSeq + |ms| <= Pow256(Secure.SEQUENCE_SIZE)
    requires forall i :: 0 <= i < |ms| ==> Secure.Carriable(ms[i])
    requires var frames := Secure.WireFrames(c, sender, ms);
             Framing.AllSendable(frames) && Run(k, s, events).wrote <= Framing.EncodeAll(frames)
    ensures Secure.Accept(c, receiver, Framing.ReadingOf(Run(k, s, events).b.read).frames) <= ms
  {
    TunnelIsFifo(k, s, events);
    Secure.TruncatedStreamIsPrefix(c, sender, receiver, ms, Run(k, s, events).b.read);
  }

  // ---- when a tunnel that is up is a FIFO -----------------------------------------------

  predicate Counted(k: Ends, s: Tunnel) {
    s.atR <= |s.w.sent| && s.atB <= |SentTo(s.r, k.b)|
  }

  /** What is with B or on its way there, in order. */
  function Held(k: Ends, s: Tunnel): seq<byte>
    requires Counted(k, s)
  {
    Got(s) + OnWireToB(k, s) + OnWireToR(s) + s.w.pending
  }

  /** Every byte written is with B or on its way there. */
  predicate NothingLost(k: Ends, s: Tunnel)
    requires Counted(k, s)
  {
    Held(k, s) == s.wrote
  }

  /** All links work and nobody else is piped to B; how things came to this is left open. */
  predicate Up(k: Ends, s: Tunnel) {
    k.a != k.b && OnlyFromA(k, s.r) && Unbroken(k, s) && Counted(k, s)
  }

  ghost predicate FifoFrom(k: Ends, s: Tunnel) {
    forall events :: AllowedRun(k, s, events) ==> Run(k, s, events).b.read <= Run(k, s, events).wrote
  }

  lemma {:induction false} RunKeepsInv(k: Ends, s: Tunnel, events: seq<Event>)
    requires Inv(k, s) && AllowedRun(k, s, events)
    ensures Inv(k, Run(k, s, events))
    decreases |events|
  {
    if events != [] {
      RunKeepsInv(k, s, events[..|events| - 1]);
      StepKeepsInv(k, Run(k, s, events[..|events| - 1]), events[|events| - 1]);
    }
  }

  ghost predicate Reaches(k: Ends, s: Tunnel, t: Tunnel) {
    exists events :: AllowedRun(k, s, events) && Run(k, s, events) == t
  }

  lemma ReachesOn(k: Ends, s: Tunnel, t: Tunnel, e: Event, t': Tunnel)
    requires Reaches(k, s, t) && Allowed(k, t, e) && Step(k, t, e) == t'
    ensures Reaches(k, s, t')
  {
    var events :| AllowedRun(k, s, events) && Run(k, s, events) == t;
    assert (events + [e])[..|events|] == events;
    assert AllowedRun(k, s, events + [e]) && Run(k, s, events + [e]) == t';
  }

  lemma ReachesSelf(k: Ends, s: Tunnel)
    ensures Reaches(k, s, s)
  {
    assert AllowedRun(k, s, []) && Run(k, s, []) == s;
  }

  /** The links work, nothing is pending, and x is all that B has or will get. */
  predicate Carries(k: Ends, t: Tunnel, x: seq<byte>) {
    Up(k, t) && t.w.pending == [] && Got(t) + OnWireToB(k, t) + OnWireToR(t) == x
  }

  lemma ForwardOne(k: Ends, t: Tunnel)
    requires Up(k, t) && t.atR < |t.w.sent|
    ensures var t' := Step(k, t, ArriveAtR(Sent));
            && Up(k, t') && t'.wrote == t.wrote && t'.w == t.w && t'.atR == t.atR + 1
            && Got(t') + OnWireToB(k, t') + OnWireToR(t') == Got(t) + OnWireToB(k, t) + OnWireToR(t)
  {
    var t' := Step(k, t, ArriveAtR(Sent));
    var chunk := t.w.sent[t.atR];
    RouterForwards(k, t.r, chunk, Sent);
    assert t.w.sent[t.atR..] == [chunk] + t.w.sent[t.atR + 1..];
    assert SentTo(t'.r, k.b)[t.atB..] == SentTo(t.r, k.b)[t.atB..] + [chunk];
    FlattenSnoc(SentTo(t.r, k.b)[t.atB..], chunk);
    assert Got(t) + (OnWireToB(k, t) + chunk) + OnWireToR(t') == Got(t) + OnWireToB(k, t) + (chunk + OnWireToR(t'));
  }

  lemma ReceiveOne(k: Ends, t: Tunnel)
    requires Up(k, t) && t.atB < |SentTo(t.r, k.b)|
    ensures var t' := Step(k, t, ArriveAtB);
            && Up(k, t') && t'.wrote == t.wrote && t'.w == t.w && t'.atR == t.atR && t'.r == t.r && t'.atB == t.atB + 1
            && Got(t') + OnWireToB(k, t') + OnWireToR(t') == Got(t) + OnWireToB(k, t) + OnWireToR(t)
  {
    var t' := Step(k, t, ArriveAtB);
    var chunk := SentTo(t.r, k.b)[t.atB];
    assert SentTo(t.r, k.b)[t.atB..] == [chunk] + SentTo(t.r, k.b)[t.atB + 1..];
    assert Got(t') == Got(t) + chunk;
  }

  lemma {:induction false} ForwardAll(k: Ends, s: Tunnel, t: Tunnel, x: seq<byte>) returns (u: Tunnel)
    requires Reaches(k, s, t) && Carries(k, t, x)
    ensures Reaches(k, s, u) && Carries(k, u, x) && u.wrote == t.wrote && u.atR == |u.w.sent|
    decreases |t.w.sent| - t.atR
  {
    if t.atR == |t.w.sent| {
      u := t;
    } else {
      ForwardOne(k, t);
      var t' := Step(k, t, ArriveAtR(Sent));
      ReachesOn(k, s, t, ArriveAtR(Sent), t');
      u := ForwardAll(k, s, t', x);
    }
  }

  lemma {:induction false} ReceiveAll(k: Ends, s: Tunnel, t: Tunnel, x: seq<byte>) returns (u: Tunnel)
    requires Reaches(k, s, t) && Carries(k, t, x) && t.atR == |t.w.sent|
    ensures Reaches(k, s, u) && Carries(k, u, x) && u.wrote == t.wrote && u.atR == |u.w.sent|
    ensures u.atB == |SentTo(u.r, k.b)|
    decreases |SentTo(t.r, k.b)| - t.atB
  {
    if t.atB == |SentTo(t.r, k.b)| {
      u := t;
    } else {
      ReceiveOne(k, t);
      var t' := Step(k, t, ArriveAtB);
      ReachesOn(k, s, t, ArriveAtB, t');
      u := ReceiveAll(k, s, t', x);
    }
  }

  lemma IdleReadsAll(k: Ends, u: Tunnel)
    requires Up(k, u) && u.atR == |u.w.sent| && u.atB == |SentTo(u.r, k.b)|
    ensures Step(k, u, Read(|u.b.buffer|)).b.read == Got(u) && Step(k, u, Read(|u.b.buffer|)).wrote == u.wrote
    ensures Got(u) + OnWireToB(k, u) + OnWireToR(u) == Got(u)
  {
    assert OnWireToB(k, u) == [] && OnWireToR(u) == [];
    assert u.b.buffer[..|u.b.buffer|] == u.b.buffer;
  }

  /** While all links work, everything under way can be brought to B and read. */
  lemma EverythingArrives(k: Ends, s: Tunnel, t: Tunnel, x: seq<byte>) returns (v: Tunnel)
    requires Reaches(k, s, t) && Carries(k, t, x)
    ensures Reaches(k, s, v) && v.wrote == t.wrote && v.b.read == x
  {
    var u := ForwardAll(k, s, t, x);
    u := ReceiveAll(k, s, u, x);
    IdleReadsAll(k, u);
    v := Step(k, u, Read(|u.b.buffer|));
    ReachesOn(k, s, u, Read(|u.b.buffer|), v);
  }

  /** Some bytes are written and drained. */
  lemma WriteAndDrain(k: Ends, s: Tunnel, data: seq<byte>) returns (t: Tunnel)
    requires Up(k, s) && data != []
    ensures Reaches(k, s, t) && t.wrote == s.wrote + data
    ensures Carries(k, t, Got(s) + OnWireToB(k, s) + OnWireToR(s) + s.w.pending + data)
  {
    var s1 := Step(k, s, Write(data));
    t := Step(k, s1, Drain(Sent));
    ReachesSelf(k, s);
    ReachesOn(k, s, s, Write(data), s1);
    ReachesOn(k, s, s1, Drain(Sent), t);
    DrainedBytes(k, s, s1, t, data);
  }

  lemma DrainedBytes(k: Ends, s: Tunnel, s1: Tunnel, t: Tunnel, data: seq<byte>)
    requires Up(k, s) && data != [] && s1 == Step(k, s, Write(data)) && t == Step(k, s1, Drain(Sent))
    ensures t.wrote == s.wrote + data
    ensures Carries(k, t, Got(s) + OnWireToB(k, s) + OnWireToR(s) + s.w.pending + data)
  {
    var chunk := s.w.pending + data;
    assert t.w.sent[s.atR..] == s.w.sent[s.atR..] + [chunk];
    FlattenSnoc(s.w.sent[s.atR..], chunk);
    var x, toR := Got(s) + OnWireToB(k, s), OnWireToR(s);
    assert x + (toR + chunk) == x + toR + s.w.pending + data;
  }

  lemma ALostByteShows(x: seq<byte>, wrote: seq<byte>) returns (data: seq<byte>)
    requires x != wrote
    ensures data != [] && !(x + data <= wrote + data)
  {
    var first: byte := if |x| < |wrote| && wrote[|x|] == 0 then 1 else 0;
    data := [first];
    var p, q := x + data, wrote + data;
    if |x| < |wrote| {
      assert p[|x|] == first && q[|x|] == wrote[|x|];
    } else if |x| == |wrote| {
      assert p[..|x|] == x && q[..|x|] == wrote;
    }
  }

  /** Exactly when a tunnel whose links are all up is a FIFO from here on, whatever happened to
      it before: pipes closed and opened again, sessions registered anew. No byte may have been
      lost; a single lost one shows in some continuation. */
  lemma FifoIffNothingLost(k: Ends, s: Tunnel)
    requires Up(k, s)
    ensures FifoFrom(k, s) <==> NothingLost(k, s)
  {
    if NothingLost(k, s) {
      UpIsLined(k, s);
      forall events | AllowedRun(k, s, events) ensures Run(k, s, events).b.read <= Run(k, s, events).wrote {
        RunKeepsInv(k, s, events);
      }
    } else {
      var x := Held(k, s);
      var data := ALostByteShows(x, s.wrote);
      var t := WriteAndDrain(k, s, data);
      var v := EverythingArrives(k, s, t, x + data);
      var events :| AllowedRun(k, s, events) && Run(k, s, events) == v;
      assert !(Run(k, s, events).b.read <= Run(k, s, events).wrote);
    }
  }

  lemma UpIsLined(k: Ends, s: Tunnel)
    requires Up(k, s) && NothingLost(k, s)
    ensures Inv(k, s)
  {
    var x, y := Got(s), Got(s) + OnWireToB(k, s);
    assert x <= y <= y + OnWireToR(s) <= y + OnWireToR(s) + s.w.pending;
  }

  // ---- which steps lose bytes -------------------------------------------------------------

  /** The four ways to lose a byte: written after the close, drained without a session or by a
      send that fails, arriving at R when R does not forward it to B, arriving at a B that no
      longer listens. */
  predicate Loses(k: Ends, s: Tunnel, e: Event) {
    match e
    case Write(data) => s.w.closed && data != []
    case Drain(o) => !s.w.closed && s.w.pending != [] && (!s.w.up || o == Lost)
    case ArriveAtR(o) =>
      s.atR < |s.w.sent| && s.w.sent[s.atR] != [] && !(Forwarding(k, s.r) && o != Lost)
    case ArriveAtB => s.atB < |SentTo(s.r, k.b)| && SentTo(s.r, k.b)[s.atB] != [] && !s.b.attached
    case _ => false
  }

  function WrittenBy(e: Event): seq<byte> { if e.Write? then e.data else [] }

  /** No step brings back a byte, and those that lose none keep all in order. */
  ghost predicate Passes(k: Ends, s: Tunnel, e: Event, s': Tunnel)
    requires Counted(k, s)
  {
    && Counted(k, s') && s'.wrote == s.wrote + WrittenBy(e)
    && (if Loses(k, s, e) then |Held(k, s')| < |Held(k, s)| + |WrittenBy(e)|
        else Held(k, s') == Held(k, s) + WrittenBy(e))
  }

  lemma WritePasses(k: Ends, s: Tunnel, data: seq<byte>)
    requires Counted(k, s)
    ensures Passes(k, s, Write(data), Step(k, s, Write(data)))
  {
    var rest := Got(s) + OnWireToB(k, s) + OnWireToR(s);
    assert rest + (s.w.pending + data) == rest + s.w.pending + data;
  }

  lemma DrainPasses(k: Ends, s: Tunnel, o: Outcome)
    requires Counted(k, s)
    ensures Passes(k, s, Drain(o), Step(k, s, Drain(o)))
  {
    var s' := Step(k, s, Drain(o));
    assert OnWireToB(k, s') == OnWireToB(k, s) && Got(s') == Got(s);
    if !s.w.closed && s.w.pending != [] && s.w.up && o != Lost {
      assert s'.w.sent[s.atR..] == s.w.sent[s.atR..] + [s.w.pending];
      FlattenSnoc(s.w.sent[s.atR..], s.w.pending);
      var front := Got(s) + OnWireToB(k, s);
      assert front + (OnWireToR(s) + s.w.pending) + [] == front + OnWireToR(s) + s.w.pending;
    } else {
      assert s'.w.sent == s.w.sent;
    }
  }

  lemma ASidePasses(k: Ends, s: Tunnel, e: Event)
    requires Counted(k, s) && (e.Write? || e.Drain? || e.CloseWriter? || e.SessionWithRFails?)
    ensures Passes(k, s, e, Step(k, s, e))
  {
    match e {
      case Write(data) => WritePasses(k, s, data);
      case Drain(o) => DrainPasses(k, s, o);
      case _ =>
    }
  }

  lemma BSidePasses(k: Ends, s: Tunnel, e: Event)
    requires Counted(k, s) && (e.ArriveAtB? || e.Detach? || e.Read?)
    ensures Passes(k, s, e, Step(k, s, e))
  {
    var s' := Step(k, s, e);
    if e.ArriveAtB? && s.atB < |SentTo(s.r, k.b)| {
      var chunk := SentTo(s.r, k.b)[s.atB];
      assert SentTo(s.r, k.b)[s.atB..] == [chunk] + SentTo(s.r, k.b)[s.atB + 1..];
      assert OnWireToB(k, s) == chunk + OnWireToB(k, s');
      assert Got(s) + (chunk + OnWireToB(k, s')) == Got(s) + chunk + OnWireToB(k, s');
      if s.b.attached { assert Got(s') == Got(s) + chunk; }
    } else {
      assert Got(s') == Got(s);
    }
  }

  lemma AtRPasses(k: Ends, s: Tunnel, o: Outcome)
    requires Counted(k, s) && k.a != k.b
    ensures Passes(k, s, ArriveAtR(o), Step(k, s, ArriveAtR(o)))
  {
    if s.atR < |s.w.sent| {
      var s' := Step(k, s, ArriveAtR(o));
      var chunk := s.w.sent[s.atR];
      RouterForwards(k, s.r, chunk, o);
      assert s.w.sent[s.atR..] == [chunk] + s.w.sent[s.atR + 1..];
      assert OnWireToR(s) == chunk + OnWireToR(s');
      var toB, toR := OnWireToB(k, s), OnWireToR(s');
      if Forwarding(k, s.r) && o != Lost {
        assert SentTo(s'.r, k.b)[s.atB..] == SentTo(s.r, k.b)[s.atB..] + [chunk];
        FlattenSnoc(SentTo(s.r, k.b)[s.atB..], chunk);
        assert Got(s) + (toB + chunk) + toR == Got(s) + toB + (chunk + toR);
      } else {
        assert OnWireToB(k, s') == toB;
      }
    }
  }

  /** R may do anything but take a chunk of A's for somebody else's, or put another sender in
      A's place. Pipes and sessions may come and go. */
  predicate Tidy(k: Ends, s: Tunnel, e: Event) {
    (e.OtherChunkAtR? ==> e.x != k.a) && (e.ROpens? ==> OnlyFromA(k, Step(k, s, e).r))
  }

  predicate TidyRun(k: Ends, s: Tunnel, events: seq<Event>) {
    events == [] || (TidyRun(k, s, events[..|events| - 1])
                     && Tidy(k, Run(k, s, events[..|events| - 1]), events[|events| - 1]))
  }

  lemma StepPasses(k: Ends, s: Tunnel, e: Event)
    requires k.a != k.b && Counted(k, s) && OnlyFromA(k, s.r) && Tidy(k, s, e)
    ensures Passes(k, s, e, Step(k, s, e)) && OnlyFromA(k, Step(k, s, e).r)
  {
    if e.Write? || e.Drain? || e.CloseWriter? || e.SessionWithRFails? {
      ASidePasses(k, s, e);
    } else if e.ArriveAtB? || e.Detach? || e.Read? {
      BSidePasses(k, s, e);
    } else if e.ArriveAtR? {
      AtRPasses(k, s, e.o);
      if s.atR < |s.w.sent| { RouterKeepsOnlyFromA(k, s.r, k.a, s.w.sent[s.atR], e.o); }
    } else {
      OthersPass(k, s, e);
    }
  }

  lemma OthersPass(k: Ends, s: Tunnel, e: Event)
    requires k.a != k.b && Counted(k, s) && OnlyFromA(k, s.r) && Tidy(k, s, e)
    requires e.OtherChunkAtR? || e.ROpens? || e.RCloses? || e.REnds? || e.RSendFails? || e.RConnects?
    ensures Passes(k, s, e, Step(k, s, e)) && OnlyFromA(k, Step(k, s, e).r)
  {
    var s' := Step(k, s, e);
    match e {
      case OtherChunkAtR(x, payload, o) =>
        RouterKeepsOnlyFromA(k, s.r, x, payload, o);
        assert x in s.r.pipes ==> s.r.pipes[x] != k.b;
      case RCloses(x) => RouterKeepsOnlyFromA(k, s.r, x, [], Sent);
      case REnds(x) => RouterKeepsOnlyFromA(k, s.r, x, [], Sent);
      case _ =>
    }
    assert SentTo(s'.r, k.b) == SentTo(s.r, k.b);
  }

  /** Nothing lost stays so if and only if the step is none of the four; a loss is never made
      good. */
  lemma StepKeepsNothingLostIff(k: Ends, s: Tunnel, e: Event)
    requires k.a != k.b && Counted(k, s) && OnlyFromA(k, s.r) && Tidy(k, s, e) && NothingLost(k, s)
    ensures Counted(k, Step(k, s, e)) && (NothingLost(k, Step(k, s, e)) <==> !Loses(k, s, e))
  {
    StepPasses(k, s, e);
  }

  predicate NoneLoses(k: Ends, s: Tunnel, events: seq<Event>) {
    events == [] || (NoneLoses(k, s, events[..|events| - 1])
                     && !Loses(k, Run(k, s, events[..|events| - 1]), events[|events| - 1]))
  }

  lemma {:induction false} RunLosesOrNot(k: Ends, s: Tunnel, events: seq<Event>)
    requires k.a != k.b && Counted(k, s) && OnlyFromA(k, s.r) && NothingLost(k, s) && TidyRun(k, s, events)
    ensures var t := Run(k, s, events);
            && Counted(k, t) && OnlyFromA(k, t.r)
            && (if NoneLoses(k, s, events) then NothingLost(k, t) else |Held(k, t)| < |t.wrote|)
    decreases |events|
  {
    if events != [] {
      RunLosesOrNot(k, s, events[..|events| - 1]);
      StepPasses(k, Run(k, s, events[..|events| - 1]), events[|events| - 1]);
    }
  }

  /** Over any run from a tunnel just opened, pipes and sessions closed and opened again at any
      time: once all links are up, the tunnel is a FIFO if and only if no step of the run was
      one of the four. */
  lemma FifoIffNoStepLoses(k: Ends, s: Tunnel, events: seq<Event>)
    requires Fresh(k, s) && TidyRun(k, s, events) && Up(k, Run(k, s, events))
    ensures FifoFrom(k, Run(k, s, events)) <==> NoneLoses(k, s, events)
  {
    assert s.r.pipes[s.r.pipes[k.a]] == k.a;
    RunLosesOrNot(k, s, events);
    FifoIffNothingLost(k, Run(k, s, events));
  }

  lemma RunSnoc(k: Ends, s: Tunnel, events: seq<Event>, e: Event)
    ensures Run(k, s, events + [e]) == Step(k, Run(k, s, events), e)
  {
    assert (events + [e])[..|events|] == events;
  }

  // ---- B's own routing --------------------------------------------------------------------

  /** What may happen at a connection manager. `Tunnels` and `Untunnels` register and unregister
      the reader of a tunnel of its own. */
  datatype RouterEvent =
    | Arrives(x: Addr, payload: seq<byte>, o: Outcome)
    | Opens(x: Addr, y: Addr) | Closes(x: Addr) | Finishes(x: Addr) | Fails(x: Addr) | Connects(x: Addr)
    | Tunnels(x: Addr) | Untunnels(x: Addr)

  function RouterStep(limit: nat, r: Router, e: RouterEvent): Router {
    match e
    case Arrives(x, payload, o) => OnRelay(r, limit, x, payload, o)
    case Opens(x, y) => r.(pipes := OpenPipe(r.pipes, x, y))
    case Closes(x) => r.(pipes := ClosePipe(r.pipes, x))
    case Finishes(x) => SessionEnds(r, x)
    case Fails(x) => r.(connections := r.connections - {x})
    case Connects(x) => r.(connections := r.connections + {x})
    case Tunnels(x) => r.(tunnels := r.tunnels[x := []])
    case Untunnels(x) => r.(tunnels := r.tunnels - {x})
  }

  function RouterRun(limit: nat, r: Router, events: seq<RouterEvent>): Router {
    if events == [] then r else RouterStep(limit, RouterRun(limit, r, events[..|events| - 1]), events[|events| - 1])
  }

  /** The payloads that arrived on x, in order. */
  function Arrivals(x: Addr, events: seq<RouterEvent>): seq<seq<byte>> {
    if events == [] then []
    else
      var e := events[|events| - 1];
      Arrivals(x, events[..|events| - 1]) + if e.Arrives? && e.x == x then [e.payload] else []
  }

  /** The session at x lives, nobody is piped to it, and its tunnel stays registered. */
  predicate Steady(limit: nat, r: Router, events: seq<RouterEvent>, x: Addr) {
    && x in RouterRun(limit, r, events).connections && x !in RouterRun(limit, r, events).pipes
    && (events == [] || (events[|events| - 1] !in {Tunnels(x), Untunnels(x)}
                         && Steady(limit, r, events[..|events| - 1], x)))
  }

  /** Over any run of a manager in which the session at x lives and has no pipe, what its tunnel
      holds is what it held, followed by the payloads that arrived on x, in order. Without a
      tunnel the first payload begins one exactly if there are fewer connections than the
      limit; otherwise it is dropped. */
  lemma {:induction false} TunnelHoldsArrivals(limit: nat, r: Router, events: seq<RouterEvent>, x: Addr)
    requires Steady(limit, r, events, x) && x in r.tunnels
    ensures var r' := RouterRun(limit, r, events);
            x in r'.tunnels && r'.tunnels[x] == r.tunnels[x] + Flatten(Arrivals(x, events))
    decreases |events|
  {
    if events == [] {
      assert r.tunnels[x] + [] == r.tunnels[x];
    } else {
      var front, e := events[..|events| - 1], events[|events| - 1];
      TunnelHoldsArrivals(limit, r, front, x);
      var before := RouterRun(limit, r, front);
      if e.Arrives? && e.x == x {
        FlattenSnoc(Arrivals(x, front), e.payload);
        assert r.tunnels[x] + Flatten(Arrivals(x, front)) + e.payload
            == r.tunnels[x] + (Flatten(Arrivals(x, front)) + e.payload);
      } else {
        assert Arrivals(x, events) == Arrivals(x, front);
        OthersLeaveTunnel(limit, before, e, x);
      }
    }
  }

  lemma OthersLeaveTunnel(limit: nat, r: Router, e: RouterEvent, x: Addr)
    requires x in r.tunnels && !(e.Arrives? && e.x == x) && e !in {Tunnels(x), Untunnels(x)}
    requires x in RouterStep(limit, r, e).connections
    ensures x in RouterStep(limit, r, e).tunnels && RouterStep(limit, r, e).tunnels[x] == r.tunnels[x]
  {
  }

  /** When a session ends, or a chunk comes on one that is no longer established, nothing of it
      is left: no session, no tunnel, no pipe at either end. Everything else stays. */
  lemma SessionLeavesNothing(limit: nat, r: Router, x: Addr, payload: seq<byte>, o: Outcome)
    requires Symmetric(r.pipes)
    ensures var r' := RouterStep(limit, r, Finishes(x));
            && x !in r'.connections && x !in r'.tunnels && x !in r'.pipes && x !in r'.pipes.Values
            && r'.connections == r.connections - {x} && r'.tunnels == r.tunnels - {x} && r'.sent == r.sent
            && (forall y :: y in r.pipes && y != x && r.pipes[y] != x ==> y in r'.pipes && r'.pipes[y] == r.pipes[y])
            && (x !in r.connections ==> RouterStep(limit, r, Arrives(x, payload, o)) == r')
  {
    var r' := RouterStep(limit, r, Finishes(x));
    forall y | y in r'.pipes ensures r'.pipes[y] != x {
      assert y in r.pipes && r.pipes[r.pipes[y]] == y;
    }
  }

  /** Reading takes the bytes asked for; once nothing more can come, whatever is left of them. */
  lemma ReadTakes(b: Reader, n: nat)
    ensures var b' := ReadFrom(b, n);
            && b'.read + b'.buffer == b.read + b.buffer && b'.attached == b.attached
            && |b'.read| == |b.read| + if n <= |b.buffer| then n else if b.attached then 0 else |b.buffer|
  {
    if n <= |b.buffer| { assert b.buffer[..n] + b.buffer[n..] == b.buffer; }
  }

  lemma FirstPayloadBeginsTunnel(limit: nat, r: Router, x: Addr, payload: seq<byte>, o: Outcome)
    requires x in r.connections && x !in r.pipes && x !in r.tunnels
    ensures var r' := RouterStep(limit, r, Arrives(x, payload, o));
            && (x in r'.tunnels <==> |r.connections| < limit) && (x in r'.tunnels ==> r'.tunnels[x] == payload)
            && r' == r.(tunnels := r'.tunnels) && r'.tunnels - {x} == r.tunnels - {x}
  {
  }

  /** The whole way: if what arrives at B's manager on its session with R, at `x`, is what R has
      put there since the tunnel was opened, B's tunnel holds a prefix of what A wrote. */
  lemma TunnelReachesRouter(k: Ends, s: Tunnel, events: seq<Event>, limit: nat, b: Router, atB: seq<RouterEvent>,
                            x: Addr)
    requires Fresh(k, s) && AllowedRun(k, s, events) && Run(k, s, events).b.attached
    requires Steady(limit, b, atB, x) && x in b.tunnels && b.tunnels[x] == []
    requires var t := Run(k, s, events);
             s.atB <= t.atB <= |SentTo(t.r, k.b)| && Arrivals(x, atB) == SentTo(t.r, k.b)[s.atB..t.atB]
    ensures x in RouterRun(limit, b, atB).tunnels
    ensures RouterRun(limit, b, atB).tunnels[x] == Got(Run(k, s, events)) <= Run(k, s, events).wrote
  {
    TunnelHoldsArrivals(limit, b, atB, x);
    TunnelIsFifo(k, s, events);
    ReaderHoldsArrivals(k, s, events);
    assert [] + Flatten(Arrivals(x, atB)) == Flatten(Arrivals(x, atB));
  }

  /** What B has since `from`: exactly the chunks R has put on its session since. */
  predicate HasSince(k: Ends, from: nat, t: Tunnel) {
    from <= t.atB <= |SentTo(t.r, k.b)| && Got(t) == Flatten(SentTo(t.r, k.b)[from..t.atB])
  }

  lemma StepHasSince(k: Ends, from: nat, u: Tunnel, e: Event)
    requires HasSince(k, from, u) && Step(k, u, e).b.attached
    ensures HasSince(k, from, Step(k, u, e))
  {
    var t := Step(k, u, e);
    SentOnlyGrows(k, u, e);
    if e.ArriveAtB? && u.atB < |SentTo(u.r, k.b)| {
      assert SentTo(t.r, k.b)[from..t.atB] == SentTo(u.r, k.b)[from..u.atB] + [SentTo(u.r, k.b)[u.atB]];
      FlattenSnoc(SentTo(u.r, k.b)[from..u.atB], SentTo(u.r, k.b)[u.atB]);
      assert Got(t) == Got(u) + SentTo(u.r, k.b)[u.atB];
    } else {
      assert SentTo(t.r, k.b)[from..t.atB] == SentTo(u.r, k.b)[from..u.atB];
      OthersLeaveReader(k, u, e);
    }
  }

  lemma {:induction false} ReaderHoldsArrivals(k: Ends, s: Tunnel, events: seq<Event>)
    requires Fresh(k, s) && Run(k, s, events).b.attached
    ensures HasSince(k, s.atB, Run(k, s, events))
    decreases |events|
  {
    if events != [] {
      ReaderHoldsArrivals(k, s, events[..|events| - 1]);
      StepHasSince(k, s.atB, Run(k, s, events[..|events| - 1]), events[|events| - 1]);
    }
  }

  lemma OthersLeaveReader(k: Ends, s: Tunnel, e: Event)
    requires !(e.ArriveAtB? && s.atB < |SentTo(s.r, k.b)|)
    ensures Got(Step(k, s, e)) == Got(s)
  {
    if e.Read? { assert e.n <= |s.b.buffer| ==> s.b.buffer[..e.n] + s.b.buffer[e.n..] == s.b.buffer; }
  }

  lemma SentOnlyGrows(k: Ends, s: Tunnel, e: Event)
    ensures SentTo(s.r, k.b) <= SentTo(Step(k, s, e).r, k.b)
  {
  }

  /** The restriction to one life is needed: from any such start there is a run in which the
      pipe is closed while one chunk passes and opened again, and B skips that chunk. */
  lemma ReopenedPipeSkipsBytes(k: Ends, s: Tunnel)
    requires Fresh(k, s) && Forwarding(k, s.r) && k.a !in s.r.tunnels && |s.r.connections| >= k.limit
    ensures exists events :: Run(k, s, events).b.read == [2] && Run(k, s, events).wrote == [1, 2]
  {
    var t := s.(w := Writer([], false, true, [[1]]), wrote := [1], r := s.r.(pipes := ClosePipe(s.r.pipes, k.a)),
                atR := 1);
    var first := [Write([1]), Drain(Sent), RCloses(k.a), ArriveAtR(Sent)];
    LosingRun(k, s, t);
    ReopeningRun(k, s, t, first);
    var second := first + [ROpens(k.a, k.b)] + [Write([2])] + [Drain(Sent)];
    ResumingRun(k, s, Run(k, s, second), second);
    assert Run(k, s, second + [ArriveAtR(Sent)] + [ArriveAtB] + [Read(1)]).b.read == [2];
  }

  lemma ReopeningRun(k: Ends, s: Tunnel, t: Tunnel, events: seq<Event>)
    requires Run(k, s, events) == t && k.a in t.r.connections && k.b in t.r.connections && k.a != k.b
    requires t.w == Writer([], false, true, [[1]]) && t.wrote == [1] && t.atR == 1
    ensures var t' := Run(k, s, events + [ROpens(k.a, k.b)] + [Write([2])] + [Drain(Sent)]);
            && Forwarding(k, t'.r) && t'.b == t.b && t'.w.sent == [[1], [2]] && t'.wrote == [1, 2]
            && t'.atR == 1 && t'.atB == t.atB && SentTo(t'.r, k.b) == SentTo(t.r, k.b)
  {
    var t1 := t.(r := t.r.(pipes := OpenPipe(t.r.pipes, k.a, k.b)));
    RunGoesOn(k, s, events, t, ROpens(k.a, k.b), t1);
    var t2 := t1.(w := Writer([2], false, true, [[1]]), wrote := [1, 2]);
    assert t1.wrote + [2] == [1, 2] && t1.w.pending + [2] == [2];
    RunGoesOn(k, s, events + [ROpens(k.a, k.b)], t1, Write([2]), t2);
    var t3 := t2.(w := Writer([], false, true, [[1], [2]]));
    assert t2.w.sent + [t2.w.pending] == [[1], [2]];
    RunGoesOn(k, s, events + [ROpens(k.a, k.b)] + [Write([2])], t2, Drain(Sent), t3);
  }

  lemma LosingRun(k: Ends, s: Tunnel, t: Tunnel)
    requires Fresh(k, s) && Forwarding(k, s.r) && k.a !in s.r.tunnels && |s.r.connections| >= k.limit
    requires t == s.(w := Writer([], false, true, [[1]]), wrote := [1], r := s.r.(pipes := ClosePipe(s.r.pipes, k.a)),
                     atR := 1)
    ensures Run(k, s, [Write([1]), Drain(Sent), RCloses(k.a), ArriveAtR(Sent)]) == t
  {
    RunSnoc(k, s, [], Write([1]));
    RunSnoc(k, s, [Write([1])], Drain(Sent));
    RunSnoc(k, s, [Write([1]), Drain(Sent)], RCloses(k.a));
    RunSnoc(k, s, [Write([1]), Drain(Sent), RCloses(k.a)], ArriveAtR(Sent));
    assert [] + [Write([1])] == [Write([1])];
    assert [Write([1])] + [Drain(Sent)] == [Write([1]), Drain(Sent)];
    assert [Write([1]), Drain(Sent)] + [RCloses(k.a)] == [Write([1]), Drain(Sent), RCloses(k.a)];
    assert [Write([1]), Drain(Sent), RCloses(k.a)] + [ArriveAtR(Sent)]
        == [Write([1]), Drain(Sent), RCloses(k.a), ArriveAtR(Sent)];
    assert Run(k, s, [Write([1])]).w == Writer([1], false, true, []);
    CloseKeepsSymmetry(s.r.pipes, k.a);
  }

  lemma DeliverOne(k: Ends, t: Tunnel, chunk: seq<byte>)
    requires Forwarding(k, t.r) && k.a != k.b && t.b == Reader([], [], true)
    requires t.atR < |t.w.sent| && t.w.sent[t.atR] == chunk && t.atB == |SentTo(t.r, k.b)|
    ensures var t' := Step(k, Step(k, t, ArriveAtR(Sent)), ArriveAtB);
            t'.b == Reader([], chunk, true) && t'.wrote == t.wrote
  {
    RouterForwards(k, t.r, chunk, Sent);
  }

  lemma RunGoesOn(k: Ends, s: Tunnel, events: seq<Event>, t: Tunnel, e: Event, t': Tunnel)
    requires Run(k, s, events) == t && Step(k, t, e) == t'
    ensures Run(k, s, events + [e]) == t'
  {
    RunSnoc(k, s, events, e);
  }

  lemma ResumingRun(k: Ends, s: Tunnel, t: Tunnel, events: seq<Event>)
    requires Run(k, s, events) == t && Forwarding(k, t.r) && k.a != k.b && t.b == Reader([], [], true)
    requires t.w.sent == [[1], [2]] && t.atR == 1 && t.atB == |SentTo(t.r, k.b)|
    ensures var t' := Run(k, s, events + [ArriveAtR(Sent)] + [ArriveAtB] + [Read(1)]);
            t'.b.read == [2] && t'.wrote == t.wrote
  {
    DeliverOne(k, t, [2]);
    RunGoesOn(k, s, events, t, ArriveAtR(Sent), Step(k, t, ArriveAtR(Sent)));
    var t2 := Step(k, Step(k, t, ArriveAtR(Sent)), ArriveAtB);
    RunGoesOn(k, s, events + [ArriveAtR(Sent)], Step(k, t, ArriveAtR(Sent)), ArriveAtB, t2);
    ReadsOne(k, t2);
    RunGoesOn(k, s, events + [ArriveAtR(Sent)] + [ArriveAtB], t2, Read(1), Step(k, t2, Read(1)));
  }

  lemma ReadsOne(k: Ends, t: Tunnel)
    requires t.b == Reader([], [2], true)
    ensures Step(k, t, Read(1)).b.read == [2] && Step(k, t, Read(1)).wrote == t.wrote
  {
  }
}
