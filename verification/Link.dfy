/** Add-by-link payloads: the packed endpoint list and the offset walk that takes a link
    apart again. */
module Link {
  import opened Bytes
  import Signing

  type Bs = seq<byte>

  datatype Kind = DirectV4 | DirectV6 | Rendezvous
  datatype Endpoint = Endpoint(kind: Kind, host: string, port: int)

  /** Address and text conversions of the operating system and the language. */
  datatype Codec = Codec(pton4: string -> Option<Bs>, ntop4: Bs -> string, pton6: string -> Option<Bs>,
                         ntop6: Bs -> string,
                         utf8: string -> Bs, fromUtf8: Bs -> Option<string>)

  ghost predicate Lawful(c: Codec) {
    && (forall h :: c.pton4(h).Some? ==> |c.pton4(h).value| == 4)
    && (forall h :: c.pton6(h).Some? ==> |c.pton6(h).value| == 16)
    && (forall b :: |b| == 4 ==> c.pton4(c.ntop4(b)) == Some(b))
    && (forall b :: |b| == 16 ==> c.pton6(c.ntop6(b)) == Some(b))
    && (forall s :: c.fromUtf8(c.utf8(s)) == Some(s))
    && (forall b :: c.fromUtf8(b).Some? ==> c.utf8(c.fromUtf8(b).value) == b)
  }

  function KindTag(k: Kind): byte {
    match k case DirectV4 => 0 case DirectV6 => 1 case Rendezvous => 2
  }

  /** None is the LinkError for a host that does not fit its kind. */
  function HostBytes(c: Codec, e: Endpoint): Option<Bs> {
    match e.kind
    case DirectV4 => c.pton4(e.host)
    case DirectV6 => c.pton6(e.host)
    case Rendezvous =>
      var b := c.utf8(e.host);
      if |b| > 255 then None else Some([|b| as byte] + b)
  }

  function PackOne(c: Codec, e: Endpoint): Option<Bs> {
    Pow256Values();
    var h := HostBytes(c, e);
    if h.None? || e.port < 0 || e.port > 0xFFFF then None
    else Some([KindTag(e.kind)] + h.value + Pack(2, e.port))
  }

  type Packer = Endpoint -> Option<Bs>

  function PackerOf(c: Codec): Packer { e => PackOne(c, e) }

  function PackAll(pack: Packer, es: seq<Endpoint>): Option<Bs> {
    if es == [] then Some([])
    else
      var first, rest := pack(es[0]), PackAll(pack, es[1..]);
      if first.None? || rest.None? then None else Some(first.value + rest.value)
  }

  /** `escapes` marks the ValueError of inet_ntop on too few bytes, which decode_link does not
      catch; every other failure becomes a LinkFormatError. */
  datatype Taken = Took(endpoint: Endpoint, offset: nat) | NotTaken(escapes: bool)

  /** buf[from:to] as Python slices it. */
  function Slice(buf: Bs, from: nat, to: nat): Bs {
    if from >= |buf| || to <= from then [] else buf[from..if to <= |buf| then to else |buf|]
  }

  function TakePort(buf: Bs, kind: Kind, host: string, offset: nat): Taken {
    var p := Slice(buf, offset, offset + 2);
    if |p| != 2 then NotTaken(false) else Took(Endpoint(kind, host, Unpack(p)), offset + 2)
  }

  function TakeAddress(buf: Bs, kind: Kind, ntop: Bs -> string, width: nat, offset: nat): Taken {
    var a := Slice(buf, offset, offset + width);
    if |a| != width then NotTaken(true) else TakePort(buf, kind, ntop(a), offset + width)
  }

  function TakeName(buf: Bs, fromUtf8: Bs -> Option<string>, offset: nat): Taken {
    if offset >= |buf| then NotTaken(false)
    else
      var n := buf[offset] as nat;
      var h := fromUtf8(Slice(buf, offset + 1, offset + 1 + n));
      if h.None? then NotTaken(false) else TakePort(buf, Rendezvous, h.value, offset + 1 + n)
  }

  function TakeOne(c: Codec, buf: Bs, offset: nat): Taken {
    if offset >= |buf| then NotTaken(false)
    else if buf[offset] == 0 then TakeAddress(buf, DirectV4, c.ntop4, 4, offset + 1)
    else if buf[offset] == 1 then TakeAddress(buf, DirectV6, c.ntop6, 16, offset + 1)
    else if buf[offset] == 2 then TakeName(buf, c.fromUtf8, offset + 1)
    else NotTaken(false)
  }

  type Taker = nat -> Taken

  function TakerOf(c: Codec, buf: Bs): Taker { (o: nat) => TakeOne(c, buf, o) }

  datatype Unpacked = Unpacked(endpoints: seq<Endpoint>, offset: nat) | Failed(escapes: bool)

  function Before(done: seq<Endpoint>, u: Unpacked): Unpacked {
    if u.Failed? then u else Unpacked(done + u.endpoints, u.offset)
  }

  lemma BeforeAssociates(done: seq<Endpoint>, e: Endpoint, u: Unpacked)
    ensures Before(done, Before([e], u)) == Before(done + [e], u)
  {
    if u.Unpacked? { assert done + ([e] + u.endpoints) == (done + [e]) + u.endpoints; }
  }

  function UnpackFrom(take: Taker, offset: nat, count: nat): Unpacked
    decreases count
  {
    if count == 0 then Unpacked([], offset)
    else match take(offset)
      case NotTaken(escapes) => Failed(escapes)
      case Took(e, next) => Before([e], UnpackFrom(take, next, count - 1))
  }

  /** _unpack_endpoints. */
  method UnpackEndpoints(take: Taker, start: nat, count: nat) returns (r: Unpacked)
    ensures r == UnpackFrom(take, start, count)
  {
    var endpoints: seq<Endpoint> := [];
    var offset := start;
    for i := 0 to count
      invariant UnpackFrom(take, start, count) == Before(endpoints, UnpackFrom(take, offset, count - i))
    {
      var t := take(offset);
      if t.NotTaken? {
        return Failed(t.escapes);
      }
      BeforeAssociates(endpoints, t.endpoint, UnpackFrom(take, t.offset, count - i - 1));
      endpoints := endpoints + [t.endpoint];
      offset := t.offset;
    }
    return Unpacked(endpoints, offset);
  }

  // ---- round trips ---------------------------------------------------------------------

  /** The spelling of an address that decoding produces. */
  function Canonical(c: Codec, e: Endpoint): Endpoint {
    match e.kind
    case DirectV4 => if c.pton4(e.host).Some? then e.(host := c.ntop4(c.pton4(e.host).value)) else e
    case DirectV6 => if c.pton6(e.host).Some? then e.(host := c.ntop6(c.pton6(e.host).value)) else e
    case Rendezvous => e
  }

  function CanonicalAll(c: Codec, es: seq<Endpoint>): seq<Endpoint> {
    seq(|es|, i requires 0 <= i < |es| => Canonical(c, es[i]))
  }

  predicate At(buf: Bs, offset: nat, b: Bs) {
    offset + |b| <= |buf| && buf[offset..offset + |b|] == b
  }

  lemma AtSplits(buf: Bs, offset: nat, a: Bs, b: Bs)
    requires At(buf, offset, a + b)
    ensures At(buf, offset, a) && At(buf, offset + |a|, b)
  {
    var whole := buf[offset..offset + |a + b|];
    assert a == whole[..|a|] && b == whole[|a|..];
  }

  lemma SliceAt(buf: Bs, offset: nat, b: Bs)
    requires At(buf, offset, b)
    ensures Slice(buf, offset, offset + |b|) == b
  {
  }

  lemma TakesPort(buf: Bs, kind: Kind, host: string, port: int, offset: nat)
    requires 0 <= port < Pow256(2) && At(buf, offset, Pack(2, port))
    ensures TakePort(buf, kind, host, offset) == Took(Endpoint(kind, host, port), offset + 2)
  {
    SliceAt(buf, offset, Pack(2, port));
    UnpackPack(2, port);
  }

  lemma PackedParts(c: Codec, buf: Bs, e: Endpoint, offset: nat)
    requires PackOne(c, e).Some? && At(buf, offset, PackOne(c, e).value)
    ensures var h := HostBytes(c, e).value;
            && 0 <= e.port < Pow256(2) && |PackOne(c, e).value| == |h| + 3
            && offset < |buf| && buf[offset] == KindTag(e.kind) && At(buf, offset + 1, h)
              && At(buf, offset + 1 + |h|, Pack(2, e.port))
  {
    Pow256Values();
    var h, port := HostBytes(c, e).value, Pack(2, e.port);
    var tag := [KindTag(e.kind)];
    AtSplits(buf, offset, tag + h, port);
    AtSplits(buf, offset, tag, h);
    assert buf[offset] == buf[offset..offset + 1][0];
  }

  lemma TakesName(buf: Bs, fromUtf8: Bs -> Option<string>, u: Bs, host: string, port: int, offset: nat)
    requires |u| <= 255 && fromUtf8(u) == Some(host) && 0 <= port < Pow256(2)
    requires At(buf, offset, [|u| as byte] + u) && At(buf, offset + 1 + |u|, Pack(2, port))
    ensures TakeName(buf, fromUtf8, offset) == Took(Endpoint(Rendezvous, host, port), offset + |u| + 3)
  {
    AtSplits(buf, offset, [|u| as byte], u);
    assert buf[offset] == buf[offset..offset + 1][0];
    SliceAt(buf, offset + 1, u);
    TakesPort(buf, Rendezvous, host, port, offset + 1 + |u|);
  }

  lemma TakesAddress(buf: Bs, kind: Kind, ntop: Bs -> string, a: Bs, port: int, offset: nat)
    requires 0 <= port < Pow256(2) && At(buf, offset, a) && At(buf, offset + |a|, Pack(2, port))
    ensures TakeAddress(buf, kind, ntop, |a|, offset) == Took(Endpoint(kind, ntop(a), port), offset + |a| + 2)
  {
    SliceAt(buf, offset, a);
    TakesPort(buf, kind, ntop(a), port, offset + |a|);
  }

  lemma TakesPacked(c: Codec, buf: Bs, e: Endpoint, offset: nat)
    requires Lawful(c) && PackOne(c, e).Some? && At(buf, offset, PackOne(c, e).value)
    ensures TakeOne(c, buf, offset) == Took(Canonical(c, e), offset + |PackOne(c, e).value|)
  {
    PackedParts(c, buf, e, offset);
    var h := HostBytes(c, e).value;
    match e.kind
    case DirectV4 => TakesAddress(buf, DirectV4, c.ntop4, h, e.port, offset + 1);
    case DirectV6 => TakesAddress(buf, DirectV6, c.ntop6, h, e.port, offset + 1);
    case Rendezvous => TakesName(buf, c.fromUtf8, c.utf8(e.host), e.host, e.port, offset + 1);
  }

  lemma PortTakenIsPacked(buf: Bs, kind: Kind, host: string, offset: nat)
    requires TakePort(buf, kind, host, offset).Took?
    ensures var t := TakePort(buf, kind, host, offset);
            && t.endpoint.kind == kind && t.endpoint.host == host && t.offset == offset + 2 <= |buf|
            && 0 <= t.endpoint.port < Pow256(2) && At(buf, offset, Pack(2, t.endpoint.port))
  {
    PackUnpack(Slice(buf, offset, offset + 2));
  }

  lemma AddressTaken(buf: Bs, kind: Kind, ntop: Bs -> string, width: nat, offset: nat, t: Taken) returns (a: Bs)
    requires TakeAddress(buf, kind, ntop, width, offset) == t && t.Took?
    ensures |a| == width && At(buf, offset, a) && t.endpoint.kind == kind && t.endpoint.host == ntop(a)
    ensures t.offset == offset + width + 2 <= |buf|
    ensures 0 <= t.endpoint.port < Pow256(2) && At(buf, offset + width, Pack(2, t.endpoint.port))
  {
    a := Slice(buf, offset, offset + width);
    PortTakenIsPacked(buf, kind, ntop(a), offset + width);
  }

  lemma NameTaken(buf: Bs, fromUtf8: Bs -> Option<string>, offset: nat, t: Taken) returns (u: Bs)
    requires TakeName(buf, fromUtf8, offset) == t && t.Took?
    ensures offset < |buf| && |u| == buf[offset] as nat && At(buf, offset + 1, u)
    ensures t.endpoint.kind == Rendezvous && fromUtf8(u) == Some(t.endpoint.host)
    ensures t.offset == offset + |u| + 3 <= |buf|
    ensures 0 <= t.endpoint.port < Pow256(2) && At(buf, offset + 1 + |u|, Pack(2, t.endpoint.port))
  {
    var n := buf[offset] as nat;
    u := Slice(buf, offset + 1, offset + 1 + n);
    PortTakenIsPacked(buf, Rendezvous, fromUtf8(u).value, offset + 1 + n);
  }

  lemma AtJoins(buf: Bs, offset: nat, tag: byte, h: Bs, port: Bs)
    requires offset < |buf| && buf[offset] == tag && At(buf, offset + 1, h) && At(buf, offset + 1 + |h|, port)
    ensures buf[offset..offset + 1 + |h| + |port|] == [tag] + h + port
  {
  }

  lemma PackedFrom(c: Codec, e: Endpoint, h: Bs, buf: Bs, offset: nat)
    requires HostBytes(c, e) == Some(h) && 0 <= e.port < Pow256(2)
    requires offset < |buf| && buf[offset] == KindTag(e.kind) && At(buf, offset + 1, h)
    requires At(buf, offset + 1 + |h|, Pack(2, e.port))
    ensures PackOne(c, e) == Some(buf[offset..offset + |h| + 3])
  {
    Pow256Values();
    AtJoins(buf, offset, KindTag(e.kind), h, Pack(2, e.port));
  }

  lemma AtCons(buf: Bs, offset: nat, u: Bs)
    requires offset < |buf| && At(buf, offset + 1, u)
    ensures At(buf, offset, [buf[offset]] + u)
  {
  }

  lemma NamePackedFrom(c: Codec, e: Endpoint, u: Bs, buf: Bs, offset: nat)
    requires e.kind == Rendezvous && c.utf8(e.host) == u && |u| <= 255 && 0 <= e.port < Pow256(2)
    requires offset + 1 < |buf| && buf[offset] == 2 && buf[offset + 1] as nat == |u|
    requires At(buf, offset + 2, u) && At(buf, offset + 2 + |u|, Pack(2, e.port))
    ensures PackOne(c, e) == Some(buf[offset..offset + |u| + 4])
  {
    AtCons(buf, offset + 1, u);
    PackedFrom(c, e, [|u| as byte] + u, buf, offset);
  }

  lemma NameTakenIsPacked(c: Codec, buf: Bs, offset: nat, t: Taken)
    requires forall b :: c.fromUtf8(b).Some? ==> c.utf8(c.fromUtf8(b).value) == b
    requires offset < |buf| && buf[offset] == 2 && TakeName(buf, c.fromUtf8, offset + 1) == t && t.Took?
    ensures offset < t.offset <= |buf| && PackOne(c, t.endpoint) == Some(buf[offset..t.offset])
  {
    var u := NameTaken(buf, c.fromUtf8, offset + 1, t);
    NamePackedFrom(c, t.endpoint, u, buf, offset);
  }

  lemma V4TakenIsPacked(c: Codec, buf: Bs, offset: nat, t: Taken)
    requires forall b :: |b| == 4 ==> c.pton4(c.ntop4(b)) == Some(b)
    requires offset < |buf| && buf[offset] == 0 && TakeAddress(buf, DirectV4, c.ntop4, 4, offset + 1) == t && t.Took?
    ensures offset < t.offset <= |buf| && PackOne(c, t.endpoint) == Some(buf[offset..t.offset])
  {
    var a := AddressTaken(buf, DirectV4, c.ntop4, 4, offset + 1, t);
    PackedFrom(c, t.endpoint, a, buf, offset);
  }

  lemma V6TakenIsPacked(c: Codec, buf: Bs, offset: nat, t: Taken)
    requires forall b :: |b| == 16 ==> c.pton6(c.ntop6(b)) == Some(b)
    requires offset < |buf| && buf[offset] == 1 && TakeAddress(buf, DirectV6, c.ntop6, 16, offset + 1) == t && t.Took?
    ensures offset < t.offset <= |buf| && PackOne(c, t.endpoint) == Some(buf[offset..t.offset])
  {
    var a := AddressTaken(buf, DirectV6, c.ntop6, 16, offset + 1, t);
    PackedFrom(c, t.endpoint, a, buf, offset);
  }

  lemma TakenIsPacked(c: Codec, buf: Bs, offset: nat, t: Taken)
    requires Lawful(c) && TakeOne(c, buf, offset) == t && t.Took?
    ensures offset < t.offset <= |buf| && PackOne(c, t.endpoint) == Some(buf[offset..t.offset])
  {
    if buf[offset] == 0 {
      V4TakenIsPacked(c, buf, offset, t);
    } else if buf[offset] == 1 {
      V6TakenIsPacked(c, buf, offset, t);
    } else {
      NameTakenIsPacked(c, buf, offset, t);
    }
  }

  /** What the lists need to know of single endpoints: reading finds what was packed, ... */
  ghost predicate Reads(c: Codec, buf: Bs, take: Taker, pack: Packer) {
    forall o: nat, e :: pack(e).Some? && At(buf, o, pack(e).value) ==>
      take(o) == Took(Canonical(c, e), o + |pack(e).value|)
  }

  /** ... and what is read is what packing writes. */
  ghost predicate Writes(buf: Bs, take: Taker, pack: Packer) {
    forall o: nat :: take(o).Took? ==>
      o < take(o).offset <= |buf| && pack(take(o).endpoint) == Some(buf[o..take(o).offset])
  }

  lemma SingleEndpoints(c: Codec, buf: Bs)
    requires Lawful(c)
    ensures Reads(c, buf, TakerOf(c, buf), PackerOf(c)) && Writes(buf, TakerOf(c, buf), PackerOf(c))
  {
    forall o: nat, e | PackOne(c, e).Some? && At(buf, o, PackOne(c, e).value)
      ensures TakerOf(c, buf)(o) == Took(Canonical(c, e), o + |PackOne(c, e).value|)
    {
      TakesPacked(c, buf, e, o);
    }
    forall o: nat | TakeOne(c, buf, o).Took?
      ensures var t := TakeOne(c, buf, o); o < t.offset <= |buf| && PackOne(c, t.endpoint) == Some(buf[o..t.offset])
    {
      TakenIsPacked(c, buf, o, TakeOne(c, buf, o));
    }
  }

  lemma {:induction false} UnpackOfPackAt(c: Codec, buf: Bs, take: Taker, pack: Packer, es: seq<Endpoint>, offset: nat)
    requires Reads(c, buf, take, pack) && PackAll(pack, es).Some? && At(buf, offset, PackAll(pack, es).value)
    ensures UnpackFrom(take, offset, |es|) == Unpacked(CanonicalAll(c, es), offset + |PackAll(pack, es).value|)
    decreases |es|
  {
    if es != [] {
      var first, rest := pack(es[0]).value, PackAll(pack, es[1..]).value;
      AtSplits(buf, offset, first, rest);
      assert take(offset) == Took(Canonical(c, es[0]), offset + |first|);
      UnpackOfPackAt(c, buf, take, pack, es[1..], offset + |first|);
      assert CanonicalAll(c, es) == [Canonical(c, es[0])] + CanonicalAll(c, es[1..]);
    }
  }

  /** Packed endpoints are read back in canonical spelling from wherever they stand, and the
      walk ends exactly where they end. */
  lemma UnpackOfPack(c: Codec, pre: Bs, es: seq<Endpoint>, tail: Bs)
    requires Lawful(c) && PackAll(PackerOf(c), es).Some?
    ensures var b := PackAll(PackerOf(c), es).value;
            UnpackFrom(TakerOf(c, pre + b + tail), |pre|, |es|) == Unpacked(CanonicalAll(c, es), |pre| + |b|)
  {
    var b := PackAll(PackerOf(c), es).value;
    var buf := pre + b + tail;
    SingleEndpoints(c, buf);
    assert At(buf, |pre|, b);
    UnpackOfPackAt(c, buf, TakerOf(c, buf), PackerOf(c), es, |pre|);
  }

  /** The converse: whatever is read is exactly what packing it would have written there, so
      no two byte strings decode to the same endpoints. */
  lemma {:induction false} PackOfUnpack(buf: Bs, take: Taker, pack: Packer, offset: nat, count: nat)
    requires Writes(buf, take, pack) && offset <= |buf| && UnpackFrom(take, offset, count).Unpacked?
    ensures var u := UnpackFrom(take, offset, count);
            && |u.endpoints| == count && offset <= u.offset <= |buf|
            && PackAll(pack, u.endpoints) == Some(buf[offset..u.offset])
    decreases count
  {
    if count > 0 {
      var t := take(offset);
      assert UnpackFrom(take, t.offset, count - 1).Unpacked?;
      assert pack(t.endpoint) == Some(buf[offset..t.offset]);
      PackOfUnpack(buf, take, pack, t.offset, count - 1);
      var rest, u := UnpackFrom(take, t.offset, count - 1), UnpackFrom(take, offset, count);
      assert u.endpoints == [t.endpoint] + rest.endpoints && u.endpoints[1..] == rest.endpoints;
      assert buf[offset..u.offset] == buf[offset..t.offset] + buf[t.offset..u.offset];
    } else {
      assert buf[offset..offset] == [];
    }
  }

  predicate CutShort(buf: Bs, offset: nat) {
    offset < |buf| && ((buf[offset] == 0 && |buf| < offset + 5) || (buf[offset] == 1 && |buf| < offset + 17))
  }

  /** After k well-formed endpoints the walk stands at an address tag with too few bytes left. */
  ghost predicate ReachesCut(buf: Bs, take: Taker, offset: nat, k: nat) {
    UnpackFrom(take, offset, k).Unpacked? && CutShort(buf, UnpackFrom(take, offset, k).offset)
  }

  ghost predicate CutWithin(buf: Bs, take: Taker, offset: nat, count: nat) {
    exists k: nat :: k < count && ReachesCut(buf, take, offset, k)
  }

  lemma ReachesCutStep(buf: Bs, take: Taker, offset: nat, k: nat)
    requires take(offset).Took?
    ensures ReachesCut(buf, take, offset, k + 1) <==> ReachesCut(buf, take, take(offset).offset, k)
  {
  }

  lemma {:induction false} EscapesIffReachesCut(buf: Bs, take: Taker, offset: nat, count: nat)
    requires forall o: nat :: take(o) == NotTaken(true) <==> CutShort(buf, o)
    ensures UnpackFrom(take, offset, count) == Failed(true) <==> CutWithin(buf, take, offset, count)
    decreases count
  {
    if count > 0 {
      var t := take(offset);
      assert ReachesCut(buf, take, offset, 0) <==> CutShort(buf, offset);
      if t.Took? {
        EscapesIffReachesCut(buf, take, t.offset, count - 1);
        if k: nat :| k < count - 1 && ReachesCut(buf, take, t.offset, k) {
          ReachesCutStep(buf, take, offset, k);
        }
        if k: nat :| k < count && ReachesCut(buf, take, offset, k) {
          ReachesCutStep(buf, take, offset, k - 1);
        }
      } else {
        assert forall k: nat :: k > 0 ==> UnpackFrom(take, offset, k) == Failed(t.escapes);
      }
    }
  }

  lemma TakeEscapesIff(c: Codec, buf: Bs, offset: nat)
    ensures TakeOne(c, buf, offset) == NotTaken(true) <==> CutShort(buf, offset)
  {
  }

  /** Exactly when a ValueError gets out of decoding. */
  lemma EscapesIffAddressCutShort(c: Codec, buf: Bs, offset: nat, count: nat)
    ensures UnpackFrom(TakerOf(c, buf), offset, count) == Failed(true) <==>
              CutWithin(buf, TakerOf(c, buf), offset, count)
  {
    forall o: nat ensures TakerOf(c, buf)(o) == NotTaken(true) <==> CutShort(buf, o) {
      TakeEscapesIff(c, buf, o);
    }
    EscapesIffReachesCut(buf, TakerOf(c, buf), offset, count);
  }

  // ---- whole links ------------------------------------------------------------------------

  const PUBLIC_KEY_LEN: nat := 32
  const SIGNATURE_LEN: nat := 64
  const CREATED_AT_LEN: nat := 4

  /** The bytes under the signature; None is the packing error for too many endpoints, a bad
      endpoint or a time that does not fit. */
  function Body(pack: Packer, key: Bs, es: seq<Endpoint>, createdAt: nat): Option<Bs> {
    Pow256Values();
    var packed := PackAll(pack, es);
    if |es| > 255 || packed.None? || createdAt > 0xFFFF_FFFF then None
    else Some(key + [|es| as byte] + packed.value + Pack(CREATED_AT_LEN, createdAt))
  }

  /** What create_link signs: it also refuses an empty list. */
  function SignedPayload(pack: Packer, key: Bs, es: seq<Endpoint>, createdAt: nat): Option<Bs> {
    if es == [] then None else Body(pack, key, es, createdAt)
  }

  function Domain(): Bs { Ascii(Signing.Tag(Signing.AddByLink)) }

  datatype Decoded = Decoded(key: Bs, endpoints: seq<Endpoint>, createdAt: nat) | Malformed | Escapes | BadSignature

  /** decode_link from the endpoint list on. */
  function Finish(verify: (Bs, Bs, Bs) -> bool, plain: Bs, u: Unpacked): Decoded
    requires |plain| >= PUBLIC_KEY_LEN
  {
    match u
    case Failed(escapes) => if escapes then Escapes else Malformed
    case Unpacked(es, offset) =>
      if |plain| < offset + CREATED_AT_LEN + SIGNATURE_LEN then Malformed
      else
        var key, end := plain[..PUBLIC_KEY_LEN], offset + CREATED_AT_LEN;
        if !verify(key, plain[end..end + SIGNATURE_LEN], Domain() + plain[..end]) then BadSignature
        else Decoded(key, es, Unpack(plain[offset..end]))
  }

  /** decode_link from the decrypted plaintext on. */
  function Decode(take: Taker, verify: (Bs, Bs, Bs) -> bool, plain: Bs): Decoded {
    if |plain| < PUBLIC_KEY_LEN + 1 + CREATED_AT_LEN + SIGNATURE_LEN then Malformed
    else Finish(verify, plain, UnpackFrom(take, PUBLIC_KEY_LEN + 1, plain[PUBLIC_KEY_LEN] as nat))
  }

  method DecodeLink(c: Codec, verify: (Bs, Bs, Bs) -> bool, plain: Bs) returns (r: Decoded)
    ensures r == Decode(TakerOf(c, plain), verify, plain)
  {
    if |plain| < PUBLIC_KEY_LEN + 1 + CREATED_AT_LEN + SIGNATURE_LEN {
      return Malformed;
    }
    var key := plain[..PUBLIC_KEY_LEN];
    var offset: nat := PUBLIC_KEY_LEN;
    var count := plain[offset] as nat;
    offset := offset + 1;
    var u := UnpackEndpoints(TakerOf(c, plain), offset, count);
    if u.Failed? {
      return if u.escapes then Escapes else Malformed;
    }
    offset := u.offset;
    if |plain| < offset + CREATED_AT_LEN + SIGNATURE_LEN {
      return Malformed;
    }
    var createdAt := Unpack(plain[offset..offset + CREATED_AT_LEN]);
    offset := offset + CREATED_AT_LEN;
    if !verify(key, plain[offset..offset + SIGNATURE_LEN], Domain() + plain[..offset]) {
      return BadSignature;
    }
    return Decoded(key, u.endpoints, createdAt);
  }

  /** Exactly when decode_link raises a ValueError. */
  lemma DecodeEscapesIff(c: Codec, verify: (Bs, Bs, Bs) -> bool, plain: Bs)
    ensures Decode(TakerOf(c, plain), verify, plain) == Escapes <==>
            && |plain| >= PUBLIC_KEY_LEN + 1 + CREATED_AT_LEN + SIGNATURE_LEN
            && CutWithin(plain, TakerOf(c, plain), PUBLIC_KEY_LEN + 1, plain[PUBLIC_KEY_LEN] as nat)
  {
    if |plain| >= PUBLIC_KEY_LEN + 1 + CREATED_AT_LEN + SIGNATURE_LEN {
      EscapesIffAddressCutShort(c, plain, PUBLIC_KEY_LEN + 1, plain[PUBLIC_KEY_LEN] as nat);
    }
  }

  lemma V6Taken(c: Codec, buf: Bs, offset: nat)
    requires offset + 19 <= |buf| && buf[offset] == 1
    ensures TakeOne(c, buf, offset).Took? && TakeOne(c, buf, offset).offset == offset + 19
  {
  }

  /** A plaintext of the least length that announces four endpoints and has the fourth address
      cut short, whatever the rest of it. */
  lemma FourthAddressEscapes(c: Codec, verify: (Bs, Bs, Bs) -> bool, plain: Bs)
    requires |plain| == 101 && plain[32] == 4 && plain[33] == 1 && plain[52] == 1 && plain[71] == 1 && plain[90] == 1
    ensures Decode(TakerOf(c, plain), verify, plain) == Escapes
  {
    var take := TakerOf(c, plain);
    V6Taken(c, plain, 33);
    V6Taken(c, plain, 52);
    V6Taken(c, plain, 71);
    TakeEscapesIff(c, plain, 90);
    CutAfterThree(take, 33, 52, 71, 90);
  }

  lemma CutAfterThree(take: Taker, a: nat, b: nat, c: nat, d: nat)
    requires take(a).Took? && take(a).offset == b && take(b).Took? && take(b).offset == c
    requires take(c).Took? && take(c).offset == d && take(d) == NotTaken(true)
    ensures UnpackFrom(take, a, 4) == Failed(true)
  {
    assert UnpackFrom(take, d, 1) == Failed(true);
    assert UnpackFrom(take, c, 2) == Failed(true);
    assert UnpackFrom(take, b, 3) == Failed(true);
  }

  lemma FinishFinds(verify: (Bs, Bs, Bs) -> bool, key: Bs, mid: Bs, createdAt: nat, sig: Bs, es: seq<Endpoint>)
    requires |key| == PUBLIC_KEY_LEN && |sig| == SIGNATURE_LEN && createdAt < Pow256(CREATED_AT_LEN)
    ensures var signed := key + mid + Pack(CREATED_AT_LEN, createdAt);
            Finish(verify, signed + sig, Unpacked(es, |key + mid|)) ==
            if verify(key, sig, Domain() + signed) then Decoded(key, es, createdAt) else BadSignature
  {
    var time := Pack(CREATED_AT_LEN, createdAt);
    var signed := key + mid + time;
    var plain, offset := signed + sig, |key + mid|;
    assert plain[..PUBLIC_KEY_LEN] == key && plain[offset..offset + CREATED_AT_LEN] == time;
    assert plain[offset + CREATED_AT_LEN..offset + CREATED_AT_LEN + SIGNATURE_LEN] == sig;
    assert plain[..offset + CREATED_AT_LEN] == signed;
    UnpackPack(CREATED_AT_LEN, createdAt);
  }

  lemma DecodeOfCreateAt(c: Codec, take: Taker, pack: Packer, verify: (Bs, Bs, Bs) -> bool,
                         key: Bs, es: seq<Endpoint>, createdAt: nat, sig: Bs, signed: Bs)
    requires |key| == PUBLIC_KEY_LEN && |sig| == SIGNATURE_LEN
    requires SignedPayload(pack, key, es, createdAt) == Some(signed)
    requires Reads(c, signed + sig, take, pack)
    ensures Decode(take, verify, signed + sig) ==
            if verify(key, sig, Domain() + signed) then Decoded(key, CanonicalAll(c, es), createdAt) else BadSignature
  {
    Pow256Values();
    var packed, time := PackAll(pack, es).value, Pack(CREATED_AT_LEN, createdAt);
    var count := [|es| as byte];
    var plain := signed + sig;
    assert plain == (key + count) + packed + (time + sig);
    assert At(plain, PUBLIC_KEY_LEN + 1, packed) && plain[PUBLIC_KEY_LEN] as nat == |es|;
    UnpackOfPackAt(c, plain, take, pack, es, PUBLIC_KEY_LEN + 1);
    assert signed == key + (count + packed) + time;
    FinishFinds(verify, key, count + packed, createdAt, sig, CanonicalAll(c, es));
  }

  /** decode_link finds the time and the signature where create_link put them: a genuine link
      gives back its key, its endpoints in canonical spelling and its time. */
  lemma DecodeOfCreate(c: Codec, verify: (Bs, Bs, Bs) -> bool, key: Bs, es: seq<Endpoint>, createdAt: nat, sig: Bs,
                       signed: Bs)
    requires Lawful(c) && |key| == PUBLIC_KEY_LEN && |sig| == SIGNATURE_LEN
    requires SignedPayload(PackerOf(c), key, es, createdAt) == Some(signed)
    ensures Decode(TakerOf(c, signed + sig), verify, signed + sig) ==
            if verify(key, sig, Domain() + signed) then Decoded(key, CanonicalAll(c, es), createdAt) else BadSignature
  {
    SingleEndpoints(c, signed + sig);
    DecodeOfCreateAt(c, TakerOf(c, signed + sig), PackerOf(c), verify, key, es, createdAt, sig, signed);
  }

  /** Whatever decode_link accepts, the key's owner signed exactly those endpoints and that
      time: the verified bytes are what create_link signs for them. A link without endpoints, which
      create_link refuses to make, is accepted too. */
  lemma AcceptedWasSigned(c: Codec, verify: (Bs, Bs, Bs) -> bool, plain: Bs)
    requires Lawful(c) && Decode(TakerOf(c, plain), verify, plain).Decoded?
    ensures var d := Decode(TakerOf(c, plain), verify, plain);
            SignedAs(verify, plain, d.key, Body(PackerOf(c), d.key, d.endpoints, d.createdAt))
  {
    SingleEndpoints(c, plain);
    AcceptedWasSignedAt(TakerOf(c, plain), PackerOf(c), verify, plain);
  }

  /** The payload opens the plaintext and a valid signature over it follows. */
  predicate SignedAs(verify: (Bs, Bs, Bs) -> bool, plain: Bs, key: Bs, signed: Option<Bs>) {
    && signed.Some? && signed.value <= plain && |signed.value| + SIGNATURE_LEN <= |plain|
    && verify(key, plain[|signed.value|..|signed.value| + SIGNATURE_LEN], Domain() + signed.value)
  }

  lemma AcceptedWasSignedAt(take: Taker, pack: Packer, verify: (Bs, Bs, Bs) -> bool, plain: Bs)
    requires Writes(plain, take, pack) && Decode(take, verify, plain).Decoded?
    ensures var d := Decode(take, verify, plain);
            SignedAs(verify, plain, d.key, Body(pack, d.key, d.endpoints, d.createdAt))
  {
    PackOfUnpack(plain, take, pack, PUBLIC_KEY_LEN + 1, plain[PUBLIC_KEY_LEN] as nat);
    AcceptedIsPayload(pack, verify, plain, UnpackFrom(take, PUBLIC_KEY_LEN + 1, plain[PUBLIC_KEY_LEN] as nat));
  }

  /** Exactly what cannot be signed: no endpoint or more than 255, one that cannot be packed, or
      a time that does not fit. */
  lemma {:induction false} UnsignableIff(pack: Packer, key: Bs, es: seq<Endpoint>, createdAt: nat)
    ensures SignedPayload(pack, key, es, createdAt).None? <==>
              |es| == 0 || |es| > 255 || createdAt >= 4294967296 || exists e :: e in es && pack(e).None?
  {
    UnpackableIff(pack, es);
  }

  lemma {:induction false} UnpackableIff(pack: Packer, es: seq<Endpoint>)
    ensures PackAll(pack, es).None? <==> exists e :: e in es && pack(e).None?
  {
    if es != [] {
      UnpackableIff(pack, es[1..]);
      assert forall e :: e in es <==> e == es[0] || e in es[1..];
    }
  }

  lemma SliceAgain(buf: Bs, tail: Bs, from: nat, to: nat)
    requires from <= to && |Slice(buf, from, to)| == to - from
    ensures Slice(buf + tail, from, to) == Slice(buf, from, to)
  {
    if from < to {
      assert to <= |buf|;
      assert (buf + tail)[from..to] == buf[from..to];
    }
  }

  lemma PortAgain(buf: Bs, tail: Bs, kind: Kind, host: string, offset: nat)
    requires TakePort(buf, kind, host, offset).Took?
    ensures TakePort(buf + tail, kind, host, offset) == TakePort(buf, kind, host, offset)
  {
    SliceAgain(buf, tail, offset, offset + 2);
  }

  lemma NameAgain(buf: Bs, tail: Bs, fromUtf8: Bs -> Option<string>, offset: nat)
    requires TakeName(buf, fromUtf8, offset).Took?
    ensures TakeName(buf + tail, fromUtf8, offset) == TakeName(buf, fromUtf8, offset)
  {
    var n := buf[offset] as nat;
    assert (buf + tail)[offset] == buf[offset];
    assert |Slice(buf, offset + 1 + n, offset + 3 + n)| == 2;
    SliceAgain(buf, tail, offset + 1, offset + 1 + n);
    PortAgain(buf, tail, Rendezvous, fromUtf8(Slice(buf, offset + 1, offset + 1 + n)).value, offset + 1 + n);
  }

  lemma AddressAgain(buf: Bs, tail: Bs, kind: Kind, ntop: Bs -> string, width: nat, offset: nat)
    requires TakeAddress(buf, kind, ntop, width, offset).Took?
    ensures TakeAddress(buf + tail, kind, ntop, width, offset) == TakeAddress(buf, kind, ntop, width, offset)
  {
    SliceAgain(buf, tail, offset, offset + width);
    PortAgain(buf, tail, kind, ntop(Slice(buf, offset, offset + width)), offset + width);
  }

  lemma TakenAgain(c: Codec, buf: Bs, tail: Bs, offset: nat)
    requires TakeOne(c, buf, offset).Took?
    ensures TakeOne(c, buf + tail, offset) == TakeOne(c, buf, offset)
  {
    assert (buf + tail)[offset] == buf[offset];
    if buf[offset] == 0 {
      AddressAgain(buf, tail, DirectV4, c.ntop4, 4, offset + 1);
    } else if buf[offset] == 1 {
      AddressAgain(buf, tail, DirectV6, c.ntop6, 16, offset + 1);
    } else {
      NameAgain(buf, tail, c.fromUtf8, offset + 1);
    }
  }

  lemma {:induction false} UnpackedAgain(c: Codec, buf: Bs, tail: Bs, offset: nat, count: nat)
    requires UnpackFrom(TakerOf(c, buf), offset, count).Unpacked?
    ensures UnpackFrom(TakerOf(c, buf + tail), offset, count) == UnpackFrom(TakerOf(c, buf), offset, count)
    decreases count
  {
    if count > 0 {
      TakenAgain(c, buf, tail, offset);
      UnpackedAgain(c, buf, tail, TakeOne(c, buf, offset).offset, count - 1);
    }
  }

  /** Bytes after the signature are not looked at. */
  lemma TrailingBytesAreIgnored(c: Codec, verify: (Bs, Bs, Bs) -> bool, plain: Bs, tail: Bs)
    requires Decode(TakerOf(c, plain), verify, plain).Decoded?
    ensures Decode(TakerOf(c, plain + tail), verify, plain + tail) == Decode(TakerOf(c, plain), verify, plain)
  {
    var whole, count := plain + tail, plain[PUBLIC_KEY_LEN] as nat;
    assert whole[PUBLIC_KEY_LEN] == plain[PUBLIC_KEY_LEN];
    UnpackedAgain(c, plain, tail, PUBLIC_KEY_LEN + 1, count);
    var offset := UnpackFrom(TakerOf(c, plain), PUBLIC_KEY_LEN + 1, count).offset;
    var end := offset + CREATED_AT_LEN;
    assert whole[..PUBLIC_KEY_LEN] == plain[..PUBLIC_KEY_LEN] && whole[..end] == plain[..end];
    assert whole[end..end + SIGNATURE_LEN] == plain[end..end + SIGNATURE_LEN];
    assert whole[offset..end] == plain[offset..end];
  }

  lemma AcceptedIsPayload(pack: Packer, verify: (Bs, Bs, Bs) -> bool, plain: Bs, u: Unpacked)
    requires |plain| > PUBLIC_KEY_LEN && u.Unpacked? && PUBLIC_KEY_LEN + 1 <= u.offset <= |plain|
    requires |u.endpoints| == plain[PUBLIC_KEY_LEN] as nat
    requires PackAll(pack, u.endpoints) == Some(plain[PUBLIC_KEY_LEN + 1..u.offset])
    requires Finish(verify, plain, u).Decoded?
    ensures var d := Finish(verify, plain, u);
            Body(pack, d.key, d.endpoints, d.createdAt) == Some(plain[..u.offset + CREATED_AT_LEN])
  {
    Pow256Values();
    var start, offset := PUBLIC_KEY_LEN + 1, u.offset;
    PackUnpack(plain[offset..offset + CREATED_AT_LEN]);
    assert plain[..offset + CREATED_AT_LEN]
        == plain[..PUBLIC_KEY_LEN] + [plain[PUBLIC_KEY_LEN]] + plain[start..offset]
           + plain[offset..offset + CREATED_AT_LEN];
  }
}
