/** The byte strings that devices sign: domain tags, length-prefixed fields, and k-of-n
    approvals over them. */
module Signing {
  import opened Bytes
  import Handshake

  type Bs = seq<byte>

  // ---- length-prefixed fields -------------------------------------------------------

  /** A text item with its four-byte length, a four-byte word, or an eight-byte double given
      by its representation. */
  datatype Item = Text(bytes: Bs) | Word(value: int) | Double(bits: Bs)
  datatype Shape = IsText | IsWord | IsDouble

  predicate Packable(i: Item) {
    match i
    case Text(b) => |b| <= 0xFFFF_FFFF
    case Word(n) => 0 <= n <= 0xFFFF_FFFF
    case Double(b) => |b| == 8
  }

  predicate AllPackable(items: seq<Item>) {
    forall i :: 0 <= i < |items| ==> Packable(items[i])
  }

  function ShapeOf(i: Item): Shape {
    match i case Text(_) => IsText case Word(_) => IsWord case Double(_) => IsDouble
  }

  function Shapes(items: seq<Item>): seq<Shape> {
    seq(|items|, i requires 0 <= i < |items| => ShapeOf(items[i]))
  }

  function PackItem(i: Item): Bs
    requires Packable(i)
  {
    Pow256Values();
    match i case Text(b) => Pack(4, |b|) + b case Word(n) => Pack(4, n) case Double(b) => b
  }

  function PackItems(items: seq<Item>): Bs
    requires AllPackable(items)
  {
    if items == [] then [] else PackItem(items[0]) + PackItems(items[1..])
  }

  /** Read one item of a given shape off the front. */
  function TakeItem(s: Shape, b: Bs): Option<(Item, Bs)> {
    match s
    case IsText =>
      if |b| < 4 || |b| - 4 < Unpack(b[..4]) then None
      else Some((Text(b[4..4 + Unpack(b[..4])]), b[4 + Unpack(b[..4])..]))
    case IsWord => if |b| < 4 then None else Some((Word(Unpack(b[..4])), b[4..]))
    case IsDouble => if |b| < 8 then None else Some((Double(b[..8]), b[8..]))
  }

  function TakeItems(shapes: seq<Shape>, b: Bs): Option<(seq<Item>, Bs)> {
    if shapes == [] then Some(([], b))
    else match TakeItem(shapes[0], b)
      case None => None
      case Some((i, rest)) =>
        match TakeItems(shapes[1..], rest)
        case None => None
        case Some((more, tail)) => Some(([i] + more, tail))
  }

  lemma TakePackedItem(i: Item, tail: Bs)
    requires Packable(i)
    ensures TakeItem(ShapeOf(i), PackItem(i) + tail) == Some((i, tail))
  {
    Pow256Values();
    var b := PackItem(i) + tail;
    match i
    case Text(t) =>
      UnpackPack(4, |t|);
      assert b[..4] == Pack(4, |t|) && b[4..4 + |t|] == t && b[4 + |t|..] == tail;
    case Word(n) =>
      UnpackPack(4, n);
      assert b[..4] == Pack(4, n) && b[4..] == tail;
    case Double(d) => assert b[..8] == d && b[8..] == tail;
  }

  lemma TakeItemsCons(shape: Shape, more: seq<Shape>, b: Bs, i: Item, rest: Bs, items: seq<Item>, tail: Bs)
    requires TakeItem(shape, b) == Some((i, rest)) && TakeItems(more, rest) == Some((items, tail))
    ensures TakeItems([shape] + more, b) == Some(([i] + items, tail))
  {
    assert ([shape] + more)[1..] == more;
  }

  lemma PackedFirst(items: seq<Item>, tail: Bs)
    requires items != [] && AllPackable(items)
    ensures PackItems(items) + tail == PackItem(items[0]) + (PackItems(items[1..]) + tail)
    ensures Shapes(items) == [ShapeOf(items[0])] + Shapes(items[1..])
  {
    var first, more := PackItem(items[0]), PackItems(items[1..]);
    assert (first + more) + tail == first + (more + tail);
  }

  lemma TakeFirst(items: seq<Item>, bytes: Bs, rest: Bs, tail: Bs)
    requires items != []
    requires TakeItem(ShapeOf(items[0]), bytes) == Some((items[0], rest))
    requires TakeItems(Shapes(items[1..]), rest) == Some((items[1..], tail))
    ensures TakeItems([ShapeOf(items[0])] + Shapes(items[1..]), bytes) == Some((items, tail))
  {
    TakeItemsCons(ShapeOf(items[0]), Shapes(items[1..]), bytes, items[0], rest, items[1..], tail);
    assert items == [items[0]] + items[1..];
  }

  /** Packed items are read back exactly, whatever follows them. */
  lemma {:induction false} TakePackedItems(items: seq<Item>, tail: Bs)
    requires AllPackable(items)
    ensures TakeItems(Shapes(items), PackItems(items) + tail) == Some((items, tail))
    decreases |items|
  {
    if items == [] {
      assert PackItems(items) + tail == tail;
    } else {
      var rest := PackItems(items[1..]) + tail;
      TakePackedItem(items[0], rest);
      TakePackedItems(items[1..], tail);
      TakeFirst(items, PackItem(items[0]) + rest, rest, tail);
      PackedFirst(items, tail);
    }
  }

  // ---- domain tags ----------------------------------------------------------------------

  /** Everything a device key signs outside the handshake. */
  datatype Domain =
    | Rotation | JoinRequest | JoinResponse | LeaveRequest | LeaveResponse | MembershipRevoke
    | ExportRequest | ExportCapability | AdminApproval | GroupPolicy | Membership
    | AddByLink | EndpointUpdate | SecurityEvent

  /** The tag without its final NUL. */
  function Name(d: Domain): string {
    match d
    case Rotation => "peerc-key-rotation"
    case AddByLink => "peerc-add-by-link"
    case EndpointUpdate => "peerc-endpoint-update"
    case SecurityEvent => "peerc-security-event"
    case _ => "peerc-group-" + GroupName(d)
  }

  function GroupName(d: Domain): string {
    match d
    case JoinRequest => "join-request"
    case JoinResponse => "join-response"
    case LeaveRequest => "leave-request"
    case LeaveResponse => "leave-response"
    case MembershipRevoke => "membership-revoke"
    case ExportRequest => "export-request"
    case ExportCapability => "export-capability"
    case AdminApproval => "admin-approval"
    case GroupPolicy => "policy"
    case Membership => "membership"
    case _ => ""
  }

  function Tag(d: Domain): string { Name(d) + ['\0'] }

  /** Enough of a tag to tell it from the others. */
  function Probe(d: Domain): (char, char, nat) {
    (Tag(d)[6], Tag(d)[12], |Tag(d)|)
  }

  lemma ProbeTellsApart(d: Domain, e: Domain)
    requires Probe(d) == Probe(e)
    ensures d == e
  {
  }

  predicate Terminated(b: Bs) {
    b != [] && b[|b| - 1] == 0 && forall i :: 0 <= i < |b| - 1 ==> b[i] != 0
  }

  /** ASCII without NUL. */
  predicate Clean(s: string) {
    forall i :: 0 <= i < |s| ==> 0 < s[i] as int < 128
  }

  lemma CleanConcat(s: string, t: string)
    requires Clean(s) && Clean(t)
    ensures Clean(s + t)
  {
  }

  lemma JoinOrLeaveNameIsClean(d: Domain)
    requires d in {JoinRequest, JoinResponse, LeaveRequest, LeaveResponse, GroupPolicy}
    ensures Clean(GroupName(d))
  {
  }

  lemma AuthorityNameIsClean(d: Domain)
    requires d !in {JoinRequest, JoinResponse, LeaveRequest, LeaveResponse, GroupPolicy}
    ensures Clean(GroupName(d))
  {
  }

  lemma GroupNameIsClean(d: Domain)
    ensures Clean(GroupName(d))
  {
    if d in {JoinRequest, JoinResponse, LeaveRequest, LeaveResponse, GroupPolicy} {
      JoinOrLeaveNameIsClean(d);
    } else {
      AuthorityNameIsClean(d);
    }
  }

  lemma OtherNameIsClean(d: Domain)
    requires GroupName(d) == ""
    ensures Clean(Name(d))
  {
  }

  lemma NameIsClean(d: Domain)
    ensures Clean(Name(d))
  {
    if GroupName(d) == "" {
      OtherNameIsClean(d);
    } else {
      GroupNameIsClean(d);
      CleanConcat("peerc-group-", GroupName(d));
    }
  }

  lemma CleanTextIsTerminated(s: string)
    requires Clean(s)
    ensures Terminated(Ascii(s + ['\0'])) && IsAscii(s + ['\0'])
  {
    var t := s + ['\0'];
    forall i | 0 <= i < |s| ensures Ascii(t)[i] != 0 {
      assert t[i] == s[i];
    }
  }

  lemma TagIsTerminated(d: Domain)
    ensures Terminated(Ascii(Tag(d))) && IsAscii(Tag(d))
  {
    NameIsClean(d);
    CleanTextIsTerminated(Name(d));
  }

  lemma CutTerminated(p: Bs, x: Bs, q: Bs, y: Bs)
    requires Terminated(p) && Terminated(q) && p + x == q + y
    ensures p == q && x == y
  {
    var whole := p + x;
    assert whole == q + y;
    assert whole[|p| - 1] == p[|p| - 1] && whole[|q| - 1] == q[|q| - 1];
    assert p == whole[..|p|] && q == whole[..|q|];
    assert x == whole[|p|..] && y == whole[|q|..];
  }

  /** No tag is a prefix of what another tag begins: signed bytes show their domain. */
  lemma DomainIsDetermined(d: Domain, x: Bs, e: Domain, y: Bs)
    requires Ascii(Tag(d)) + x == Ascii(Tag(e)) + y
    ensures d == e && x == y
  {
    TagIsTerminated(d);
    TagIsTerminated(e);
    CutTerminated(Ascii(Tag(d)), x, Ascii(Tag(e)), y);
    AsciiInjective(Tag(d), Tag(e));
    assert Probe(d) == Probe(e);
    ProbeTellsApart(d, e);
  }

  /** None of it can be taken for a handshake transcript, which is what the handshake asks of
      every other use of an identity key. */
  lemma OutsideTheHandshake(d: Domain, x: Bs)
    ensures !(Ascii(Handshake.RESPONDER_DOMAIN) <= Ascii(Tag(d)) + x)
    ensures !(Ascii(Handshake.INITIATOR_DOMAIN) <= Ascii(Tag(d)) + x)
  {
    var b := Ascii(Tag(d)) + x;
    assert b[6] == Ascii(Tag(d))[6];
    assert Tag(d)[6] != 'v';
    assert Handshake.RESPONDER_DOMAIN[6] == 'v' && Handshake.INITIATOR_DOMAIN[6] == 'v';
    assert Ascii(Handshake.RESPONDER_DOMAIN)[6] != b[6] && Ascii(Handshake.INITIATOR_DOMAIN)[6] != b[6];
  }

  // ---- the payloads -------------------------------------------------------------------------

  /** Timestamps are given by their eight-byte representation. */
  datatype Payload =
    | Approval(group: string, action: string, content: Bs)
    | Request(request: string, device: string, group: string, file: string, action: string, at: Bs,
              reason: Option<string>)
    | Capability(capability: string, request: string, device: string, group: string, file: string, action: string,
                 at: Bs, expires: Bs, nonce: string, admin: Option<string>)
    | Update(device: string, kind: string, host: string, port: int, at: Bs, nonce: string)

  type Utf8 = string -> Bs

  function OrEmpty(s: Option<string>): string { if s.Some? then s.value else "" }

  function DomainOf(p: Payload): Domain {
    match p
    case Approval(_, _, _) => AdminApproval
    case Request(_, _, _, _, _, _, _) => ExportRequest
    case Capability(_, _, _, _, _, _, _, _, _, _) => ExportCapability
    case Update(_, _, _, _, _, _) => EndpointUpdate
  }

  function Items(u: Utf8, p: Payload): seq<Item> {
    match p
    case Approval(g, a, c) => [Text(u(g)), Text(u(a)), Text(c)]
    case Request(r, d, g, f, a, t, why) =>
      [Text(u(r)), Text(u(d)), Text(u(g)), Text(u(f)), Text(u(a)), Double(t), Text(u(OrEmpty(why)))]
    case Capability(c, r, d, g, f, a, t, e, n, admin) =>
      [Text(u(c)), Text(u(r)), Text(u(d)), Text(u(g)), Text(u(f)), Text(u(a)), Double(t), Double(e), Text(u(n)),
       Text(u(OrEmpty(admin)))]
    case Update(d, k, h, port, t, n) => [Text(u(d)), Text(u(k)), Text(u(h)), Word(port), Double(t), Text(u(n))]
  }

  /** None is the packing error for a field too long or a port out of range. */
  function PayloadBytes(u: Utf8, p: Payload): Option<Bs> {
    if AllPackable(Items(u, p)) then Some(Ascii(Tag(DomainOf(p))) + PackItems(Items(u, p))) else None
  }

  /** A missing reason or admin is signed as the empty string. */
  function Normal(p: Payload): Payload {
    match p
    case Request(_, _, _, _, _, _, why) => p.(reason := Some(OrEmpty(why)))
    case Capability(_, _, _, _, _, _, _, _, _, admin) => p.(admin := Some(OrEmpty(admin)))
    case _ => p
  }

  lemma ItemsDetermine(u: Utf8, p: Payload, q: Payload)
    requires forall s, t :: u(s) == u(t) ==> s == t
    requires DomainOf(p) == DomainOf(q)
    ensures Items(u, p) == Items(u, q) <==> Normal(p) == Normal(q)
  {
    var a, b := Items(u, p), Items(u, q);
    if a == b {
      assert forall i :: 0 <= i < |a| ==> a[i] == b[i];
      match p
      case Approval(_, _, _) => assert a[0] == b[0] && a[1] == b[1] && a[2] == b[2];
      case Request(_, _, _, _, _, _, _) =>
        assert a[0] == b[0] && a[1] == b[1] && a[2] == b[2] && a[3] == b[3] && a[4] == b[4] && a[5] == b[5]
          && a[6] == b[6];
      case Capability(_, _, _, _, _, _, _, _, _, _) =>
        assert a[0] == b[0] && a[1] == b[1] && a[2] == b[2] && a[3] == b[3] && a[4] == b[4];
        assert a[5] == b[5] && a[6] == b[6] && a[7] == b[7] && a[8] == b[8] && a[9] == b[9];
      case Update(_, _, _, _, _, _) =>
        assert a[0] == b[0] && a[1] == b[1] && a[2] == b[2] && a[3] == b[3] && a[4] == b[4] && a[5] == b[5];
    }
  }

  /** Two payloads have the same signed bytes exactly when they are of the same kind with the
      same fields, a missing optional field counting as empty. */
  lemma SameBytesIffSamePayload(u: Utf8, p: Payload, q: Payload)
    requires forall s, t :: u(s) == u(t) ==> s == t
    requires PayloadBytes(u, p).Some? && PayloadBytes(u, q).Some?
    ensures PayloadBytes(u, p) == PayloadBytes(u, q) <==> Normal(p) == Normal(q)
  {
    var a, b := Items(u, p), Items(u, q);
    if PayloadBytes(u, p) == PayloadBytes(u, q) {
      DomainIsDetermined(DomainOf(p), PackItems(a), DomainOf(q), PackItems(b));
      SameShapes(u, p, q);
      TakePackedItems(a, []);
      TakePackedItems(b, []);
      ItemsDetermine(u, p, q);
    }
    if Normal(p) == Normal(q) {
      assert DomainOf(p) == DomainOf(Normal(p)) == DomainOf(q);
      ItemsDetermine(u, p, q);
    }
  }

  /** Exactly what cannot be signed: a text of four gigabytes, a number that is not of 32 bits, a
      double that is not of eight bytes. */
  lemma UnsignableIff(u: Utf8, p: Payload)
    ensures PayloadBytes(u, p).None? <==>
              exists i :: 0 <= i < |Items(u, p)| &&
                match Items(u, p)[i]
                case Text(b) => |b| >= 4294967296
                case Word(n) => n < 0 || n >= 4294967296
                case Double(b) => |b| != 8
  {
    var items := Items(u, p);
    if !AllPackable(items) {
      var i :| 0 <= i < |items| && !Packable(items[i]);
      assert 0 <= i < |items|;
    }
  }

  /** The bytes are the tag, and then fields that are read one after the other as `items`. */
  predicate ReadsAs(m: Bs, tag: string, items: seq<Item>) {
    Ascii(tag) <= m && TakeItems(Shapes(items), m[|Ascii(tag)|..]) == Some((items, []))
  }

  lemma ReadsAsItems(u: Utf8, p: Payload)
    requires PayloadBytes(u, p).Some?
    ensures ReadsAs(PayloadBytes(u, p).value, Tag(DomainOf(p)), Items(u, p))
  {
    var items, tag := Items(u, p), Ascii(Tag(DomainOf(p)));
    TakePackedItems(items, []);
    assert PackItems(items) + [] == PackItems(items);
    assert (tag + PackItems(items))[|tag|..] == PackItems(items);
  }

  /** What is found in signed bytes, in this order, by whoever reads the fields: of an approval, */
  lemma ApprovalFieldsInOrder(u: Utf8, group: string, action: string, content: Bs)
    requires PayloadBytes(u, Approval(group, action, content)).Some?
    ensures ReadsAs(PayloadBytes(u, Approval(group, action, content)).value, Tag(AdminApproval),
                    [Text(u(group)), Text(u(action)), Text(content)])
  {
    ReadsAsItems(u, Approval(group, action, content));
  }

  /** of a request to export, */
  lemma RequestFieldsInOrder(u: Utf8, p: Payload)
    requires p.Request? && PayloadBytes(u, p).Some?
    ensures ReadsAs(PayloadBytes(u, p).value, Tag(ExportRequest),
                    [Text(u(p.request)), Text(u(p.device)), Text(u(p.group)), Text(u(p.file)), Text(u(p.action)),
                     Double(p.at), Text(u(if p.reason.Some? then p.reason.value else ""))])
  {
    ReadsAsItems(u, p);
  }

  /** of a capability, */
  lemma CapabilityFieldsInOrder(u: Utf8, p: Payload)
    requires p.Capability? && PayloadBytes(u, p).Some?
    ensures ReadsAs(PayloadBytes(u, p).value, Tag(ExportCapability),
                    [Text(u(p.capability)), Text(u(p.request)), Text(u(p.device)), Text(u(p.group)), Text(u(p.file)),
                     Text(u(p.action)), Double(p.at), Double(p.expires), Text(u(p.nonce)),
                     Text(u(if p.admin.Some? then p.admin.value else ""))])
  {
    ReadsAsItems(u, p);
  }

  /** and of an endpoint update. */
  lemma UpdateFieldsInOrder(u: Utf8, p: Payload)
    requires p.Update? && PayloadBytes(u, p).Some?
    ensures ReadsAs(PayloadBytes(u, p).value, Tag(EndpointUpdate),
                    [Text(u(p.device)), Text(u(p.kind)), Text(u(p.host)), Word(p.port), Double(p.at), Text(u(p.nonce))])
  {
    ReadsAsItems(u, p);
  }

  lemma SameShapes(u: Utf8, p: Payload, q: Payload)
    requires DomainOf(p) == DomainOf(q)
    ensures Shapes(Items(u, p)) == Shapes(Items(u, q))
  {
    match p
    case Approval(_, _, _) =>
    case Request(_, _, _, _, _, _, _) =>
    case Capability(_, _, _, _, _, _, _, _, _, _) =>
    case Update(_, _, _, _, _, _) =>
  }

  // ---- k-of-n approvals -----------------------------------------------------------------------

  /** `verify(key, signature, message)` covers base64 decoding too. */
  datatype Crypto = Crypto(utf8: Utf8, sign: (Bs, Bs) -> string, verify: (Bs, string, Bs) -> bool)

  predicate VerifiesFor(c: Crypto, message: Option<Bs>, signatures: map<string, string>, device: string, key: Bs) {
    message.Some? && device in signatures && c.verify(key, signatures[device], message.value)
  }

  /** The active admins whose signature on the approval verifies. */
  function Signers(c: Crypto, message: Option<Bs>, signatures: map<string, string>,
                   admins: map<string, Bs>): set<string>
  {
    set d | d in admins && VerifiesFor(c, message, signatures, d, admins[d])
  }

  /** Who counts: an active admin with a signature under its own id that its own key verifies. */
  lemma SignersAre(c: Crypto, message: Option<Bs>, signatures: map<string, string>, admins: map<string, Bs>, d: string)
    ensures d in Signers(c, message, signatures, admins) <==>
              && message.Some? && d in admins && d in signatures
              && c.verify(admins[d], signatures[d], message.value)
  {
  }

  lemma CountOne(signers: set<string>, todo: set<string>, d: string)
    requires d in todo
    ensures |signers - (todo - {d})| == |signers - todo| + if d in signers then 1 else 0
  {
    if d in signers {
      assert signers - (todo - {d}) == (signers - todo) + {d};
    } else {
      assert signers - (todo - {d}) == signers - todo;
    }
  }

  /** The loop of count_valid_signatures. */
  method CountVerified(c: Crypto, message: Option<Bs>, signatures: map<string, string>,
                       admins: map<string, Bs>)
    returns (n: nat)
    ensures n == |Signers(c, message, signatures, admins)|
  {
    n := 0;
    var todo := admins.Keys;
    ghost var signers := Signers(c, message, signatures, admins);
    assert signers - todo == {};
    while todo != {}
      invariant todo <= admins.Keys && n == |signers - todo|
      decreases |todo|
    {
      var d :| d in todo;
      CountOne(signers, todo, d);
      todo := todo - {d};
      if VerifiesFor(c, message, signatures, d, admins[d]) {
        n := n + 1;
      }
    }
    assert signers - {} == signers;
  }

  class ThresholdApproval {
    const c: Crypto
    const group: string
    const action: string
    const content: Bs
    const threshold: nat
    var signatures: map<string, string>

    constructor (c: Crypto, group: string, action: string, content: Bs, threshold: nat)
      requires threshold >= 1 && group != "" && action != ""
      ensures this.c == c && this.group == group && this.action == action && this.content == content
      ensures this.threshold == threshold
      ensures signatures == map[]
    {
      this.c, this.group, this.action, this.content, this.threshold := c, group, action, content, threshold;
      signatures := map[];
    }

    function Message(): Option<Bs> { PayloadBytes(c.utf8, Approval(group, action, content)) }

    /** One vote per device: a second one is refused and changes nothing. */
    method SignApproval(device: string, key: Bs) returns (ok: bool)
      modifies this
      ensures ok <==> device !in old(signatures) && Message().Some?
      ensures signatures == if ok then old(signatures)[device := c.sign(key, Message().value)] else old(signatures)
    {
      if device in signatures {
        return false;
      }
      var message := Message();
      if message.None? {
        return false;
      }
      signatures := signatures[device := c.sign(key, message.value)];
      return true;
    }

    method CountValidSignatures(admins: map<string, Bs>) returns (n: nat)
      ensures n == |Signers(c, Message(), signatures, admins)|
    {
      n := CountVerified(c, Message(), signatures, admins);
    }

    method IsApproved(admins: map<string, Bs>) returns (ok: bool)
      ensures ok <==> |Signers(c, Message(), signatures, admins)| >= threshold
    {
      var n := CountValidSignatures(admins);
      return n >= threshold;
    }
  }

  /** The key's owner signed bytes that no other payload has. */
  ghost predicate SignedExactly(c: Crypto, signed: set<(Bs, Bs)>, key: Bs, group: string, action: string, content: Bs) {
    exists m ::
      && (key, m) in signed
      && forall p :: PayloadBytes(c.utf8, p) == Some(m) <==> p == Approval(group, action, content)
  }

  /** Approval means that at least k currently active admins signed, and that what they signed
      is this group's this action and nothing else. `signed` is everything ever signed. */
  lemma ApprovalMeansSigned(c: Crypto, group: string, action: string, content: Bs, k: nat,
                            signatures: map<string, string>, admins: map<string, Bs>, signed: set<(Bs, Bs)>)
    requires forall s, t :: c.utf8(s) == c.utf8(t) ==> s == t
    requires var m := PayloadBytes(c.utf8, Approval(group, action, content));
             && |Signers(c, m, signatures, admins)| >= k
             && forall d :: d in Signers(c, m, signatures, admins) ==> (admins[d], m.value) in signed
    ensures exists voters: set<string> ::
              && |voters| >= k && voters <= admins.Keys
              && forall d :: d in voters ==> SignedExactly(c, signed, admins[d], group, action, content)
  {
    var p0 := Approval(group, action, content);
    var m := PayloadBytes(c.utf8, p0);
    var voters := Signers(c, m, signatures, admins);
    forall d | d in voters ensures SignedExactly(c, signed, admins[d], group, action, content) {
      forall p | PayloadBytes(c.utf8, p) == Some(m.value) ensures p == p0 {
        SameBytesIffSamePayload(c.utf8, p, p0);
      }
      assert (admins[d], m.value) in signed;
    }
  }

  function KeysOf(voters: set<string>, admins: map<string, Bs>): set<Bs>
    requires voters <= admins.Keys
  {
    set d | d in voters :: admins[d]
  }

  predicate OneKeyEach(voters: set<string>, admins: map<string, Bs>)
    requires voters <= admins.Keys
  {
    forall d, e :: d in voters && e in voters && admins[d] == admins[e] ==> d == e
  }

  lemma {:induction false} ImageSize(voters: set<string>, admins: map<string, Bs>)
    requires voters <= admins.Keys
    ensures |KeysOf(voters, admins)| <= |voters|
    ensures |KeysOf(voters, admins)| == |voters| <==> OneKeyEach(voters, admins)
    decreases |voters|
  {
    if voters != {} {
      var d :| d in voters;
      var rest := voters - {d};
      ImageSize(rest, admins);
      assert KeysOf(voters, admins) == KeysOf(rest, admins) + {admins[d]};
      if admins[d] in KeysOf(rest, admins) {
        var e :| e in rest && admins[e] == admins[d];
        assert KeysOf(voters, admins) == KeysOf(rest, admins);
      } else {
        assert OneKeyEach(voters, admins) <==> OneKeyEach(rest, admins);
      }
    }
  }

  /** However many signatures are collected, the count is_approved looks at is the number of
      different keys that signed. */
  ghost predicate CountsKeys(c: Crypto, message: Bs, admins: map<string, Bs>) {
    forall signatures: map<string, string> ::
      var signers := Signers(c, Some(message), signatures, admins);
      |signers| == |KeysOf(signers, admins)|
  }

  lemma SharingSignersAreCountedTwice(c: Crypto, message: Bs, admins: map<string, Bs>, d: string, e: string)
    requires d in admins && e in admins && d != e && admins[d] == admins[e]
    requires c.verify(admins[d], c.sign(admins[d], message), message)
    ensures var sig := c.sign(admins[d], message);
            var signers := Signers(c, Some(message), map[d := sig, e := sig], admins);
            signers == {d, e} && |signers| == 2 && |KeysOf(signers, admins)| == 1
  {
    var sig := c.sign(admins[d], message);
    var signers := Signers(c, Some(message), map[d := sig, e := sig], admins);
    assert signers == {d, e};
    assert KeysOf(signers, admins) == {admins[d]};
  }

  /** It counts devices. So it counts keys, for all collections of signatures, if and only if no
      two active admins are registered with the same key. */
  lemma CountsKeysIffOneEach(c: Crypto, message: Bs, admins: map<string, Bs>)
    requires forall k :: c.verify(k, c.sign(k, message), message)
    ensures CountsKeys(c, message, admins) <==> OneKeyEach(admins.Keys, admins)
  {
    if OneKeyEach(admins.Keys, admins) {
      forall signatures: map<string, string>
        ensures var signers := Signers(c, Some(message), signatures, admins); |signers| == |KeysOf(signers, admins)|
      {
        ImageSize(Signers(c, Some(message), signatures, admins), admins);
      }
    } else {
      var d, e :| d in admins && e in admins && admins[d] == admins[e] && d != e;
      SharingSignersAreCountedTwice(c, message, admins, d, e);
      var sig := c.sign(admins[d], message);
      assert |Signers(c, Some(message), map[d := sig, e := sig], admins)| == 2;
    }
  }

  /** Two ids sharing one key let a single signature reach a threshold of two. */
  lemma SharedKeyVotesTwice(c: Crypto, message: Bs, key: Bs, sig: string)
    requires c.verify(key, sig, message)
    ensures |Signers(c, Some(message), map["a" := sig, "b" := sig], map["a" := key, "b" := key])| == 2
  {
    assert Signers(c, Some(message), map["a" := sig, "b" := sig], map["a" := key, "b" := key]) == {"a", "b"};
  }
}
