/** The trust store: a status machine per device plus a growing graph of key rotations. */
module Trust {
  import opened Bytes

  type Id = string

  datatype Status = Pending | Trusted | Revoked
  datatype Device = Device(publicKey: string, name: string, lastSeen: real, status: Status, revokedBy: Option<string>)

  /** A TransitionCertificate; its signature check is the `valid` argument of record_rotation. */
  datatype Cert = Cert(from: Id, to: Id, fromKey: string, toKey: string, timestamp: real)

  /** The two tables. Rows are kept in rowid order: replacing a row moves it to the end. */
  datatype State = State(devices: map<Id, Device>, rows: seq<Cert>)

  const EMPTY := State(map[], [])

  datatype Decision = Unknown | IsPending | IsTrusted | KeyChanged | IsRevoked

  function Rank(s: Status): nat {
    match s case Pending => 0 case Trusted => 1 case Revoked => 2
  }

  function Assess(s: State, id: Id, key: string): Decision {
    if id !in s.devices then Unknown
    else if s.devices[id].publicKey != key then KeyChanged
    else match s.devices[id].status
      case Revoked => IsRevoked
      case Trusted => IsTrusted
      case Pending => IsPending
  }

  // ---- the writes ----------------------------------------------------

  /** `allowed` is the outcome of the external-trust policy check, `valid` of verifying
      the certificate. */
  datatype Op =
    | FirstSeen(id: Id, key: string, name: string, allowed: bool, now: real)
    | Touch(id: Id, now: real)
    | Approve(id: Id)
    | Revoke(id: Id, actor: string)
    | Rotate(cert: Cert, valid: bool, now: real)

  /** When the operation does not raise. */
  predicate Succeeds(s: State, op: Op) {
    match op
    case FirstSeen(id, _, _, allowed, _) => id !in s.devices && allowed
    case Touch(_, _) => true
    case Approve(id) => id in s.devices && s.devices[id].status != Revoked
    case Revoke(id, _) => id in s.devices && s.devices[id].status != Revoked
    case Rotate(c, valid, _) => valid && !(c.from in s.devices && s.devices[c.from].status == Revoked)
  }

  function WithStatus(devices: map<Id, Device>, id: Id, status: Status): map<Id, Device>
    requires id in devices
  {
    devices[id := devices[id].(status := status)]
  }

  function WithoutPair(rows: seq<Cert>, from: Id, to: Id): (r: seq<Cert>)
    ensures forall c :: c in r <==> c in rows && !(c.from == from && c.to == to)
  {
    if rows == [] then []
    else (if rows[0].from == from && rows[0].to == to then [] else [rows[0]]) + WithoutPair(rows[1..], from, to)
  }

  function RotatedDevices(devices: map<Id, Device>, c: Cert, now: real): map<Id, Device> {
    if !(c.from in devices && devices[c.from].status == Trusted) then devices
    else if c.to !in devices then devices[c.to := Device(c.toKey, devices[c.from].name, now, Trusted, None)]
    else if devices[c.to].status == Pending then devices[c.to := devices[c.to].(status := Trusted, lastSeen := now)]
    else devices
  }

  /** An operation that raises changes nothing. */
  function Apply(s: State, op: Op): State {
    if !Succeeds(s, op) then s
    else match op
      case FirstSeen(id, key, name, _, now) => s.(devices := s.devices[id := Device(key, name, now, Pending, None)])
      case Touch(id, now) =>
        if id in s.devices then s.(devices := s.devices[id := s.devices[id].(lastSeen := now)]) else s
      case Approve(id) => s.(devices := WithStatus(s.devices, id, Trusted))
      case Revoke(id, actor) =>
        s.(devices := s.devices[id := s.devices[id].(status := Revoked, revokedBy := Some(actor))])
      case Rotate(c, _, now) =>
        State(RotatedDevices(s.devices, c, now), WithoutPair(s.rows, c.from, c.to) + [c])
  }

  function Run(s: State, ops: seq<Op>): State {
    if ops == [] then s else Apply(Run(s, ops[..|ops| - 1]), ops[|ops| - 1])
  }

  // ---- the rotation graph ------------------------------------------------

  predicate Leads(rows: seq<Cert>, a: Id, b: Id) {
    exists c :: c in rows && c.from == a && c.to == b
  }

  predicate Linked(rows: seq<Cert>, a: Id, b: Id) {
    Leads(rows, a, b) || Leads(rows, b, a)
  }

  predicate Walk(rows: seq<Cert>, p: seq<Id>) {
    p != [] && forall i :: 0 <= i < |p| - 1 ==> Linked(rows, p[i], p[i + 1])
  }

  predicate WalkFromTo(rows: seq<Cert>, p: seq<Id>, a: Id, b: Id) {
    Walk(rows, p) && p[0] == a && p[|p| - 1] == b
  }

  /** a and b are in the same undirected component of the recorded transitions. */
  ghost predicate Connected(rows: seq<Cert>, a: Id, b: Id) {
    exists p :: WalkFromTo(rows, p, a, b)
  }

  lemma ConnectedSelf(rows: seq<Cert>, a: Id)
    ensures Connected(rows, a, a)
  {
    assert WalkFromTo(rows, [a], a, a);
  }

  lemma ConnectedStep(rows: seq<Cert>, a: Id, b: Id, c: Id)
    requires Connected(rows, a, b) && Linked(rows, b, c)
    ensures Connected(rows, a, c)
  {
    var p :| WalkFromTo(rows, p, a, b);
    assert WalkFromTo(rows, p + [c], a, c);
  }

  function Backwards(p: seq<Id>): seq<Id> {
    seq(|p|, i requires 0 <= i < |p| => p[|p| - 1 - i])
  }

  lemma ConnectedSymmetric(rows: seq<Cert>, a: Id, b: Id)
    requires Connected(rows, a, b)
    ensures Connected(rows, b, a)
  {
    var p :| WalkFromTo(rows, p, a, b);
    var q := Backwards(p);
    forall i | 0 <= i < |q| - 1 ensures Linked(rows, q[i], q[i + 1]) {
      var j := |p| - 2 - i;
      assert Linked(rows, p[j], p[j + 1]);
    }
    assert WalkFromTo(rows, q, b, a);
  }

  lemma ConnectedTransitive(rows: seq<Cert>, a: Id, b: Id, c: Id)
    requires Connected(rows, a, b) && Connected(rows, b, c)
    ensures Connected(rows, a, c)
  {
    var p :| WalkFromTo(rows, p, a, b);
    var q :| WalkFromTo(rows, q, b, c);
    var r := p + q[1..];
    forall i | 0 <= i < |r| - 1 ensures Linked(rows, r[i], r[i + 1]) {
      if i < |p| - 1 {
        assert Linked(rows, p[i], p[i + 1]);
      } else {
        var j := i - (|p| - 1);
        assert Linked(rows, q[j], q[j + 1]);
      }
    }
    assert WalkFromTo(rows, r, a, c);
  }

  /** A set that contains the start and is closed under links contains the whole component. */
  lemma {:induction false} ClosedContainsWalk(rows: seq<Cert>, s: set<Id>, p: seq<Id>)
    requires Walk(rows, p) && p[0] in s
    requires forall v, w :: v in s && Linked(rows, v, w) ==> w in s
    ensures p[|p| - 1] in s
    decreases |p|
  {
    if |p| > 1 {
      var front := p[..|p| - 1];
      assert Walk(rows, front) by {
        forall i | 0 <= i < |front| - 1 ensures Linked(rows, front[i], front[i + 1]) {
          assert Linked(rows, p[i], p[i + 1]);
        }
      }
      ClosedContainsWalk(rows, s, front);
      assert Linked(rows, p[|p| - 2], p[|p| - 1]);
    }
  }

  ghost predicate Tainted(s: State, id: Id) {
    exists m :: Connected(s.rows, id, m) && m in s.devices && s.devices[m].status == Revoked
  }

  ghost predicate Vouched(s: State, id: Id) {
    exists m :: Connected(s.rows, id, m) && m in s.devices && s.devices[m].status == Trusted
  }

  // ---- what every write keeps --------------------------------------------

  /** s' keeps every key of s, never lowers a status, and keeps every transition. */
  ghost predicate Extends(s: State, s': State) {
    && (forall id :: id in s.devices ==>
          && id in s'.devices
          && s'.devices[id].publicKey == s.devices[id].publicKey
          && Rank(s.devices[id].status) <= Rank(s'.devices[id].status))
    && (forall a, b :: Leads(s.rows, a, b) ==> Leads(s'.rows, a, b))
  }

  lemma ApplyExtends(s: State, op: Op)
    ensures Extends(s, Apply(s, op))
  {
    var s' := Apply(s, op);
    forall a, b | Leads(s.rows, a, b) ensures Leads(s'.rows, a, b) {
      if Succeeds(s, op) && op.Rotate? {
        var c :| c in s.rows && c.from == a && c.to == b;
        if c.from == op.cert.from && c.to == op.cert.to {
          assert op.cert in s'.rows;
        } else {
          assert c in s'.rows;
        }
      }
    }
  }

  /** Over any run a stored key never changes, a status only moves from pending to trusted to
      revoked, and no recorded transition disappears. */
  lemma {:induction false} RunExtends(s: State, ops: seq<Op>)
    ensures Extends(s, Run(s, ops))
  {
    if ops != [] {
      RunExtends(s, ops[..|ops| - 1]);
      ApplyExtends(Run(s, ops[..|ops| - 1]), ops[|ops| - 1]);
    }
  }

  lemma ConnectedGrows(s: State, s': State, a: Id, b: Id)
    requires Extends(s, s') && Connected(s.rows, a, b)
    ensures Connected(s'.rows, a, b)
  {
    var p :| WalkFromTo(s.rows, p, a, b);
    forall i | 0 <= i < |p| - 1 ensures Linked(s'.rows, p[i], p[i + 1]) {
      assert Linked(s.rows, p[i], p[i + 1]);
    }
    assert WalkFromTo(s'.rows, p, a, b);
  }

  /** Taint is permanent and spreads to the whole component: after any run from a store in
      which `id` is tainted, everything then connected to `id` is tainted, and is answered
      REVOKED or KEY_CHANGED whatever key it presents. */
  lemma TaintIsPermanent(s: State, ops: seq<Op>, id: Id, member: Id, key: string)
    requires Tainted(s, id)
    requires Connected(Run(s, ops).rows, id, member)
    ensures Tainted(Run(s, ops), member)
    ensures Verdict(Run(s, ops), member, key) in {IsRevoked, KeyChanged}
  {
    var s' := Run(s, ops);
    RunExtends(s, ops);
    var m :| Connected(s.rows, id, m) && m in s.devices && s.devices[m].status == Revoked;
    ConnectedGrows(s, s', id, m);
    ConnectedSymmetric(s'.rows, id, member);
    ConnectedTransitive(s'.rows, member, id, m);
  }

  /** In particular every member of the component at the time of the revocation stays tainted. */
  lemma OldMembersStayTainted(s: State, ops: seq<Op>, id: Id, member: Id)
    requires Tainted(s, id) && Connected(s.rows, id, member)
    ensures Tainted(Run(s, ops), member)
  {
    RunExtends(s, ops);
    ConnectedGrows(s, Run(s, ops), id, member);
    TaintIsPermanent(s, ops, id, member, "");
  }

  /** What check_with_rotation decides, said over components instead of a search. */
  ghost function Verdict(s: State, id: Id, key: string): Decision {
    if Assess(s, id, key) == KeyChanged then KeyChanged
    else if Tainted(s, id) then IsRevoked
    else if Vouched(s, id) then IsTrusted
    else Assess(s, id, key)
  }

  /** REVOKED exactly if somebody connected is revoked; TRUSTED exactly if nobody is and somebody
      is trusted; and else as check answers. */
  lemma VerdictIs(s: State, id: Id, key: string)
    requires Assess(s, id, key) != KeyChanged
    ensures Verdict(s, id, key) == IsRevoked <==>
              exists m :: Connected(s.rows, id, m) && m in s.devices && s.devices[m].status == Revoked
    ensures Verdict(s, id, key) == IsTrusted <==>
              && !(exists m :: Connected(s.rows, id, m) && m in s.devices && s.devices[m].status == Revoked)
              && exists m :: Connected(s.rows, id, m) && m in s.devices && s.devices[m].status == Trusted
  {
    ConnectedSelf(s.rows, id);
  }

  // ---- what check answers ------------------------------------------------

  /** What check answers for a device that presents a key after an operation that succeeded,
      told from what it answered before. */
  function AnswerAfter(s: State, op: Op, id: Id, key: string): Decision {
    var before := Assess(s, id, key);
    match op
    case FirstSeen(i, k, _, _, _) => if id != i then before else if key == k then IsPending else KeyChanged
    case Touch(_, _) => before
    case Approve(i) => if id == i && before == IsPending then IsTrusted else before
    case Revoke(i, _) => if id == i && before != KeyChanged then IsRevoked else before
    case Rotate(c, _, _) =>
      if id != c.to || !HasStatus(s, c.from, Trusted) then before
      else if before == Unknown then if key == c.toKey then IsTrusted else KeyChanged
      else if before == IsPending then IsTrusted
      else before
  }

  predicate HasStatus(s: State, id: Id, status: Status) { id in s.devices && s.devices[id].status == status }

  /** Every operation changes what check answers, for every device and every key, as told; one
      that raises changes nothing. */
  lemma CheckAnswers(s: State, op: Op, id: Id, key: string)
    ensures Assess(Apply(s, op), id, key) == if Succeeds(s, op) then AnswerAfter(s, op, id, key) else Assess(s, id, key)
    ensures !Succeeds(s, op) ==> Apply(s, op) == s
  {
  }

  /** When an operation raises, told from what check answers: first_seen for a device that is
      known or not allowed, approve and revoke for one that is unknown or revoked, a rotation
      for a certificate that is not valid or an origin that is revoked. */
  lemma RaisesIff(s: State, op: Op)
    ensures !Succeeds(s, op) <==>
              match op
              case FirstSeen(id, key, _, allowed, _) => Assess(s, id, key) != Unknown || !allowed
              case Touch(_, _) => false
              case Approve(id) => Assess(s, id, KeyIn(s, id)) !in {IsPending, IsTrusted}
              case Revoke(id, _) => Assess(s, id, KeyIn(s, id)) !in {IsPending, IsTrusted}
              case Rotate(c, valid, _) => !valid || Assess(s, c.from, KeyIn(s, c.from)) == IsRevoked
  {
  }

  function KeyIn(s: State, id: Id): string { if id in s.devices then s.devices[id].publicKey else "" }

  /** Which transitions are on record after an operation. */
  lemma TransitionsAfter(s: State, op: Op, a: Id, b: Id)
    ensures Leads(Apply(s, op).rows, a, b) <==>
              Leads(s.rows, a, b) || (op.Rotate? && Succeeds(s, op) && op.cert.from == a && op.cert.to == b)
  {
    ApplyExtends(s, op);
    if op.Rotate? && Succeeds(s, op) {
      assert op.cert in Apply(s, op).rows;
    }
    if Leads(Apply(s, op).rows, a, b) {
      var c :| c in Apply(s, op).rows && c.from == a && c.to == b;
      assert c in s.rows || (op.Rotate? && c == op.cert);
    }
  }

  ghost predicate PairsDiffer(rows: seq<Cert>) {
    forall i, j :: 0 <= i < j < |rows| ==> rows[i].from != rows[j].from || rows[i].to != rows[j].to
  }

  lemma {:induction false} WithoutPairKeepsPairs(rows: seq<Cert>, from: Id, to: Id)
    requires PairsDiffer(rows)
    ensures PairsDiffer(WithoutPair(rows, from, to))
    decreases |rows|
  {
    if rows != [] {
      WithoutPairKeepsPairs(rows[1..], from, to);
      var rest := WithoutPair(rows[1..], from, to);
      forall c | c in rest ensures c.from != rows[0].from || c.to != rows[0].to {
        var k :| 0 <= k < |rows[1..]| && rows[1..][k] == c;
        assert rows[1 + k] == c;
      }
    }
  }

  /** Over any run a transition is on record once, by its latest certificate. */
  lemma {:induction false} TransitionsAreOnRecordOnce(ops: seq<Op>)
    ensures PairsDiffer(Run(EMPTY, ops).rows)
    ensures ops != [] && ops[|ops| - 1].Rotate? && Succeeds(Run(EMPTY, ops[..|ops| - 1]), ops[|ops| - 1]) ==>
              ops[|ops| - 1].cert in Run(EMPTY, ops).rows
    decreases |ops|
  {
    if ops != [] {
      var front, op := ops[..|ops| - 1], ops[|ops| - 1];
      TransitionsAreOnRecordOnce(front);
      if op.Rotate? && Succeeds(Run(EMPTY, front), op) {
        var kept := WithoutPair(Run(EMPTY, front).rows, op.cert.from, op.cert.to);
        WithoutPairKeepsPairs(Run(EMPTY, front).rows, op.cert.from, op.cert.to);
        assert Run(EMPTY, ops).rows == kept + [op.cert];
        assert forall i :: 0 <= i < |kept| ==> kept[i] in kept;
      }
    }
  }

  /** The operation that put a device into the store, and what it said about it. */
  predicate Introduces(s: State, op: Op, id: Id, d: Device) {
    && id !in s.devices && Succeeds(s, op)
    && match op
       case FirstSeen(i, key, name, _, _) => i == id && d.publicKey == key && d.name == name
       case Rotate(c, _, _) =>
         c.to == id && d.publicKey == c.toKey && HasStatus(s, c.from, Trusted) && d.name == s.devices[c.from].name
       case _ => false
  }

  /** Over any run from an empty store: a device has the key and the name with which it was put
      there, by first_seen or by the certificate of a trusted predecessor. */
  lemma {:induction false} KeyIsTheOnePresented(ops: seq<Op>, id: Id)
    requires id in Run(EMPTY, ops).devices
    ensures exists i :: 0 <= i < |ops| && Introduces(Run(EMPTY, ops[..i]), ops[i], id, Run(EMPTY, ops).devices[id])
    decreases |ops|
  {
    var front := ops[..|ops| - 1];
    var s := Run(EMPTY, front);
    IntroductionStep(s, ops[|ops| - 1], id);
    if id in s.devices {
      KeyIsTheOnePresented(front, id);
      IntroducedStays(ops, id, s.devices[id], Run(EMPTY, ops).devices[id]);
    }
  }

  lemma IntroductionStep(s: State, op: Op, id: Id)
    requires id in Apply(s, op).devices
    ensures var d := Apply(s, op).devices[id];
            if id in s.devices then d.publicKey == s.devices[id].publicKey && d.name == s.devices[id].name
            else Introduces(s, op, id, d)
  {
  }

  lemma IntroducedStays(ops: seq<Op>, id: Id, d: Device, d': Device)
    requires ops != [] && d'.publicKey == d.publicKey && d'.name == d.name
    requires var front := ops[..|ops| - 1];
             exists i :: 0 <= i < |front| && Introduces(Run(EMPTY, front[..i]), front[i], id, d)
    ensures exists i :: 0 <= i < |ops| && Introduces(Run(EMPTY, ops[..i]), ops[i], id, d')
  {
    var front := ops[..|ops| - 1];
    var i :| 0 <= i < |front| && Introduces(Run(EMPTY, front[..i]), front[i], id, d);
    assert front[..i] == ops[..i] && front[i] == ops[i];
    assert Introduces(Run(EMPTY, ops[..i]), ops[i], id, d');
  }

  /** The call that revoked a device. */
  predicate RevokedBy(s: State, op: Op, id: Id, d: Device) {
    op.Revoke? && op.id == id && d.revokedBy == Some(op.actor) && id in s.devices && s.devices[id].status != Revoked
  }

  lemma RevocationStep(s: State, op: Op, id: Id)
    requires id in Apply(s, op).devices
    ensures var d := Apply(s, op).devices[id];
            if HasStatus(s, id, Revoked) then d.status == Revoked && d.revokedBy == s.devices[id].revokedBy
            else if d.status == Revoked then RevokedBy(s, op, id, d)
            else d.revokedBy == if id in s.devices then s.devices[id].revokedBy else None
  {
  }

  ghost predicate Accounted(ops: seq<Op>, id: Id, d: Device) {
    exists i :: 0 <= i < |ops| && RevokedBy(Run(EMPTY, ops[..i]), ops[i], id, d)
  }

  lemma AccountedStays(ops: seq<Op>, id: Id, d: Device, d': Device)
    requires ops != [] && Accounted(ops[..|ops| - 1], id, d) && d'.revokedBy == d.revokedBy
    ensures Accounted(ops, id, d')
  {
    var front := ops[..|ops| - 1];
    var i :| 0 <= i < |front| && RevokedBy(Run(EMPTY, front[..i]), front[i], id, d);
    assert front[..i] == ops[..i] && front[i] == ops[i];
    assert RevokedBy(Run(EMPTY, ops[..i]), ops[i], id, d');
  }

  /** Over any run, a device is marked with an actor exactly if it is revoked, and then with the
      one whose call revoked it. */
  lemma {:induction false} RevokerIsOnRecord(ops: seq<Op>, id: Id)
    requires id in Run(EMPTY, ops).devices
    ensures var d := Run(EMPTY, ops).devices[id];
            if d.status == Revoked then Accounted(ops, id, d) else d.revokedBy.None?
    decreases |ops|
  {
    var front, op := ops[..|ops| - 1], ops[|ops| - 1];
    var s := Run(EMPTY, front);
    RevocationStep(s, op, id);
    if id in s.devices { RevokerIsOnRecord(front, id); }
    var d := Run(EMPTY, ops).devices[id];
    if HasStatus(s, id, Revoked) {
      AccountedStays(ops, id, s.devices[id], d);
    } else if d.status == Revoked {
      assert RevokedBy(Run(EMPTY, ops[..|ops| - 1]), ops[|ops| - 1], id, d);
    }
  }

  /** A sighting is dated: after first_seen or touch of a known device its time is that of the
      call; no other operation but a rotation to it changes the time. */
  lemma SightingIsDated(s: State, op: Op, id: Id)
    requires id in Apply(s, op).devices
    ensures var seen := Apply(s, op).devices[id].lastSeen;
            match op
            case FirstSeen(i, _, _, _, now) =>
              if i == id && id !in s.devices then seen == now else seen == s.devices[id].lastSeen
            case Touch(i, now) => seen == if i == id then now else s.devices[id].lastSeen
            case Rotate(c, _, now) => seen == now || (id in s.devices && seen == s.devices[id].lastSeen)
            case _ => id in s.devices && seen == s.devices[id].lastSeen
  {
  }

  // ---- where trust comes from --------------------------------------------

  predicate DirectedWalk(rows: seq<Cert>, p: seq<Id>, a: Id, b: Id) {
    && p != [] && p[0] == a && p[|p| - 1] == b
    && forall i :: 0 <= i < |p| - 1 ==> Leads(rows, p[i], p[i + 1])
  }

  /** Devices for which approve() succeeded at some point of a run from an empty store. */
  function Approved(ops: seq<Op>): set<Id> {
    if ops == [] then {}
    else
      var before := ops[..|ops| - 1];
      var op := ops[|ops| - 1];
      Approved(before) + if op.Approve? && Succeeds(Run(EMPTY, before), op) then {op.id} else {}
  }

  ghost predicate Grounded(rows: seq<Cert>, approved: set<Id>, id: Id) {
    exists a, p :: a in approved && DirectedWalk(rows, p, a, id)
  }

  lemma GroundedGrows(s: State, s': State, approved: set<Id>, approved': set<Id>, id: Id)
    requires Extends(s, s') && approved <= approved' && Grounded(s.rows, approved, id)
    ensures Grounded(s'.rows, approved', id)
  {
    var a, p :| a in approved && DirectedWalk(s.rows, p, a, id);
    assert DirectedWalk(s'.rows, p, a, id);
  }

  lemma {:induction false} TrustedIsGrounded(ops: seq<Op>, id: Id)
    requires id in Run(EMPTY, ops).devices && Run(EMPTY, ops).devices[id].status == Trusted
    ensures Grounded(Run(EMPTY, ops).rows, Approved(ops), id)
    decreases |ops|
  {
    var before, op := ops[..|ops| - 1], ops[|ops| - 1];
    var s := Run(EMPTY, before);
    var s' := Run(EMPTY, ops);
    ApplyExtends(s, op);
    if id in s.devices && s.devices[id].status == Trusted {
      TrustedIsGrounded(before, id);
      GroundedGrows(s, s', Approved(before), Approved(ops), id);
    } else if op.Approve? {
      assert DirectedWalk(s'.rows, [id], id, id);
    } else {
      var c := op.cert;
      assert id == c.to;
      TrustedIsGrounded(before, c.from);
      GroundedGrows(s, s', Approved(before), Approved(ops), c.from);
      var a, p :| a in Approved(ops) && DirectedWalk(s'.rows, p, a, c.from);
      assert c in s'.rows && Leads(s'.rows, c.from, id);
      assert DirectedWalk(s'.rows, p + [id], a, id);
    }
  }

  /** Every device that was TRUSTED at any point k of a run is reachable, along recorded
      transitions that are still there at the end, from one that had been explicitly
      approved by then. */
  lemma EveryTrustTracesToApproval(ops: seq<Op>, k: nat, id: Id)
    requires k <= |ops|
    requires id in Run(EMPTY, ops[..k]).devices && Run(EMPTY, ops[..k]).devices[id].status == Trusted
    ensures Grounded(Run(EMPTY, ops).rows, Approved(ops[..k]), id)
  {
    TrustedIsGrounded(ops[..k], id);
    RunSplits(EMPTY, ops, k);
    RunExtends(Run(EMPTY, ops[..k]), ops[k..]);
    GroundedGrows(Run(EMPTY, ops[..k]), Run(EMPTY, ops), Approved(ops[..k]), Approved(ops[..k]), id);
  }

  lemma {:induction false} RunSplits(s: State, ops: seq<Op>, k: nat)
    requires k <= |ops|
    ensures Run(s, ops) == Run(Run(s, ops[..k]), ops[k..])
    decreases |ops|
  {
    if k == |ops| {
      assert ops[..k] == ops;
    } else {
      var front := ops[..|ops| - 1];
      RunSplits(s, front, k);
      assert front[..k] == ops[..k];
      assert front[k..] == ops[k..][..|ops| - k - 1];
    }
  }

  // ---- the store itself ----------------------------------------------------

  /** The timestamp of the first recorded transition into `id`, or zero. */
  function OrderKey(rows: seq<Cert>, id: Id): real {
    if rows == [] then 0.0 else if rows[0].to == id then rows[0].timestamp else OrderKey(rows[1..], id)
  }

  predicate SortedByKey(rows: seq<Cert>, chain: seq<Id>) {
    forall i, j :: 0 <= i < j < |chain| ==> OrderKey(rows, chain[i]) <= OrderKey(rows, chain[j])
  }

  lemma {:induction false} OrderKeyIsSomeTime(rows: seq<Cert>, id: Id)
    ensures (OrderKey(rows, id) == 0.0 && (forall c :: c in rows ==> c.to != id))
         || exists c :: c in rows && c.to == id && OrderKey(rows, id) == c.timestamp
    decreases |rows|
  {
    if rows != [] {
      OrderKeyIsSomeTime(rows[1..], id);
      assert forall c :: c in rows <==> c == rows[0] || c in rows[1..];
    }
  }

  /** From oldest to newest, as documented: a device comes before its successor, if that has no
      other predecessor and the device itself was introduced at an earlier time. */
  lemma PredecessorComesFirst(rows: seq<Cert>, chain: seq<Id>, c: Cert, i: nat, j: nat)
    requires SortedByKey(rows, chain) && c in rows && c.timestamp > 0.0
    requires i < |chain| && j < |chain| && chain[i] == c.from && chain[j] == c.to
    requires forall d :: d in rows && d.to == c.to ==> d == c
    requires forall d :: d in rows && d.to == c.from ==> d.timestamp < c.timestamp
    ensures i < j
  {
    OrderKeyIsSomeTime(rows, c.from);
    OrderKeyIsSomeTime(rows, c.to);
  }

  predicate Distinct(chain: seq<Id>) {
    forall i, j :: 0 <= i < j < |chain| ==> chain[i] != chain[j]
  }

  function Nodes(rows: seq<Cert>): set<Id> {
    (set c | c in rows :: c.from) + (set c | c in rows :: c.to)
  }

  function Inserted(chain: seq<Id>, at: nat, id: Id): (c: seq<Id>)
    requires at <= |chain|
    ensures |c| == |chain| + 1 && c[at] == id
    ensures forall i :: 0 <= i < |c| ==> c[i] == if i < at then chain[i] else if i == at then id else chain[i - 1]
  {
    chain[..at] + [id] + chain[at..]
  }

  lemma InsertedMembers(chain: seq<Id>, at: nat, id: Id, m: Id)
    requires at <= |chain|
    ensures m in Inserted(chain, at, id) <==> m in chain || m == id
  {
    var c := Inserted(chain, at, id);
    if m in chain {
      var i :| 0 <= i < |chain| && chain[i] == m;
      assert c[if i < at then i else i + 1] == m;
    }
  }

  lemma InsertedIsSorted(rows: seq<Cert>, chain: seq<Id>, at: nat, id: Id)
    requires SortedByKey(rows, chain) && at <= |chain|
    requires forall i :: 0 <= i < at ==> OrderKey(rows, chain[i]) <= OrderKey(rows, id)
    requires at < |chain| ==> OrderKey(rows, id) < OrderKey(rows, chain[at])
    ensures SortedByKey(rows, Inserted(chain, at, id))
  {
  }

  lemma InsertedIsDistinct(chain: seq<Id>, at: nat, id: Id)
    requires Distinct(chain) && id !in chain && at <= |chain|
    ensures Distinct(Inserted(chain, at, id))
  {
  }

  class TrustStore {
    var devices: map<Id, Device>
    var rows: seq<Cert>

    constructor ()
      ensures View() == EMPTY
    {
      devices, rows := map[], [];
    }

    ghost function View(): State
      reads this
    {
      State(devices, rows)
    }

    method Check(id: Id, key: string) returns (d: Decision)
      ensures d == Assess(View(), id, key)
    {
      if id !in devices {
        return Unknown;
      }
      var device := devices[id];
      if device.publicKey != key {
        return KeyChanged;
      }
      match device.status {
        case Revoked => return IsRevoked;
        case Trusted => return IsTrusted;
        case Pending => return IsPending;
      }
    }

    method RecordFirstSeen(id: Id, key: string, name: string, allowed: bool, now: real) returns (ok: bool)
      modifies this
      ensures ok == Succeeds(old(View()), FirstSeen(id, key, name, allowed, now))
      ensures View() == Apply(old(View()), FirstSeen(id, key, name, allowed, now))
    {
      if id in devices || !allowed {
        return false;
      }
      devices := devices[id := Device(key, name, now, Pending, None)];
      return true;
    }

    method TouchLastSeen(id: Id, now: real)
      modifies this
      ensures View() == Apply(old(View()), Touch(id, now))
    {
      if id in devices {
        devices := devices[id := devices[id].(lastSeen := now)];
      }
    }

    method ApproveDevice(id: Id) returns (ok: bool)
      modifies this
      ensures ok == Succeeds(old(View()), Approve(id))
      ensures View() == Apply(old(View()), Approve(id))
    {
      if id !in devices || devices[id].status == Revoked {
        return false;
      }
      devices := devices[id := devices[id].(status := Trusted)];
      return true;
    }

    method RevokeDevice(id: Id, actor: string) returns (ok: bool)
      modifies this
      ensures ok == Succeeds(old(View()), Revoke(id, actor))
      ensures View() == Apply(old(View()), Revoke(id, actor))
    {
      if id !in devices || devices[id].status == Revoked {
        return false;
      }
      devices := devices[id := devices[id].(status := Revoked, revokedBy := Some(actor))];
      return true;
    }

    method RecordRotation(cert: Cert, valid: bool, now: real) returns (ok: bool)
      modifies this
      ensures ok == Succeeds(old(View()), Rotate(cert, valid, now))
      ensures View() == Apply(old(View()), Rotate(cert, valid, now))
    {
      if !valid {
        return false;
      }
      if cert.from in devices && devices[cert.from].status == Revoked {
        return false;
      }
      rows := WithoutPair(rows, cert.from, cert.to) + [cert];
      if cert.from in devices && devices[cert.from].status == Trusted {
        if cert.to !in devices {
          devices := devices[cert.to := Device(cert.toKey, devices[cert.from].name, now, Trusted, None)];
        } else if devices[cert.to].status != Trusted && devices[cert.to].status != Revoked {
          devices := devices[cert.to := devices[cert.to].(status := Trusted, lastSeen := now)];
        }
      }
      return true;
    }

    /** The worklist search: terminates on every transition graph, cycles included, and
        returns exactly the connected component of `id`, each member once, ordered by the
        timestamp of the transition that introduced it. */
    method GetRotationChain(id: Id) returns (chain: seq<Id>)
      ensures forall m :: m in chain <==> Connected(rows, id, m)
      ensures Distinct(chain) && SortedByKey(rows, chain)
    {
      var visited: set<Id> := {};
      var queue := [id];
      ghost var everything := Nodes(rows) + {id};
      ConnectedSelf(rows, id);
      while queue != []
        invariant visited <= everything && (forall q :: q in queue ==> q in everything)
        invariant forall v :: v in visited ==> Connected(rows, id, v)
        invariant forall q :: q in queue ==> Connected(rows, id, q)
        invariant id in visited || id in queue
        invariant forall v, w :: v in visited && Linked(rows, v, w) ==> w in visited || w in queue
        decreases everything - visited, |queue|
      {
        var current := queue[|queue| - 1];
        ghost var waiting := queue;
        queue := queue[..|queue| - 1];
        assert forall q :: q in waiting ==> q == current || q in queue;
        if current in visited {
          continue;
        }
        visited := visited + {current};
        var successors := Successors(current);
        var predecessors := Predecessors(current);
        queue := queue + successors + predecessors;
        forall q | q in successors + predecessors ensures Connected(rows, id, q) {
          ConnectedStep(rows, id, current, q);
        }
      }
      forall m | Connected(rows, id, m) ensures m in visited {
        var p :| WalkFromTo(rows, p, id, m);
        ClosedContainsWalk(rows, visited, p);
      }
      chain := SortByIntroduction(visited);
    }

    method Successors(id: Id) returns (r: seq<Id>)
      ensures forall w :: w in r <==> Leads(rows, id, w)
      ensures forall w :: w in r ==> w in Nodes(rows)
    {
      r := [];
      for i := 0 to |rows|
        invariant forall w :: w in r <==> Leads(rows[..i], id, w)
      {
        if rows[i].from == id {
          r := r + [rows[i].to];
        }
        assert rows[..i + 1] == rows[..i] + [rows[i]];
      }
      assert rows[..|rows|] == rows;
    }

    method Predecessors(id: Id) returns (r: seq<Id>)
      ensures forall w :: w in r <==> Leads(rows, w, id)
      ensures forall w :: w in r ==> w in Nodes(rows)
    {
      r := [];
      for i := 0 to |rows|
        invariant forall w :: w in r <==> Leads(rows[..i], w, id)
      {
        if rows[i].to == id {
          r := r + [rows[i].from];
        }
        assert rows[..i + 1] == rows[..i] + [rows[i]];
      }
      assert rows[..|rows|] == rows;
    }

    method SortByIntroduction(ids: set<Id>) returns (chain: seq<Id>)
      ensures forall m :: m in chain <==> m in ids
      ensures Distinct(chain) && SortedByKey(rows, chain)
    {
      chain := [];
      var rest := ids;
      while rest != {}
        invariant rest <= ids
        invariant forall m :: m in chain <==> m in ids && m !in rest
        invariant Distinct(chain) && SortedByKey(rows, chain)
        decreases rest
      {
        var id :| id in rest;
        var at := 0;
        while at < |chain| && OrderKey(rows, chain[at]) <= OrderKey(rows, id)
          invariant at <= |chain|
          invariant forall i :: 0 <= i < at ==> OrderKey(rows, chain[i]) <= OrderKey(rows, id)
        {
          at := at + 1;
        }
        InsertedIsSorted(rows, chain, at, id);
        InsertedIsDistinct(chain, at, id);
        forall m ensures m in Inserted(chain, at, id) <==> m in chain || m == id {
          InsertedMembers(chain, at, id, m);
        }
        chain := Inserted(chain, at, id);
        rest := rest - {id};
      }
    }

    /** REVOKED exactly when some member of the component is revoked (unless the presented key
        differs from the stored one), TRUSTED exactly when none is and some member is trusted. */
    method CheckWithRotation(id: Id, key: string) returns (decision: Decision)
      ensures decision == Verdict(View(), id, key)
    {
      var direct := Check(id, key);
      if direct == KeyChanged {
        return direct;
      }
      var chain := GetRotationChain(id);
      var hasTrusted := false;
      for i := 0 to |chain|
        invariant forall j :: 0 <= j < i ==> !(chain[j] in devices && devices[chain[j]].status == Revoked)
        invariant hasTrusted <==> exists j :: 0 <= j < i && chain[j] in devices && devices[chain[j]].status == Trusted
      {
        if chain[i] !in devices {
          continue;
        }
        if devices[chain[i]].status == Revoked {
          assert Connected(rows, id, chain[i]);
          return IsRevoked;
        }
        if devices[chain[i]].status == Trusted {
          hasTrusted := true;
        }
      }
      assert !Tainted(View(), id);
      assert hasTrusted <==> Vouched(View(), id);
      return if hasTrusted then IsTrusted else direct;
    }
  }

  /** The condition of the source's documentation: a device in the store is answered TRUSTED
      only if nothing it is connected to was ever revoked, and some member was approved. */
  lemma TrustedVerdictIsEarned(ops: seq<Op>, id: Id, key: string)
    requires Verdict(Run(EMPTY, ops), id, key) == IsTrusted
    ensures !Tainted(Run(EMPTY, ops), id)
    ensures exists m :: Connected(Run(EMPTY, ops).rows, id, m) && Grounded(Run(EMPTY, ops).rows, Approved(ops), m)
  {
    var s := Run(EMPTY, ops);
    ConnectedSelf(s.rows, id);
    assert Vouched(s, id);
    var m :| Connected(s.rows, id, m) && m in s.devices && s.devices[m].status == Trusted;
    TrustedIsGrounded(ops, m);
  }
}
