/** The group store: who administers a group, who belongs to it, and where that authority
    comes from. */
module Groups {
  import opened Bytes

  type Id = string
  type Row = (Id, Id)

  datatype Group = Group(founder: Id, founderKey: string)
  datatype Admin = Admin(publicKey: string, addedBy: Option<Id>, active: bool, removedBy: Option<Id>)
  datatype Member = Member(publicKey: string, issuer: Id, active: bool, revokedBy: Option<Id>)
  datatype Policy = Policy(allowExport: bool, leaveRequiresAdmin: bool)

  datatype Cert = Cert(group: Id, device: Id, publicKey: string, admin: Id)
  datatype Revocation = Revocation(group: Id, device: Id, revokedBy: Id)

  /** The tables; admin and member rows are keyed by group and device. */
  datatype State = State(groups: map<Id, Group>, admins: map<Row, Admin>, members: map<Row, Member>,
                         policies: map<Id, Policy>)

  const EMPTY := State(map[], map[], map[], map[])

  /** The writes. A `valid` argument is the outcome of checking the signature against the
      named admin's (or, for a leave request, the member's) stored key. */
  datatype Op =
    | CreateGroup(group: Id, founder: Id, key: string)
    | RecordMembership(cert: Cert, valid: bool)
    | JoinResponse(group: Id, device: Id, admin: Id, approved: bool, answerValid: bool, joined: Option<Cert>,
                   valid: bool)
    | RevokeMembership(group: Id, device: Id, actor: Id)
    | RecordRevocation(rev: Revocation, valid: bool)
    | LeaveRequest(group: Id, device: Id, valid: bool)
    | LeaveResponse(group: Id, device: Id, admin: Id, approved: bool, answerValid: bool, left: Option<Revocation>,
                    valid: bool)
    | SetPolicy(group: Id, policy: Policy, admin: Id)
    | AddAdmin(group: Id, device: Id, key: string, actor: Id)
    | RemoveAdmin(group: Id, device: Id, actor: Id)

  predicate IsAdmin(s: State, g: Id, d: Id) {
    (g, d) in s.admins && s.admins[(g, d)].active
  }

  predicate IsMember(s: State, g: Id, d: Id) {
    (g, d) in s.members && s.members[(g, d)].active
  }

  function ActiveAdmins(s: State, g: Id): set<Id> {
    set r | r in s.admins && r.0 == g && s.admins[r].active :: r.1
  }

  predicate CanRecord(s: State, c: Cert, valid: bool) {
    c.group in s.groups && IsAdmin(s, c.group, c.admin) && valid && (c.group, c.device) !in s.members
  }

  predicate CanRevoke(s: State, r: Revocation, valid: bool) {
    IsAdmin(s, r.group, r.revokedBy) && valid && IsMember(s, r.group, r.device)
  }

  /** When the operation reaches its commit. */
  predicate Commits(s: State, op: Op) {
    match op
    case CreateGroup(g, _, _) => g !in s.groups
    case RecordMembership(c, valid) => CanRecord(s, c, valid)
    case JoinResponse(g, d, a, approved, answerValid, c, valid) =>
      && approved && c.Some? && IsAdmin(s, g, a) && answerValid
      && c.value.group == g && c.value.device == d && c.value.admin == a && CanRecord(s, c.value, valid)
    case RevokeMembership(g, d, actor) => IsAdmin(s, g, actor) && IsMember(s, g, d)
    case RecordRevocation(r, valid) => CanRevoke(s, r, valid)
    case LeaveRequest(g, d, valid) => IsMember(s, g, d) && valid
      && !(g in s.policies && s.policies[g].leaveRequiresAdmin)
    case LeaveResponse(g, d, a, approved, answerValid, r, valid) =>
      && approved && r.Some? && IsAdmin(s, g, a) && answerValid
      && r.value.group == g && r.value.device == d && r.value.revokedBy == a && CanRevoke(s, r.value, valid)
    case SetPolicy(g, _, a) => g in s.groups && (a != "" ==> IsAdmin(s, g, a))
    case AddAdmin(g, d, _, actor) => g in s.groups && IsAdmin(s, g, actor) && (g, d) !in s.admins
    case RemoveAdmin(g, d, _) => IsAdmin(s, g, d) && |ActiveAdmins(s, g)| > 1
  }

  /** The six ways the tables ever change. */
  datatype Change =
    | Founded(group: Id, founder: Id, key: string)
    | Joined(cert: Cert)
    | Left(group: Id, device: Id, actor: Id)
    | PolicySet(group: Id, policy: Policy)
    | Promoted(group: Id, device: Id, key: string, actor: Id)
    | Demoted(group: Id, device: Id, actor: Id)

  function Intent(op: Op): Option<Change> {
    match op
    case CreateGroup(g, founder, key) => Some(Founded(g, founder, key))
    case RecordMembership(c, _) => Some(Joined(c))
    case JoinResponse(_, _, _, _, _, c, _) => if c.Some? then Some(Joined(c.value)) else None
    case RevokeMembership(g, d, actor) => Some(Left(g, d, actor))
    case RecordRevocation(r, _) => Some(Left(r.group, r.device, r.revokedBy))
    case LeaveRequest(g, d, _) => Some(Left(g, d, d))
    case LeaveResponse(_, _, _, _, _, r, _) =>
      if r.Some? then Some(Left(r.value.group, r.value.device, r.value.revokedBy)) else None
    case SetPolicy(g, p, _) => Some(PolicySet(g, p))
    case AddAdmin(g, d, key, actor) => Some(Promoted(g, d, key, actor))
    case RemoveAdmin(g, d, actor) => Some(Demoted(g, d, actor))
  }

  /** What is known of the tables when a change is made to them. */
  predicate Fits(s: State, c: Change) {
    match c
    case Founded(g, _, _) => g !in s.groups
    case Joined(c) => c.group in s.groups && IsAdmin(s, c.group, c.admin) && (c.group, c.device) !in s.members
    case Left(g, d, actor) => IsMember(s, g, d) && (actor == d || IsAdmin(s, g, actor))
    case PolicySet(g, _) => g in s.groups
    case Promoted(g, d, _, actor) => g in s.groups && IsAdmin(s, g, actor) && (g, d) !in s.admins
    case Demoted(g, d, _) => IsAdmin(s, g, d) && |ActiveAdmins(s, g)| > 1
  }

  function WithRevoked(s: State, g: Id, d: Id, actor: Id): State
    requires (g, d) in s.members
  {
    s.(members := s.members[(g, d) := s.members[(g, d)].(active := false, revokedBy := Some(actor))])
  }

  function Effect(s: State, c: Change): State
    requires Fits(s, c)
  {
    match c
    case Founded(g, founder, key) =>
      s.(groups := s.groups[g := Group(founder, key)], admins := s.admins[(g, founder) := Admin(key, None, true, None)])
    case Joined(c) => s.(members := s.members[(c.group, c.device) := Member(c.publicKey, c.admin, true, None)])
    case Left(g, d, actor) => WithRevoked(s, g, d, actor)
    case PolicySet(g, p) => s.(policies := s.policies[g := p])
    case Promoted(g, d, key, actor) => s.(admins := s.admins[(g, d) := Admin(key, Some(actor), true, None)])
    case Demoted(g, d, actor) =>
      s.(admins := s.admins[(g, d) := s.admins[(g, d)].(active := false, removedBy := Some(actor))])
  }

  lemma CommitFits(s: State, op: Op)
    requires Commits(s, op)
    ensures Intent(op).Some? && Fits(s, Intent(op).value)
  {
  }

  /** An operation that is refused changes nothing. */
  function Apply(s: State, op: Op): State {
    if Commits(s, op) then CommitFits(s, op); Effect(s, Intent(op).value) else s
  }

  /** The audit entry is written after the commit and refuses an empty group id, so there the
      change stays although the call raises. */
  predicate Returns(s: State, op: Op, g: Id) {
    Commits(s, op) && g != "" && g in Apply(s, op).groups
  }

  /** A run of the store: the operations called and the tables between them. */
  datatype Trace = Trace(ops: seq<Op>, states: seq<State>)

  ghost predicate IsRun(t: Trace) {
    && |t.states| == |t.ops| + 1 && t.states[0] == EMPTY
    && forall i :: 0 <= i < |t.ops| ==> t.states[i + 1] == Apply(t.states[i], t.ops[i])
  }

  /** Each step of a run makes a fitting change or none. */
  lemma StepIsChange(t: Trace, i: nat)
    requires IsRun(t) && i < |t.ops|
    ensures || t.states[i + 1] == t.states[i]
            || (Intent(t.ops[i]).Some? && Fits(t.states[i], Intent(t.ops[i]).value)
                && t.states[i + 1] == Effect(t.states[i], Intent(t.ops[i]).value))
  {
    if Commits(t.states[i], t.ops[i]) { CommitFits(t.states[i], t.ops[i]); }
  }

  // ---- every group keeps an admin -------------------------------------------------------

  ghost predicate Led(s: State) {
    forall g :: g in s.groups ==> exists d :: IsAdmin(s, g, d)
  }

  /** Rows belong to groups, and exactly the founder's admin row has nobody who added it. */
  predicate Rooted(s: State) {
    && (forall g :: g in s.groups ==> (g, s.groups[g].founder) in s.admins)
    && (forall r :: r in s.admins ==> r.0 in s.groups && (s.admins[r].addedBy.None? <==> s.groups[r.0].founder == r.1))
    && (forall r :: r in s.members ==> r.0 in s.groups)
  }

  /** The count in remove_admin says exactly that somebody else is left. */
  lemma RemovableIffAnotherAdmin(s: State, g: Id, d: Id)
    requires IsAdmin(s, g, d)
    ensures |ActiveAdmins(s, g)| > 1 <==> exists x :: x != d && IsAdmin(s, g, x)
  {
    var active := ActiveAdmins(s, g);
    forall x | IsAdmin(s, g, x) ensures x in active {
      assert (g, x) in s.admins;
    }
    var others := active - {d};
    assert |active| == |others| + 1;
    if others != {} {
      var x :| x in others;
      assert IsAdmin(s, g, x) && x != d;
    }
  }

  lemma EffectKeepsRooted(s: State, c: Change)
    requires Rooted(s) && Fits(s, c)
    ensures Rooted(Effect(s, c))
  {
  }

  lemma EffectKeepsLed(s: State, c: Change)
    requires Rooted(s) && Led(s) && Fits(s, c)
    ensures Led(Effect(s, c))
  {
    var s' := Effect(s, c);
    if c.Demoted? {
      RemovableIffAnotherAdmin(s, c.group, c.device);
      var x :| x != c.device && IsAdmin(s, c.group, x);
      assert IsAdmin(s', c.group, x);
    }
    forall g | g in s.groups && !(c.Demoted? && c.group == g) ensures exists d :: IsAdmin(s', g, d) {
      var d :| IsAdmin(s, g, d);
      assert IsAdmin(s', g, d);
    }
    if c.Founded? { assert IsAdmin(s', c.group, c.founder); }
  }

  /** In every reachable state each group has an active admin. */
  lemma {:induction false} EveryGroupIsLed(t: Trace, n: nat)
    requires IsRun(t) && n <= |t.ops|
    ensures Led(t.states[n]) && Rooted(t.states[n])
  {
    if n > 0 {
      EveryGroupIsLed(t, n - 1);
      StepIsChange(t, n - 1);
      if t.states[n] != t.states[n - 1] {
        EffectKeepsLed(t.states[n - 1], Intent(t.ops[n - 1]).value);
        EffectKeepsRooted(t.states[n - 1], Intent(t.ops[n - 1]).value);
      }
    }
  }

  // ---- removal and revocation are permanent ---------------------------------------------------

  predicate AdminAges(a: Admin, a': Admin) {
    a'.publicKey == a.publicKey && a'.addedBy == a.addedBy && (!a.active ==> a' == a)
  }

  predicate MemberAges(m: Member, m': Member) {
    m'.publicKey == m.publicKey && m'.issuer == m.issuer && (!m.active ==> m' == m)
  }

  /** Rows keep their keys and origin, and once inactive never change again. */
  predicate Ages(s: State, s': State) {
    && (forall g :: g in s.groups ==> g in s'.groups && s'.groups[g] == s.groups[g])
    && (forall r :: r in s.admins ==> r in s'.admins && AdminAges(s.admins[r], s'.admins[r]))
    && (forall r :: r in s.members ==> r in s'.members && MemberAges(s.members[r], s'.members[r]))
  }

  lemma AdminRowAges(s: State, s': State, row: Row, a: Admin)
    requires s'.admins == s.admins[row := a] && s'.members == s.members
    requires row in s.admins ==> AdminAges(s.admins[row], a)
    requires forall g :: g in s.groups ==> g in s'.groups && s'.groups[g] == s.groups[g]
    ensures Ages(s, s')
  {
  }

  lemma AdminChangeAges(s: State, c: Change)
    requires Rooted(s) && Fits(s, c) && (c.Founded? || c.Promoted? || c.Demoted?)
    ensures Ages(s, Effect(s, c))
  {
    var s' := Effect(s, c);
    var row := (c.group, if c.Founded? then c.founder else c.device);
    AdminRowAges(s, s', row, s'.admins[row]);
  }

  lemma MemberRowAges(s: State, s': State, row: Row, m: Member)
    requires s'.members == s.members[row := m] && s'.admins == s.admins && s'.groups == s.groups
    requires row in s.members ==> MemberAges(s.members[row], m)
    ensures Ages(s, s')
  {
  }

  lemma MemberChangeAges(s: State, c: Change)
    requires Rooted(s) && Fits(s, c) && (c.Joined? || c.Left? || c.PolicySet?)
    ensures Ages(s, Effect(s, c))
  {
    var s' := Effect(s, c);
    if !c.PolicySet? {
      var row := if c.Joined? then (c.cert.group, c.cert.device) else (c.group, c.device);
      MemberRowAges(s, s', row, s'.members[row]);
    }
  }

  lemma EffectAges(s: State, c: Change)
    requires Rooted(s) && Fits(s, c)
    ensures Ages(s, Effect(s, c))
  {
    if c.Founded? || c.Promoted? || c.Demoted? { AdminChangeAges(s, c); } else { MemberChangeAges(s, c); }
  }

  lemma StepAges(t: Trace, i: nat)
    requires IsRun(t) && i < |t.ops|
    ensures Ages(t.states[i], t.states[i + 1])
  {
    EveryGroupIsLed(t, i);
    StepIsChange(t, i);
    if t.states[i + 1] != t.states[i] { EffectAges(t.states[i], Intent(t.ops[i]).value); }
  }

  /** Whatever happens after some point of a run, an admin removed by then stays removed and a
      member revoked by then stays revoked, with the same record of who did it. */
  lemma {:induction false} RemovalIsPermanent(t: Trace, i: nat, j: nat)
    requires IsRun(t) && i <= j <= |t.ops|
    ensures Ages(t.states[i], t.states[j])
    decreases j - i
  {
    if i < j {
      RemovalIsPermanent(t, i, j - 1);
      StepAges(t, j - 1);
    }
  }

  // ---- authority traces back to the founder -----------------------------------------------------

  /** Operation k made `to` an admin of g on the word of `from`, then an active admin, and the
      record of it is in the tables s. */
  predicate Appoints(t: Trace, s: State, k: nat, g: Id, from: Id, to: Id) {
    && k < |t.ops| && k < |t.states| && t.ops[k].AddAdmin?
    && t.ops[k].group == g && t.ops[k].device == to && t.ops[k].actor == from
    && IsAdmin(t.states[k], g, from) && (g, to) !in t.states[k].admins
    && (g, to) in s.admins && s.admins[(g, to)].addedBy == Some(from)
  }

  /** A path of appointments starting at the founder; `at` gives the operation behind each
      step, and they are in order of time. */
  predicate Chain(t: Trace, s: State, g: Id, path: seq<Id>, at: seq<nat>) {
    && g in s.groups && path != [] && path[0] == s.groups[g].founder && |at| == |path| - 1
    && (forall i :: 0 <= i < |at| ==> Appoints(t, s, at[i], g, path[i], path[i + 1]))
    && (forall i, j :: 0 <= i < j < |at| ==> at[i] < at[j])
  }

  ghost predicate Descends(t: Trace, n: nat, bound: nat, g: Id, d: Id)
    requires n < |t.states|
  {
    exists path, at :: Chain(t, t.states[n], g, path, at) && path[|path| - 1] == d
      && forall i :: 0 <= i < |at| ==> at[i] < bound
  }

  lemma DescendsPersists(t: Trace, n: nat, g: Id, d: Id)
    requires IsRun(t) && n < |t.ops| && Descends(t, n, n, g, d)
    ensures Descends(t, n + 1, n, g, d)
  {
    var path, at :| Chain(t, t.states[n], g, path, at) && path[|path| - 1] == d
      && forall i :: 0 <= i < |at| ==> at[i] < n;
    StepAges(t, n);
    forall i | 0 <= i < |at| ensures Appoints(t, t.states[n + 1], at[i], g, path[i], path[i + 1]) {
      assert Appoints(t, t.states[n], at[i], g, path[i], path[i + 1]);
    }
    assert Chain(t, t.states[n + 1], g, path, at);
  }

  lemma DescendsExtends(t: Trace, n: nat, bound: nat, g: Id, from: Id, d: Id)
    requires n < |t.states| && Descends(t, n, bound, g, from) && Appoints(t, t.states[n], bound, g, from, d)
    ensures Descends(t, n, bound + 1, g, d)
  {
    var path, at :| Chain(t, t.states[n], g, path, at) && path[|path| - 1] == from
      && forall i :: 0 <= i < |at| ==> at[i] < bound;
    var p, a := path + [d], at + [bound];
    forall i | 0 <= i < |a| ensures Appoints(t, t.states[n], a[i], g, p[i], p[i + 1]) {
      if i < |at| { assert Appoints(t, t.states[n], at[i], g, path[i], path[i + 1]); }
    }
    assert Chain(t, t.states[n], g, p, a);
  }

  lemma DescendsWidens(t: Trace, n: nat, bound: nat, g: Id, d: Id)
    requires n < |t.states| && Descends(t, n, bound, g, d)
    ensures Descends(t, n, bound + 1, g, d)
  {
    var path, at :| Chain(t, t.states[n], g, path, at) && path[|path| - 1] == d
      && forall i :: 0 <= i < |at| ==> at[i] < bound;
  }

  /** Every admin ever registered, active or not, descends from the founder through added_by,
      each appointed by somebody who was an active admin at that moment. */
  lemma {:induction false} AuthorityTracesToFounder(t: Trace, n: nat, g: Id, d: Id)
    requires IsRun(t) && n <= |t.ops| && (g, d) in t.states[n].admins
    ensures Descends(t, n, n, g, d)
    decreases n
  {
    var m := n - 1;
    StepIsChange(t, m);
    if (g, d) in t.states[m].admins {
      AuthorityTracesToFounder(t, m, g, d);
      DescendsPersists(t, m, g, d);
      DescendsWidens(t, n, m, g, d);
    } else if t.ops[m].AddAdmin? {
      var from := t.ops[m].actor;
      AuthorityTracesToFounder(t, m, g, from);
      DescendsPersists(t, m, g, from);
      DescendsExtends(t, n, m, g, from, d);
    } else {
      assert Chain(t, t.states[n], g, [d], []);
    }
  }

  predicate Issues(op: Op, g: Id, d: Id, issuer: Id) {
    && Intent(op).Some? && Intent(op).value.Joined?
    && var c := Intent(op).value.cert;
       c.group == g && c.device == d && c.admin == issuer
  }

  /** Every membership was issued by somebody who was an admin at that moment. */
  lemma {:induction false} MembershipWasIssuedByAdmin(t: Trace, n: nat, g: Id, d: Id)
    requires IsRun(t) && n <= |t.ops| && (g, d) in t.states[n].members
    ensures var issuer := t.states[n].members[(g, d)].issuer;
            exists k :: 0 <= k < n && Issues(t.ops[k], g, d, issuer) && IsAdmin(t.states[k], g, issuer)
    decreases n
  {
    var m := n - 1;
    StepIsChange(t, m);
    if (g, d) in t.states[m].members {
      MembershipWasIssuedByAdmin(t, m, g, d);
      StepAges(t, m);
    } else {
      assert Issues(t.ops[m], g, d, t.states[n].members[(g, d)].issuer);
    }
  }

  // ---- who is a member, who is an admin, and by whose word ------------------------------

  /** The operation makes d a member of g: a certificate for exactly them, signed by an active
      admin of the group, and, if it comes in a response, approved and signed by that admin. */
  predicate Enrols(s: State, op: Op, g: Id, d: Id) {
    && g in s.groups && (g, d) !in s.members
    && match op
       case RecordMembership(c, valid) => valid && c.group == g && c.device == d && IsAdmin(s, g, c.admin)
       case JoinResponse(og, od, a, approved, answerValid, c, valid) =>
         && og == g && od == d && approved && answerValid && valid && IsAdmin(s, g, a)
         && c.Some? && c.value == Cert(g, d, c.value.publicKey, a)
       case _ => false
  }

  /** The operation ends d's membership of g: at the word of an active admin, or of the member
      where the policy lets it go. */
  predicate Dismisses(s: State, op: Op, g: Id, d: Id) {
    match op
    case RevokeMembership(og, od, actor) => og == g && od == d && IsAdmin(s, g, actor)
    case RecordRevocation(r, valid) => valid && r.group == g && r.device == d && IsAdmin(s, g, r.revokedBy)
    case LeaveRequest(og, od, valid) =>
      og == g && od == d && valid && (g in s.policies ==> !s.policies[g].leaveRequiresAdmin)
    case LeaveResponse(og, od, a, approved, answerValid, r, valid) =>
      && og == g && od == d && approved && answerValid && valid && IsAdmin(s, g, a) && r == Some(Revocation(g, d, a))
    case _ => false
  }

  /** d becomes an admin of g: as the founder, or added by an active admin. */
  predicate Empowers(s: State, op: Op, g: Id, d: Id) {
    match op
    case CreateGroup(og, founder, _) => og == g && founder == d && g !in s.groups
    case AddAdmin(og, od, _, actor) =>
      og == g && od == d && g in s.groups && IsAdmin(s, g, actor) && (g, d) !in s.admins
    case _ => false
  }

  /** Who is a member after an operation. */
  lemma MembersAfter(s: State, op: Op, g: Id, d: Id)
    ensures IsMember(Apply(s, op), g, d) <==> Enrols(s, op, g, d) || (IsMember(s, g, d) && !Dismisses(s, op, g, d))
  {
  }

  predicate ConcernsAdmins(op: Op) { op.CreateGroup? || op.AddAdmin? || op.RemoveAdmin? }

  lemma OthersLeaveAdmins(s: State, op: Op)
    requires !ConcernsAdmins(op)
    ensures Apply(s, op).admins == s.admins
  {
  }

  /** The one row an operation on admins writes. */
  lemma AdminWrite(s: State, op: Op)
    requires ConcernsAdmins(op)
    ensures var d := if op.CreateGroup? then op.founder else op.device;
            var admins' := Apply(s, op).admins;
            && (op.RemoveAdmin? ==>
                  if IsAdmin(s, op.group, d) && |ActiveAdmins(s, op.group)| > 1 then
                    var gone := s.admins[(op.group, d)].(active := false, removedBy := Some(op.actor));
                    admins' == s.admins[(op.group, d) := gone]
                  else admins' == s.admins)
            && (op.AddAdmin? ==>
                  admins' == if Empowers(s, op, op.group, d)
                             then s.admins[(op.group, d) := Admin(op.key, Some(op.actor), true, None)] else s.admins)
            && (op.CreateGroup? ==>
                  admins' == if op.group !in s.groups then s.admins[(op.group, d) := Admin(op.key, None, true, None)]
                             else s.admins)
  {
  }

  /** Who is an admin after an operation: an admin is removed exactly if another one is left. */
  lemma AdminsAfter(s: State, op: Op, g: Id, d: Id)
    ensures IsAdmin(Apply(s, op), g, d) <==>
              || Empowers(s, op, g, d)
              || (IsAdmin(s, g, d) && !(op.RemoveAdmin? && op.group == g && op.device == d
                                        && exists x :: x != d && IsAdmin(s, g, x)))
  {
    if ConcernsAdmins(op) { AdminWrite(s, op); } else { OthersLeaveAdmins(s, op); }
    if IsAdmin(s, g, d) { RemovableIffAnotherAdmin(s, g, d); }
  }

  /** Which groups there are, and their policies. */
  lemma GroupsAfter(s: State, op: Op, g: Id)
    ensures g in Apply(s, op).groups <==> g in s.groups || (op.CreateGroup? && op.group == g)
    ensures g in Apply(s, op).groups ==>
              Apply(s, op).groups[g] == if g in s.groups then s.groups[g] else Group(op.founder, op.key)
    ensures var set' := op.SetPolicy? && op.group == g && g in s.groups && (op.admin == "" || IsAdmin(s, g, op.admin));
            && (g in Apply(s, op).policies <==> g in s.policies || set')
            && (g in Apply(s, op).policies ==> Apply(s, op).policies[g] == if set' then op.policy else s.policies[g])
  {
  }

  /** The operation that wrote a membership row, with what it says of key and issuer. */
  predicate Wrote(s: State, op: Op, g: Id, d: Id, m: Member) {
    && Enrols(s, op, g, d)
    && var c := if op.RecordMembership? then op.cert else op.joined.value;
       m.publicKey == c.publicKey && m.issuer == c.admin
  }

  /** In every run each membership was put there by an operation whose signatures were found
      valid, and has the key and the issuer of that certificate. */
  lemma {:induction false} MembershipWasSigned(t: Trace, n: nat, g: Id, d: Id)
    requires IsRun(t) && n <= |t.ops| && (g, d) in t.states[n].members
    ensures exists i :: 0 <= i < n && Wrote(t.states[i], t.ops[i], g, d, t.states[n].members[(g, d)])
  {
    var m := t.states[n].members[(g, d)];
    if (g, d) in t.states[n - 1].members {
      MembershipWasSigned(t, n - 1, g, d);
      var i :| 0 <= i < n - 1 && Wrote(t.states[i], t.ops[i], g, d, t.states[n - 1].members[(g, d)]);
      assert Wrote(t.states[i], t.ops[i], g, d, m);
    } else {
      assert Wrote(t.states[n - 1], t.ops[n - 1], g, d, m);
    }
  }

  /** The operation that ended a membership, with the actor it puts on record. */
  predicate Ended(s: State, op: Op, g: Id, d: Id, m: Member) {
    && Dismisses(s, op, g, d)
    && m.revokedBy == Some(match op
                           case RevokeMembership(_, _, actor) => actor
                           case RecordRevocation(r, _) => r.revokedBy
                           case LeaveResponse(_, _, a, _, _, _, _) => a
                           case _ => d)
  }

  /** And in every run a membership that is over was ended by such an operation, whose actor is
      on record; one that is not has nobody on record. */
  lemma {:induction false} DismissalIsOnRecord(t: Trace, n: nat, g: Id, d: Id)
    requires IsRun(t) && n <= |t.ops| && (g, d) in t.states[n].members
    ensures var m := t.states[n].members[(g, d)];
            if m.active then m.revokedBy.None?
            else exists i :: 0 <= i < n && Ended(t.states[i], t.ops[i], g, d, m)
  {
    if n > 0 {
      var s, m := t.states[n - 1], t.states[n].members[(g, d)];
      DismissalStep(s, t.ops[n - 1], g, d);
      if (g, d) in s.members {
        DismissalIsOnRecord(t, n - 1, g, d);
        if !s.members[(g, d)].active {
          var i :| 0 <= i < n - 1 && Ended(t.states[i], t.ops[i], g, d, s.members[(g, d)]);
          assert Ended(t.states[i], t.ops[i], g, d, m);
        } else if !m.active {
          assert Ended(t.states[n - 1], t.ops[n - 1], g, d, m);
        }
      }
    }
  }

  lemma DismissalStep(s: State, op: Op, g: Id, d: Id)
    requires (g, d) in Apply(s, op).members
    ensures var m := Apply(s, op).members[(g, d)];
            if (g, d) !in s.members then m.active && m.revokedBy.None?
            else m == s.members[(g, d)] || (s.members[(g, d)].active && !m.active && Ended(s, op, g, d, m))
  {
  }

  /** The operation that made somebody an admin, with the key and the appointer it says. */
  predicate Installed(s: State, op: Op, g: Id, d: Id, a: Admin) {
    && Empowers(s, op, g, d) && a.publicKey == op.key
    && a.addedBy == if op.CreateGroup? then None else Some(op.actor)
  }

  lemma AdminRowStep(s: State, op: Op, g: Id, d: Id)
    requires Rooted(s) && (g, d) in Apply(s, op).admins
    ensures var a := Apply(s, op).admins[(g, d)];
            if (g, d) !in s.admins then Installed(s, op, g, d, a)
            else a.publicKey == s.admins[(g, d)].publicKey && a.addedBy == s.admins[(g, d)].addedBy
  {
    if ConcernsAdmins(op) { AdminWrite(s, op); } else { OthersLeaveAdmins(s, op); }
  }

  /** In every run an admin's key is the one it was appointed with. */
  lemma {:induction false} AdminKeyIsTheOneGiven(t: Trace, n: nat, g: Id, d: Id)
    requires IsRun(t) && n <= |t.ops| && (g, d) in t.states[n].admins
    ensures exists i :: 0 <= i < n && Installed(t.states[i], t.ops[i], g, d, t.states[n].admins[(g, d)])
  {
    var a, s := t.states[n].admins[(g, d)], t.states[n - 1];
    EveryGroupIsLed(t, n - 1);
    AdminRowStep(s, t.ops[n - 1], g, d);
    if (g, d) in s.admins {
      AdminKeyIsTheOneGiven(t, n - 1, g, d);
      var i :| 0 <= i < n - 1 && Installed(t.states[i], t.ops[i], g, d, s.admins[(g, d)]);
      assert Installed(t.states[i], t.ops[i], g, d, a);
    }
  }

  /** The operation that removed an admin while another was left. */
  ghost predicate Removed(s: State, op: Op, g: Id, d: Id, a: Admin) {
    && op.RemoveAdmin? && op.group == g && op.device == d && a.removedBy == Some(op.actor)
    && IsAdmin(s, g, d) && exists x :: x != d && IsAdmin(s, g, x)
  }

  lemma AdminStep(s: State, op: Op, g: Id, d: Id)
    requires Rooted(s) && (g, d) in Apply(s, op).admins
    ensures var a := Apply(s, op).admins[(g, d)];
            if (g, d) !in s.admins then a.active && a.removedBy.None?
            else || a == s.admins[(g, d)]
                 || (&& IsAdmin(s, g, d) && |ActiveAdmins(s, g)| > 1
                     && op.RemoveAdmin? && op.group == g && op.device == d && a.removedBy == Some(op.actor))
  {
    if ConcernsAdmins(op) { AdminWrite(s, op); } else { OthersLeaveAdmins(s, op); }
  }

  /** In every run an admin that is no longer active was removed, by whom it says, while another
      was left. */
  lemma {:induction false} RemovalIsOnRecord(t: Trace, n: nat, g: Id, d: Id)
    requires IsRun(t) && n <= |t.ops| && (g, d) in t.states[n].admins
    ensures var a := t.states[n].admins[(g, d)];
            if a.active then a.removedBy.None?
            else exists i :: 0 <= i < n && Removed(t.states[i], t.ops[i], g, d, a)
  {
    if n > 0 {
      var s, a := t.states[n - 1], t.states[n].admins[(g, d)];
      EveryGroupIsLed(t, n - 1);
      AdminStep(s, t.ops[n - 1], g, d);
      if (g, d) in s.admins {
        RemovalIsOnRecord(t, n - 1, g, d);
        if !s.admins[(g, d)].active {
          var i :| 0 <= i < n - 1 && Removed(t.states[i], t.ops[i], g, d, s.admins[(g, d)]);
          assert Removed(t.states[i], t.ops[i], g, d, a);
        } else if !a.active {
          RemovableIffAnotherAdmin(s, g, d);
          assert Removed(t.states[n - 1], t.ops[n - 1], g, d, a);
        }
      }
    }
  }

  // ---- what raises after its commit -----------------------------------------------

  function GroupOf(op: Op): Id {
    match op
    case RecordMembership(c, _) => c.group
    case RecordRevocation(r, _) => r.group
    case _ => op.group
  }

  lemma CommittedGroupExists(s: State, op: Op)
    requires Rooted(s) && Commits(s, op)
    ensures GroupOf(op) in Apply(s, op).groups
  {
    CommitFits(s, op);
  }

  /** In every reachable state an operation that was committed raises all the same if and only
      if its group id is empty. */
  lemma CommittedRaisesIffEmptyId(t: Trace, i: nat)
    requires IsRun(t) && i < |t.ops| && Commits(t.states[i], t.ops[i])
    ensures !Returns(t.states[i], t.ops[i], GroupOf(t.ops[i])) <==> GroupOf(t.ops[i]) == ""
  {
    EveryGroupIsLed(t, i);
    CommittedGroupExists(t.states[i], t.ops[i]);
  }

  /** Creating the group with the empty id raises, and the group is there. */
  lemma EmptyIdIsCreatedAndRaises(founder: Id, key: string)
    ensures var op := CreateGroup("", founder, key);
            && !Returns(EMPTY, op, "") && "" in Apply(EMPTY, op).groups && IsAdmin(Apply(EMPTY, op), "", founder)
  {
  }

  // ---- the store ------------------------------------------------------------------------------------

  class GroupStore {
    var groups: map<Id, Group>
    var admins: map<Row, Admin>
    var members: map<Row, Member>
    var policies: map<Id, Policy>

    constructor ()
      ensures View() == EMPTY
    {
      groups, admins, members, policies := map[], map[], map[], map[];
    }

    ghost function View(): State
      reads this
    {
      State(groups, admins, members, policies)
    }

    function AdminIsActive(g: Id, d: Id): (r: bool)
      reads this
      ensures r == IsAdmin(View(), g, d)
    {
      (g, d) in admins && admins[(g, d)].active
    }

    method RecordAuditEvent(g: Id) returns (ok: bool)
      ensures ok <==> g != "" && g in groups
    {
      return g != "" && g in groups;
    }

    method CreateGroup(g: Id, founder: Id, key: string) returns (ok: bool)
      modifies this
      ensures View() == Apply(old(View()), Op.CreateGroup(g, founder, key))
      ensures ok == Returns(old(View()), Op.CreateGroup(g, founder, key), g)
    {
      if g in groups {
        return false;
      }
      groups := groups[g := Group(founder, key)];
      admins := admins[(g, founder) := Admin(key, None, true, None)];
      ok := RecordAuditEvent(g);
    }

    method RecordMembership(c: Cert, valid: bool) returns (ok: bool)
      modifies this
      ensures View() == Apply(old(View()), Op.RecordMembership(c, valid))
      ensures ok == Returns(old(View()), Op.RecordMembership(c, valid), c.group)
    {
      if c.group !in groups || !AdminIsActive(c.group, c.admin) || !valid || (c.group, c.device) in members {
        return false;
      }
      members := members[(c.group, c.device) := Member(c.publicKey, c.admin, true, None)];
      ok := RecordAuditEvent(c.group);
    }

    method ProcessJoinResponse(g: Id, d: Id, a: Id, approved: bool, answerValid: bool, c: Option<Cert>, valid: bool)
      returns (ok: bool)
      modifies this
      ensures View() == Apply(old(View()), JoinResponse(g, d, a, approved, answerValid, c, valid))
      ensures ok == Returns(old(View()), JoinResponse(g, d, a, approved, answerValid, c, valid), g)
    {
      if !approved || c.None? || !AdminIsActive(g, a) || !answerValid {
        return false;
      }
      if c.value.group != g || c.value.device != d || c.value.admin != a {
        return false;
      }
      ok := RecordMembership(c.value, valid);
    }

    method MarkMembershipRevoked(g: Id, d: Id, actor: Id) returns (ok: bool)
      modifies this
      ensures View() == if IsMember(old(View()), g, d) then WithRevoked(old(View()), g, d, actor) else old(View())
      ensures ok <==> IsMember(old(View()), g, d) && g != "" && g in groups
    {
      if (g, d) !in members || !members[(g, d)].active {
        return false;
      }
      members := members[(g, d) := members[(g, d)].(active := false, revokedBy := Some(actor))];
      ok := RecordAuditEvent(g);
    }

    method RevokeMembership(g: Id, d: Id, actor: Id) returns (ok: bool)
      modifies this
      ensures View() == Apply(old(View()), Op.RevokeMembership(g, d, actor))
      ensures ok == Returns(old(View()), Op.RevokeMembership(g, d, actor), g)
    {
      if !AdminIsActive(g, actor) {
        return false;
      }
      ok := MarkMembershipRevoked(g, d, actor);
    }

    method RecordRevocation(r: Revocation, valid: bool) returns (ok: bool)
      modifies this
      ensures View() == Apply(old(View()), Op.RecordRevocation(r, valid))
      ensures ok == Returns(old(View()), Op.RecordRevocation(r, valid), r.group)
    {
      if !AdminIsActive(r.group, r.revokedBy) || !valid {
        return false;
      }
      ok := MarkMembershipRevoked(r.group, r.device, r.revokedBy);
    }

    method ProcessLeaveRequest(g: Id, d: Id, valid: bool) returns (ok: bool)
      modifies this
      ensures View() == Apply(old(View()), LeaveRequest(g, d, valid))
      ensures ok == Returns(old(View()), LeaveRequest(g, d, valid), g)
    {
      if (g, d) !in members || !members[(g, d)].active || !valid {
        return false;
      }
      if g in policies && policies[g].leaveRequiresAdmin {
        return false;
      }
      ok := MarkMembershipRevoked(g, d, d);
    }

    method ProcessLeaveResponse(g: Id, d: Id, a: Id, approved: bool, answerValid: bool, r: Option<Revocation>,
                                valid: bool)
      returns (ok: bool)
      modifies this
      ensures View() == Apply(old(View()), LeaveResponse(g, d, a, approved, answerValid, r, valid))
      ensures ok == Returns(old(View()), LeaveResponse(g, d, a, approved, answerValid, r, valid), g)
    {
      if !approved || r.None? || !AdminIsActive(g, a) || !answerValid {
        return false;
      }
      if r.value.group != g || r.value.device != d || r.value.revokedBy != a {
        return false;
      }
      ok := RecordRevocation(r.value, valid);
    }

    method SetPolicy(g: Id, p: Policy, a: Id) returns (ok: bool)
      modifies this
      ensures View() == Apply(old(View()), Op.SetPolicy(g, p, a))
      ensures ok == Returns(old(View()), Op.SetPolicy(g, p, a), g)
    {
      if g !in groups || (a != "" && !AdminIsActive(g, a)) {
        return false;
      }
      policies := policies[g := p];
      ok := RecordAuditEvent(g);
    }

    method AddAdmin(g: Id, d: Id, key: string, actor: Id) returns (ok: bool)
      modifies this
      ensures View() == Apply(old(View()), Op.AddAdmin(g, d, key, actor))
      ensures ok == Returns(old(View()), Op.AddAdmin(g, d, key, actor), g)
    {
      if g !in groups || !AdminIsActive(g, actor) || (g, d) in admins {
        return false;
      }
      admins := admins[(g, d) := Admin(key, Some(actor), true, None)];
      ok := RecordAuditEvent(g);
    }

    method RemoveAdmin(g: Id, d: Id, actor: Id) returns (ok: bool)
      modifies this
      ensures View() == Apply(old(View()), Op.RemoveAdmin(g, d, actor))
      ensures ok == Returns(old(View()), Op.RemoveAdmin(g, d, actor), g)
    {
      if !AdminIsActive(g, d) {
        return false;
      }
      var active := set r | r in admins && r.0 == g && admins[r].active :: r.1;
      assert active == ActiveAdmins(View(), g);
      if |active| <= 1 {
        return false;
      }
      admins := admins[(g, d) := admins[(g, d)].(active := false, removedBy := Some(actor))];
      ok := RecordAuditEvent(g);
    }
  }
}
