/** One-shot export capabilities and the gate that spends them. */
module Export {
  import opened Bytes
  import Groups

  type Id = string
  type Key = string

  datatype Capability = Capability(group: Id, device: Id, file: Id, issuedAt: real, expires: real, admin: Id,
                                   signature: string)
  datatype Entry = Entry(cap: Capability, used: bool)
  type Table = map<Id, Entry>

  /** What get_valid_capability asks for. */
  datatype Query = Query(group: Id, device: Id, file: Id, now: real)

  const WILDCARD := "*"

  predicate Expired(c: Capability, now: real) { now >= c.expires }

  predicate Matches(c: Capability, device: Id, file: Id, group: Id) {
    c.device == device && c.group == group && (c.file == WILDCARD || c.file == file)
  }

  function Candidates(t: Table, q: Query): map<Id, Capability> {
    map id | id in t && !t[id].used && !Expired(t[id].cap, q.now)
      && Matches(t[id].cap, q.device, q.file, q.group) :: t[id].cap
  }

  /** Signature checks, and the database's choice of the first row of a query. */
  datatype World = World(verifies: (Key, Capability) -> bool, first: map<Id, Capability> -> Option<Id>)

  /** The first row exists when any does, and none expires later. */
  ghost predicate Sorted(w: World) {
    forall m: map<Id, Capability> :: (w.first(m).None? <==> m == map[])
      && (w.first(m).Some? ==>
            && w.first(m).value in m
            && forall id :: id in m ==> m[id].expires <= m[w.first(m).value].expires)
  }

  predicate SignedByAny(w: World, c: Capability, keys: seq<Key>) {
    exists i :: 0 <= i < |keys| && w.verifies(keys[i], c)
  }

  /** verify_export_capability. */
  method VerifyExportCapability(w: World, c: Capability, keys: seq<Key>, now: real) returns (ok: bool)
    ensures ok <==> !Expired(c, now) && SignedByAny(w, c, keys)
  {
    if Expired(c, now) {
      return false;
    }
    for i := 0 to |keys|
      invariant forall j :: 0 <= j < i ==> !w.verifies(keys[j], c)
    {
      if w.verifies(keys[i], c) {
        return true;
      }
    }
    return false;
  }

  // ---- the gate ---------------------------------------------------------------------------

  predicate Restricts(gs: Groups.State, g: Id) {
    g in gs.groups && g in gs.policies && !gs.policies[g].allowExport
  }

  /** The active admins' keys, in some listing order. */
  ghost predicate KeysOf(gs: Groups.State, g: Id, keys: seq<Key>) {
    forall k :: k in keys <==> exists d :: Groups.IsAdmin(gs, g, d) && gs.admins[(g, d)].publicKey == k
  }

  /** A call of check_export: the groups it looks at in order, the optional arguments, and the
      keys each group's admins would give. */
  datatype Request = Request(order: seq<Id>, device: Option<Id>, file: Option<Id>, keys: Option<seq<Key>>, now: real)

  type KeyBook = Id -> seq<Key>

  predicate Identified(r: Request) { r.device.Some? && r.file.Some? }

  function Offered(w: World, t: Table, r: Request, g: Id): Option<Id>
    requires Identified(r)
  {
    w.first(Candidates(t, Query(g, r.device.value, r.file.value, r.now)))
  }

  predicate Accepts(w: World, t: Table, id: Id, keys: seq<Key>, now: real) {
    id in t && !Expired(t[id].cap, now) && SignedByAny(w, t[id].cap, keys)
  }

  function Burn(t: Table, id: Id): Table {
    if id in t then t[id := t[id].(used := true)] else t
  }

  /** `burned` lists the capabilities spent, one per restricting group passed. */
  datatype Result = Result(table: Table, passed: bool, burned: seq<Id>)

  function Held(book: KeyBook, g: Id, keys: Option<seq<Key>>): seq<Key> {
    if keys.Some? then keys.value else book(g)
  }

  /** The loop from position i on, with the keys held so far. The keys fetched for the first
      group that needs them are kept for all later ones. */
  function Gate(w: World, gs: Groups.State, book: KeyBook, t: Table, r: Request, i: nat, keys: Option<seq<Key>>): Result
    requires i <= |r.order|
    decreases |r.order| - i
  {
    if i == |r.order| then Result(t, true, [])
    else if !Restricts(gs, r.order[i]) then Gate(w, gs, book, t, r, i + 1, keys)
    else if !Identified(r) then Result(t, false, [])
    else
      var id := Offered(w, t, r, r.order[i]);
      if id.None? then Result(t, false, [])
      else
        var held := Held(book, r.order[i], keys);
        if !Accepts(w, t, id.value, held, r.now) then Result(t, false, [])
        else
          var rest := Gate(w, gs, book, Burn(t, id.value), r, i + 1, Some(held));
          rest.(burned := [id.value] + rest.burned)
  }

  function CheckExport(w: World, gs: Groups.State, book: KeyBook, t: Table, r: Request): Result {
    Gate(w, gs, book, t, r, 0, r.keys)
  }

  /** The capability half of the store, and the enforcer's gate over it. */
  class CapabilityStore {
    const w: World
    var table: Table

    constructor (w: World)
      ensures this.w == w && table == map[]
    {
      this.w, table := w, map[];
    }

    method StoreCapability(id: Id, cap: Capability, keys: seq<Key>, now: real) returns (ok: bool)
      modifies this
      ensures ok <==> !Expired(cap, now) && SignedByAny(w, cap, keys)
      ensures table == if ok then old(table)[id := Entry(cap, false)] else old(table)
    {
      if Expired(cap, now) {
        return false;
      }
      ok := VerifyExportCapability(w, cap, keys, now);
      if ok {
        table := table[id := Entry(cap, false)];
      }
    }

    method MarkCapabilityUsed(id: Id)
      modifies this
      ensures table == Burn(old(table), id)
    {
      if id in table {
        table := table[id := table[id].(used := true)];
      }
    }

    method PurgeExpiredCapabilities(now: real)
      modifies this
      ensures table == Purged(old(table), now)
    {
      table := map id | id in table && !Expired(table[id].cap, now) && !table[id].used :: table[id];
    }

    /** True when the export is let through; the capabilities burned on the way stay burned
        even when it is not. */
    method Check(gs: Groups.State, book: KeyBook, r: Request) returns (passed: bool)
      modifies this
      ensures table == CheckExport(w, gs, book, old(table), r).table
      ensures passed == CheckExport(w, gs, book, old(table), r).passed
    {
      var keys := r.keys;
      ghost var t0 := table;
      for i := 0 to |r.order|
        invariant Gate(w, gs, book, t0, r, 0, r.keys).table == Gate(w, gs, book, table, r, i, keys).table
        invariant Gate(w, gs, book, t0, r, 0, r.keys).passed == Gate(w, gs, book, table, r, i, keys).passed
      {
        var g := r.order[i];
        if !(g in gs.groups && g in gs.policies && !gs.policies[g].allowExport) {
          continue;
        }
        if r.device.None? || r.file.None? {
          return false;
        }
        var id := w.first(Candidates(table, Query(g, r.device.value, r.file.value, r.now)));
        if id.None? || id.value !in table {
          return false;
        }
        if keys.None? {
          keys := Some(book(g));
        }
        var ok := VerifyExportCapability(w, table[id.value].cap, keys.value, r.now);
        if !ok {
          return false;
        }
        MarkCapabilityUsed(id.value);
      }
      return true;
    }
  }

  function Purged(t: Table, now: real): Table {
    map id | id in t && !Expired(t[id].cap, now) && !t[id].used :: t[id]
  }

  /** The rows that can still be spent at that time. */
  function Live(t: Table, now: real): map<Id, Capability> {
    map id | id in t && !t[id].used && !Expired(t[id].cap, now) :: t[id].cap
  }

  lemma LiveGivesCandidates(t: Table, u: Table, q: Query)
    requires Live(t, q.now) == Live(u, q.now)
    ensures Candidates(t, q) == Candidates(u, q)
  {
    assert forall id :: id in Live(t, q.now) <==> id in Live(u, q.now);
    assert forall id :: id in Candidates(t, q) ==> id in Live(t, q.now);
    assert forall id :: id in Candidates(u, q) ==> id in Live(u, q.now);
    forall id | id in Live(t, q.now) ensures t[id].cap == u[id].cap {
      assert Live(t, q.now)[id] == Live(u, q.now)[id];
    }
  }

  lemma BurnOnLive(t: Table, id: Id, now: real)
    ensures Live(Burn(t, id), now) == Live(t, now) - {id}
  {
  }

  lemma PurgeOnLive(t: Table, purgedAt: real, now: real)
    requires purgedAt <= now
    ensures Live(Purged(t, purgedAt), now) == Live(t, now)
  {
  }

  lemma {:induction false} GateSeesLive(w: World, gs: Groups.State, book: KeyBook, t: Table, u: Table, r: Request,
                                        i: nat,
                                        keys: Option<seq<Key>>)
    requires Sorted(w) && i <= |r.order| && Live(t, r.now) == Live(u, r.now)
    ensures var a, b := Gate(w, gs, book, t, r, i, keys), Gate(w, gs, book, u, r, i, keys);
            a.passed == b.passed && a.burned == b.burned && Live(a.table, r.now) == Live(b.table, r.now)
    decreases |r.order| - i
  {
    if i < |r.order| {
      var g := r.order[i];
      if !Restricts(gs, g) {
        GateSeesLive(w, gs, book, t, u, r, i + 1, keys);
      } else if Identified(r) {
        LiveGivesCandidates(t, u, Query(g, r.device.value, r.file.value, r.now));
        if Offered(w, t, r, g).Some? {
          var id := Offered(w, t, r, g).value;
          OfferedIsLive(w, t, r, g);
          OfferedIsLive(w, u, r, g);
          BurnOnLive(t, id, r.now);
          BurnOnLive(u, id, r.now);
          GateSeesLive(w, gs, book, Burn(t, id), Burn(u, id), r, i + 1, Some(Held(book, g, keys)));
        }
      }
    }
  }

  lemma OfferedIsLive(w: World, t: Table, r: Request, g: Id)
    requires Sorted(w) && Identified(r) && Offered(w, t, r, g).Some?
    ensures var id := Offered(w, t, r, g).value;
            id in t && id in Live(t, r.now) && Live(t, r.now)[id] == t[id].cap
  {
    OfferedIsSpendable(w, t, r, g);
  }

  /** Purging is invisible: every later check gives the verdict it would have given, and burns
      the same capabilities. */
  lemma PurgeChangesNoVerdict(w: World, gs: Groups.State, book: KeyBook, t: Table, purgedAt: real, r: Request)
    requires Sorted(w) && purgedAt <= r.now
    ensures var a, b := CheckExport(w, gs, book, Purged(t, purgedAt), r), CheckExport(w, gs, book, t, r);
            a.passed == b.passed && a.burned == b.burned
  {
    PurgeOnLive(t, purgedAt, r.now);
    GateSeesLive(w, gs, book, Purged(t, purgedAt), t, r, 0, r.keys);
  }

  // ---- what a passing check consumed ----------------------------------------------------------

  /** The restricting groups from position i on. */
  function Gated(gs: Groups.State, order: seq<Id>, i: nat): seq<Id>
    requires i <= |order|
    decreases |order| - i
  {
    if i == |order| then []
    else if Restricts(gs, order[i]) then [order[i]] + Gated(gs, order, i + 1)
    else Gated(gs, order, i + 1)
  }

  /** A row that could be spent for this request on behalf of g. */
  predicate Spendable(t: Table, r: Request, g: Id, id: Id) {
    && Identified(r) && id in t && !t[id].used && !Expired(t[id].cap, r.now)
    && Matches(t[id].cap, r.device.value, r.file.value, g)
  }

  lemma OfferedIsSpendable(w: World, t: Table, r: Request, g: Id)
    requires Sorted(w) && Identified(r) && Offered(w, t, r, g).Some?
    ensures Spendable(t, r, g, Offered(w, t, r, g).value)
  {
    var m := Candidates(t, Query(g, r.device.value, r.file.value, r.now));
    assert w.first(m).value in m;
  }

  lemma BurnKeepsOtherRows(t: Table, r: Request, g: Id, id: Id, g': Id, id': Id)
    requires Spendable(t, r, g, id)
    ensures Spendable(Burn(t, id), r, g', id') ==> Spendable(t, r, g', id') && id' != id
  {
  }

  /** Each burned capability was unused, unexpired and made out for this device, this file (or
      any) and that group; a passing check burned exactly one per restricting group. */
  lemma {:induction false} BurnedWereSpendable(w: World, gs: Groups.State, book: KeyBook, t: Table, r: Request, i: nat,
                                               keys: Option<seq<Key>>)
    requires Sorted(w) && i <= |r.order|
    ensures var res := Gate(w, gs, book, t, r, i, keys); var gated := Gated(gs, r.order, i);
            && |res.burned| <= |gated| && (res.passed ==> |res.burned| == |gated|)
            && forall k :: 0 <= k < |res.burned| ==> Spendable(t, r, gated[k], res.burned[k])
    decreases |r.order| - i
  {
    if i < |r.order| {
      var g := r.order[i];
      if !Restricts(gs, g) {
        BurnedWereSpendable(w, gs, book, t, r, i + 1, keys);
      } else if Identified(r) && Offered(w, t, r, g).Some? {
        var id := Offered(w, t, r, g).value;
        OfferedIsSpendable(w, t, r, g);
        var held := Held(book, g, keys);
        BurnedWereSpendable(w, gs, book, Burn(t, id), r, i + 1, Some(held));
        var rest := Gate(w, gs, book, Burn(t, id), r, i + 1, Some(held));
        var gated := Gated(gs, r.order, i + 1);
        forall k | 0 <= k < |rest.burned| ensures Spendable(t, r, gated[k], rest.burned[k]) {
          BurnKeepsOtherRows(t, r, g, id, gated[k], rest.burned[k]);
        }
      }
    }
  }

  // ---- when a check passes ----------------------------------------------------------------------

  predicate Distinct(order: seq<Id>) {
    forall i, j :: 0 <= i < j < |order| ==> order[i] != order[j]
  }

  predicate Satisfied(w: World, t: Table, r: Request, g: Id, keys: seq<Key>) {
    Identified(r) && Offered(w, t, r, g).Some? && Accepts(w, t, Offered(w, t, r, g).value, keys, r.now)
  }

  /** The keys a call ends up using for every group: those passed in, or else those of the
      first restricting group. */
  function EffectiveKeys(gs: Groups.State, book: KeyBook, r: Request, i: nat, keys: Option<seq<Key>>): seq<Key>
    requires i <= |r.order|
  {
    if keys.Some? then keys.value
    else if Gated(gs, r.order, i) == [] then []
    else book(Gated(gs, r.order, i)[0])
  }

  lemma BurnLeavesOtherGroups(w: World, t: Table, r: Request, g: Id, id: Id, g': Id, keys: seq<Key>)
    requires Spendable(t, r, g, id) && g' != g
    ensures Satisfied(w, Burn(t, id), r, g', keys) <==> Satisfied(w, t, r, g', keys)
  {
    var q := Query(g', r.device.value, r.file.value, r.now);
    assert Candidates(Burn(t, id), q) == Candidates(t, q);
  }

  lemma {:induction false} GatedIsFromOrder(gs: Groups.State, order: seq<Id>, i: nat)
    requires i <= |order|
    ensures forall g :: g in Gated(gs, order, i) <==> Restricts(gs, g) && exists j :: i <= j < |order| && order[j] == g
    decreases |order| - i
  {
    if i < |order| { GatedIsFromOrder(gs, order, i + 1); }
  }

  /** Exactly when an export is let through: every restricting group has a spendable
      capability whose signature one of the call's effective keys verifies. */
  lemma {:induction false} PassesIff(w: World, gs: Groups.State, book: KeyBook, t: Table, r: Request, i: nat,
                                     keys: Option<seq<Key>>)
    requires Sorted(w) && i <= |r.order| && Distinct(r.order)
    ensures Gate(w, gs, book, t, r, i, keys).passed <==>
            forall g :: g in Gated(gs, r.order, i) ==> Satisfied(w, t, r, g, EffectiveKeys(gs, book, r, i, keys))
    decreases |r.order| - i
  {
    if i < |r.order| {
      var g := r.order[i];
      var later := Gated(gs, r.order, i + 1);
      if !Restricts(gs, g) {
        PassesIff(w, gs, book, t, r, i + 1, keys);
        assert Gated(gs, r.order, i) == later;
        assert EffectiveKeys(gs, book, r, i, keys) == EffectiveKeys(gs, book, r, i + 1, keys);
        assert Gate(w, gs, book, t, r, i, keys) == Gate(w, gs, book, t, r, i + 1, keys);
      } else {
        assert g in Gated(gs, r.order, i);
        var held := EffectiveKeys(gs, book, r, i, keys);
        if Satisfied(w, t, r, g, held) {
          var id := Offered(w, t, r, g).value;
          OfferedIsSpendable(w, t, r, g);
          PassesIff(w, gs, book, Burn(t, id), r, i + 1, Some(held));
          GatedIsFromOrder(gs, r.order, i + 1);
          forall g' | g' in later ensures Satisfied(w, Burn(t, id), r, g', held) <==> Satisfied(w, t, r, g', held) {
            BurnLeavesOtherGroups(w, t, r, g, id, g', held);
          }
        }
      }
    }
  }

  // ---- the same with the fields written out ------------------------------------------------

  /** An unused row made out for this device, this file or any, and that group, not expired. */
  predicate Eligible(t: Table, r: Request, g: Id, id: Id) {
    && id in t && !t[id].used && t[id].cap.group == g && r.now < t[id].cap.expires
    && r.device == Some(t[id].cap.device)
    && r.file.Some? && (t[id].cap.file == "*" || r.file == Some(t[id].cap.file))
  }

  lemma SpendableIffEligible(t: Table, r: Request, g: Id, id: Id)
    ensures Spendable(t, r, g, id) <==> Eligible(t, r, g, id)
  {
  }

  /** Each capability burned was eligible for the group it was burned for, and a passing check
      burned one for every restricting group. */
  lemma BurnedWereEligible(w: World, gs: Groups.State, book: KeyBook, t: Table, r: Request)
    requires Sorted(w)
    ensures var res := CheckExport(w, gs, book, t, r); var gated := Gated(gs, r.order, 0);
            && |res.burned| <= |gated| && (res.passed ==> |res.burned| == |gated|)
            && forall k :: 0 <= k < |res.burned| ==> Eligible(t, r, gated[k], res.burned[k])
  {
    BurnedWereSpendable(w, gs, book, t, r, 0, r.keys);
    var res, gated := CheckExport(w, gs, book, t, r), Gated(gs, r.order, 0);
    forall k | 0 <= k < |res.burned| ensures Eligible(t, r, gated[k], res.burned[k]) {
      SpendableIffEligible(t, r, gated[k], res.burned[k]);
    }
  }

  /** The restricting groups are those of the call that exist and have a policy against export. */
  lemma GatedAre(gs: Groups.State, order: seq<Id>, g: Id)
    ensures g in Gated(gs, order, 0) <==>
              g in order && g in gs.groups && g in gs.policies && gs.policies[g].allowExport == false
  {
    GatedIsFromOrder(gs, order, 0);
  }

  /** What a purge leaves: the rows that are unused and not expired, as they were. */
  lemma PurgeLeavesIff(t: Table, now: real, id: Id)
    ensures id in Purged(t, now) <==> id in t && !t[id].used && now < t[id].cap.expires
    ensures id in Purged(t, now) ==> Purged(t, now)[id] == t[id]
  {
  }

  /** A row that is eligible for none of the groups is not looked at: without it every check
      gives the same verdict and burns the same rows, and it is never among them. */
  lemma {:induction false} IneligibleRowsDoNotMatter(w: World, gs: Groups.State, book: KeyBook, t: Table, r: Request,
                                                     i: nat, keys: Option<seq<Key>>, id: Id)
    requires Sorted(w) && i <= |r.order| && forall j :: i <= j < |r.order| ==> !Eligible(t, r, r.order[j], id)
    ensures var a, b := Gate(w, gs, book, t, r, i, keys), Gate(w, gs, book, t - {id}, r, i, keys);
            a.passed == b.passed && a.burned == b.burned && id !in a.burned
    decreases |r.order| - i
  {
    if i < |r.order| {
      var g := r.order[i];
      if !Restricts(gs, g) {
        IneligibleRowsDoNotMatter(w, gs, book, t, r, i + 1, keys, id);
      } else if Identified(r) {
        var q := Query(g, r.device.value, r.file.value, r.now);
        SpendableIffEligible(t, r, g, id);
        assert Candidates(t, q) == Candidates(t - {id}, q);
        if Offered(w, t, r, g).Some? {
          var x := Offered(w, t, r, g).value;
          OfferedIsSpendable(w, t, r, g);
          assert Burn(t, x) - {id} == Burn(t - {id}, x);
          IneligibleRowsDoNotMatter(w, gs, book, Burn(t, x), r, i + 1, Some(Held(book, g, keys)), id);
        }
      }
    }
  }

  /** So a capability for another file, another device or another group, or one that is used or
      expired, lets nothing through. */
  lemma CapabilityForAnotherFile(w: World, gs: Groups.State, book: KeyBook, t: Table, r: Request, id: Id)
    requires Sorted(w) && id in t && t[id].cap.file != "*" && r.file != Some(t[id].cap.file)
    ensures id !in CheckExport(w, gs, book, t, r).burned
    ensures CheckExport(w, gs, book, t, r).passed == CheckExport(w, gs, book, t - {id}, r).passed
  {
    IneligibleRowsDoNotMatter(w, gs, book, t, r, 0, r.keys, id);
  }

  /** What it takes for one group: an eligible row that one of the keys verifies, and than which
      no eligible one expires later; it is enough that there is one and all are verified. */
  lemma SatisfiedGivesRow(w: World, t: Table, r: Request, g: Id, keys: seq<Key>)
    requires Sorted(w) && Satisfied(w, t, r, g, keys)
    ensures exists id :: Eligible(t, r, g, id) && VerifiedBy(w, t[id].cap, keys)
              && forall o :: Eligible(t, r, g, o) ==> t[o].cap.expires <= t[id].cap.expires
  {
    var id := Offered(w, t, r, g).value;
    OfferedIsSpendable(w, t, r, g);
    SpendableIffEligible(t, r, g, id);
    var m := Candidates(t, Query(g, r.device.value, r.file.value, r.now));
    forall o | Eligible(t, r, g, o) ensures t[o].cap.expires <= t[id].cap.expires {
      SpendableIffEligible(t, r, g, o);
      assert o in m && m[o] == t[o].cap && m[id] == t[id].cap;
    }
  }

  predicate VerifiedBy(w: World, c: Capability, keys: seq<Key>) {
    exists k :: k in keys && w.verifies(k, c)
  }

  lemma RowSatisfies(w: World, t: Table, r: Request, g: Id, keys: seq<Key>, id: Id)
    requires Sorted(w) && Eligible(t, r, g, id)
    requires forall o :: Eligible(t, r, g, o) ==> VerifiedBy(w, t[o].cap, keys)
    ensures Satisfied(w, t, r, g, keys)
  {
    var m := Candidates(t, Query(g, r.device.value, r.file.value, r.now));
    SpendableIffEligible(t, r, g, id);
    assert id in m;
    var x := w.first(m).value;
    assert x in m;
    SpendableIffEligible(t, r, g, x);
    assert VerifiedBy(w, t[x].cap, keys);
  }

  /** An export passes only if each restricting group has such a row; and if each has an
      eligible row and all eligible rows are verified, it passes. */
  lemma PassesOnRows(w: World, gs: Groups.State, book: KeyBook, t: Table, r: Request)
    requires Sorted(w) && Distinct(r.order)
    ensures var keys := EffectiveKeys(gs, book, r, 0, r.keys);
            var passed := CheckExport(w, gs, book, t, r).passed;
            && (passed ==> forall g :: g in Gated(gs, r.order, 0) ==>
                             exists id :: Eligible(t, r, g, id) && VerifiedBy(w, t[id].cap, keys))
            && ((forall g :: g in Gated(gs, r.order, 0) ==> AllGood(w, t, r, g, keys)) ==> passed)
  {
    PassesIff(w, gs, book, t, r, 0, r.keys);
    var keys := EffectiveKeys(gs, book, r, 0, r.keys);
    forall g | g in Gated(gs, r.order, 0)
      ensures Satisfied(w, t, r, g, keys) ==> exists id :: Eligible(t, r, g, id) && VerifiedBy(w, t[id].cap, keys)
      ensures AllGood(w, t, r, g, keys) ==> Satisfied(w, t, r, g, keys)
    {
      if Satisfied(w, t, r, g, keys) { SatisfiedGivesRow(w, t, r, g, keys); }
      if AllGood(w, t, r, g, keys) {
        var id :| Eligible(t, r, g, id);
        RowSatisfies(w, t, r, g, keys, id);
      }
    }
  }

  ghost predicate AllGood(w: World, t: Table, r: Request, g: Id, keys: seq<Key>) {
    && (exists id :: Eligible(t, r, g, id))
    && forall o :: Eligible(t, r, g, o) ==> VerifiedBy(w, t[o].cap, keys)
  }

  /** Where at most one group restricts export, the verdict is what that group's own admins
      would decide. */
  lemma OneGroupDecidesByItsOwnAdmins(w: World, gs: Groups.State, book: KeyBook, t: Table, r: Request)
    requires Sorted(w) && Distinct(r.order) && r.keys.None? && |Gated(gs, r.order, 0)| <= 1
    ensures CheckExport(w, gs, book, t, r).passed <==>
            forall g :: g in Gated(gs, r.order, 0) ==> Satisfied(w, t, r, g, book(g))
  {
    PassesIff(w, gs, book, t, r, 0, r.keys);
    var gated := Gated(gs, r.order, 0);
    assert forall g :: g in gated ==> g == gated[0];
  }

  // ---- whose admins decide --------------------------------------------------------

  ghost predicate SameKeys(a: seq<Key>, b: seq<Key>) {
    forall k :: k in a <==> k in b
  }

  /** Every restricting group lists the admin keys the first one lists; or that one lists none,
      and then nothing ever passes. */
  ghost predicate OneKeySet(book: KeyBook, gated: seq<Id>) {
    gated == [] || book(gated[0]) == [] || forall g :: g in gated ==> SameKeys(book(g), book(gated[0]))
  }

  /** Each restricting group has a capability that its own admins' keys verify. */
  predicate OwnAdminsAgree(w: World, gs: Groups.State, book: KeyBook, t: Table, r: Request) {
    forall g :: g in Gated(gs, r.order, 0) ==> Satisfied(w, t, r, g, book(g))
  }

  /** For every table and every outcome of the signature checks, the verdict is what each
      group's own admins would decide. */
  ghost predicate DecidedByOwnAdmins(first: map<Id, Capability> -> Option<Id>, gs: Groups.State, book: KeyBook,
                                     r: Request) {
    forall v: (Key, Capability) -> bool, t: Table ::
      CheckExport(World(v, first), gs, book, t, r).passed <==> OwnAdminsAgree(World(v, first), gs, book, t, r)
  }

  lemma SameKeysSatisfy(w: World, t: Table, r: Request, g: Id, a: seq<Key>, b: seq<Key>)
    requires SameKeys(a, b) && Satisfied(w, t, r, g, a)
    ensures Satisfied(w, t, r, g, b)
  {
    var c := t[Offered(w, t, r, g).value].cap;
    var i :| 0 <= i < |a| && w.verifies(a[i], c);
    assert a[i] in a;
    var j :| 0 <= j < |b| && b[j] == a[i];
  }

  lemma OneKeySetDecides(w: World, gs: Groups.State, book: KeyBook, t: Table, r: Request)
    requires Sorted(w) && Distinct(r.order) && r.keys.None? && OneKeySet(book, Gated(gs, r.order, 0))
    ensures CheckExport(w, gs, book, t, r).passed <==> OwnAdminsAgree(w, gs, book, t, r)
  {
    PassesIff(w, gs, book, t, r, 0, r.keys);
    var gated := Gated(gs, r.order, 0);
    if gated != [] {
      assert EffectiveKeys(gs, book, r, 0, r.keys) == book(gated[0]) && gated[0] in gated;
      if book(gated[0]) == [] {
        assert !Satisfied(w, t, r, gated[0], book(gated[0]));
      } else {
        forall g | g in gated
          ensures Satisfied(w, t, r, g, book(gated[0])) <==> Satisfied(w, t, r, g, book(g))
        {
          if Satisfied(w, t, r, g, book(gated[0])) { SameKeysSatisfy(w, t, r, g, book(gated[0]), book(g)); }
          if Satisfied(w, t, r, g, book(g)) { SameKeysSatisfy(w, t, r, g, book(g), book(gated[0])); }
        }
      }
    }
  }

  /** One capability per group, made out for this request. */
  function CapFor(r: Request, g: Id): Capability
    requires Identified(r)
  {
    Capability(g, r.device.value, r.file.value, r.now, r.now + 1.0, "", "")
  }

  function OneEach(r: Request, gated: seq<Id>): Table
    requires Identified(r)
  {
    map g | g in gated :: Entry(CapFor(r, g), false)
  }

  lemma OneEachOffers(w: World, r: Request, gated: seq<Id>, g: Id, keys: seq<Key>)
    requires Sorted(w) && Identified(r) && g in gated
    ensures Satisfied(w, OneEach(r, gated), r, g, keys) <==> SignedByAny(w, CapFor(r, g), keys)
  {
    var q := Query(g, r.device.value, r.file.value, r.now);
    assert Candidates(OneEach(r, gated), q) == map[g := CapFor(r, g)];
    OnlyRowIsFirst(w, g, CapFor(r, g));
  }

  /** Signature checks under which the capabilities of g verify with k alone, and all others
      with any key. */
  function OnlyBy(g: Id, k: Key): (Key, Capability) -> bool {
    (key: Key, c: Capability) => c.group == g ==> key == k
  }

  lemma SignedByAnyOnly(w: World, r: Request, g: Id, k: Key, h: Id, keys: seq<Key>)
    requires Identified(r) && w.verifies == OnlyBy(g, k)
    ensures SignedByAny(w, CapFor(r, h), keys) <==> if h == g then k in keys else keys != []
  {
    if h != g && keys != [] { assert w.verifies(keys[0], CapFor(r, h)); }
  }

  /** With a key that one of the two lists and the other does not, some table tells them apart;
      a group that lists no key at all is told apart by any. */
  lemma DifferentKeysDiffer(w: World, gs: Groups.State, book: KeyBook, r: Request, g: Id, k: Key)
    requires Sorted(w) && Distinct(r.order) && r.keys.None? && Identified(r) && w.verifies == OnlyBy(g, k)
    requires var gated := Gated(gs, r.order, 0);
             && g in gated && book(gated[0]) != []
             && (k in book(g) <==> k !in book(gated[0]))
             && (k in book(g) ==> forall h :: h in gated ==> book(h) != [])
    ensures var t := OneEach(r, Gated(gs, r.order, 0));
            CheckExport(w, gs, book, t, r).passed <==> !OwnAdminsAgree(w, gs, book, t, r)
  {
    var gated := Gated(gs, r.order, 0);
    var t := OneEach(r, gated);
    PassesIff(w, gs, book, t, r, 0, r.keys);
    forall h | h in gated
      ensures Satisfied(w, t, r, h, book(gated[0])) <==> if h == g then k in book(gated[0]) else true
      ensures Satisfied(w, t, r, h, book(h)) <==> if h == g then k in book(g) else book(h) != []
    {
      OneEachOffers(w, r, gated, h, book(gated[0]));
      OneEachOffers(w, r, gated, h, book(h));
      SignedByAnyOnly(w, r, g, k, h, book(gated[0]));
      SignedByAnyOnly(w, r, g, k, h, book(h));
    }
  }

  /** Exactly when an export is judged by each group's own admins, whatever the table and the
      signatures: all restricting groups list the same keys (or the first lists none). The
      keys fetched for the first are used for all. */
  lemma DecidedByOwnAdminsIff(first: map<Id, Capability> -> Option<Id>, gs: Groups.State, book: KeyBook, r: Request)
    requires Sorted(World((k, c) => false, first)) && Distinct(r.order) && r.keys.None? && Identified(r)
    ensures DecidedByOwnAdmins(first, gs, book, r) <==> OneKeySet(book, Gated(gs, r.order, 0))
  {
    var gated := Gated(gs, r.order, 0);
    if OneKeySet(book, gated) {
      forall v: (Key, Capability) -> bool, t: Table
        ensures CheckExport(World(v, first), gs, book, t, r).passed <==> OwnAdminsAgree(World(v, first), gs, book, t, r)
      {
        OneKeySetDecides(World(v, first), gs, book, t, r);
      }
    } else {
      var g, k := TellingKey(book, gated);
      DifferentKeysDiffer(World(OnlyBy(g, k), first), gs, book, r, g, k);
    }
  }

  /** In every reachable state of the group store each group has an admin, so there the
      condition is simply that the key sets are the same. */
  lemma LedGroupsDecideIff(first: map<Id, Capability> -> Option<Id>, gs: Groups.State, book: KeyBook, r: Request)
    requires Sorted(World((k, c) => false, first)) && Distinct(r.order) && r.keys.None? && Identified(r)
    requires Groups.Led(gs) && forall g :: g in Gated(gs, r.order, 0) ==> KeysOf(gs, g, book(g))
    ensures var gated := Gated(gs, r.order, 0);
            DecidedByOwnAdmins(first, gs, book, r) <==>
              forall g, h :: g in gated && h in gated ==> SameKeys(book(g), book(h))
  {
    DecidedByOwnAdminsIff(first, gs, book, r);
    var gated := Gated(gs, r.order, 0);
    if gated != [] {
      GatedIsFromOrder(gs, r.order, 0);
      var g := gated[0];
      assert g in gated && g in gs.groups;
      var d :| Groups.IsAdmin(gs, g, d);
      assert gs.admins[(g, d)].publicKey in book(g);
    }
  }

  lemma TellingKey(book: KeyBook, gated: seq<Id>) returns (g: Id, k: Key)
    requires !OneKeySet(book, gated)
    ensures g in gated && book(gated[0]) != [] && (k in book(g) <==> k !in book(gated[0]))
    ensures k in book(g) ==> forall h :: h in gated ==> book(h) != []
  {
    if h :| h in gated && book(h) == [] {
      g, k := h, book(gated[0])[0];
    } else {
      g :| g in gated && !SameKeys(book(g), book(gated[0]));
      k :| !(k in book(g) <==> k in book(gated[0]));
    }
  }

  lemma OnlyRowIsFirst(w: World, id: Id, c: Capability)
    requires Sorted(w)
    ensures w.first(map[id := c]) == Some(id)
  {
    var m := map[id := c];
    assert id in m && m != map[];
    assert w.first(m).value in m;
  }

  /** Two groups that both restrict export, with one admin key each. */
  function TwoGroups(): Groups.State {
    var strict := Groups.Policy(false, false);
    Groups.State(map["g1" := Groups.Group("x", "k1"), "g2" := Groups.Group("y", "k2")], map[], map[],
                 map["g1" := strict, "g2" := strict])
  }

  function TwoKeys(g: Id): seq<Key> { if g == "g1" then ["k1"] else ["k2"] }

  function TwoRows(c1: Capability, c2: Capability): Table { map["1" := Entry(c1, false), "2" := Entry(c2, false)] }

  const ASKS_BOTH := Request(["g1", "g2"], Some("d"), Some("f"), None, 0.0)

  lemma BothAreGated()
    ensures Gated(TwoGroups(), ASKS_BOTH.order, 0) == ["g1", "g2"]
  {
    assert Gated(TwoGroups(), ASKS_BOTH.order, 2) == [];
    assert Gated(TwoGroups(), ASKS_BOTH.order, 1) == ["g2"];
  }

  lemma EachHasItsRow(w: World, c1: Capability, c2: Capability)
    requires Sorted(w) && c1.expires > 0.0 && c2.expires > 0.0
    requires Matches(c1, "d", "f", "g1") && Matches(c2, "d", "f", "g2")
    ensures Offered(w, TwoRows(c1, c2), ASKS_BOTH, "g1") == Some("1")
    ensures Offered(w, TwoRows(c1, c2), ASKS_BOTH, "g2") == Some("2")
  {
    assert Candidates(TwoRows(c1, c2), Query("g1", "d", "f", 0.0)) == map["1" := c1];
    assert Candidates(TwoRows(c1, c2), Query("g2", "d", "f", 0.0)) == map["2" := c2];
    OnlyRowIsFirst(w, "1", c1);
    OnlyRowIsFirst(w, "2", c2);
  }

  lemma BothOwnAdminsAgree(w: World, c1: Capability, c2: Capability)
    requires Sorted(w) && w.verifies("k1", c1) && w.verifies("k2", c2)
    requires Matches(c1, "d", "f", "g1") && Matches(c2, "d", "f", "g2") && c1.expires > 0.0 && c2.expires > 0.0
    ensures Satisfied(w, TwoRows(c1, c2), ASKS_BOTH, "g1", ["k1"])
    ensures Satisfied(w, TwoRows(c1, c2), ASKS_BOTH, "g2", ["k2"])
  {
    EachHasItsRow(w, c1, c2);
    assert ["k1"][0] == "k1" && ["k2"][0] == "k2";
  }

  lemma FirstAdminsDeny(w: World, c1: Capability, c2: Capability)
    requires Sorted(w) && !w.verifies("k1", c2)
    requires Matches(c1, "d", "f", "g1") && Matches(c2, "d", "f", "g2") && c1.expires > 0.0 && c2.expires > 0.0
    ensures !Satisfied(w, TwoRows(c1, c2), ASKS_BOTH, "g2", ["k1"])
  {
    EachHasItsRow(w, c1, c2);
  }

  /** So an export that both groups' own admins have authorised is refused. */
  lemma OwnAuthorisationOverruled(w: World, c1: Capability, c2: Capability)
    requires Sorted(w) && w.verifies("k1", c1) && w.verifies("k2", c2) && !w.verifies("k1", c2)
    requires Matches(c1, "d", "f", "g1") && Matches(c2, "d", "f", "g2") && c1.expires > 0.0 && c2.expires > 0.0
    ensures OwnAdminsAgree(w, TwoGroups(), TwoKeys, TwoRows(c1, c2), ASKS_BOTH)
    ensures !CheckExport(w, TwoGroups(), TwoKeys, TwoRows(c1, c2), ASKS_BOTH).passed
  {
    BothAreGated();
    BothOwnAdminsAgree(w, c1, c2);
    FirstAdminsDeny(w, c1, c2);
    var gated := Gated(TwoGroups(), ASKS_BOTH.order, 0);
    assert gated[0] == "g1" && gated[1] == "g2" && "g2" in gated;
    PassesIff(w, TwoGroups(), TwoKeys, TwoRows(c1, c2), ASKS_BOTH, 0, None);
  }

  // ---- conservation over every run ----------------------------------------------------------------

  /** The store and policies, with three tallies by group and device: capabilities stored,
      capabilities burned, and exports let through a restricting group. */
  datatype Ledger = Ledger(gs: Groups.State, table: Table, stored: multiset<(Id, Id)>, burned: multiset<(Id, Id)>,
                           passed: multiset<(Id, Id)>)

  datatype Event =
    | Store(id: Id, cap: Capability, keys: seq<Key>, now: real)
    | Check(request: Request, book: KeyBook)
    | Purge(now: real)
    | Govern(op: Groups.Op)

  const START := Ledger(Groups.EMPTY, map[], multiset{}, multiset{}, multiset{})

  function Owners(groups: seq<Id>, device: Id): seq<(Id, Id)> {
    seq(|groups|, i requires 0 <= i < |groups| => (groups[i], device))
  }

  function Spent(gs: Groups.State, r: Request, res: Result): seq<(Id, Id)>
    requires |res.burned| <= |Gated(gs, r.order, 0)|
  {
    if r.device.None? then [] else Owners(Gated(gs, r.order, 0)[..|res.burned|], r.device.value)
  }

  ghost predicate Steps(w: World, s: Ledger, e: Event, s': Ledger) {
    match e
    case Store(id, cap, keys, now) =>
      if KeysOf(s.gs, cap.group, keys) && !Expired(cap, now) && SignedByAny(w, cap, keys) then
        s' == s.(table := s.table[id := Entry(cap, false)], stored := s.stored + multiset{(cap.group, cap.device)})
      else s' == s
    case Check(r, book) =>
      var res := CheckExport(w, s.gs, book, s.table, r);
      && |res.burned| <= |Gated(s.gs, r.order, 0)|
      && var spent := multiset(Spent(s.gs, r, res));
      s' == s.(table := res.table, burned := s.burned + spent,
               passed := if res.passed then s.passed + spent else s.passed)
    case Purge(now) => s' == s.(table := Purged(s.table, now))
    case Govern(op) => s' == s.(gs := Groups.Apply(s.gs, op))
  }

  ghost predicate IsRun(w: World, events: seq<Event>, states: seq<Ledger>) {
    && |states| == |events| + 1 && states[0] == START
    && forall i :: 0 <= i < |events| ==> Steps(w, states[i], events[i], states[i + 1])
  }

  /** The rows still spendable by a device for a group. */
  function Unused(t: Table, o: (Id, Id)): set<Id> {
    set id | id in t && !t[id].used && t[id].cap.group == o.0 && t[id].cap.device == o.1
  }

  predicate Conserved(s: Ledger, o: (Id, Id)) {
    s.passed[o] <= s.burned[o] && s.burned[o] + |Unused(s.table, o)| <= s.stored[o]
  }

  function Count(owners: seq<(Id, Id)>, o: (Id, Id)): nat { multiset(owners)[o] }

  lemma SubsetIsSmaller(a: set<Id>, b: set<Id>)
    requires a <= b
    ensures |a| <= |b|
  {
    assert b == a + (b - a);
  }

  /** Going from t to t', one unused row was taken per group in the list, each of that group
      and this device. */
  predicate Charged(t: Table, t': Table, groups: seq<Id>, device: Id, o: (Id, Id)) {
    |Unused(t', o)| + Count(Owners(groups, device), o) == |Unused(t, o)|
  }

  lemma NothingCharged(t: Table, groups: seq<Id>, device: Id, o: (Id, Id))
    ensures Charged(t, t, groups[..0], device, o)
  {
    assert Owners(groups[..0], device) == [];
  }

  lemma ChargeOne(t: Table, r: Request, g: Id, id: Id, groups: seq<Id>, final: Table, o: (Id, Id))
    requires Spendable(t, r, g, id) && Charged(Burn(t, id), final, groups, r.device.value, o)
    ensures Charged(t, final, [g] + groups, r.device.value, o)
  {
    BurnTakesOne(t, id, o);
    OwnersCons(g, groups, r.device.value, o);
  }

  /** The gate takes one unused row of exactly the owner it charges, group by group. */
  lemma {:induction false} GateCharges(w: World, gs: Groups.State, book: KeyBook, t: Table, r: Request, i: nat,
                                       keys: Option<seq<Key>>, o: (Id, Id))
    requires Sorted(w) && i <= |r.order| && r.device.Some?
    ensures var res := Gate(w, gs, book, t, r, i, keys);
            && |res.burned| <= |Gated(gs, r.order, i)|
            && Charged(t, res.table, Gated(gs, r.order, i)[..|res.burned|], r.device.value, o)
    decreases |r.order| - i
  {
    NothingCharged(t, Gated(gs, r.order, i), r.device.value, o);
    if i < |r.order| {
      var g := r.order[i];
      if !Restricts(gs, g) {
        GateCharges(w, gs, book, t, r, i + 1, keys, o);
      } else if Satisfied(w, t, r, g, Held(book, g, keys)) {
        var id := Offered(w, t, r, g).value;
        GateCharges(w, gs, book, Burn(t, id), r, i + 1, Some(Held(book, g, keys)), o);
        GateChargesHere(w, gs, book, t, r, i, keys, o);
      }
    }
  }

  lemma GateChargesHere(w: World, gs: Groups.State, book: KeyBook, t: Table, r: Request, i: nat,
                        keys: Option<seq<Key>>, o: (Id, Id))
    requires Sorted(w) && i < |r.order| && Restricts(gs, r.order[i])
    requires Satisfied(w, t, r, r.order[i], Held(book, r.order[i], keys))
    requires var id := Offered(w, t, r, r.order[i]).value;
             var rest := Gate(w, gs, book, Burn(t, id), r, i + 1, Some(Held(book, r.order[i], keys)));
             && |rest.burned| <= |Gated(gs, r.order, i + 1)|
             && Charged(Burn(t, id), rest.table, Gated(gs, r.order, i + 1)[..|rest.burned|], r.device.value, o)
    ensures var res := Gate(w, gs, book, t, r, i, keys);
            && |res.burned| <= |Gated(gs, r.order, i)|
            && Charged(t, res.table, Gated(gs, r.order, i)[..|res.burned|], r.device.value, o)
  {
    var g := r.order[i];
    var id := Offered(w, t, r, g).value;
    OfferedIsSpendable(w, t, r, g);
    var rest := Gate(w, gs, book, Burn(t, id), r, i + 1, Some(Held(book, g, keys)));
    var gated := Gated(gs, r.order, i + 1)[..|rest.burned|];
    assert Gated(gs, r.order, i)[..|rest.burned| + 1] == [g] + gated;
    ChargeOne(t, r, g, id, gated, rest.table, o);
  }

  lemma BurnTakesOne(t: Table, id: Id, o: (Id, Id))
    requires id in t && !t[id].used
    ensures |Unused(Burn(t, id), o)| + (if (t[id].cap.group, t[id].cap.device) == o then 1 else 0) == |Unused(t, o)|
  {
    if (t[id].cap.group, t[id].cap.device) == o {
      assert Unused(t, o) == Unused(Burn(t, id), o) + {id};
    } else {
      assert Unused(t, o) == Unused(Burn(t, id), o);
    }
  }

  lemma OwnersCons(g: Id, groups: seq<Id>, device: Id, o: (Id, Id))
    ensures Count(Owners([g] + groups, device),
                  o) == (if (g, device) == o then 1 else 0) + Count(Owners(groups, device), o)
  {
    assert Owners([g] + groups, device) == [(g, device)] + Owners(groups, device);
  }

  lemma {:induction false} GateWithoutDevice(w: World, gs: Groups.State, book: KeyBook, t: Table, r: Request, i: nat,
                                             keys: Option<seq<Key>>)
    requires i <= |r.order| && r.device.None?
    ensures Gate(w, gs, book, t, r, i, keys).table == t && Gate(w, gs, book, t, r, i, keys).burned == []
    decreases |r.order| - i
  {
    if i < |r.order| && !Restricts(gs, r.order[i]) { GateWithoutDevice(w, gs, book, t, r, i + 1, keys); }
  }

  lemma StepConserves(w: World, s: Ledger, e: Event, s': Ledger, o: (Id, Id))
    requires Sorted(w) && Conserved(s, o) && Steps(w, s, e, s')
    ensures Conserved(s', o)
  {
    match e
    case Store(id, cap, keys, now) =>
      SubsetIsSmaller(Unused(s'.table, o), Unused(s.table, o) + (if o == (cap.group, cap.device) then {id} else {}));
    case Check(r, book) =>
      if r.device.Some? {
        GateCharges(w, s.gs, book, s.table, r, 0, r.keys, o);
      } else {
        GateWithoutDevice(w, s.gs, book, s.table, r, 0, r.keys);
      }
    case Purge(now) => SubsetIsSmaller(Unused(s'.table, o), Unused(s.table, o));
    case Govern(op) =>
  }

  /** Over any run, for every group and device: exports let through while the group restricts
      export, plus capabilities still unused, never exceed the capabilities stored. */
  lemma {:induction false} ExportRightsAreConserved(w: World, events: seq<Event>, states: seq<Ledger>, n: nat,
                                                    o: (Id, Id))
    requires Sorted(w) && IsRun(w, events, states) && n <= |events|
    ensures Conserved(states[n], o) && states[n].passed[o] + |Unused(states[n].table, o)| <= states[n].stored[o]
  {
    if n == 0 {
      assert Unused(states[0].table, o) == {};
    } else {
      ExportRightsAreConserved(w, events, states, n - 1, o);
      StepConserves(w, states[n - 1], events[n - 1], states[n], o);
    }
  }

  /** A pass charges each restricting group the call looked at, so the tally of exports let
      through is the number of such passes. */
  lemma PassChargesEveryGate(w: World, s: Ledger, r: Request, book: KeyBook, s': Ledger, g: Id)
    requires Sorted(w) && Steps(w, s, Check(r, book), s') && CheckExport(w, s.gs, book, s.table, r).passed
    requires g in Gated(s.gs, r.order, 0)
    ensures Identified(r) && s'.passed[(g, r.device.value)] > s.passed[(g, r.device.value)]
  {
    BurnedWereSpendable(w, s.gs, book, s.table, r, 0, r.keys);
    var res := CheckExport(w, s.gs, book, s.table, r);
    var gated := Gated(s.gs, r.order, 0);
    var k :| 0 <= k < |gated| && gated[k] == g;
    assert Spendable(s.table, r, gated[k], res.burned[k]);
    assert gated[..|res.burned|] == gated;
    assert Spent(s.gs, r, res)[k] == (g, r.device.value);
    assert (g, r.device.value) in multiset(Spent(s.gs, r, res));
  }

  // ---- one capability, stored more than once ----------------------------------------------

  predicate SpentOut(t: Table, id: Id) { id in t ==> t[id].used }

  /** A message that carries the capability and is taken: the row is there again, unused. */
  ghost predicate StoresAgain(w: World, s: Ledger, e: Event, id: Id) {
    && e.Store? && e.id == id && KeysOf(s.gs, e.cap.group, e.keys)
    && !Expired(e.cap, e.now) && SignedByAny(w, e.cap, e.keys)
  }

  predicate Uses(w: World, s: Ledger, e: Event, id: Id) {
    e.Check? && id in CheckExport(w, s.gs, e.book, s.table, e.request).burned
  }

  /** A check changes nothing but the rows it burns, and those were unused. */
  lemma {:induction false} GateBurns(w: World, gs: Groups.State, book: KeyBook, t: Table, r: Request, i: nat,
                                     keys: Option<seq<Key>>, id: Id)
    requires Sorted(w) && i <= |r.order|
    ensures var res := Gate(w, gs, book, t, r, i, keys);
            && (id in res.table <==> id in t)
            && (id in res.burned ==> id in t && !t[id].used && res.table[id] == t[id].(used := true))
            && (id !in res.burned && id in t ==> res.table[id] == t[id])
    decreases |r.order| - i
  {
    if i < |r.order| {
      var g := r.order[i];
      if !Restricts(gs, g) {
        GateBurns(w, gs, book, t, r, i + 1, keys, id);
      } else if Identified(r) && Offered(w, t, r, g).Some? {
        var x := Offered(w, t, r, g).value;
        OfferedIsSpendable(w, t, r, g);
        GateBurns(w, gs, book, Burn(t, x), r, i + 1, Some(Held(book, g, keys)), id);
      }
    }
  }

  /** A spent capability is not burned again, and stays spent unless it is stored again. */
  lemma SpentStaysIff(w: World, s: Ledger, e: Event, s': Ledger, id: Id)
    requires Sorted(w) && Steps(w, s, e, s') && SpentOut(s.table, id)
    ensures !Uses(w, s, e, id) && (SpentOut(s'.table, id) <==> !StoresAgain(w, s, e, id))
  {
    if e.Check? {
      GateBurns(w, s.gs, e.book, s.table, e.request, 0, e.request.keys, id);
    }
  }

  lemma {:induction false} SpentUntil(w: World, events: seq<Event>, states: seq<Ledger>, i: nat, n: nat, id: Id)
    requires Sorted(w) && IsRun(w, events, states) && i < n <= |events| && Uses(w, states[i], events[i], id)
    requires forall k :: i < k < n ==> !StoresAgain(w, states[k], events[k], id)
    ensures SpentOut(states[n].table, id)
    decreases n
  {
    assert Steps(w, states[n - 1], events[n - 1], states[n]);
    if n == i + 1 {
      var e := events[i];
      GateBurns(w, states[i].gs, e.book, states[i].table, e.request, 0, e.request.keys, id);
    } else {
      SpentUntil(w, events, states, i, n - 1, id);
      SpentStaysIff(w, states[n - 1], events[n - 1], states[n], id);
    }
  }

  /** Over any run, a capability is burned a second time only if it was stored in between. */
  lemma UsedTwiceMeansStoredBetween(w: World, events: seq<Event>, states: seq<Ledger>, i: nat, j: nat, id: Id)
    requires Sorted(w) && IsRun(w, events, states) && i < j < |events|
    requires Uses(w, states[i], events[i], id) && Uses(w, states[j], events[j], id)
    ensures exists k :: i < k < j && StoresAgain(w, states[k], events[k], id)
  {
    if forall k :: i < k < j ==> !StoresAgain(w, states[k], events[k], id) {
      SpentUntil(w, events, states, i, j, id);
      assert Steps(w, states[j], events[j], states[j + 1]);
      SpentStaysIff(w, states[j], events[j], states[j + 1], id);
    }
  }

  /** The calls go through the gate one after the other; the last one passes on `id`. */
  predicate Spends(w: World, gs: Groups.State, book: KeyBook, t: Table, calls: seq<Request>, id: Id)
    decreases |calls|
  {
    calls != []
    && var res := CheckExport(w, gs, book, t, calls[0]);
       if |calls| == 1 then res.passed && id in res.burned else Spends(w, gs, book, res.table, calls[1..], id)
  }

  lemma {:induction false} SpentCannotPass(w: World, gs: Groups.State, book: KeyBook, t: Table, calls: seq<Request>,
                                           id: Id)
    requires Sorted(w) && SpentOut(t, id)
    ensures !Spends(w, gs, book, t, calls, id)
    decreases |calls|
  {
    if calls != [] {
      GateBurns(w, gs, book, t, calls[0], 0, calls[0].keys, id);
      SpentCannotPass(w, gs, book, CheckExport(w, gs, book, t, calls[0]).table, calls[1..], id);
    }
  }

  /** Every row was verified when it was stored. */
  ghost predicate AllSigned(w: World, t: Table) {
    forall id :: id in t ==> exists k :: w.verifies(k, t[id].cap)
  }

  /** A call for one group, with a key that verifies the row it will be offered. */
  lemma OneCallPasses(w: World, gs: Groups.State, book: KeyBook, t: Table, r: Request, g: Id, id: Id, key: Key)
    requires r == Request([g], r.device, r.file, Some([key]), r.now) && Identified(r) && Restricts(gs, g)
    requires Offered(w, t, r, g) == Some(id) && id in t && !Expired(t[id].cap, r.now) && w.verifies(key, t[id].cap)
    ensures CheckExport(w, gs, book, t, r) == Result(Burn(t, id), true, [id])
  {
    assert SignedByAny(w, t[id].cap, [key]) by { assert [key][0] == key; }
    assert Gate(w, gs, book, Burn(t, id), r, 1, Some([key])) == Result(Burn(t, id), true, []);
    assert [id] + [] == [id];
  }

  /** An unused row can be spent: calls burn what is offered first until it is this row's turn. */
  lemma {:induction false} UnusedCanPass(w: World, gs: Groups.State, book: KeyBook, t: Table, id: Id)
    returns (calls: seq<Request>)
    requires Sorted(w) && AllSigned(w, t) && id in t && !t[id].used && Restricts(gs, t[id].cap.group)
    ensures Spends(w, gs, book, t, calls, id)
    decreases |Unused(t, (t[id].cap.group, t[id].cap.device))|
  {
    var c := t[id].cap;
    var o := (c.group, c.device);
    var file, now := if c.file == WILDCARD then "" else c.file, c.expires - 1.0;
    var m := Candidates(t, Query(c.group, c.device, file, now));
    assert id in m;
    var x := w.first(m).value;
    assert x in m && x in t && !t[x].used && (t[x].cap.group, t[x].cap.device) == o;
    var key :| w.verifies(key, t[x].cap);
    var r := Request([c.group], Some(c.device), Some(file), Some([key]), now);
    OneCallPasses(w, gs, book, t, r, c.group, x, key);
    if x == id {
      calls := [r];
    } else {
      BurnTakesOne(t, x, o);
      BurnKeepsSigned(w, t, x);
      var rest := UnusedCanPass(w, gs, book, Burn(t, x), id);
      calls := [r] + rest;
      assert calls[1..] == rest;
    }
  }

  lemma BurnKeepsSigned(w: World, t: Table, x: Id)
    requires AllSigned(w, t) && x in t
    ensures AllSigned(w, Burn(t, x))
  {
    forall id | id in Burn(t, x) ensures exists k :: w.verifies(k, Burn(t, x)[id].cap) {
      assert Burn(t, x)[id].cap == t[id].cap;
    }
  }

  lemma StepKeepsSigned(w: World, s: Ledger, e: Event, s': Ledger)
    requires Sorted(w) && Steps(w, s, e, s') && AllSigned(w, s.table)
    ensures AllSigned(w, s'.table)
  {
    forall id | id in s'.table ensures exists k :: w.verifies(k, s'.table[id].cap) {
      if e.Check? {
        GateBurns(w, s.gs, e.book, s.table, e.request, 0, e.request.keys, id);
        assert s'.table[id].cap == s.table[id].cap;
      } else if e.Store? && s'.table != s.table && id == e.id {
        var i :| 0 <= i < |e.keys| && w.verifies(e.keys[i], e.cap);
      } else {
        assert id in s.table && s'.table[id] == s.table[id];
      }
    }
  }

  lemma {:induction false} RunKeepsSigned(w: World, events: seq<Event>, states: seq<Ledger>, n: nat)
    requires Sorted(w) && IsRun(w, events, states) && n <= |events|
    ensures AllSigned(w, states[n].table)
  {
    if n > 0 {
      RunKeepsSigned(w, events, states, n - 1);
      StepKeepsSigned(w, states[n - 1], events[n - 1], states[n]);
    }
  }

  ghost predicate CanPass(w: World, gs: Groups.State, book: KeyBook, t: Table, id: Id) {
    exists calls :: Spends(w, gs, book, t, calls, id)
  }

  /** Some calls pass on a capability exactly while it is unused. */
  lemma CanPassIffUnused(w: World, gs: Groups.State, book: KeyBook, t: Table, id: Id)
    requires Sorted(w) && AllSigned(w, t) && (id in t && !t[id].used ==> Restricts(gs, t[id].cap.group))
    ensures CanPass(w, gs, book, t, id) <==> !SpentOut(t, id)
  {
    if SpentOut(t, id) {
      forall calls ensures !Spends(w, gs, book, t, calls, id) {
        SpentCannotPass(w, gs, book, t, calls, id);
      }
    } else {
      var calls := UnusedCanPass(w, gs, book, t, id);
    }
  }

  /** A capability burned at i and not stored since lets another export through after the next
      step, by whatever calls, if and only if that step stores it again. */
  lemma UsedPassesAgainIffStoredAgain(w: World, events: seq<Event>, states: seq<Ledger>, i: nat, e: Event, s': Ledger,
                                      id: Id, book: KeyBook)
    requires Sorted(w) && IsRun(w, events, states) && i < |events| && Uses(w, states[i], events[i], id)
    requires forall k :: i < k < |events| ==> !StoresAgain(w, states[k], events[k], id)
    requires Steps(w, states[|events|], e, s')
    requires StoresAgain(w, states[|events|], e, id) ==> Restricts(s'.gs, e.cap.group)
    ensures CanPass(w, s'.gs, book, s'.table, id) <==> StoresAgain(w, states[|events|], e, id)
  {
    var s := states[|events|];
    SpentUntil(w, events, states, i, |events|, id);
    SpentStaysIff(w, s, e, s', id);
    RunKeepsSigned(w, events, states, |events|);
    StepKeepsSigned(w, s, e, s');
    CanPassIffUnused(w, s'.gs, book, s'.table, id);
  }

  const FOUNDS := Groups.CreateGroup("g", "a", "k")
  const LOCKS := Groups.SetPolicy("g", Groups.Policy(false, false), "")
  const ASKS := Request(["g"], Some("d"), Some("f"), Some(["k"]), 0.0)
  const LOCKED := Groups.Apply(Groups.Apply(Groups.EMPTY, FOUNDS), LOCKS)

  function Row(c: Capability, used: bool): Table { map["1" := Entry(c, used)] }

  lemma LockedHasItsAdmin()
    ensures Restricts(LOCKED, "g") && KeysOf(LOCKED, "g", ["k"])
  {
    assert Groups.IsAdmin(LOCKED, "g", "a") && LOCKED.admins[("g", "a")].publicKey == "k";
  }

  lemma StepsOfOne(w: World, c: Capability, s: Ledger, book: KeyBook)
    requires Sorted(w) && w.verifies("k", c) && Matches(c, "d", "f", "g") && c.expires > 0.0
    requires s.gs == LOCKED && (s.table == map[] || s.table == Row(c, true))
    ensures var stored := s.(table := Row(c, false), stored := s.stored + multiset{("g", "d")});
            var passed := stored.(table := Row(c, true), burned := s.burned + multiset{("g", "d")},
                                  passed := s.passed + multiset{("g", "d")});
            Steps(w, s, Store("1", c, ["k"], 0.0), stored) && Steps(w, stored, Check(ASKS, book), passed)
  {
    LockedHasItsAdmin();
    assert SignedByAny(w, c, ["k"]) by { assert ["k"][0] == "k"; }
    var m := Candidates(Row(c, false), Query("g", "d", "f", 0.0));
    assert m == map["1" := c] by { assert "1" in m; }
    assert w.first(m).value in m;
    OneCallPasses(w, LOCKED, book, Row(c, false), ASKS, "g", "1", "k");
    assert Gated(LOCKED, ASKS.order, 1) == [] && Gated(LOCKED, ASKS.order, 0) == ["g"];
    assert Owners(["g"], "d") == [("g", "d")];
  }

  function Reached(c: Capability, used: bool, stored: nat, passed: nat): Ledger {
    Ledger(LOCKED, Row(c, used), multiset{}[("g", "d") := stored], multiset{}[("g", "d") := passed],
           multiset{}[("g", "d") := passed])
  }

  /** Storing the capability again and asking again makes one more pass. */
  lemma OneMorePass(w: World, c: Capability, book: KeyBook, n: nat)
    requires Sorted(w) && w.verifies("k", c) && Matches(c, "d", "f", "g") && c.expires > 0.0
    ensures Steps(w, Reached(c, true, n, n), Store("1", c, ["k"], 0.0), Reached(c, false, n + 1, n))
    ensures Steps(w, Reached(c, false, n + 1, n), Check(ASKS, book), Reached(c, true, n + 1, n + 1))
  {
    StepsOfOne(w, c, Reached(c, true, n, n), book);
    var one: multiset<(Id, Id)> := multiset{}[("g", "d") := n];
    assert one + multiset{("g", "d")} == multiset{}[("g", "d") := n + 1];
  }

  ghost predicate Passed(w: World, s: Ledger) {
    exists events, states :: IsRun(w, events, states) && states[|events|] == s
  }

  lemma PassedOn(w: World, s: Ledger, e: Event, s': Ledger)
    requires Passed(w, s) && Steps(w, s, e, s')
    ensures Passed(w, s')
  {
    var events, states :| IsRun(w, events, states) && states[|events|] == s;
    assert IsRun(w, events + [e], states + [s']);
    assert (states + [s'])[|events + [e]|] == s';
  }

  /** One capability lets through as many exports as it is stored: for every n there is a run
      that stores it n times and passes n times. */
  lemma {:induction false} PassesAsOftenAsStored(w: World, c: Capability, book: KeyBook, n: nat)
    requires Sorted(w) && w.verifies("k", c) && Matches(c, "d", "f", "g") && c.expires > 0.0 && n > 0
    ensures Passed(w, Reached(c, true, n, n))
  {
    if n == 1 {
      FirstPass(w, c, book);
    } else {
      PassesAsOftenAsStored(w, c, book, n - 1);
      OneMorePass(w, c, book, n - 1);
      PassedOn(w, Reached(c, true, n - 1, n - 1), Store("1", c, ["k"], 0.0), Reached(c, false, n, n - 1));
      PassedOn(w, Reached(c, false, n, n - 1), Check(ASKS, book), Reached(c, true, n, n));
    }
  }

  lemma FirstPass(w: World, c: Capability, book: KeyBook)
    requires Sorted(w) && w.verifies("k", c) && Matches(c, "d", "f", "g") && c.expires > 0.0
    ensures Passed(w, Reached(c, true, 1, 1))
  {
    var s1, s2 := START.(gs := Groups.Apply(Groups.EMPTY, FOUNDS)), START.(gs := LOCKED);
    assert IsRun(w, [], [START]) && [START][0] == START;
    PassedOn(w, START, Govern(FOUNDS), s1);
    PassedOn(w, s1, Govern(LOCKS), s2);
    StepsOfOne(w, c, s2, book);
    var one: multiset<(Id, Id)> := multiset{};
    assert one + multiset{("g", "d")} == one[("g", "d") := 1] && one == one[("g", "d") := 0];
    PassedOn(w, s2, Store("1", c, ["k"], 0.0), Reached(c, false, 1, 0));
    PassedOn(w, Reached(c, false, 1, 0), Check(ASKS, book), Reached(c, true, 1, 1));
  }
}
