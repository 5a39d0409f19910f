/** When the paths of active transfers stay apart: for arbitrary names, and when the user's
    answer to an offer comes after other things have happened. */
module Deciding {
  import opened Bytes
  import opened Names
  import opened Partial
  import opened Session
  import opened SessionSafety
  import opened Durability
  import Chunker

  // ---- paths ------------------------------------------------------------------

  function PathsFrom(d: string): set<string> { {d, PartName(d), MetaName(d)} }

  /** No path of one active transfer is a path of another. */
  predicate PathsDisjoint(incoming: map<string, Transfer>) {
    forall i, j :: i in incoming && j in incoming && i != j ==>
      PathsFrom(incoming[i].dest) !! PathsFrom(incoming[j].dest)
  }

  predicate PartsExist(files: Files, incoming: map<string, Transfer>) {
    forall id :: id in incoming ==> PartOf(incoming[id]) in files
  }

  /** The guard that _handle_offer lacks: the destination is nobody's sidecar, and neither of
      its companions is anybody's destination. */
  predicate NoCompanionClash(incoming: map<string, Transfer>, tid: string, d: string) {
    forall id :: id in incoming && id != tid ==>
      incoming[id].dest != PartName(d) && incoming[id].dest != MetaName(d) && d != MetaOf(incoming[id])
  }

  lemma DisjointIff(d: string, e: string)
    ensures PathsFrom(d) !! PathsFrom(e) <==>
              d != e && d != PartName(e) && d != MetaName(e) && e != PartName(d) && e != MetaName(d)
  {
    CompanionsAreInjective(d, e);
    CompanionsAreInjective(e, d);
  }

  lemma AddingKeepsDisjointIff(incoming: map<string, Transfer>, tid: string, t: Transfer)
    requires PathsDisjoint(incoming)
    ensures PathsDisjoint(incoming[tid := t]) <==>
              forall id :: id in incoming && id != tid ==> PathsFrom(incoming[id].dest) !! PathsFrom(t.dest)
  {
    var after := incoming[tid := t];
    if PathsDisjoint(after) {
      forall id | id in incoming && id != tid ensures PathsFrom(incoming[id].dest) !! PathsFrom(t.dest) {
        assert after[id] == incoming[id] && after[tid] == t;
      }
    }
  }

  lemma PlannedIsFree(w: World, files: Files, incoming: map<string, Transfer>, o: Offer, env: OfferEnv)
    requires PlanOffer(w, files, incoming, o, env).Planned?
    ensures var plan := PlanOffer(w, files, incoming, o, env);
            plan.dest !in plan.files && !Holds(incoming, plan.dest)
  {
  }

  /** Whatever the names: an accepted offer keeps the paths of active transfers apart if and
      only if the destination it settled on passes that guard. */
  lemma OfferKeepsPathsDisjointIff(w: World, s: State, o: Offer, env: OfferEnv)
    requires PathsDisjoint(s.incoming) && env.spaceOk && env.accept
    requires var plan := PlanOffer(w, Swept(s.files, env.now), s.incoming, o, env);
             plan.Planned? && PartsExist(plan.files, s.incoming)
    ensures var plan := PlanOffer(w, Swept(s.files, env.now), s.incoming, o, env);
            PathsDisjoint(HandleOffer(w, s, o, env).incoming) <==> NoCompanionClash(s.incoming, o.tid, plan.dest)
  {
    var plan := PlanOffer(w, Swept(s.files, env.now), s.incoming, o, env);
    var d := plan.dest;
    PlannedIsFree(w, Swept(s.files, env.now), s.incoming, o, env);
    var t := NewTransfer(o, env, d, if env.openOk then plan.offset else 0);
    AddingKeepsDisjointIff(s.incoming, o.tid, t);
    forall id | id in s.incoming ensures s.incoming[id].dest != d && d != PartOf(s.incoming[id]) {
      assert PartOf(s.incoming[id]) in plan.files;
    }
    forall id | id in s.incoming {
      DisjointIff(s.incoming[id].dest, d);
    }
  }

  /** Ordinary names always pass it. */
  lemma OrdinaryNamesPass(w: World, s: State, tid: string, d: string)
    requires Inv(w, s) && Plain(d)
    ensures NoCompanionClash(s.incoming, tid, d)
  {
    CompanionsAreNotPlain(d);
    forall id | id in s.incoming
      ensures s.incoming[id].dest != PartName(d) && s.incoming[id].dest != MetaName(d) && d != MetaOf(s.incoming[id])
    {
      assert Healthy(s.files, s.incoming[id]);
      CompanionsAreNotPlain(s.incoming[id].dest);
    }
  }

  // ---- settling and deciding apart ------------------------------------------------

  /** An offer whose destination is settled and whose answer is awaited. */
  datatype Pending = Pending(offer: Offer, dest: string, offset: nat)

  /** Every offer waits on its own, two with one transfer id included. */
  datatype Waiting = Waiting(s: State, pending: seq<Pending>)

  /** `Decide` says which waiting offer is answered, and what the environment answers then. */
  datatype WaitEvent = Meanwhile(e: Event) | Settle(offer: Offer, oenv: OfferEnv) | Decide(i: nat, oenv: OfferEnv)

  function WaitStep(w: World, y: Waiting, e: WaitEvent): Waiting {
    match e
    case Meanwhile(e) => y.(s := Step(w, y.s, e))
    case Settle(o, env) =>
      var plan := PlanOffer(w, Swept(y.s.files, env.now), y.s.incoming, o, env);
      if plan.Planned? && env.spaceOk
      then Waiting(y.s.(files := plan.files), y.pending + [Pending(o, plan.dest, plan.offset)])
      else y.(s := Conclude(y.s, o, env, plan))
    case Decide(i, env) =>
      if i >= |y.pending| then y
      else
        var p := y.pending[i];
        Waiting(Conclude(y.s, p.offer, env, Planned(y.s.files, p.dest, p.offset)), y.pending[..i] + y.pending[i + 1..])
  }

  function WaitRun(w: World, y: Waiting, events: seq<WaitEvent>): Waiting {
    if events == [] then y else WaitStep(w, WaitRun(w, y, events[..|events| - 1]), events[|events| - 1])
  }

  function StartOf(p: Pending, env: OfferEnv): nat { if env.openOk then p.offset else 0 }

  /** As for whole offers, the space having been looked at when settling; and a part file that
      could be opened for a resume is there. */
  ghost predicate Fair(w: World, y: Waiting, e: WaitEvent) {
    match e
    case Meanwhile(e) => Admissible(w, y.s, e)
    case Settle(o, env) => Admissible(w, y.s, OfferArrives(o, env))
    case Decide(i, env) =>
      && env.spaceOk
      && (i < |y.pending| && StartOf(y.pending[i], env) > 0 ==> IsBlob(y.s.files, PartName(y.pending[i].dest)))
  }

  ghost predicate FairRun(w: World, y: Waiting, events: seq<WaitEvent>) {
    events == [] || (FairRun(w, y, events[..|events| - 1])
                     && Fair(w, WaitRun(w, y, events[..|events| - 1]), events[|events| - 1]))
  }

  ghost predicate WaitInv(w: World, y: Waiting) {
    && Inv(w, y.s)
    && (forall p :: p in y.pending ==> Plain(p.dest) && p.offset % CHUNK_SIZE == 0 && p.offset <= p.offer.size)
  }

  /** What _handle_offer does not look at again: no other transfer has come to hold the settled
      destination, and nothing has been delivered there. */
  predicate StillClear(s: State, tid: string, d: string) {
    d !in s.files && forall id :: id in s.incoming && id != tid ==> s.incoming[id].dest != d
  }

  predicate HeldBySome(s: State, d: string) {
    exists id :: id in s.incoming && s.incoming[id].dest == d
  }

  /** An acceptance finds its destination still clear, and a refusal does not throw away a
      partial that somebody is now receiving into. */
  predicate SafeDecision(y: Waiting, e: WaitEvent) {
    e.Decide? && e.i < |y.pending| ==>
      var p := y.pending[e.i];
      if e.oenv.accept then StillClear(y.s, p.offer.tid, p.dest) else p.offset > 0 ==> !HeldBySome(y.s, p.dest)
  }

  lemma DroppedKeepsInv(w: World, s: State, tid: string)
    requires Inv(w, s)
    ensures Inv(w, s.(incoming := s.incoming - {tid}))
  {
  }

  lemma LateAcceptKeepsInv(w: World, s: State, o: Offer, env: OfferEnv, d: string, start: nat)
    requires Inv(w, s) && Plain(d) && start <= o.size && start % CHUNK_SIZE == 0
    requires start > 0 ==> IsBlob(s.files, PartName(d))
    requires StillClear(s, o.tid, d)
    ensures Inv(w,
                s.(files := AcceptedFiles(s.files, o, env, d, start),
                   incoming := s.incoming[o.tid := NewTransfer(o, env, d, start)]))
  {
    var rest := s.(incoming := s.incoming - {o.tid});
    DroppedKeepsInv(w, s, o.tid);
    forall id | id in rest.incoming ensures PartOf(rest.incoming[id]) != PartName(d) {
      CompanionsAreInjective(rest.incoming[id].dest, d);
    }
    AcceptKeepsInv(w, rest, o, env, d, start);
    assert rest.incoming[o.tid := NewTransfer(o, env, d, start)] == s.incoming[o.tid := NewTransfer(o, env, d, start)];
  }

  lemma LateAcceptBreaksInv(w: World, s: State, s': State, o: Offer, env: OfferEnv, d: string, start: nat)
    requires Plain(d) && s'.files == AcceptedFiles(s.files, o, env, d, start)
    requires s'.incoming == s.incoming[o.tid := NewTransfer(o, env, d, start)]
    requires !StillClear(s, o.tid, d)
    ensures !Inv(w, s')
  {
    CompanionsAreNotPlain(d);
    assert s'.incoming[o.tid].dest == d;
    if d in s.files {
      assert d in s'.files;
      assert !Healthy(s'.files, s'.incoming[o.tid]);
    } else {
      var id :| id in s.incoming && id != o.tid && s.incoming[id].dest == d;
      assert s'.incoming[id].dest == d;
    }
  }

  lemma LateRefusalKeepsInvIff(w: World, s: State, s': State, d: string)
    requires Inv(w, s) && Plain(d) && s'.files == Discard(s.files, d) && s'.incoming == s.incoming
    requires s'.intact == s.intact
    ensures Inv(w, s') <==> !HeldBySome(s, d)
  {
    if HeldBySome(s, d) {
      var id :| id in s.incoming && s.incoming[id].dest == d;
      assert !Healthy(s'.files, s'.incoming[id]);
    } else {
      forall id | id in s.incoming ensures PartOf(s.incoming[id]) != PartName(d) {
        CompanionsAreInjective(s.incoming[id].dest, d);
      }
      DiscardUnheldKeepsInv(w, s, d);
      SentIsNotLookedAt(w, s.(files := Discard(s.files, d)), s');
    }
  }

  lemma SentIsNotLookedAt(w: World, s: State, s': State)
    requires Inv(w, s) && s'.files == s.files && s'.incoming == s.incoming && s'.intact == s.intact
    ensures Inv(w, s')
  {
  }

  lemma DecisionKeepsInvIff(w: World, y: Waiting, i: nat, env: OfferEnv)
    requires WaitInv(w, y) && Fair(w, y, Decide(i, env)) && i < |y.pending|
    ensures Inv(w, WaitStep(w, y, Decide(i, env)).s) <==> SafeDecision(y, Decide(i, env))
  {
    var p := y.pending[i];
    var s' := WaitStep(w, y, Decide(i, env)).s;
    var start := StartOf(p, env);
    if !env.accept {
      if p.offset > 0 {
        LateRefusalKeepsInvIff(w, y.s, s', p.dest);
      } else {
        SentIsNotLookedAt(w, y.s, s');
      }
    } else if StillClear(y.s, p.offer.tid, p.dest) {
      LateAcceptKeepsInv(w, y.s, p.offer, env, p.dest, start);
      SentIsNotLookedAt(w, y.s.(files := s'.files, incoming := s'.incoming), s');
    } else {
      LateAcceptBreaksInv(w, y.s, s', p.offer, env, p.dest, start);
    }
  }

  lemma SettlingKeepsInv(w: World, y: Waiting, o: Offer, env: OfferEnv)
    requires WaitInv(w, y) && Fair(w, y, Settle(o, env))
    ensures WaitInv(w, WaitStep(w, y, Settle(o, env)))
  {
    var swept := y.s.(files := Swept(y.s.files, env.now));
    SweepKeepsInv(w, y.s, env.now);
    PlanIsSafe(w, swept, o, env);
    ConcludeKeepsInv(w, y.s, o, env, PlanOffer(w, swept.files, y.s.incoming, o, env));
  }

  /** A step keeps everything a session promises if and only if it is not an unsafe decision. */
  lemma WaitStepKeepsInvIff(w: World, y: Waiting, e: WaitEvent)
    requires WaitInv(w, y) && Fair(w, y, e)
    ensures WaitInv(w, WaitStep(w, y, e)) <==> SafeDecision(y, e)
    ensures Inv(w, WaitStep(w, y, e).s) <==> SafeDecision(y, e)
  {
    match e
    case Meanwhile(r) => StepKeepsInv(w, y.s, r);
    case Settle(o, env) => SettlingKeepsInv(w, y, o, env);
    case Decide(i, env) => if i < |y.pending| { DecisionKeepsInvIff(w, y, i, env); }
  }

  /** The session invariant holds at every point of the run. */
  ghost predicate AlwaysInv(w: World, y: Waiting, events: seq<WaitEvent>) {
    Inv(w, WaitRun(w, y, events).s) && (events == [] || AlwaysInv(w, y, events[..|events| - 1]))
  }

  ghost predicate AllSafe(w: World, y: Waiting, events: seq<WaitEvent>) {
    events == [] || (AllSafe(w, y, events[..|events| - 1])
                     && SafeDecision(WaitRun(w, y, events[..|events| - 1]), events[|events| - 1]))
  }

  /** With answers arriving whenever they do, exclusive paths, true part files and intact
      deliveries hold throughout a run if and only if every decision in it is safe. */
  lemma {:induction false} WaitRunKeepsInvIff(w: World, y: Waiting, events: seq<WaitEvent>)
    requires WaitInv(w, y) && FairRun(w, y, events)
    ensures AlwaysInv(w, y, events) <==> AllSafe(w, y, events)
    ensures AllSafe(w, y, events) ==> WaitInv(w, WaitRun(w, y, events))
    decreases |events|
  {
    if events != [] {
      var front := events[..|events| - 1];
      WaitRunKeepsInvIff(w, y, front);
      if AllSafe(w, y, front) {
        WaitStepKeepsInvIff(w, WaitRun(w, y, front), events[|events| - 1]);
      }
    }
  }

  /** The same from the start of a session. */
  lemma SafeDecisionsDecide(w: World, files: Files, now: real, events: seq<WaitEvent>)
    requires FilesOk(files) && FairRun(w, Waiting(Booted(files, now), []), events)
    ensures AlwaysInv(w, Waiting(Booted(files, now), []), events) <==>
              AllSafe(w, Waiting(Booted(files, now), []), events)
  {
    StartIsSafe(w, files, now);
    WaitRunKeepsInvIff(w, Waiting(Booted(files, now), []), events);
  }

  // ---- late decisions and sidecars ---------------------------------------------------

  /** Resuming at `start` leaves a true sidecar: the one written claims no more than is synced,
      or the one left alone no more than is kept. */
  predicate ResumesTruly(files: Files, o: Offer, env: OfferEnv, d: string, start: nat)
    requires start > 0 ==> IsBlob(files, PartName(d))
  {
    start > 0 ==>
      if env.peer != "" && env.metaOk && WellFormed(RecordFor(NewTransfer(o, env, d, start), env.peer, start, env.now))
      then start <= files[PartName(d)].synced
      else ReadMeta(files, MetaName(d)).Some? ==> files[MetaName(d)].rec.committed <= start
  }

  lemma LateFilesAreConfined(files: Files, o: Offer, env: OfferEnv, d: string, start: nat)
    requires FilesOk(files) && Plain(d) && (start > 0 ==> IsBlob(files, PartName(d)))
    ensures var files' := AcceptedFiles(files, o, env, d, start);
            && FilesOk(files') && OnlyTouches(files, files', d)
            && (d in files' ==> d in files && files'[d] == files[d])
  {
    CompanionsAreNotPlain(d);
    if start > 0 {
      var b := files[PartName(d)];
      ChangeBlobKeeps(files, d, Blob(Cut(b.bytes, start), Chunker.Min(b.synced, start)));
    } else {
      RemovalKeeps(files, {PartName(d), MetaName(d)});
      ChangeBlobKeeps(Discard(files, d), d, Blob([], 0));
    }
    WriteMetaKeeps(Opened(files, d, start), RecordFor(NewTransfer(o, env, d, start), env.peer, start, env.now),
                   env.metaOk);
  }

  lemma LateSidecarIff(files: Files, o: Offer, env: OfferEnv, d: string, start: nat)
    requires SidecarSafeAt(files, d) && Plain(d) && start % CHUNK_SIZE == 0
    requires start > 0 ==> IsBlob(files, PartName(d))
    ensures SidecarSafeAt(AcceptedFiles(files, o, env, d, start), d) <==> ResumesTruly(files, o, env, d, start)
  {
    CompanionsAreNotPlain(d);
  }

  lemma LateAcceptSafetyIff(files: Files, o: Offer, env: OfferEnv, d: string, start: nat)
    requires FilesOk(files) && SidecarSafe(files) && Plain(d) && start % CHUNK_SIZE == 0
    requires start > 0 ==> IsBlob(files, PartName(d))
    ensures SidecarSafe(AcceptedFiles(files, o, env, d, start)) <==> ResumesTruly(files, o, env, d, start)
  {
    LateFilesAreConfined(files, o, env, d, start);
    ConfinedSafety(files, AcceptedFiles(files, o, env, d, start), d);
    LateSidecarIff(files, o, env, d, start);
  }

  /** What decides whether a step keeps the sidecars true. */
  predicate TrueStep(w: World, y: Waiting, e: WaitEvent)
    requires Fair(w, y, e)
  {
    match e
    case Meanwhile(e) => Benign(y.s, e)
    case Settle(_, _) => true
    case Decide(i, env) =>
      i < |y.pending| && env.accept ==>
        ResumesTruly(y.s.files, y.pending[i].offer, env, y.pending[i].dest, StartOf(y.pending[i], env))
  }

  /** With answers arriving at any time, a step keeps every sidecar's committed count within the
      fsynced prefix if and only if it is neither one of the two failures nor a resume of a
      partial that has changed since it was settled on. */
  lemma WaitStepKeepsSidecarsIff(w: World, y: Waiting, e: WaitEvent)
    requires WaitInv(w, y) && Fair(w, y, e) && SidecarSafe(y.s.files)
    ensures SidecarSafe(WaitStep(w, y, e).s.files) <==> TrueStep(w, y, e)
  {
    match e
    case Meanwhile(r) => StepKeepsSidecarsIffBenign(w, y.s, r);
    case Settle(o, env) =>
      var swept := y.s.(files := Swept(y.s.files, env.now));
      SweepKeepsSafe(y.s.files, env.now);
      SweepKeepsInv(w, y.s, env.now);
      PlanSafety(w, swept, o, env);
    case Decide(i, env) =>
      if i < |y.pending| {
        var p := y.pending[i];
        DiscardSafety(y.s.files, p.dest);
        if env.accept { LateAcceptSafetyIff(y.s.files, p.offer, env, p.dest, StartOf(p, env)); }
      }
  }

  /** The session invariant and true sidecars, at every point of the run. */
  ghost predicate AlwaysTrue(w: World, y: Waiting, events: seq<WaitEvent>) {
    && Inv(w, WaitRun(w, y, events).s) && SidecarSafe(WaitRun(w, y, events).s.files)
    && (events == [] || AlwaysTrue(w, y, events[..|events| - 1]))
  }

  ghost predicate AllTrue(w: World, y: Waiting, events: seq<WaitEvent>)
    requires FairRun(w, y, events)
  {
    events == [] || (&& AllTrue(w, y, events[..|events| - 1])
                     && SafeDecision(WaitRun(w, y, events[..|events| - 1]), events[|events| - 1])
                     && TrueStep(w, WaitRun(w, y, events[..|events| - 1]), events[|events| - 1]))
  }

  /** Both together, over every run from the start of a session. */
  lemma {:induction false} TrueDecisionsDecide(w: World, files: Files, now: real, events: seq<WaitEvent>)
    requires FilesOk(files) && SidecarSafe(files) && FairRun(w, Waiting(Booted(files, now), []), events)
    ensures AlwaysTrue(w, Waiting(Booted(files, now), []), events) <==>
              AllTrue(w, Waiting(Booted(files, now), []), events)
    ensures AllTrue(w, Waiting(Booted(files, now), []), events) ==>
              WaitInv(w, WaitRun(w, Waiting(Booted(files, now), []), events))
    decreases |events|
  {
    var y := Waiting(Booted(files, now), []);
    if events == [] {
      StartIsSafe(w, files, now);
      SweepKeepsSafe(files, now);
    } else {
      var front := events[..|events| - 1];
      TrueDecisionsDecide(w, files, now, front);
      if AllTrue(w, y, front) {
        WaitStepKeepsInvIff(w, WaitRun(w, y, front), events[|events| - 1]);
        WaitStepKeepsSidecarsIff(w, WaitRun(w, y, front), events[|events| - 1]);
      }
    }
  }

  const IDLE := Waiting(EMPTY, [])

  lemma WaitSnoc(w: World, events: seq<WaitEvent>, e: WaitEvent)
    ensures WaitRun(w, IDLE, events + [e]) == WaitStep(w, WaitRun(w, IDLE, events), e)
  {
    assert (events + [e])[..|events|] == events;
  }

  lemma SettlesOnX(w: World, y: Waiting, o: Offer)
    requires w.sanitize("x") == Some("x") && o.filename == "x" && o.size <= Chunker.MAX_INCOMING_FILE_SIZE
    requires y.s == EMPTY
    ensures WaitStep(w, y, Settle(o, QUIET)) == y.(pending := y.pending + [Pending(o, "x", 0)])
  {
    assert Swept(EMPTY.files, 0.0) == map[] && EMPTY.files.Keys == {};
    DestinationKeepsFreeName({}, "x", false);
    assert PlanOffer(w, map[], map[], o, QUIET) == Planned(map[], "x", 0);
  }

  lemma AcceptsX(w: World, y: Waiting, o: Offer)
    requires y.pending != [] && y.pending[0] == Pending(o, "x", 0)
    ensures var y' := WaitStep(w, y, Decide(0, QUIET));
            && y'.pending == y.pending[1..]
            && y'.s.incoming == y.s.incoming[o.tid := NewTransfer(o, QUIET, "x", 0)]
  {
    assert y.pending[..0] + y.pending[1..] == y.pending[1..];
  }

  lemma BothSettleOnX(w: World, o1: Offer, o2: Offer)
    requires w.sanitize("x") == Some("x") && o1.filename == "x" && o2.filename == "x"
    requires o1.size <= Chunker.MAX_INCOMING_FILE_SIZE && o2.size <= Chunker.MAX_INCOMING_FILE_SIZE
    ensures WaitRun(w, IDLE, [Settle(o1, QUIET)] + [Settle(o2, QUIET)])
         == Waiting(EMPTY, [Pending(o1, "x", 0), Pending(o2, "x", 0)])
  {
    WaitSnoc(w, [], Settle(o1, QUIET));
    assert [] + [Settle(o1, QUIET)] == [Settle(o1, QUIET)];
    SettlesOnX(w, IDLE, o1);
    WaitSnoc(w, [Settle(o1, QUIET)], Settle(o2, QUIET));
    SettlesOnX(w, Waiting(EMPTY, [Pending(o1, "x", 0)]), o2);
  }

  /** Two offers of one name, both settled before either is answered and both accepted: two
      active transfers with one destination. */
  lemma TwoAnswersOneDestination(w: World, o1: Offer, o2: Offer)
    requires w.sanitize("x") == Some("x") && o1.filename == "x" && o2.filename == "x" && o1.tid != o2.tid
    requires o1.size <= Chunker.MAX_INCOMING_FILE_SIZE && o2.size <= Chunker.MAX_INCOMING_FILE_SIZE
    ensures var settled := [Settle(o1, QUIET)] + [Settle(o2, QUIET)];
            var s := WaitRun(w, IDLE, settled + [Decide(0, QUIET)] + [Decide(0, QUIET)]).s;
            && o1.tid in s.incoming && o2.tid in s.incoming && s.incoming[o1.tid].dest == "x"
            && s.incoming[o2.tid].dest == "x" && !Inv(w, s)
  {
    var settled := [Settle(o1, QUIET)] + [Settle(o2, QUIET)];
    BothSettleOnX(w, o1, o2);
    var y := WaitRun(w, IDLE, settled);
    WaitSnoc(w, settled, Decide(0, QUIET));
    WaitSnoc(w, settled + [Decide(0, QUIET)], Decide(0, QUIET));
    AcceptsX(w, y, o1);
    AcceptsX(w, WaitStep(w, y, Decide(0, QUIET)), o2);
  }

  // ---- a resume of what is no longer there ---------------------------------------------

  function Wrapped(events: seq<Event>): seq<WaitEvent> {
    seq(|events|, i requires 0 <= i < |events| => Meanwhile(events[i]))
  }

  lemma {:induction false} NobodyWaits(w: World, events: seq<Event>)
    ensures WaitRun(w, IDLE, Wrapped(events)) == Waiting(Run(w, EMPTY, events), [])
    decreases |events|
  {
    if events != [] {
      NobodyWaits(w, events[..|events| - 1]);
      assert Wrapped(events)[..|events| - 1] == Wrapped(events[..|events| - 1]);
    }
  }

  const THIRD := AGAIN.(tid := "3")

  /** A partial of one chunk; an offer that would resume it waits for an answer. */
  const SETTLED := Wrapped(HALFWAY + [Stops("1", FINE)]) + [Settle(AGAIN, FOUND)]

  lemma AfterSettling(w: World)
    requires w.sanitize("f") == Some("f")
    ensures var y := WaitRun(w, IDLE, SETTLED);
            && y.s.files == Dir(CHUNK, CHUNK_SIZE, CHUNK_SIZE) && y.s.incoming == map[]
            && y.pending == [Pending(AGAIN, "f", CHUNK_SIZE)]
  {
    AfterStop(w);
    NobodyWaits(w, HALFWAY + [Stops("1", FINE)]);
    WaitSnoc(w, Wrapped(HALFWAY + [Stops("1", FINE)]), Settle(AGAIN, FOUND));
    FindsItAgain(w, Dir(CHUNK, CHUNK_SIZE, CHUNK_SIZE), AGAIN);
  }

  /** Meanwhile the file is offered again, accepted, started over by the sender, and stopped. */
  const STARTED_OVER := SETTLED + [Meanwhile(OfferArrives(THIRD, FOUND))]
                        + [Meanwhile(ChunkArrives("3", 0, 0, [], FINE))] + [Meanwhile(Stops("3", FINE))]

  lemma ThirdIsAccepted(w: World, s: State)
    requires w.sanitize("f") == Some("f") && s.files == Dir(CHUNK, CHUNK_SIZE, CHUNK_SIZE) && s.incoming == map[]
    ensures var s' := Step(w, s, OfferArrives(THIRD, FOUND));
            s'.files == s.files && s'.incoming == map["3" := NewTransfer(THIRD, FOUND, "f", CHUNK_SIZE)]
  {
    NamesOfF();
    FindsItAgain(w, s.files, THIRD);
    assert CHUNK[..CHUNK_SIZE] == CHUNK;
  }

  lemma ThirdStartsOver(w: World, s: State)
    requires s.files == Dir(CHUNK, CHUNK_SIZE, CHUNK_SIZE)
    requires s.incoming == map["3" := NewTransfer(THIRD, FOUND, "f", CHUNK_SIZE)]
    ensures var s' := Step(w, s, ChunkArrives("3", 0, 0, [], FINE));
            && s'.files == Dir([], 0, 0)
            && s'.incoming == map["3" := Advanced(Restarted(NewTransfer(THIRD, FOUND, "f", CHUNK_SIZE)), 0)]
  {
    NamesOfF();
    var t := NewTransfer(THIRD, FOUND, "f", CHUNK_SIZE);
    assert IsRestart(t, 0, 0) && CHUNK[..0] == [];
    assert RestartFiles(s.files, t, FINE) == Dir([], 0, 0);
    var none: seq<byte> := [];
    assert none + none == none && Append(Dir([], 0, 0), PartOf(t), []) == Dir([], 0, 0);
    assert !DueForCheckpoint(Advanced(Restarted(t), 0));
  }

  lemma ThirdStops(w: World, s: State)
    requires s.files == Dir([], 0, 0)
    requires s.incoming == map["3" := Advanced(Restarted(NewTransfer(THIRD, FOUND, "f", CHUNK_SIZE)), 0)]
    ensures var s' := Step(w, s, Stops("3", FINE));
            s'.files == Dir([], 0, 0) && s'.incoming == map[]
  {
    NamesOfF();
    assert RoundDown(0) == 0;
  }

  lemma AfterStartingOver(w: World)
    requires w.sanitize("f") == Some("f")
    ensures var y := WaitRun(w, IDLE, STARTED_OVER);
            && y.s.files == Dir([], 0, 0) && y.s.incoming == map[]
            && y.pending == [Pending(AGAIN, "f", CHUNK_SIZE)]
  {
    AfterSettling(w);
    var s := WaitRun(w, IDLE, SETTLED).s;
    var e1, e2, e3 := OfferArrives(THIRD, FOUND), ChunkArrives("3", 0, 0, [], FINE), Stops("3", FINE);
    WaitSnoc(w, SETTLED, Meanwhile(e1));
    WaitSnoc(w, SETTLED + [Meanwhile(e1)], Meanwhile(e2));
    WaitSnoc(w, SETTLED + [Meanwhile(e1)] + [Meanwhile(e2)], Meanwhile(e3));
    ThirdIsAccepted(w, s);
    ThirdStartsOver(w, Step(w, s, e1));
    ThirdStops(w, Step(w, Step(w, s, e1), e2));
  }

  lemma LateResume(w: World, y: Waiting)
    requires y.s.files == Dir([], 0, 0) && y.s.incoming == map[] && y.pending == [Pending(AGAIN, "f", CHUNK_SIZE)]
    ensures SafeDecision(y, Decide(0, KEPT))
    ensures WaitStep(w, y, Decide(0, KEPT)).s.files == Dir(Cut([], CHUNK_SIZE), 0, CHUNK_SIZE)
  {
    NamesOfF();
  }

  /** The answer then resumes at an offset that the file no longer reaches: zeros are filled in,
      and the sidecar says they are committed. */
  lemma LateResumeBreaksSidecar(w: World)
    requires w.sanitize("f") == Some("f")
    ensures var y := WaitRun(w, IDLE, STARTED_OVER);
            && SidecarSafe(y.s.files) && SafeDecision(y, Decide(0, KEPT))
            && !SidecarSafe(WaitRun(w, IDLE, STARTED_OVER + [Decide(0, KEPT)]).s.files)
  {
    AfterStartingOver(w);
    LateResume(w, WaitRun(w, IDLE, STARTED_OVER));
    WaitSnoc(w, STARTED_OVER, Decide(0, KEPT));
    DirIsSafeIff(0, [], 0);
    DirIsSafeIff(0, Cut([], CHUNK_SIZE), CHUNK_SIZE);
  }
}
