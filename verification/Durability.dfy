/** What the sidecars promise about the disk, in every reachable state and after every crash. */
module Durability {
  import opened Bytes
  import opened Names
  import opened Partial
  import opened TransferState
  import opened Session
  import opened SessionSafety

  /** What a sidecar says is committed is a whole number of chunks and was fsynced. */
  ghost predicate Backed(files: Files, r: Record) {
    && r.committed % CHUNK_SIZE == 0
    && (IsBlob(files, PartName(r.destName)) ==> r.committed <= files[PartName(r.destName)].synced)
  }

  ghost predicate SidecarSafe(files: Files) {
    forall n :: ReadMeta(files, n).Some? ==> Backed(files, files[n].rec)
  }

  ghost predicate SidecarSafeAt(files: Files, d: string) {
    ReadMeta(files, MetaName(d)).Some? ==> Backed(files, files[MetaName(d)].rec)
  }

  /** Only the sidecar of the transfer being changed has to be looked at. */
  lemma ConfinedSafety(files: Files, files': Files, d: string)
    requires SidecarSafe(files) && OnlyTouches(files, files', d) && Plain(d) && SidecarsPlain(files')
    requires d in files' ==> !files'[d].Sidecar? || (d in files && files[d] == files'[d])
    ensures SidecarSafe(files') <==> SidecarSafeAt(files', d)
  {
    CompanionsAreNotPlain(d);
    forall n | ReadMeta(files', n).Some? && n != MetaName(d) ensures Backed(files', files'[n].rec) {
      var e := files'[n].rec.destName;
      CompanionsAreInjective(d, e);
      CompanionsAreInjective(e, d);
      CompanionsAreNotPlain(e);
      assert ReadMeta(files, n).Some? && files[n] == files'[n];
      assert IsBlob(files', PartName(e)) ==> IsBlob(files, PartName(e)) && files'[PartName(e)] == files[PartName(e)];
    }
  }

  // ---- when an event leaves a false sidecar behind ---------------------------

  /** A restart rewrites the sidecar through the address's current peer, or through the
      checkpoint of a first chunk that is large enough. */
  predicate SidecarRewritten(t: Transfer, data: seq<byte>, env: IoEnv) {
    && env.metaOk
    && ((env.peer != "" && WellFormed(RecordFor(t, env.peer, 0, env.now)))
        || (|data| >= COMMIT_INTERVAL && env.syncOk && FirstPeer(t, env) != ""
            && WellFormed(RecordFor(t, FirstPeer(t, env), RoundDown(|data|), env.now))))
  }

  function SyncedByRestart(t: Transfer, data: seq<byte>, env: IoEnv): nat {
    if |data| >= COMMIT_INTERVAL && env.syncOk && FirstPeer(t, env) != "" then |data| else 0
  }

  /** Everything about the event and the state it meets that decides whether the sidecars
      stay true. */
  predicate Benign(s: State, e: Event) {
    match e
    case ChunkArrives(tid, sequence, offset, data, env) =>
      if tid in s.incoming && IsRestart(s.incoming[tid], sequence, offset)
         && env.truncateOk && |data| <= s.incoming[tid].size && env.writeOk
      then
        var t := s.incoming[tid];
        || SidecarRewritten(t, data, env)
        || ReadMeta(s.files, MetaOf(t)).None?
        || s.files[MetaOf(t)].rec.committed <= SyncedByRestart(t, data, env)
      else true
    case Stops(tid, env) =>
      if tid in s.incoming && IsBlob(s.files, PartOf(s.incoming[tid])) then
        var t := s.incoming[tid];
        || env.syncOk
        || FirstPeer(t, env) == "" || !env.metaOk
        || !WellFormed(RecordFor(t, FirstPeer(t, env), RoundDown(t.received), env.now))
        || RoundDown(t.received) <= s.files[PartOf(t)].synced
      else true
    case _ => true
  }

  lemma SweepKeepsSafe(files: Files, now: real)
    requires SidecarSafe(files)
    ensures SidecarSafe(Swept(files, now))
  {
    var swept := Swept(files, now);
    forall n | ReadMeta(swept, n).Some? ensures Backed(swept, swept[n].rec) {
      assert ReadMeta(files, n).Some?;
    }
  }

  lemma CheckpointSafety(files: Files, t: Transfer, env: IoEnv)
    requires Healthy(files, t)
    ensures FirstPeer(t, env) != "" && env.syncOk ==>
              var files' := CheckpointFiles(files, t, env);
              && files'[PartOf(t)].synced == t.received
              && (if env.metaOk && WellFormed(RecordFor(t, FirstPeer(t, env), RoundDown(t.received), env.now))
                  then SidecarSafeAt(files', t.dest)
                  else ReadMeta(files', MetaOf(t)) == ReadMeta(files, MetaOf(t)))
  {
    CompanionsAreNotPlain(t.dest);
  }

  /** Appending and checkpointing never make a true sidecar false. */
  lemma StoreSafety(files: Files, t: Transfer, data: seq<byte>, env: IoEnv)
    requires FilesOk(files) && Healthy(files, t) && t.received + |data| <= t.size
    requires SidecarSafeAt(files, t.dest)
    ensures SidecarSafeAt(StoredFiles(files, t, data, env), t.dest)
  {
    CompanionsAreNotPlain(t.dest);
    AppendKeeps(files, t, data);
    var written := Append(files, PartOf(t), data);
    assert ReadMeta(written, MetaOf(t)) == ReadMeta(files, MetaOf(t));
    CheckpointSafety(written, Advanced(t, |data|), env);
  }

  lemma RestartSafety(files: Files, t: Transfer, data: seq<byte>, env: IoEnv)
    requires FilesOk(files) && Healthy(files, t) && |data| <= t.size && SidecarSafeAt(files, t.dest)
    ensures var files' := StoredFiles(RestartFiles(files, t, env), Restarted(t), data, env);
            SidecarSafeAt(files', t.dest) <==>
              || SidecarRewritten(t, data, env)
              || ReadMeta(files, MetaOf(t)).None?
              || files[MetaOf(t)].rec.committed <= SyncedByRestart(t, data, env)
  {
    CompanionsAreNotPlain(t.dest);
    RestartKeeps(files, t, env);
    var restarted := RestartFiles(files, t, env);
    var t0 := Restarted(t);
    if env.metaOk && env.peer != "" && WellFormed(RecordFor(t, env.peer, 0, env.now)) {
      StoreSafety(restarted, t0, data, env);
    } else {
      assert ReadMeta(restarted, MetaOf(t)) == ReadMeta(files, MetaOf(t));
      AppendKeeps(restarted, t0, data);
      var written := Append(restarted, PartOf(t), data);
      assert ReadMeta(written, MetaOf(t)) == ReadMeta(files, MetaOf(t));
      CheckpointSafety(written, Advanced(t0, |data|), env);
    }
  }

  lemma ChunkSafetyAt(w: World, s: State, e: Event)
    requires e.ChunkArrives? && FilesOk(s.files) && e.tid in s.incoming && Healthy(s.files, s.incoming[e.tid])
    requires SidecarSafeAt(s.files, s.incoming[e.tid].dest)
    ensures SidecarSafeAt(Step(w, s, e).files, s.incoming[e.tid].dest) <==> Benign(s, e)
  {
    var t := s.incoming[e.tid];
    var s' := Step(w, s, e);
    if s' == AbortIncoming(s, e.tid) {
      assert MetaOf(t) !in s'.files;
    } else if IsRestart(t, e.sequence, e.offset) {
      RestartSafety(s.files, t, e.data, e.env);
    } else {
      StoreSafety(s.files, t.(firstSeen := true, state := Receiving), e.data, e.env);
    }
  }

  /** The transfer a chunk is stored into: itself, or itself started over. */
  function BaseOf(t: Transfer, sequence: int, offset: int): Transfer {
    if IsRestart(t, sequence, offset) then Restarted(t) else t.(firstSeen := true, state := Receiving)
  }

  function BaseFiles(files: Files, t: Transfer, sequence: int, offset: int, env: IoEnv): Files {
    if IsRestart(t, sequence, offset) then RestartFiles(files, t, env) else files
  }

  /** A chunk for a healthy transfer is stored or aborts it. */
  lemma ChunkOutcome(w: World, s: State, e: Event)
    requires e.ChunkArrives? && e.tid in s.incoming && s.incoming[e.tid].state in {Accepted, Receiving}
    ensures var s', t := Step(w, s, e), s.incoming[e.tid];
            if e.tid in s'.incoming then
              var base := BaseOf(t, e.sequence, e.offset);
              && base.received + |e.data| <= t.size && base.dest == t.dest
              && s'.files == StoredFiles(BaseFiles(s.files, t, e.sequence, e.offset, e.env), base, e.data, e.env)
              && s'.incoming[e.tid] == StoredTransfer(base, |e.data|, e.env)
            else s' == AbortIncoming(s, e.tid)
  {
  }

  lemma ChunkIsConfined(w: World, s: State, e: Event)
    requires e.ChunkArrives? && Inv(w, s) && e.tid in s.incoming
    ensures var s', d := Step(w, s, e), s.incoming[e.tid].dest;
            OnlyTouches(s.files, s'.files, d) && SidecarsPlain(s'.files) && d !in s'.files
  {
    var t := s.incoming[e.tid];
    var s' := Step(w, s, e);
    assert Healthy(s.files, t);
    ChunkKeepsInv(w, s, e.tid, e.sequence, e.offset, e.data, e.env);
    ChunkOutcome(w, s, e);
    if e.tid in s'.incoming {
      assert Healthy(s'.files, s'.incoming[e.tid]) && s'.incoming[e.tid].dest == t.dest;
    }
  }

  lemma ChunkSafety(w: World, s: State, e: Event)
    requires e.ChunkArrives? && Inv(w, s) && SidecarSafe(s.files)
    ensures SidecarSafe(Step(w, s, e).files) <==> Benign(s, e)
  {
    if e.tid in s.incoming {
      var d := s.incoming[e.tid].dest;
      assert Healthy(s.files, s.incoming[e.tid]);
      ChunkIsConfined(w, s, e);
      ConfinedSafety(s.files, Step(w, s, e).files, d);
      assert SidecarSafeAt(s.files, d);
      ChunkSafetyAt(w, s, e);
    }
  }

  lemma StopSafetyAt(files: Files, t: Transfer, env: IoEnv)
    requires FilesOk(files) && Healthy(files, t) && SidecarSafeAt(files, t.dest)
    ensures var files' := StopFiles(files, t, env);
            && t.dest !in files'
            && (SidecarSafeAt(files', t.dest) <==>
                  || env.syncOk || FirstPeer(t, env) == "" || !env.metaOk
                  || !WellFormed(RecordFor(t, FirstPeer(t, env), RoundDown(t.received), env.now))
                  || RoundDown(t.received) <= files[PartOf(t)].synced)
  {
    CompanionsAreNotPlain(t.dest);
  }

  lemma StopSafety(w: World, s: State, e: Event)
    requires e.Stops? && Inv(w, s) && SidecarSafe(s.files)
    ensures SidecarSafe(Step(w, s, e).files) <==> Benign(s, e)
  {
    if e.tid in s.incoming {
      var t := s.incoming[e.tid];
      assert Healthy(s.files, t) && SidecarSafeAt(s.files, t.dest);
      StopFilesKeeps(s.files, t, e.env);
      StopSafetyAt(s.files, t, e.env);
      ConfinedSafety(s.files, StopFiles(s.files, t, e.env), t.dest);
    }
  }

  lemma DoneRemovesSidecar(w: World, s: State, tid: string, renameOk: bool)
    requires Inv(w, s) && tid in s.incoming
    ensures var files' := HandleDone(w, s, tid, renameOk).files; var t := s.incoming[tid];
            files' == s.files || (MetaOf(t) !in files' && (t.dest in files' ==> files'[t.dest].Blob?))
  {
    var t := s.incoming[tid];
    CompanionsAreNotPlain(t.dest);
    DeliveredKeeps(s.files, t);
  }

  lemma DoneSafety(w: World, s: State, e: Event)
    requires e.DoneArrives? && Inv(w, s) && SidecarSafe(s.files)
    ensures SidecarSafe(Step(w, s, e).files)
  {
    if e.tid in s.incoming {
      DoneRemovesSidecar(w, s, e.tid, e.renameOk);
      DoneKeepsInv(w, s, e.tid, e.renameOk);
      if Step(w, s, e).files != s.files {
        ConfinedSafety(s.files, Step(w, s, e).files, s.incoming[e.tid].dest);
      }
    }
  }

  lemma DiscardSafety(files: Files, d: string)
    requires FilesOk(files) && SidecarSafe(files) && Plain(d)
    ensures SidecarSafe(Discard(files, d))
  {
    RemovalKeeps(files, {PartName(d), MetaName(d)});
    CompanionsAreNotPlain(d);
    ConfinedSafety(files, Discard(files, d), d);
  }

  /** The offset of a resume is exactly what the sidecar committed. */
  lemma ResumeIsCommitted(files: Files, n: string)
    requires SidecarSafe(files) && Sane(files) && ReadMeta(files, n).Some?
    requires IsBlob(files, PartName(files[n].rec.destName))
    ensures ResumeOffset(files, files[n].rec) == files[n].rec.committed
  {
  }

  lemma AcceptSafety(w: World, s: State, o: Offer, env: OfferEnv, d: string, start: nat)
    requires Inv(w, s) && Plain(d) && d !in s.files && !Holds(s.incoming, d) && SidecarSafe(s.files)
    requires start <= o.size && start % CHUNK_SIZE == 0
    requires start > 0 ==> IsBlob(s.files, PartName(d)) && start <= s.files[PartName(d)].synced
    requires start > 0 && ReadMeta(s.files, MetaName(d)).Some? ==> s.files[MetaName(d)].rec.committed <= start
    ensures SidecarSafe(AcceptedFiles(s.files, o, env, d, start))
  {
    CompanionsAreNotPlain(d);
    AcceptedFilesKeep(w, s, o, env, d, start);
    var files' := AcceptedFiles(s.files, o, env, d, start);
    ConfinedSafety(s.files, files', d);
    assert SidecarSafeAt(s.files, d);
  }

  /** A resume starts at exactly what the sidecar of this offer committed, all of it fsynced. */
  ghost predicate TruePlan(files: Files, o: Offer, env: OfferEnv, plan: Plan) {
    && SidecarSafe(plan.files)
    && (plan.Planned? && plan.offset > 0 ==>
          && plan.files == files
          && ReadMeta(files, MetaName(plan.dest)).Some?
          && KeyOf(files[MetaName(plan.dest)].rec) == OfferKey(o, env)
          && files[MetaName(plan.dest)].rec.committed == plan.offset
          && IsBlob(files, PartName(plan.dest)) && plan.offset <= files[PartName(plan.dest)].synced)
  }

  lemma PlanSafety(w: World, s: State, o: Offer, env: OfferEnv)
    requires Inv(w, s) && SidecarSafe(s.files)
    ensures TruePlan(s.files, o, env, PlanOffer(w, s.files, s.incoming, o, env))
  {
    var found := FoundPartial(s.files, o, env);
    if found.Some? {
      var n :| n in env.listing && Matches(s.files, n, OfferKey(o, env)) && s.files[n].rec == found.value;
      ResumeIsCommitted(s.files, n);
      DiscardSafety(s.files, found.value.destName);
    }
  }

  lemma ConcludeSafety(w: World, s: State, files: Files, o: Offer, env: OfferEnv, plan: Plan)
    requires GoodPlan(w, s, o, plan) && TruePlan(files, o, env, plan)
    ensures SidecarSafe(Conclude(s, o, env, plan).files)
  {
    if plan.Planned? {
      DiscardSafety(plan.files, plan.dest);
      if env.spaceOk && env.accept {
        AcceptSafety(w, s.(files := plan.files), o, env, plan.dest, if env.openOk then plan.offset else 0);
      }
    }
  }

  lemma OfferSafety(w: World, s: State, e: Event)
    requires e.OfferArrives? && Inv(w, s) && Admissible(w, s, e) && SidecarSafe(s.files)
    ensures SidecarSafe(Step(w, s, e).files)
  {
    var o, env := e.offer, e.oenv;
    var swept := s.(files := Swept(s.files, env.now));
    SweepKeepsSafe(s.files, env.now);
    SweepKeepsInv(w, s, env.now);
    PlanIsSafe(w, swept, o, env);
    PlanSafety(w, swept, o, env);
    ConcludeSafety(w, s, swept.files, o, env, PlanOffer(w, swept.files, s.incoming, o, env));
  }

  lemma CrashImageSafe(files: Files, after: Files)
    requires CrashImage(files, after) && SidecarSafe(files)
    ensures SidecarSafe(after)
  {
    forall n | ReadMeta(after, n).Some? ensures Backed(after, after[n].rec) {
      assert n in files && ReadMeta(files, n).Some? && after[n] == files[n];
      var p := PartName(after[n].rec.destName);
      assert IsBlob(after, p) ==> p in files && IsBlob(files, p);
    }
  }

  lemma CrashSafety(w: World, s: State, e: Event)
    requires e.Crashes? && Inv(w, s) && Admissible(w, s, e) && SidecarSafe(s.files)
    ensures SidecarSafe(Step(w, s, e).files)
  {
    CrashImageSafe(s.files, e.after);
    SweepKeepsSafe(e.after, e.now);
  }

  // ---- the main results ----------------------------------------------------

  /** Exactly when a step keeps the sidecars true. Two failure paths of the code do not: a
      restart while no peer is registered for the address, and a stop whose fsync failed. */
  lemma StepKeepsSidecarsIffBenign(w: World, s: State, e: Event)
    requires Inv(w, s) && Admissible(w, s, e) && SidecarSafe(s.files)
    ensures SidecarSafe(Step(w, s, e).files) <==> Benign(s, e)
  {
    match e
    case OfferArrives(_, _) => OfferSafety(w, s, e);
    case ChunkArrives(_, _, _, _, _) => ChunkSafety(w, s, e);
    case DoneArrives(_, _) => DoneSafety(w, s, e);
    case Stops(_, _) => StopSafety(w, s, e);
    case Crashes(_, _) => CrashSafety(w, s, e);
  }

  ghost predicate BenignRun(w: World, s: State, events: seq<Event>) {
    events == [] || (BenignRun(w, s, events[..|events| - 1])
                     && Benign(Run(w, s, events[..|events| - 1]), events[|events| - 1]))
  }

  /** In every reachable disk state, crashes included, each sidecar's committed count is a
      chunk multiple no larger than the fsynced prefix of its part file. */
  lemma {:induction false} RunKeepsSidecarsSafe(w: World, s: State, events: seq<Event>)
    requires Inv(w, s) && AdmissibleRun(w, s, events) && BenignRun(w, s, events)
    requires SidecarSafe(s.files)
    ensures SidecarSafe(Run(w, s, events).files)
    decreases |events|
  {
    if events != [] {
      var front := events[..|events| - 1];
      RunKeepsSidecarsSafe(w, s, front);
      RunKeepsInv(w, s, front);
      StepKeepsSidecarsIffBenign(w, Run(w, s, front), events[|events| - 1]);
    }
  }

  /** The sidecar of an active transfer is up to date with its last checkpoint. */
  ghost predicate Tracked(files: Files, t: Transfer) {
    && ReadMeta(files, MetaOf(t)).Some?
    && KeyOf(files[MetaOf(t)].rec) == Key(t.peer, t.filename, t.size, t.checksum)
    && files[MetaOf(t)].rec.committed == t.lastCommitted
    && t.received - t.lastCommitted < COMMIT_INTERVAL
  }

  ghost predicate AllTracked(s: State) {
    forall id :: id in s.incoming ==> Tracked(s.files, s.incoming[id])
  }

  /** Environments in which checkpoints can be kept up: the peer is known, its record is well
      formed, and fsync and the sidecar write succeed. */
  ghost predicate Diligent(w: World, s: State, e: Event) {
    match e
    case OfferArrives(o, env) =>
      && env.metaOk && env.peer != ""
      && var s' := Step(w, s, e);
         o.tid in s'.incoming ==>
           WellFormed(RecordFor(s'.incoming[o.tid], env.peer, s'.incoming[o.tid].resumeOffset, env.now))
    case ChunkArrives(tid, _, _, _, env) =>
      tid in s.incoming ==> s.incoming[tid].peer == env.peer && env.syncOk && env.metaOk
    case _ => true
  }

  lemma OthersStayTracked(files: Files, files': Files, d: string, t: Transfer)
    requires OnlyTouches(files, files', d) && Plain(d) && Plain(t.dest) && t.dest != d && Tracked(files, t)
    ensures Tracked(files', t)
  {
    CompanionsAreInjective(d, t.dest);
    CompanionsAreInjective(t.dest, d);
    CompanionsAreNotPlain(t.dest);
  }

  lemma StoreKeepsTracked(files: Files, t: Transfer, data: seq<byte>, env: IoEnv)
    requires FilesOk(files) && Healthy(files, t) && Tracked(files, t) && t.received + |data| <= t.size
    requires t.peer == env.peer && env.syncOk && env.metaOk
    ensures Tracked(StoredFiles(files, t, data, env), StoredTransfer(t, |data|, env))
  {
    CompanionsAreNotPlain(t.dest);
    AppendKeeps(files, t, data);
    assert ReadMeta(Append(files, PartOf(t), data), MetaOf(t)) == ReadMeta(files, MetaOf(t));
  }

  lemma RestartKeepsTracked(files: Files, t: Transfer, env: IoEnv)
    requires FilesOk(files) && Healthy(files, t) && Tracked(files, t) && t.peer == env.peer && env.metaOk
    ensures Healthy(RestartFiles(files, t, env), Restarted(t)) && Tracked(RestartFiles(files, t, env), Restarted(t))
  {
    RestartKeeps(files, t, env);
    CompanionsAreInjective(t.dest, files[MetaOf(t)].rec.destName);
    assert WellFormed(RecordFor(t, env.peer, 0, env.now));
  }

  lemma ChunkKeepsTracked(w: World, s: State, e: Event)
    requires e.ChunkArrives? && Inv(w, s) && e.tid in s.incoming && Tracked(s.files, s.incoming[e.tid])
    requires Diligent(w, s, e)
    ensures var s' := Step(w, s, e); e.tid in s'.incoming ==> Tracked(s'.files, s'.incoming[e.tid])
  {
    var t := s.incoming[e.tid];
    assert Healthy(s.files, t);
    ChunkOutcome(w, s, e);
    if e.tid in Step(w, s, e).incoming {
      if IsRestart(t, e.sequence, e.offset) {
        RestartKeeps(s.files, t, e.env);
        RestartKeepsTracked(s.files, t, e.env);
      }
      StoreKeepsTracked(BaseFiles(s.files, t, e.sequence, e.offset, e.env), BaseOf(t, e.sequence, e.offset), e.data,
                        e.env);
    }
  }

  lemma SweepKeepsTracked(files: Files, now: real, t: Transfer)
    requires Tracked(files, t) && !Partial.Expired(files, now, MetaOf(t))
    ensures Tracked(Swept(files, now), t)
  {
    SweepSparesFresh(files, now, t.dest);
  }

  lemma UnheldChangeKeepsTracked(w: World, s: State, files': Files, d: string)
    requires Inv(w, s) && AllTracked(s) && Plain(d) && !Holds(s.incoming, d) && OnlyTouches(s.files, files', d)
    ensures AllTracked(s.(files := files'))
  {
    forall id | id in s.incoming ensures Tracked(files', s.incoming[id]) {
      assert Healthy(s.files, s.incoming[id]);
      NotHeldMeansDifferent(s.incoming, d, id);
      OthersStayTracked(s.files, files', d, s.incoming[id]);
    }
  }

  lemma PlanKeepsTracked(w: World, s: State, o: Offer, env: OfferEnv)
    requires Inv(w, s) && AllTracked(s)
    ensures AllTracked(s.(files := PlanOffer(w, s.files, s.incoming, o, env).files))
  {
    var found := FoundPartial(s.files, o, env);
    if found.Some? && !Holds(s.incoming, found.value.destName) {
      UnheldChangeKeepsTracked(w, s, Discard(s.files, found.value.destName), found.value.destName);
    }
  }

  lemma NewTransferIsTracked(files: Files, o: Offer, env: OfferEnv, d: string, start: nat)
    requires env.peer != "" && env.metaOk
    requires WellFormed(RecordFor(NewTransfer(o, env, d, start), env.peer, start, env.now))
    ensures Tracked(AcceptedFiles(files, o, env, d, start), NewTransfer(o, env, d, start))
  {
  }

  lemma SweepKeepsAllTracked(w: World, s: State, now: real)
    requires Inv(w, s) && AllTracked(s)
    requires forall id :: id in s.incoming ==> !Partial.Expired(s.files, now, MetaOf(s.incoming[id]))
    ensures AllTracked(s.(files := Swept(s.files, now)))
  {
    forall id | id in s.incoming ensures Tracked(Swept(s.files, now), s.incoming[id]) {
      SweepKeepsTracked(s.files, now, s.incoming[id]);
    }
  }

  lemma ConcludeKeepsTracked(w: World, s: State, o: Offer, env: OfferEnv, plan: Plan)
    requires GoodPlan(w, s, o, plan) && AllTracked(s.(files := plan.files))
    requires env.metaOk && env.peer != ""
    requires var s' := Conclude(s, o, env, plan);
             o.tid in s'.incoming ==>
               WellFormed(RecordFor(s'.incoming[o.tid], env.peer, s'.incoming[o.tid].resumeOffset, env.now))
    ensures AllTracked(Conclude(s, o, env, plan))
  {
    if plan.Planned? {
      var planned := s.(files := plan.files);
      UnheldChangeKeepsTracked(w, planned, Discard(plan.files, plan.dest), plan.dest);
      if env.spaceOk && env.accept {
        var start := if env.openOk then plan.offset else 0;
        assert Conclude(s, o, env, plan).incoming[o.tid] == NewTransfer(o, env, plan.dest, start);
        AcceptKeepsTracked(w, planned, o, env, plan.dest, start);
      }
    }
  }

  lemma OfferKeepsTracked(w: World, s: State, o: Offer, env: OfferEnv)
    requires Inv(w, s) && AllTracked(s)
    requires Admissible(w, s, OfferArrives(o, env)) && Diligent(w, s, OfferArrives(o, env))
    ensures AllTracked(HandleOffer(w, s, o, env))
  {
    var swept := s.(files := Swept(s.files, env.now));
    SweepKeepsInv(w, s, env.now);
    SweepKeepsAllTracked(w, s, env.now);
    PlanIsSafe(w, swept, o, env);
    PlanKeepsTracked(w, swept, o, env);
    ConcludeKeepsTracked(w, s, o, env, PlanOffer(w, swept.files, s.incoming, o, env));
  }

  lemma AcceptKeepsTracked(w: World, s: State, o: Offer, env: OfferEnv, d: string, start: nat)
    requires Inv(w, s) && AllTracked(s) && Plain(d) && d !in s.files && !Holds(s.incoming, d)
    requires start <= o.size && start % CHUNK_SIZE == 0
    requires start > 0 ==> IsBlob(s.files, PartName(d)) && start <= |s.files[PartName(d)].bytes|
    requires env.peer != "" && env.metaOk
    requires WellFormed(RecordFor(NewTransfer(o, env, d, start), env.peer, start, env.now))
    ensures AllTracked(s.(files := AcceptedFiles(s.files, o, env, d, start),
                          incoming := s.incoming[o.tid := NewTransfer(o, env, d, start)]))
  {
    AcceptedFilesKeep(w, s, o, env, d, start);
    UnheldChangeKeepsTracked(w, s, AcceptedFiles(s.files, o, env, d, start), d);
    NewTransferIsTracked(s.files, o, env, d, start);
  }

  lemma ConfinedKeepsTracked(w: World, s: State, s': State, tid: string)
    requires Inv(w, s) && AllTracked(s) && tid in s.incoming
    requires OnlyTouches(s.files, s'.files, s.incoming[tid].dest)
    requires forall id :: id in s'.incoming && id != tid ==> id in s.incoming && s'.incoming[id] == s.incoming[id]
    requires tid in s'.incoming ==> Tracked(s'.files, s'.incoming[tid])
    ensures AllTracked(s')
  {
    assert Healthy(s.files, s.incoming[tid]);
    forall id | id in s'.incoming && id != tid ensures Tracked(s'.files, s'.incoming[id]) {
      assert Healthy(s.files, s.incoming[id]);
      OthersStayTracked(s.files, s'.files, s.incoming[tid].dest, s.incoming[id]);
    }
  }

  lemma ChunkKeepsAllTracked(w: World, s: State, e: Event)
    requires e.ChunkArrives? && e.tid in s.incoming && Inv(w, s) && AllTracked(s) && Diligent(w, s, e)
    ensures AllTracked(Step(w, s, e))
  {
    ChunkKeepsInv(w, s, e.tid, e.sequence, e.offset, e.data, e.env);
    ChunkKeepsTracked(w, s, e);
    ChunkChangesOnlyItsTransfer(s, e.tid, e.sequence, e.offset, e.data, e.env);
    ConfinedKeepsTracked(w, s, Step(w, s, e), e.tid);
  }

  lemma ChunkChangesOnlyItsTransfer(s: State, tid: string, sequence: int, offset: int, data: seq<byte>, env: IoEnv)
    ensures var s' := HandleChunk(s, tid, sequence, offset, data, env);
            forall id :: id in s'.incoming && id != tid ==> id in s.incoming && s'.incoming[id] == s.incoming[id]
  {
  }

  lemma StepKeepsTracked(w: World, s: State, e: Event)
    requires Inv(w, s) && Admissible(w, s, e) && AllTracked(s) && Diligent(w, s, e)
    ensures AllTracked(Step(w, s, e))
  {
    match e
    case OfferArrives(o, env) => OfferKeepsTracked(w, s, o, env);
    case ChunkArrives(tid, _, _, _, _) =>
      if tid in s.incoming {
        ChunkKeepsAllTracked(w, s, e);
      }
    case DoneArrives(tid, renameOk) =>
      if tid in s.incoming {
        DoneKeepsInv(w, s, tid, renameOk);
        ConfinedKeepsTracked(w, s, HandleDone(w, s, tid, renameOk), tid);
      }
    case Stops(tid, env) =>
      if tid in s.incoming {
        StopKeepsInv(w, s, tid, env);
        ConfinedKeepsTracked(w, s, StopIncoming(s, tid, env), tid);
      }
    case Crashes(_, _) =>
  }

  ghost predicate DiligentRun(w: World, s: State, events: seq<Event>) {
    events == [] || (DiligentRun(w, s, events[..|events| - 1])
                     && Diligent(w, Run(w, s, events[..|events| - 1]), events[|events| - 1]))
  }

  lemma {:induction false} RunKeepsTracked(w: World, s: State, events: seq<Event>)
    requires Inv(w, s) && AdmissibleRun(w, s, events) && DiligentRun(w, s, events) && AllTracked(s)
    ensures AllTracked(Run(w, s, events))
    decreases |events|
  {
    if events != [] {
      var front := events[..|events| - 1];
      RunKeepsTracked(w, s, front);
      RunKeepsInv(w, s, front);
      StepKeepsTracked(w, Run(w, s, front), events[|events| - 1]);
    }
  }

  /** The sidecar still says who sent what, and the resume offset lies less than
      COMMIT_INTERVAL behind the bytes received. */
  ghost predicate CrashIsCheap(t: Transfer, after: Files) {
    && ReadMeta(after, MetaOf(t)).Some?
    && KeyOf(after[MetaOf(t)].rec) == Key(t.peer, t.filename, t.size, t.checksum)
    && t.received - COMMIT_INTERVAL < ResumeOffset(after, after[MetaOf(t)].rec) <= t.received
  }

  /** A crash at any point of such a run costs every active transfer less than
      COMMIT_INTERVAL, whatever the disk holds afterwards. */
  lemma CrashCostsLessThanInterval(w: World, s: State, events: seq<Event>, tid: string, after: Files)
    requires Inv(w, s) && SidecarSafe(s.files) && AllTracked(s)
    requires AdmissibleRun(w, s, events) && BenignRun(w, s, events) && DiligentRun(w, s, events)
    requires tid in Run(w, s, events).incoming && CrashImage(Run(w, s, events).files, after)
    ensures CrashIsCheap(Run(w, s, events).incoming[tid], after)
  {
    RunKeepsInv(w, s, events);
    RunKeepsTracked(w, s, events);
    RunKeepsSidecarsSafe(w, s, events);
    CrashCostAt(w, Run(w, s, events), tid, after);
  }

  lemma CrashCostAt(w: World, s: State, tid: string, after: Files)
    requires Inv(w, s) && SidecarSafe(s.files) && tid in s.incoming && Tracked(s.files, s.incoming[tid])
    requires CrashImage(s.files, after)
    ensures CrashIsCheap(s.incoming[tid], after)
  {
    var t := s.incoming[tid];
    assert Healthy(s.files, t);
    assert after[MetaOf(t)] == s.files[MetaOf(t)];
    CompanionsAreInjective(t.dest, s.files[MetaOf(t)].rec.destName);
    CrashImageOk(s.files, after);
    CrashImageSafe(s.files, after);
    assert s.files[PartOf(t)].Blob? && after[PartOf(t)].Blob?;
    ResumeIsCommitted(after, MetaOf(t));
  }

  // ---- from the start of a session ----------------------------------------------

  /** What a crash leaves behind, at any point of a run, is a directory to start from again. */
  lemma CrashLeavesAStart(w: World, s: State, after: Files)
    requires Inv(w, s) && SidecarSafe(s.files) && CrashImage(s.files, after)
    ensures FilesOk(after) && SidecarSafe(after)
  {
    CrashImageOk(s.files, after);
    CrashImageSafe(s.files, after);
  }

  /** In every disk state reachable from the start of a session, each sidecar's committed count
      is a chunk multiple no larger than the fsynced prefix of its part file. */
  lemma EveryReachableDiskIsSafe(w: World, files: Files, now: real, events: seq<Event>)
    requires FilesOk(files) && SidecarSafe(files)
    requires AdmissibleRun(w, Booted(files, now), events) && BenignRun(w, Booted(files, now), events)
    ensures SidecarSafe(Run(w, Booted(files, now), events).files)
  {
    StartIsSafe(w, files, now);
    SweepKeepsSafe(files, now);
    RunKeepsSidecarsSafe(w, Booted(files, now), events);
  }

  /** And where checkpoints can be kept up, a crash there costs less than COMMIT_INTERVAL. */
  lemma EveryReachableCrashIsCheap(w: World, files: Files, now: real, events: seq<Event>, tid: string, after: Files)
    requires FilesOk(files) && SidecarSafe(files) && AdmissibleRun(w, Booted(files, now), events)
    requires BenignRun(w, Booted(files, now), events) && DiligentRun(w, Booted(files, now), events)
    requires var s := Run(w, Booted(files, now), events); tid in s.incoming && CrashImage(s.files, after)
    ensures CrashIsCheap(Run(w, Booted(files, now), events).incoming[tid], after)
  {
    StartIsSafe(w, files, now);
    SweepKeepsSafe(files, now);
    CrashCostsLessThanInterval(w, Booted(files, now), events, tid, after);
  }

  // ---- concrete runs from an empty directory ------------------------------------

  const SUM: string := Zeros()

  function Zeros(): (s: string)
    ensures IsChecksum(s)
  {
    seq(64, i => '0')
  }

  function Sevens(): (s: seq<byte>)
    ensures |s| == CHUNK_SIZE
  {
    seq(CHUNK_SIZE, i => 7)
  }

  const CHUNK: seq<byte> := Sevens()

  /** An offer by "p", accepted at time zero; its sidecar is written. */
  const KEPT := OfferEnv("p", 0.0, [], true, true, true, true)
  const FIRST := Offer("1", "a", "f", 2 * CHUNK_SIZE, SUM)
  const ARRIVED := NewTransfer(FIRST, KEPT, "f", 0)

  const FINE := IoEnv("p", 0.0, true, true, true, true)

  /** The directory with what there is of "f" so far. */
  function Dir(bytes: seq<byte>, synced: nat, committed: nat): Files {
    map["f.part" := Blob(bytes, synced), "f.part.meta" := Sidecar(RecordFor(ARRIVED, "p", committed, 0.0))]
  }

  lemma NamesOfF()
    ensures PartName("f") == "f.part" && MetaName("f") == "f.part.meta" && "f.part" + META_SUFFIX == "f.part.meta"
    ensures Plain("f") && "f" != "f.part" && "f" != "f.part.meta" && "f.part" != "f.part.meta"
    ensures WellFormed(RecordFor(ARRIVED, "p", 0, 0.0)) && WellFormed(RecordFor(ARRIVED, "p", CHUNK_SIZE, 0.0))
  {
    assert |"f"| == 1 && |"f.part"| == 6 && |"f.part.meta"| == 11;
  }

  lemma RunSnoc(w: World, events: seq<Event>, e: Event)
    ensures Run(w, EMPTY, events + [e]) == Step(w, Run(w, EMPTY, events), e)
  {
    assert (events + [e])[..|events|] == events;
  }

  lemma PlansF(w: World)
    requires w.sanitize("f") == Some("f")
    ensures PlanOffer(w, Swept(EMPTY.files, 0.0), EMPTY.incoming, FIRST, KEPT) == Planned(map[], "f", 0)
  {
    assert Swept(EMPTY.files, 0.0) == map[] && EMPTY.files.Keys == {};
    DestinationKeepsFreeName({}, "f", false);
    assert FoundPartial(map[], FIRST, KEPT).None?;
  }

  lemma OpensF()
    ensures AcceptedFiles(map[], FIRST, KEPT, "f", 0) == Dir([], 0, 0)
  {
    NamesOfF();
    assert Opened(map[], "f", 0) == map["f.part" := Blob([], 0)];
  }

  lemma AfterOffer(w: World)
    requires w.sanitize("f") == Some("f")
    ensures var s := Run(w, EMPTY, [OfferArrives(FIRST, KEPT)]);
            s.files == Dir([], 0, 0) && s.incoming == map["1" := ARRIVED] && s.intact == {}
  {
    PlansF(w);
    OpensF();
    RunSnoc(w, [], OfferArrives(FIRST, KEPT));
    assert [] + [OfferArrives(FIRST, KEPT)] == [OfferArrives(FIRST, KEPT)];
  }

  const HALFWAY := [OfferArrives(FIRST, KEPT), ChunkArrives("1", 0, 0, CHUNK, FINE)]

  lemma AfterChunk(w: World)
    requires w.sanitize("f") == Some("f")
    ensures var s := Run(w, EMPTY, HALFWAY);
            && s.files == Dir(CHUNK, 0, 0)
            && s.incoming == map["1" := Advanced(ARRIVED.(state := Receiving), CHUNK_SIZE)] && s.intact == {}
  {
    NamesOfF();
    AfterOffer(w);
    RunSnoc(w, [OfferArrives(FIRST, KEPT)], ChunkArrives("1", 0, 0, CHUNK, FINE));
    assert HALFWAY == [OfferArrives(FIRST, KEPT)] + [ChunkArrives("1", 0, 0, CHUNK, FINE)];
    assert [] + CHUNK == CHUNK;
  }

  lemma DirIsSafeIff(synced: nat, bytes: seq<byte>, committed: nat)
    requires (committed == 0 || committed == CHUNK_SIZE) && synced <= |bytes|
    ensures SidecarSafe(Dir(bytes, synced, committed)) <==> committed <= synced
  {
    NamesOfF();
    assert ReadMeta(Dir(bytes, synced, committed), "f.part.meta").Some?;
  }

  /** A disconnect whose fsync fails still records the unsynced chunk as committed. */
  lemma FailedFsyncBreaksSidecar(w: World)
    requires w.sanitize("f") == Some("f")
    ensures SidecarSafe(Run(w, EMPTY, HALFWAY).files)
    ensures !SidecarSafe(Run(w, EMPTY, HALFWAY + [Stops("1", FINE.(syncOk := false))]).files)
  {
    NamesOfF();
    AfterChunk(w);
    RunSnoc(w, HALFWAY, Stops("1", FINE.(syncOk := false)));
    assert RoundDown(CHUNK_SIZE) == CHUNK_SIZE;
    assert Run(w, EMPTY, HALFWAY + [Stops("1", FINE.(syncOk := false))]).files == Dir(CHUNK, 0, CHUNK_SIZE);
    DirIsSafeIff(0, CHUNK, 0);
    DirIsSafeIff(0, CHUNK, CHUNK_SIZE);
  }

  const AGAIN := Offer("2", "a", "f", 2 * CHUNK_SIZE, SUM)
  const FOUND := KEPT.(listing := ["f.part.meta"])

  /** Stopped after one chunk, and offered again. */
  const RESUMED := HALFWAY + [Stops("1", FINE)] + [OfferArrives(AGAIN, FOUND)]

  lemma StopCommits(t: Transfer)
    requires t == Advanced(ARRIVED.(state := Receiving), CHUNK_SIZE)
    ensures StopFiles(Dir(CHUNK, 0, 0), t, FINE) == Dir(CHUNK, CHUNK_SIZE, CHUNK_SIZE)
  {
    NamesOfF();
    assert RoundDown(CHUNK_SIZE) == CHUNK_SIZE;
  }

  lemma AfterStop(w: World)
    requires w.sanitize("f") == Some("f")
    ensures var s := Run(w, EMPTY, HALFWAY + [Stops("1", FINE)]);
            s.files == Dir(CHUNK, CHUNK_SIZE, CHUNK_SIZE) && s.incoming == map[] && s.intact == {}
  {
    AfterChunk(w);
    StopCommits(Advanced(ARRIVED.(state := Receiving), CHUNK_SIZE));
    RunSnoc(w, HALFWAY, Stops("1", FINE));
  }

  lemma FindsItAgain(w: World, files: Files, o: Offer)
    requires w.sanitize("f") == Some("f") && files == Dir(CHUNK, CHUNK_SIZE, CHUNK_SIZE) && o == AGAIN.(tid := o.tid)
    ensures PlanOffer(w, Swept(files, 0.0), map[], o, FOUND) == Planned(files, "f", CHUNK_SIZE)
  {
    NamesOfF();
    var r := RecordFor(ARRIVED, "p", CHUNK_SIZE, 0.0);
    assert Swept(files, 0.0) == files;
    assert Matches(files, "f.part.meta", OfferKey(o, FOUND));
    assert FOUND.listing[..0] == [] && Best(files, FOUND.listing, OfferKey(o, FOUND)) == Some(r);
    assert RoundDown(CHUNK_SIZE) == CHUNK_SIZE && ResumeOffset(files, r) == CHUNK_SIZE;
    DestinationKeepsFreeName(files.Keys, "f", true);
  }

  lemma AfterResume(w: World)
    requires w.sanitize("f") == Some("f")
    ensures var s := Run(w, EMPTY, RESUMED);
            && s.files == Dir(CHUNK, CHUNK_SIZE, CHUNK_SIZE)
            && s.incoming == map["2" := NewTransfer(AGAIN, FOUND, "f", CHUNK_SIZE)] && s.intact == {}
  {
    NamesOfF();
    AfterStop(w);
    RunSnoc(w, HALFWAY + [Stops("1", FINE)], OfferArrives(AGAIN, FOUND));
    FindsItAgain(w, Dir(CHUNK, CHUNK_SIZE, CHUNK_SIZE), AGAIN);
    assert CHUNK[..CHUNK_SIZE] == CHUNK;
  }

  lemma RestartKeepsCount(t: Transfer, data: seq<byte>)
    requires t == NewTransfer(AGAIN, FOUND, "f", CHUNK_SIZE) && |data| <= CHUNK_SIZE
    ensures var env := FINE.(peer := "");
            StoredFiles(RestartFiles(Dir(CHUNK, CHUNK_SIZE, CHUNK_SIZE), t, env), Restarted(t), data, env)
            == Dir(data, 0, CHUNK_SIZE)
  {
    NamesOfF();
    assert RestartFiles(Dir(CHUNK, CHUNK_SIZE, CHUNK_SIZE), t, FINE.(peer := "")) == Dir([], 0, CHUNK_SIZE);
    assert [] + data == data;
  }

  /** A restart while no peer is registered for the address truncates the file but leaves the
      sidecar saying that a chunk of it is committed. */
  lemma OrphanedRestartBreaksSidecar(w: World, data: seq<byte>)
    requires w.sanitize("f") == Some("f") && |data| <= CHUNK_SIZE
    ensures SidecarSafe(Run(w, EMPTY, RESUMED).files)
    ensures !SidecarSafe(Run(w, EMPTY, RESUMED + [ChunkArrives("2", 0, 0, data, FINE.(peer := ""))]).files)
  {
    AfterResume(w);
    RestartKeepsCount(NewTransfer(AGAIN, FOUND, "f", CHUNK_SIZE), data);
    var e := ChunkArrives("2", 0, 0, data, FINE.(peer := ""));
    RunSnoc(w, RESUMED, e);
    assert IsRestart(NewTransfer(AGAIN, FOUND, "f", CHUNK_SIZE), 0, 0);
    DirIsSafeIff(CHUNK_SIZE, CHUNK, CHUNK_SIZE);
    DirIsSafeIff(0, data, CHUNK_SIZE);
  }

  /** Another peer's offer more than a week later, refused for lack of space. */
  const NEXT_WEEK := OfferEnv("q", 604801.0, [], false, true, true, true)

  lemma RefusalAddsNothing(w: World, s: State, o: Offer)
    ensures var s' := HandleOffer(w, s, o, NEXT_WEEK);
            s'.incoming == s.incoming && forall n :: n in s'.files ==> n in Swept(s.files, 604801.0)
  {
  }

  /** The sweep of a second offer deletes the partial of a transfer that has been in progress
      for more than a week. */
  lemma SweepDeletesActivePartial(w: World, o: Offer)
    requires w.sanitize("f") == Some("f")
    ensures var s := Run(w, EMPTY, [OfferArrives(FIRST, KEPT)] + [OfferArrives(o, NEXT_WEEK)]);
            "1" in s.incoming && PartOf(s.incoming["1"]) !in s.files && !Inv(w, s)
  {
    NamesOfF();
    AfterOffer(w);
    var s := Run(w, EMPTY, [OfferArrives(FIRST, KEPT)]);
    RunSnoc(w, [OfferArrives(FIRST, KEPT)], OfferArrives(o, NEXT_WEEK));
    RefusalAddsNothing(w, s, o);
    assert Partial.Expired(s.files, 604801.0, "f.part.meta");
    assert Doomed(s.files, 604801.0, "f.part");
    assert !Healthy(Step(w, s, OfferArrives(o, NEXT_WEEK)).files, ARRIVED);
  }
}
