/** What every step of a receiving session keeps, whatever messages arrive. */
module SessionSafety {
  import opened Bytes
  import opened Names
  import opened Partial
  import opened TransferState
  import opened Session
  import Chunker

  /** An active transfer owns a part file of exactly `received` bytes, no more than offered,
      and nothing is at its destination yet. */
  ghost predicate Healthy(files: Files, t: Transfer) {
    && Plain(t.dest) && t.dest !in files
    && IsBlob(files, PartOf(t))
    && |files[PartOf(t)].bytes| == t.received <= t.size
    && t.lastCommitted <= t.received
    && t.state in {Accepted, Receiving}
  }

  ghost predicate SidecarsPlain(files: Files) {
    forall n :: ReadMeta(files, n).Some? ==> Plain(files[n].rec.destName)
  }

  ghost predicate Exclusive(incoming: map<string, Transfer>) {
    forall i, j :: i in incoming && j in incoming && i != j ==> incoming[i].dest != incoming[j].dest
  }

  /** A delivered file is where the receipt says, with the offered size and hash. */
  ghost predicate Honoured(w: World, files: Files, r: Receipt) {
    && Plain(r.dest) && IsBlob(files, r.dest)
    && |files[r.dest].bytes| == r.size && w.hash(files[r.dest].bytes) == r.checksum
  }

  ghost predicate FilesOk(files: Files) {
    Sane(files) && SidecarsPlain(files)
  }

  ghost predicate Inv(w: World, s: State) {
    && FilesOk(s.files)
    && (forall id :: id in s.incoming ==> Healthy(s.files, s.incoming[id]))
    && Exclusive(s.incoming)
    && (forall r :: r in s.intact ==> Honoured(w, s.files, r))
  }

  /** Files other than a destination and its two companions are the same. */
  ghost predicate OnlyTouches(files: Files, files': Files, d: string) {
    forall n :: n != d && n != PartName(d) && n != MetaName(d) ==>
      (n in files <==> n in files') && (n in files ==> files'[n] == files[n])
  }

  /** Plain files are never changed or removed. */
  ghost predicate KeepsPlain(files: Files, files': Files) {
    forall n :: Plain(n) && n in files ==> n in files' && files'[n] == files[n]
  }

  lemma OthersStayHealthy(files: Files, files': Files, d: string, t: Transfer)
    requires OnlyTouches(files, files', d) && Plain(d) && t.dest != d && Healthy(files, t)
    ensures Healthy(files', t)
  {
    CompanionsAreInjective(d, t.dest);
    CompanionsAreInjective(t.dest, d);
    CompanionsAreNotPlain(d);
    CompanionsAreNotPlain(t.dest);
  }

  lemma ReceiptsStayHonoured(w: World, files: Files, files': Files, d: string, r: Receipt)
    requires OnlyTouches(files, files', d) && r.dest != d && Honoured(w, files, r)
    ensures Honoured(w, files', r)
  {
    CompanionsAreNotPlain(d);
  }

  /** A step confined to one transfer's own names keeps the invariant if that transfer is
      healthy afterwards or gone. */
  lemma ConfinedStepKeepsInv(w: World, s: State, s': State, tid: string)
    requires Inv(w, s) && tid in s.incoming
    requires OnlyTouches(s.files, s'.files, s.incoming[tid].dest) && FilesOk(s'.files)
    requires s'.incoming == s.incoming - {tid} ||
             (exists t :: s'.incoming == s.incoming[tid := t] && t.dest == s.incoming[tid].dest && Healthy(s'.files, t))
    requires forall r :: r in s'.intact ==> r in s.intact || Honoured(w, s'.files, r)
    ensures Inv(w, s')
  {
    var d := s.incoming[tid].dest;
    forall id | id in s'.incoming ensures Healthy(s'.files, s'.incoming[id]) {
      if id != tid {
        OthersStayHealthy(s.files, s'.files, d, s.incoming[id]);
      }
    }
    forall r | r in s'.intact ensures Honoured(w, s'.files, r) {
      if r in s.intact {
        ReceiptsStayHonoured(w, s.files, s'.files, d, r);
      }
    }
  }

  // ---- file operations ------------------------------------------------------

  lemma WriteMetaKeeps(files: Files, r: Record, ok: bool)
    requires FilesOk(files) && Plain(r.destName)
    ensures FilesOk(WriteMeta(files, r, ok))
    ensures OnlyTouches(files, WriteMeta(files, r, ok), r.destName)
    ensures forall n :: n != MetaName(r.destName) ==>
              (n in WriteMeta(files, r, ok) <==> n in files) && (n in files ==> WriteMeta(files, r, ok)[n] == files[n])
  {
    var files' := WriteMeta(files, r, ok);
    forall n | ReadMeta(files', n).Some? ensures Plain(files'[n].rec.destName) {
      if n != MetaName(r.destName) {
        assert ReadMeta(files, n).Some?;
      }
    }
  }

  /** Changing the contents of a part file leaves sidecars and everything else alone. */
  lemma ChangeBlobKeeps(files: Files, d: string, b: Node)
    requires FilesOk(files) && b.Blob? && b.synced <= |b.bytes|
    ensures FilesOk(files[PartName(d) := b]) && OnlyTouches(files, files[PartName(d) := b], d)
  {
    var files' := files[PartName(d) := b];
    forall n | ReadMeta(files', n).Some? ensures Plain(files'[n].rec.destName) {
      assert ReadMeta(files, n).Some?;
    }
  }

  lemma RemovalKeeps(files: Files, names: set<string>)
    requires FilesOk(files)
    ensures FilesOk(files - names)
  {
    var files' := files - names;
    forall n | ReadMeta(files', n).Some? ensures Plain(files'[n].rec.destName) {
      assert ReadMeta(files, n).Some?;
    }
  }

  // ---- chunk, done, stop -------------------------------------------------

  lemma AbortKeepsInv(w: World, s: State, tid: string)
    requires Inv(w, s) && tid in s.incoming
    ensures Inv(w, AbortIncoming(s, tid))
    ensures OnlyTouches(s.files, AbortIncoming(s, tid).files, s.incoming[tid].dest)
  {
    var d := s.incoming[tid].dest;
    RemovalKeeps(s.files, {PartName(d), MetaName(d)});
    RemovalKeeps(Discard(s.files, d), {d});
    ConfinedStepKeepsInv(w, s, AbortIncoming(s, tid), tid);
  }

  lemma CheckpointKeeps(files: Files, t: Transfer, env: IoEnv)
    requires FilesOk(files) && Healthy(files, t)
    ensures FilesOk(CheckpointFiles(files, t, env))
    ensures Healthy(CheckpointFiles(files, t, env), CheckpointTransfer(t, env))
    ensures OnlyTouches(files, CheckpointFiles(files, t, env), t.dest)
  {
    CompanionsAreNotPlain(t.dest);
    ChangeBlobKeeps(files, t.dest, Blob(files[PartOf(t)].bytes, |files[PartOf(t)].bytes|));
    WriteMetaKeeps(Fsync(files, PartOf(t)), RecordFor(t, FirstPeer(t, env), RoundDown(t.received), env.now),
                   env.metaOk);
  }

  lemma RestartKeeps(files: Files, t: Transfer, env: IoEnv)
    requires FilesOk(files) && Healthy(files, t)
    ensures FilesOk(RestartFiles(files, t, env)) && OnlyTouches(files, RestartFiles(files, t, env), t.dest)
    ensures IsBlob(RestartFiles(files, t, env), PartOf(t)) && RestartFiles(files, t, env)[PartOf(t)] == Blob([], 0)
    ensures t.dest !in RestartFiles(files, t, env)
  {
    CompanionsAreNotPlain(t.dest);
    ChangeBlobKeeps(files, t.dest, Blob([], 0));
    assert Truncate(files, PartOf(t), 0) == files[PartOf(t) := Blob([], 0)];
    WriteMetaKeeps(Truncate(files, PartOf(t), 0), RecordFor(t, env.peer, 0, env.now), env.metaOk);
  }

  lemma AppendKeeps(files: Files, t: Transfer, data: seq<byte>)
    requires FilesOk(files) && Healthy(files, t) && t.received + |data| <= t.size
    ensures var files' := Append(files, PartOf(t), data);
            FilesOk(files') && OnlyTouches(files, files', t.dest) && Healthy(files', Advanced(t, |data|))
  {
    CompanionsAreNotPlain(t.dest);
    var b := files[PartOf(t)];
    ChangeBlobKeeps(files, t.dest, Blob(b.bytes + data, b.synced));
  }

  lemma StoreKeeps(files: Files, t: Transfer, data: seq<byte>, env: IoEnv)
    requires FilesOk(files) && Healthy(files, t) && t.received + |data| <= t.size
    ensures var files' := StoredFiles(files, t, data, env);
            && FilesOk(files') && OnlyTouches(files, files', t.dest)
            && Healthy(files', StoredTransfer(t, |data|, env))
            && StoredTransfer(t, |data|, env).dest == t.dest
  {
    AppendKeeps(files, t, data);
    CheckpointKeeps(Append(files, PartOf(t), data), Advanced(t, |data|), env);
  }

  lemma ChunkKeepsInv(w: World, s: State, tid: string, sequence: int, offset: int, data: seq<byte>, env: IoEnv)
    requires Inv(w, s)
    ensures Inv(w, HandleChunk(s, tid, sequence, offset, data, env))
    ensures tid in s.incoming ==>
              OnlyTouches(s.files, HandleChunk(s, tid, sequence, offset, data, env).files, s.incoming[tid].dest)
  {
    if tid in s.incoming {
      var t := s.incoming[tid];
      var s' := HandleChunk(s, tid, sequence, offset, data, env);
      AbortKeepsInv(w, s, tid);
      if IsRestart(t, sequence, offset) {
        if env.truncateOk && |data| <= t.size && env.writeOk {
          RestartKeeps(s.files, t, env);
          StoreKeeps(RestartFiles(s.files, t, env), Restarted(t), data, env);
          ConfinedStepKeepsInv(w, s, s', tid);
        }
      } else if sequence == t.nextIndex && offset == t.received && t.received + |data| <= t.size && env.writeOk {
        StoreKeeps(s.files, t.(firstSeen := true, state := Receiving), data, env);
        ConfinedStepKeepsInv(w, s, s', tid);
      }
    }
  }

  lemma DeliveredKeeps(files: Files, t: Transfer)
    requires FilesOk(files) && Healthy(files, t)
    ensures FilesOk(Delivered(files, t)) && OnlyTouches(files, Delivered(files, t), t.dest)
    ensures t.dest in Delivered(files, t) && Delivered(files, t)[t.dest] == files[PartOf(t)]
  {
    CompanionsAreNotPlain(t.dest);
    var placed := files[t.dest := files[PartOf(t)]];
    forall n | ReadMeta(placed, n).Some? ensures Plain(placed[n].rec.destName) {
      assert ReadMeta(files, n).Some?;
    }
    RemovalKeeps(placed, {PartName(t.dest), MetaName(t.dest)});
  }

  lemma DoneKeepsInv(w: World, s: State, tid: string, renameOk: bool)
    requires Inv(w, s)
    ensures var s' := HandleDone(w, s, tid, renameOk);
            Inv(w, s') && (tid in s.incoming ==> OnlyTouches(s.files, s'.files, s.incoming[tid].dest))
  {
    if tid in s.incoming {
      var t := s.incoming[tid];
      DeliveredKeeps(s.files, t);
      RemovalKeeps(s.files, {PartName(t.dest), MetaName(t.dest)});
      ConfinedStepKeepsInv(w, s, HandleDone(w, s, tid, renameOk), tid);
    }
  }

  lemma StopFilesKeeps(files: Files, t: Transfer, env: IoEnv)
    requires FilesOk(files) && Healthy(files, t)
    ensures FilesOk(StopFiles(files, t, env)) && OnlyTouches(files, StopFiles(files, t, env), t.dest)
  {
    ChangeBlobKeeps(files, t.dest, Blob(files[PartOf(t)].bytes, |files[PartOf(t)].bytes|));
    var synced := if env.syncOk then Fsync(files, PartOf(t)) else files;
    WriteMetaKeeps(synced, RecordFor(t, FirstPeer(t, env), RoundDown(t.received), env.now), env.metaOk);
  }

  lemma StopKeepsInv(w: World, s: State, tid: string, env: IoEnv)
    requires Inv(w, s)
    ensures Inv(w, StopIncoming(s, tid, env))
    ensures tid in s.incoming ==> OnlyTouches(s.files, StopIncoming(s, tid, env).files, s.incoming[tid].dest)
  {
    if tid in s.incoming {
      StopFilesKeeps(s.files, s.incoming[tid], env);
      ConfinedStepKeepsInv(w, s, StopIncoming(s, tid, env), tid);
    }
  }

  // ---- offers -----------------------------------------------------------

  lemma SweepKeeps(files: Files, now: real)
    requires FilesOk(files)
    ensures FilesOk(Swept(files, now)) && KeepsPlain(files, Swept(files, now))
    ensures forall n :: n in Swept(files, now) ==> n in files && Swept(files, now)[n] == files[n]
  {
    var swept := Swept(files, now);
    forall n | ReadMeta(swept, n).Some? ensures Plain(swept[n].rec.destName) {
      assert ReadMeta(files, n).Some?;
    }
    forall n | Plain(n) && n in files ensures n in swept {
      if Doomed(files, now, n) {
        var m := if Partial.Expired(files, now, n) then n else n + META_SUFFIX;
        CompanionsAreNotPlain(files[m].rec.destName);
        SuffixCancels(n, PartName(files[m].rec.destName));
      }
    }
  }

  lemma SweepSparesFresh(files: Files, now: real, d: string)
    requires !Partial.Expired(files, now, MetaName(d))
    ensures PartName(d) in files ==> PartName(d) in Swept(files, now)
    ensures MetaName(d) in files && ReadMeta(files, MetaName(d)).Some? ==> MetaName(d) in Swept(files, now)
  {
    assert MetaName(d) == PartName(d) + META_SUFFIX;
    if Partial.Expired(files, now, PartName(d)) {
      CompanionsAreInjective(d, files[PartName(d)].rec.destName);
    }
    if Partial.Expired(files, now, MetaName(d) + META_SUFFIX) {
      var e := files[MetaName(d) + META_SUFFIX].rec.destName;
      SuffixCancels(MetaName(d), PartName(e));
      CompanionsAreInjective(e, d);
    }
  }

  /** After the sweep, everything in progress is as it was. */
  lemma SweepKeepsInv(w: World, s: State, now: real)
    requires Inv(w, s)
    requires forall id :: id in s.incoming ==> !Partial.Expired(s.files, now, MetaOf(s.incoming[id]))
    ensures Inv(w, s.(files := Swept(s.files, now)))
  {
    SweepKeeps(s.files, now);
    forall id | id in s.incoming ensures Healthy(Swept(s.files, now), s.incoming[id]) {
      SweepSparesFresh(s.files, now, s.incoming[id].dest);
    }
  }

  lemma NotHeldMeansDifferent(incoming: map<string, Transfer>, d: string, id: string)
    requires !Holds(incoming, d) && id in incoming
    ensures incoming[id].dest != d
  {
  }

  /** A change confined to names no transfer holds keeps the invariant. */
  lemma UnheldChangeKeepsInv(w: World, s: State, files': Files, d: string)
    requires Inv(w, s) && Plain(d) && !Holds(s.incoming, d) && OnlyTouches(s.files, files', d) && FilesOk(files')
    requires d in s.files ==> d in files' && files'[d] == s.files[d]
    ensures Inv(w, s.(files := files')) && KeepsPlain(s.files, files')
  {
    CompanionsAreNotPlain(d);
    forall id | id in s.incoming ensures Healthy(files', s.incoming[id]) {
      NotHeldMeansDifferent(s.incoming, d, id);
      OthersStayHealthy(s.files, files', d, s.incoming[id]);
    }
  }

  lemma DiscardUnheldKeepsInv(w: World, s: State, d: string)
    requires Inv(w, s) && Plain(d) && !Holds(s.incoming, d)
    ensures Inv(w, s.(files := Discard(s.files, d))) && KeepsPlain(s.files, Discard(s.files, d))
  {
    CompanionsAreNotPlain(d);
    RemovalKeeps(s.files, {PartName(d), MetaName(d)});
    UnheldChangeKeepsInv(w, s, Discard(s.files, d), d);
  }

  /** A plan leaves everything in progress as it was; its destination is plain, free and
      unheld; and a resume starts inside the part file. */
  ghost predicate GoodPlan(w: World, s: State, o: Offer, plan: Plan) {
    && Inv(w, s.(files := plan.files))
    && (plan.Planned? ==>
          && Plain(plan.dest) && plan.dest !in plan.files && !Holds(s.incoming, plan.dest)
          && plan.offset % CHUNK_SIZE == 0
          && (plan.offset > 0 ==>
                && IsBlob(plan.files, PartName(plan.dest))
                && plan.offset <= |plan.files[PartName(plan.dest)].bytes| && plan.offset <= o.size))
  }

  lemma FreshPlanIsSafe(w: World, s: State, o: Offer)
    requires Inv(w, s) && Ordinary(w, o)
    ensures GoodPlan(w, s, o, PlanFresh(w, s.files, s.incoming, o))
    ensures PlanFresh(w, s.files, s.incoming, o).files == s.files
  {
  }

  lemma PlanIsSafe(w: World, s: State, o: Offer, env: OfferEnv)
    requires Inv(w, s) && Ordinary(w, o)
    ensures GoodPlan(w, s, o, PlanOffer(w, s.files, s.incoming, o, env))
    ensures KeepsPlain(s.files, PlanOffer(w, s.files, s.incoming, o, env).files)
  {
    var found := FoundPartial(s.files, o, env);
    FreshPlanIsSafe(w, s, o);
    if found.Some? {
      assert Plain(found.value.destName);
      if !Holds(s.incoming, found.value.destName) {
        DiscardUnheldKeepsInv(w, s, found.value.destName);
        FreshPlanIsSafe(w, s.(files := Discard(s.files, found.value.destName)), o);
      }
    }
  }

  lemma OpenKeeps(w: World, s: State, o: Offer, env: OfferEnv, d: string, start: nat)
    requires Inv(w, s) && Plain(d) && d !in s.files && !Holds(s.incoming, d)
    requires start <= o.size && start % CHUNK_SIZE == 0
    requires start > 0 ==> IsBlob(s.files, PartName(d))
    ensures var files' := Opened(s.files, d, start);
            && FilesOk(files') && OnlyTouches(s.files, files', d) && d !in files'
            && Healthy(files', NewTransfer(o, env, d, start))
  {
    CompanionsAreNotPlain(d);
    if start > 0 {
      var b := s.files[PartName(d)];
      ChangeBlobKeeps(s.files, d, Blob(Partial.Cut(b.bytes, start), Chunker.Min(b.synced, start)));
    } else {
      RemovalKeeps(s.files, {PartName(d), MetaName(d)});
      ChangeBlobKeeps(Discard(s.files, d), d, Blob([], 0));
    }
  }

  lemma AcceptedFilesKeep(w: World, s: State, o: Offer, env: OfferEnv, d: string, start: nat)
    requires Inv(w, s) && Plain(d) && d !in s.files && !Holds(s.incoming, d)
    requires start <= o.size && start % CHUNK_SIZE == 0
    requires start > 0 ==> IsBlob(s.files, PartName(d))
    ensures var files' := AcceptedFiles(s.files, o, env, d, start);
            && FilesOk(files') && OnlyTouches(s.files, files', d)
            && Healthy(files', NewTransfer(o, env, d, start))
            && files'[PartName(d)] == Opened(s.files, d, start)[PartName(d)]
  {
    OpenKeeps(w, s, o, env, d, start);
    CompanionsAreNotPlain(d);
    WriteMetaKeeps(Opened(s.files, d, start), RecordFor(NewTransfer(o, env, d, start), env.peer, start, env.now),
                   env.metaOk);
  }

  lemma AcceptKeepsInv(w: World, s: State, o: Offer, env: OfferEnv, d: string, start: nat)
    requires Inv(w, s) && Plain(d) && d !in s.files && !Holds(s.incoming, d)
    requires start <= o.size && start % CHUNK_SIZE == 0
    requires start > 0 ==> IsBlob(s.files, PartName(d))
    ensures var files' := AcceptedFiles(s.files, o, env, d, start);
            && Inv(w, s.(files := files', incoming := s.incoming[o.tid := NewTransfer(o, env, d, start)]))
            && KeepsPlain(s.files, files')
  {
    AcceptedFilesKeep(w, s, o, env, d, start);
    var files' := AcceptedFiles(s.files, o, env, d, start);
    UnheldChangeKeepsInv(w, s, files', d);
    forall id | id in s.incoming ensures s.incoming[id].dest != d {
      NotHeldMeansDifferent(s.incoming, d, id);
    }
  }

  lemma ConcludeKeepsInv(w: World, s: State, o: Offer, env: OfferEnv, plan: Plan)
    requires GoodPlan(w, s, o, plan)
    ensures Inv(w, Conclude(s, o, env, plan)) && KeepsPlain(plan.files, Conclude(s, o, env, plan).files)
  {
    if plan.Planned? {
      var planned := s.(files := plan.files);
      DiscardUnheldKeepsInv(w, planned, plan.dest);
      if env.spaceOk && env.accept {
        AcceptKeepsInv(w, planned, o, env, plan.dest, if env.openOk then plan.offset else 0);
      }
    }
  }

  lemma OfferKeepsInv(w: World, s: State, o: Offer, env: OfferEnv)
    requires Inv(w, s) && Admissible(w, s, OfferArrives(o, env))
    ensures Inv(w, HandleOffer(w, s, o, env)) && KeepsPlain(s.files, HandleOffer(w, s, o, env).files)
  {
    var swept := s.(files := Swept(s.files, env.now));
    SweepKeeps(s.files, env.now);
    SweepKeepsInv(w, s, env.now);
    PlanIsSafe(w, swept, o, env);
    ConcludeKeepsInv(w, s, o, env, PlanOffer(w, swept.files, s.incoming, o, env));
  }

  lemma CrashImageOk(files: Files, after: Files)
    requires FilesOk(files) && CrashImage(files, after)
    ensures FilesOk(after)
  {
    forall n | n in after && after[n].Blob? ensures after[n].synced <= |after[n].bytes| {
      assert n in files;
    }
    forall n | ReadMeta(after, n).Some? ensures Plain(after[n].rec.destName) {
      assert n in files && after[n] == files[n];
      assert ReadMeta(files, n).Some?;
    }
  }

  lemma CrashKeepsInv(w: World, s: State, after: Files, now: real)
    requires Inv(w, s) && CrashImage(s.files, after)
    ensures Inv(w, Step(w, s, Crashes(after, now)))
  {
    CrashImageOk(s.files, after);
    SweepKeeps(after, now);
  }

  // ---- the main results ------------------------------------------------------

  lemma StepKeepsInv(w: World, s: State, e: Event)
    requires Inv(w, s) && Admissible(w, s, e)
    ensures Inv(w, Step(w, s, e))
  {
    match e
    case OfferArrives(o, env) => OfferKeepsInv(w, s, o, env);
    case ChunkArrives(tid, sequence, offset, data, env) => ChunkKeepsInv(w, s, tid, sequence, offset, data, env);
    case DoneArrives(tid, renameOk) => DoneKeepsInv(w, s, tid, renameOk);
    case Stops(tid, env) => StopKeepsInv(w, s, tid, env);
    case Crashes(after, now) => CrashKeepsInv(w, s, after, now);
  }

  /** For completely arbitrary messages: part files hold exactly the bytes counted and never
      more than offered, active transfers never share a path, and everything delivered since
      the last crash is intact with the offered size and hash. */
  lemma {:induction false} RunKeepsInv(w: World, s: State, events: seq<Event>)
    requires Inv(w, s) && AdmissibleRun(w, s, events)
    ensures Inv(w, Run(w, s, events))
    decreases |events|
  {
    if events != [] {
      RunKeepsInv(w, s, events[..|events| - 1]);
      StepKeepsInv(w, Run(w, s, events[..|events| - 1]), events[|events| - 1]);
    }
  }

  /** No step of a session changes or removes a file that is not a partial or a sidecar:
      nothing delivered, and nothing that was there before. */
  lemma StepKeepsPlainFiles(w: World, s: State, e: Event)
    requires Inv(w, s) && Admissible(w, s, e) && !e.Crashes?
    ensures KeepsPlain(s.files, Step(w, s, e).files)
  {
    match e
    case OfferArrives(o, env) => OfferKeepsInv(w, s, o, env);
    case ChunkArrives(tid, sequence, offset, data, env) =>
      if tid in s.incoming {
        ChunkKeepsInv(w, s, tid, sequence, offset, data, env);
        CompanionsAreNotPlain(s.incoming[tid].dest);
      }
    case DoneArrives(tid, renameOk) =>
      if tid in s.incoming {
        DoneKeepsInv(w, s, tid, renameOk);
        CompanionsAreNotPlain(s.incoming[tid].dest);
      }
    case Stops(tid, env) =>
      if tid in s.incoming {
        StopKeepsInv(w, s, tid, env);
        CompanionsAreNotPlain(s.incoming[tid].dest);
      }
  }

  lemma {:induction false} RunKeepsPlainFiles(w: World, s: State, events: seq<Event>)
    requires Inv(w, s) && AdmissibleRun(w, s, events)
    requires forall i :: 0 <= i < |events| ==> !events[i].Crashes?
    ensures KeepsPlain(s.files, Run(w, s, events).files)
    decreases |events|
  {
    if events != [] {
      var front := events[..|events| - 1];
      RunKeepsPlainFiles(w, s, front);
      RunKeepsInv(w, s, front);
      StepKeepsPlainFiles(w, Run(w, s, front), events[|events| - 1]);
    }
  }

  /** file_done is answered with success exactly when the part file has the offered size and
      hash. Then that content, and nothing else, appears at a path that was unused, if and only
      if the rename succeeds; if it fails nothing on disk changes. Without success the partial
      is gone. */
  lemma DoneDeliversExactlyWhatVerifies(w: World, s: State, tid: string, renameOk: bool)
    requires Inv(w, s) && tid in s.incoming
    ensures var t := s.incoming[tid];
            var s' := HandleDone(w, s, tid, renameOk);
            var content := s.files[PartOf(t)].bytes;
            var ok := |content| == t.size && w.hash(content) == t.checksum;
            && s'.sent == s.sent + [Ack(tid, ok)] && s'.incoming == s.incoming - {tid} && t.dest !in s.files
            && (t.dest in s'.files <==> ok && renameOk)
            && (ok && renameOk ==>
                  && s'.files[t.dest] == s.files[PartOf(t)] && PartOf(t) !in s'.files && MetaOf(t) !in s'.files
                  && s'.verified == s.verified + {Receipt(tid, t.size, t.checksum, t.dest)})
            && (ok && !renameOk ==> s'.files == s.files && s'.verified == s.verified)
            && (!ok ==> PartOf(t) !in s'.files && MetaOf(t) !in s'.files && s'.verified == s.verified)
  {
    var t := s.incoming[tid];
    assert Healthy(s.files, t);
    CompanionsAreNotPlain(t.dest);
    DeliveredKeeps(s.files, t);
  }

  /** The expiry sweep leaves everything in progress alone exactly when no active transfer's
      own sidecar has expired: the sweep does not look at the active transfers. */
  lemma SweepHarmlessIffNoActiveExpired(w: World, s: State, now: real)
    requires Inv(w, s)
    ensures Inv(w, s.(files := Swept(s.files, now))) <==>
              forall id :: id in s.incoming ==> !Partial.Expired(s.files, now, MetaOf(s.incoming[id]))
  {
    if forall id :: id in s.incoming ==> !Partial.Expired(s.files, now, MetaOf(s.incoming[id])) {
      SweepKeepsInv(w, s, now);
    } else {
      var id :| id in s.incoming && Partial.Expired(s.files, now, MetaOf(s.incoming[id]));
      var t := s.incoming[id];
      assert PartOf(t) + META_SUFFIX == MetaOf(t);
      assert Doomed(s.files, now, PartOf(t));
      assert !Healthy(Swept(s.files, now), t);
    }
  }

  // ---- from the start of a session ----------------------------------------------

  /** As the constructor leaves it: the directory after a sweep, and nothing in progress. */
  function Booted(files: Files, now: real): State { State(Swept(files, now), map[], [], {}, {}) }

  lemma StartIsSafe(w: World, files: Files, now: real)
    requires FilesOk(files)
    ensures Inv(w, Booted(files, now)) && KeepsPlain(files, Booted(files, now).files)
  {
    SweepKeeps(files, now);
  }

  /** Every state reachable from the start of a session is safe, and while there is no crash
      every ordinary file that was in the directory is still there as it was. */
  lemma EveryReachableStateIsSafe(w: World, files: Files, now: real, events: seq<Event>)
    requires FilesOk(files) && AdmissibleRun(w, Booted(files, now), events)
    ensures Inv(w, Run(w, Booted(files, now), events))
    ensures (forall i :: 0 <= i < |events| ==> !events[i].Crashes?) ==>
              KeepsPlain(files, Run(w, Booted(files, now), events).files)
  {
    StartIsSafe(w, files, now);
    RunKeepsInv(w, Booted(files, now), events);
    if forall i :: 0 <= i < |events| ==> !events[i].Crashes? {
      RunKeepsPlainFiles(w, Booted(files, now), events);
    }
  }

  const EMPTY := State(map[], map[], [], {}, {})

  const QUIET := OfferEnv("", 0.0, [], true, true, true, true)

  lemma FirstOfferTakesPartName(w: World, o: Offer)
    requires w.sanitize("x.part") == Some("x.part") && o.filename == "x.part"
    requires o.size <= Chunker.MAX_INCOMING_FILE_SIZE
    ensures HandleOffer(w, EMPTY, o, QUIET).files == map["x.part.part" := Blob([], 0)]
    ensures HandleOffer(w, EMPTY, o, QUIET).incoming == map[o.tid := NewTransfer(o, QUIET, "x.part", 0)]
  {
    DestinationKeepsFreeName({}, "x.part", false);
    assert Swept(EMPTY.files, 0.0) == map[];
    assert EMPTY.files.Keys == {};
    assert PlanOffer(w, map[], map[], o, QUIET) == Planned(map[], "x.part", 0);
    assert PartName("x.part") == "x.part.part";
  }

  lemma SecondOfferIsPlanned(w: World, files: Files, incoming: map<string, Transfer>, o: Offer, t: Transfer)
    requires w.sanitize("x") == Some("x") && o.filename == "x" && o.size <= Chunker.MAX_INCOMING_FILE_SIZE
    requires files == map["x.part.part" := Blob([], 0)] && incoming.Values == {t} && t.dest == "x.part"
    requires t.filename == "x.part"
    ensures PlanOffer(w, files, incoming, o, QUIET) == Planned(files, "x", 0) && Swept(files, 0.0) == files
  {
    assert |"x"| == 1 && |"x.part"| == 6 && |"x.part.part"| == 11;
    assert files.Keys == {"x.part.part"} && PartName("x") == "x.part";
    assert !Blocked(files.Keys, "x", false);
    DestinationKeepsFreeName(files.Keys, "x", false);
    forall id | id in incoming ensures incoming[id] == t { assert incoming[id] in incoming.Values; }
    assert !Holds(incoming, "x") && !Busy(incoming, o.addr, "x");
    assert Swept(files, 0.0) == files;
  }

  /** Without the restriction on names, two offers are enough to make one transfer's
      destination another's part file. */
  lemma PartNamesCollide(w: World, size: nat, checksum: string)
    requires w.sanitize("x.part") == Some("x.part") && w.sanitize("x") == Some("x")
    requires size <= Chunker.MAX_INCOMING_FILE_SIZE
    ensures var s := Run(w, EMPTY, [OfferArrives(Offer("1", "a", "x.part", size, checksum), QUIET),
                                    OfferArrives(Offer("2", "a", "x", size, checksum), QUIET)]);
            && "1" in s.incoming && "2" in s.incoming && s.incoming["1"].dest == PartOf(s.incoming["2"])
            && !Inv(w, s)
  {
    var o1, o2 := Offer("1", "a", "x.part", size, checksum), Offer("2", "a", "x", size, checksum);
    var e1, e2 := OfferArrives(o1, QUIET), OfferArrives(o2, QUIET);
    var s1 := Step(w, EMPTY, e1);
    FirstOfferTakesPartName(w, o1);
    var t := NewTransfer(o1, QUIET, "x.part", 0);
    assert s1.incoming["1"] == t && s1.incoming.Values == {t};
    SecondOfferIsPlanned(w, s1.files, s1.incoming, o2, t);
    var s2 := Step(w, s1, e2);
    assert PartName("x") == "x.part";
    assert [e1, e2][..1] == [e1];
    assert Run(w, EMPTY, [e1]) == s1 by { assert [e1][..0] == []; }
    assert !Plain("x.part") by { CompanionsAreNotPlain("x"); }
    assert !Healthy(s2.files, s2.incoming["1"]);
  }
}
