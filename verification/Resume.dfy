/** One file offered again and again by an honest sender, over disconnects and crashes, in a
    session that serves arbitrary other traffic at the same time. */
module Resume {
  import opened Bytes
  import opened Names
  import opened Partial
  import opened TransferState
  import opened Session
  import opened SessionSafety
  import opened Durability
  import Chunker

  /** The file, who offers it, and under what name and checksum. */
  datatype Job = Job(peer: string, filename: string, src: seq<byte>, checksum: string)

  function JobKey(job: Job): Key { Key(job.peer, job.filename, |job.src|, job.checksum) }

  /** The receiver together with the sender's position in each stream it has opened. */
  datatype Sys = Sys(rx: State, streams: map<string, nat>)

  predicate SameFile(job: Job, filename: string, size: int, checksum: string) {
    filename == job.filename && size == |job.src| && checksum == job.checksum
  }

  predicate Mine(job: Job, t: Transfer) {
    SameFile(job, t.filename, t.size, t.checksum) && (t.peer == job.peer || t.peer == "")
  }

  /** _is_valid_resume_offset. */
  predicate ValidResumeOffset(offset: int, size: nat) {
    0 <= offset <= size && offset % CHUNK_SIZE == 0
  }

  datatype SysEvent =
    | Reoffer(offer: Offer, oenv: OfferEnv, honour: bool)
    | Deliver(tid: string, env: IoEnv)
    | Finish(tid: string, renameOk: bool)
    | Other(e: Event)

  function NextChunk(job: Job, pos: nat): Chunker.Chunk
    requires pos <= |job.src|
  {
    Chunker.ChunkAt(job.src, pos, pos / CHUNK_SIZE, CHUNK_SIZE)
  }

  /** The message a Deliver step hands to the receiver. */
  function ChunkEvent(job: Job, tid: string, pos: nat, env: IoEnv): Event
    requires pos <= |job.src|
  {
    var c := NextChunk(job, pos);
    ChunkArrives(tid, c.index, c.offset, c.data, env)
  }

  /** Where the sender starts: at the requested offset if it honours it, else at zero. */
  function StartOf(job: Job, honour: bool, offset: nat): nat {
    if honour && ValidResumeOffset(offset, |job.src|) then offset else 0
  }

  predicate WasAccepted(before: State, after: State) {
    |after.sent| > |before.sent| && after.sent[|after.sent| - 1].Accept?
  }

  function SysStep(w: World, job: Job, y: Sys, e: SysEvent): Sys {
    match e
    case Reoffer(o, env, honour) =>
      var rx := HandleOffer(w, y.rx, o, env);
      if WasAccepted(y.rx, rx)
      then Sys(rx, y.streams[o.tid := StartOf(job, honour, rx.sent[|rx.sent| - 1].offset)])
      else Sys(rx, y.streams)
    case Deliver(tid, env) =>
      if tid !in y.streams || y.streams[tid] >= |job.src| then y
      else
        var pos := y.streams[tid];
        Sys(Step(w, y.rx, ChunkEvent(job, tid, pos, env)), y.streams[tid := pos + |NextChunk(job, pos).data|])
    case Finish(tid, renameOk) =>
      if tid !in y.streams || y.streams[tid] != |job.src| then y
      else Sys(HandleDone(w, y.rx, tid, renameOk), y.streams)
    case Other(e) => Sys(Step(w, y.rx, e), y.streams)
  }

  /** Offers of the job come only from the job's sender, under fresh ids; messages carrying one
      of its ids come only from it; everything else is arbitrary. */
  ghost predicate Allowed(w: World, job: Job, y: Sys, e: SysEvent) {
    match e
    case Reoffer(o, env, _) =>
      && SameFile(job, o.filename, o.size, o.checksum) && (env.peer == job.peer || env.peer == "")
      && o.tid !in y.streams && o.tid !in y.rx.incoming
      && Admissible(w, y.rx, OfferArrives(o, env))
    case Deliver(tid, env) =>
      tid in y.streams && y.streams[tid] < |job.src| ==> Benign(y.rx, ChunkEvent(job, tid, y.streams[tid], env))
    case Finish(_, _) => true
    case Other(e) =>
      && Admissible(w, y.rx, e) && Benign(y.rx, e)
      && match e
         case OfferArrives(o, env) =>
           && o.tid !in y.streams
           && !(SameFile(job, o.filename, o.size, o.checksum) && (env.peer == job.peer || env.peer == ""))
         case ChunkArrives(tid, _, _, _, _) => tid !in y.streams
         case DoneArrives(tid, _) => tid !in y.streams
         case _ => true
  }

  /** Following a stream with Deliver steps visits exactly the chunks read_chunks yields. */
  lemma StreamIsReadChunks(job: Job, pos: nat)
    requires pos < |job.src| && pos % CHUNK_SIZE == 0
    ensures var chunks := Chunker.ChunkList(job.src, pos, pos / CHUNK_SIZE, CHUNK_SIZE);
            var pos' := pos + |NextChunk(job, pos).data|;
            && chunks != [] && chunks[0] == NextChunk(job, pos)
            && (pos' == |job.src| ==> chunks[1..] == [])
            && (pos' < |job.src| ==>
                  && pos' % CHUNK_SIZE == 0
                  && chunks[1..] == Chunker.ChunkList(job.src, pos', pos' / CHUNK_SIZE, CHUNK_SIZE))
  {
  }

  // ---- invariants -----------------------------------------------------------

  /** The part file is a prefix of the source, cut at a chunk boundary or at its end. */
  ghost predicate IsPrefix(job: Job, files: Files, t: Transfer) {
    && IsBlob(files, PartOf(t)) && t.received <= |job.src|
    && files[PartOf(t)].bytes == job.src[..t.received]
    && (t.received % CHUNK_SIZE == 0 || t.received == |job.src|)
    && (t.received < |job.src| ==> t.nextIndex == t.received / CHUNK_SIZE)
    && (t.resumeOffset > 0 && !t.firstSeen ==> t.received > 0)
  }

  /** The sender is where the receiver stands, or at the start of a stream that ignores the
      resume request and whose first chunk has not arrived. */
  ghost predicate InStep(t: Transfer, pos: nat) {
    pos == t.received || (pos == 0 && t.resumeOffset > 0 && !t.firstSeen)
  }

  ghost predicate Real(job: Job, files: Files, r: Record) {
    KeyOf(r) == JobKey(job) && IsBlob(files, PartName(r.destName)) && r.committed > 0 ==>
      && r.committed <= |files[PartName(r.destName)].bytes| && r.committed <= |job.src|
      && files[PartName(r.destName)].bytes[..r.committed] == job.src[..r.committed]
  }

  /** What any sidecar of the job calls committed really is the source. */
  ghost predicate AllReal(job: Job, files: Files) {
    forall n :: ReadMeta(files, n).Some? ==> Real(job, files, files[n].rec)
  }

  /** Nobody else's transfer keeps a sidecar that would pass for one of the job. */
  ghost predicate NotPosing(job: Job, files: Files, t: Transfer) {
    !Mine(job, t) && ReadMeta(files, MetaOf(t)).Some? ==>
      KeyOf(files[MetaOf(t)].rec) != JobKey(job) || files[MetaOf(t)].rec.committed == 0
  }

  ghost predicate TransferOk(job: Job, y: Sys, id: string)
    requires id in y.rx.incoming
  {
    var t := y.rx.incoming[id];
    && (Mine(job, t) <==> id in y.streams)
    && (id in y.streams ==> IsPrefix(job, y.rx.files, t) && InStep(t, y.streams[id]))
    && NotPosing(job, y.rx.files, t)
  }

  ghost predicate SysInv(w: World, job: Job, y: Sys) {
    && Inv(w, y.rx) && SidecarSafe(y.rx.files)
    && AllReal(job, y.rx.files)
    && (forall id :: id in y.rx.incoming ==> TransferOk(job, y, id))
    && (forall id :: id in y.streams ==> y.streams[id] <= |job.src|)
  }

  // ---- steps confined to one transfer ----------------------------------------

  lemma OtherSidecarsStayReal(job: Job, files: Files, files': Files, d: string, n: string)
    requires AllReal(job, files) && OnlyTouches(files, files', d) && Plain(d) && SidecarsPlain(files')
    requires d in files' ==> !files'[d].Sidecar? || (d in files && files[d] == files'[d])
    requires ReadMeta(files', n).Some? && n != MetaName(d)
    ensures Real(job, files', files'[n].rec)
  {
    CompanionsAreNotPlain(d);
    var e := files'[n].rec.destName;
    CompanionsAreInjective(d, e);
    CompanionsAreInjective(e, d);
    CompanionsAreNotPlain(e);
    assert ReadMeta(files, n).Some? && files[n] == files'[n];
    assert IsBlob(files', PartName(e)) ==> IsBlob(files, PartName(e)) && files'[PartName(e)] == files[PartName(e)];
  }

  lemma OthersStayOk(job: Job, y: Sys, y': Sys, d: string, id: string)
    requires OnlyTouches(y.rx.files, y'.rx.files, d) && Plain(d)
    requires id in y.rx.incoming && id in y'.rx.incoming && y'.rx.incoming[id] == y.rx.incoming[id]
    requires y.rx.incoming[id].dest != d && Plain(y.rx.incoming[id].dest) && TransferOk(job, y, id)
    requires id in y.streams <==> id in y'.streams
    requires id in y.streams ==> y'.streams[id] == y.streams[id]
    ensures TransferOk(job, y', id)
  {
    var e := y.rx.incoming[id].dest;
    CompanionsAreInjective(d, e);
    CompanionsAreInjective(e, d);
    CompanionsAreNotPlain(d);
    CompanionsAreNotPlain(e);
  }

  /** A step on one transfer keeps the system invariant if that transfer is in order
      afterwards and its sidecar, if any, is real. */
  lemma ConfinedStep(w: World, job: Job, y: Sys, y': Sys, tid: string)
    requires SysInv(w, job, y) && tid in y.rx.incoming
    requires Inv(w, y'.rx) && SidecarSafe(y'.rx.files)
    requires OnlyTouches(y.rx.files, y'.rx.files, y.rx.incoming[tid].dest)
    requires y.rx.incoming[tid].dest in y'.rx.files ==> !y'.rx.files[y.rx.incoming[tid].dest].Sidecar?
    requires forall id :: id in y'.rx.incoming && id != tid ==>
               id in y.rx.incoming && y'.rx.incoming[id] == y.rx.incoming[id]
    requires forall id :: id != tid ==> (id in y.streams <==>
                                           id in y'.streams) && (id in y.streams ==> y'.streams[id] == y.streams[id])
    requires forall id :: id in y'.streams ==> y'.streams[id] <= |job.src|
    requires tid in y'.rx.incoming ==> TransferOk(job, y', tid)
    requires var m := MetaName(y.rx.incoming[tid].dest);
             ReadMeta(y'.rx.files, m).Some? ==> Real(job, y'.rx.files, y'.rx.files[m].rec)
    ensures SysInv(w, job, y')
  {
    var d := y.rx.incoming[tid].dest;
    assert Healthy(y.rx.files, y.rx.incoming[tid]);
    forall n | ReadMeta(y'.rx.files, n).Some? ensures Real(job, y'.rx.files, y'.rx.files[n].rec) {
      if n != MetaName(d) {
        OtherSidecarsStayReal(job, y.rx.files, y'.rx.files, d, n);
      }
    }
    forall id | id in y'.rx.incoming ensures TransferOk(job, y', id) {
      if id != tid {
        assert Healthy(y.rx.files, y.rx.incoming[id]);
        OthersStayOk(job, y, y', d, id);
      }
    }
  }

  // ---- the job's own transfers -------------------------------------------------

  lemma StoredBytes(files: Files, t: Transfer, data: seq<byte>, env: IoEnv)
    requires Healthy(files, t)
    ensures var files' := StoredFiles(files, t, data, env);
            IsBlob(files', PartOf(t)) && files'[PartOf(t)].bytes == files[PartOf(t)].bytes + data
  {
    CompanionsAreNotPlain(t.dest);
  }

  lemma StoredCounters(t: Transfer, n: nat, env: IoEnv)
    ensures var t' := StoredTransfer(t, n, env);
            && t'.received == t.received + n && t'.nextIndex == t.nextIndex + 1 && t'.dest == t.dest
            && t'.resumeOffset == t.resumeOffset && t'.firstSeen == t.firstSeen
  {
  }

  /** Storing the chunk the stream stands at extends the prefix. */
  lemma StoreExtendsPrefix(job: Job, files: Files, t: Transfer, env: IoEnv)
    requires Healthy(files, t) && IsPrefix(job, files, t) && t.received < |job.src| && t.size == |job.src|
    requires t.firstSeen
    ensures var c := NextChunk(job, t.received);
            && IsPrefix(job, StoredFiles(files, t, c.data, env), StoredTransfer(t, |c.data|, env))
            && StoredTransfer(t, |c.data|, env).received == t.received + |c.data| <= t.size
            && StoredTransfer(t, |c.data|, env).firstSeen
  {
    var c := NextChunk(job, t.received);
    assert job.src[..t.received] + c.data == job.src[..t.received + |c.data|];
    StoredBytes(files, t, c.data, env);
    StoredCounters(t, |c.data|, env);
  }

  /** A sidecar over a source prefix is real, whoever wrote it. */
  lemma PrefixSidecarIsReal(w: World, job: Job, s: State, t: Transfer)
    requires Inv(w, s) && SidecarSafe(s.files) && IsBlob(s.files, PartOf(t))
    requires t.received <= |job.src| && s.files[PartOf(t)].bytes == job.src[..t.received]
    requires ReadMeta(s.files, MetaOf(t)).Some?
    ensures Real(job, s.files, s.files[MetaOf(t)].rec)
  {
    var r := s.files[MetaOf(t)].rec;
    CompanionsAreInjective(t.dest, r.destName);
    assert Backed(s.files, r);
    assert s.files[PartOf(t)].synced <= |s.files[PartOf(t)].bytes|;
    if r.committed > 0 {
      assert job.src[..t.received][..r.committed] == job.src[..r.committed];
    }
  }

  predicate SameOffer(t: Transfer, t': Transfer) {
    && t'.addr == t.addr && t'.filename == t.filename && t'.size == t.size && t'.checksum == t.checksum
    && t'.dest == t.dest && t'.peer == t.peer
  }

  function ChunkResult(job: Job, s: State, tid: string, pos: nat, env: IoEnv): State
    requires pos <= |job.src|
  {
    var c := NextChunk(job, pos);
    HandleChunk(s, tid, c.index, c.offset, c.data, env)
  }

  lemma InOrderChunk(job: Job, s: State, tid: string, env: IoEnv)
    requires tid in s.incoming && Healthy(s.files, s.incoming[tid]) && IsPrefix(job, s.files, s.incoming[tid])
    requires s.incoming[tid].received < |job.src| == s.incoming[tid].size
    ensures var t := s.incoming[tid];
            ChunkResult(job, s, tid, t.received, env) ==
              if env.writeOk
              then StoreChunk(s, tid, t.(firstSeen := true, state := Receiving), NextChunk(job, t.received).data, env)
              else AbortIncoming(s, tid)
  {
  }

  lemma RestartingChunk(job: Job, s: State, tid: string, env: IoEnv)
    requires tid in s.incoming && Healthy(s.files, s.incoming[tid]) && IsPrefix(job, s.files, s.incoming[tid])
    requires s.incoming[tid].resumeOffset > 0 && !s.incoming[tid].firstSeen && |job.src| == s.incoming[tid].size
    ensures var t := s.incoming[tid];
            ChunkResult(job, s, tid, 0, env) ==
              if env.writeOk && env.truncateOk
              then StoreChunk(s.(files := RestartFiles(s.files, t, env)), tid, Restarted(t), NextChunk(job, 0).data,
                              env)
              else AbortIncoming(s, tid)
  {
    assert IsRestart(s.incoming[tid], 0, 0);
  }

  /** The next chunk of a stream is never judged out of order: it is stored, unless the disk
      refuses, and the stream and the receiver advance together. */
  lemma NextChunkIsInOrder(w: World, job: Job, y: Sys, tid: string, env: IoEnv)
    requires SysInv(w, job, y) && tid in y.streams && y.streams[tid] < |job.src| && tid in y.rx.incoming
    ensures var s' := ChunkResult(job, y.rx, tid, y.streams[tid], env);
            var pos' := y.streams[tid] + |NextChunk(job, y.streams[tid]).data|;
            && (env.writeOk && env.truncateOk ==> tid in s'.incoming)
            && (tid in s'.incoming ==>
                  && IsPrefix(job, s'.files, s'.incoming[tid]) && s'.incoming[tid].received == pos'
                  && SameOffer(y.rx.incoming[tid], s'.incoming[tid]))
            && (tid !in s'.incoming ==> s' == AbortIncoming(y.rx, tid))
  {
    var t := y.rx.incoming[tid];
    var pos := y.streams[tid];
    assert TransferOk(job, y, tid) && Healthy(y.rx.files, t);
    if pos == t.received {
      InOrderChunk(job, y.rx, tid, env);
      StoreExtendsPrefix(job, y.rx.files, t.(firstSeen := true, state := Receiving), env);
    } else {
      RestartingChunk(job, y.rx, tid, env);
      RestartKeeps(y.rx.files, t, env);
      assert job.src[..0] == [];
      StoreExtendsPrefix(job, RestartFiles(y.rx.files, t, env), Restarted(t), env);
    }
  }

  lemma DeliverKeepsInv(w: World, job: Job, y: Sys, tid: string, env: IoEnv)
    requires SysInv(w, job, y) && Allowed(w, job, y, Deliver(tid, env))
    ensures SysInv(w, job, SysStep(w, job, y, Deliver(tid, env)))
  {
    if tid in y.streams && y.streams[tid] < |job.src| {
      var e := ChunkEvent(job, tid, y.streams[tid], env);
      var y' := SysStep(w, job, y, Deliver(tid, env));
      if tid in y.rx.incoming {
        var t := y.rx.incoming[tid];
        assert TransferOk(job, y, tid) && Healthy(y.rx.files, t);
        NextChunkIsInOrder(w, job, y, tid, env);
        ChunkKeepsInv(w, y.rx, tid, e.sequence, e.offset, e.data, env);
        ChunkSafety(w, y.rx, e);
        ChunkChangesOnlyItsTransfer(y.rx, tid, e.sequence, e.offset, e.data, env);
        if tid in y'.rx.incoming {
          assert Healthy(y'.rx.files, y'.rx.incoming[tid]);
          assert TransferOk(job, y', tid);
          if ReadMeta(y'.rx.files, MetaOf(t)).Some? {
            PrefixSidecarIsReal(w, job, y'.rx, y'.rx.incoming[tid]);
          }
        }
        ConfinedStep(w, job, y, y', tid);
      } else {
        UnchangedReceiver(w, job, y, y', tid);
      }
    }
  }

  lemma UnchangedReceiver(w: World, job: Job, y: Sys, y': Sys, tid: string)
    requires SysInv(w, job, y) && tid !in y.rx.incoming && y'.rx == y.rx
    requires forall id :: id != tid ==> (id in y.streams <==>
                                           id in y'.streams) && (id in y.streams ==> y'.streams[id] == y.streams[id])
    requires forall id :: id in y'.streams ==> y'.streams[id] <= |job.src|
    ensures SysInv(w, job, y')
  {
    forall id | id in y'.rx.incoming ensures TransferOk(job, y', id) {
      assert TransferOk(job, y, id);
    }
  }

  /** When everything has been sent, file_done delivers exactly the source. */
  lemma FinishDeliversSource(w: World, job: Job, y: Sys, tid: string)
    requires SysInv(w, job, y) && job.checksum == w.hash(job.src)
    requires tid in y.streams && y.streams[tid] == |job.src| && tid in y.rx.incoming
    ensures var t := y.rx.incoming[tid];
            var y' := SysStep(w, job, y, Finish(tid, true));
            && t.dest in y'.rx.files && y'.rx.files[t.dest].Blob? && y'.rx.files[t.dest].bytes == job.src
            && y'.rx.sent == y.rx.sent + [Ack(tid, true)]
            && tid !in y'.rx.incoming
  {
    var t := y.rx.incoming[tid];
    assert TransferOk(job, y, tid) && Healthy(y.rx.files, t);
    assert job.src[..|job.src|] == job.src;
    DeliveredKeeps(y.rx.files, t);
  }

  lemma DoneLeavesRealSidecar(w: World, job: Job, y: Sys, tid: string, renameOk: bool)
    requires SysInv(w, job, y) && tid in y.rx.incoming
    ensures var s', t := HandleDone(w, y.rx, tid, renameOk), y.rx.incoming[tid];
            && (ReadMeta(s'.files, MetaOf(t)).Some? ==> Real(job, s'.files, s'.files[MetaOf(t)].rec))
            && (t.dest in s'.files ==> !s'.files[t.dest].Sidecar?) && tid !in s'.incoming
  {
    var t := y.rx.incoming[tid];
    assert Healthy(y.rx.files, t);
    CompanionsAreNotPlain(t.dest);
    DeliveredKeeps(y.rx.files, t);
  }

  lemma DoneKeepsSys(w: World, job: Job, y: Sys, tid: string, renameOk: bool)
    requires SysInv(w, job, y)
    ensures SysInv(w, job, Sys(HandleDone(w, y.rx, tid, renameOk), y.streams))
  {
    if tid in y.rx.incoming {
      DoneKeepsInv(w, y.rx, tid, renameOk);
      DoneSafety(w, y.rx, DoneArrives(tid, renameOk));
      DoneLeavesRealSidecar(w, job, y, tid, renameOk);
      ConfinedStep(w, job, y, Sys(HandleDone(w, y.rx, tid, renameOk), y.streams), tid);
    }
  }

  lemma StopKeepsSys(w: World, job: Job, y: Sys, tid: string, env: IoEnv)
    requires SysInv(w, job, y) && Benign(y.rx, Stops(tid, env))
    ensures SysInv(w, job, Sys(StopIncoming(y.rx, tid, env), y.streams))
  {
    if tid in y.rx.incoming {
      StopKeepsInv(w, y.rx, tid, env);
      StopSafety(w, y.rx, Stops(tid, env));
      StopLeavesRealSidecar(w, job, y, tid, env);
      ConfinedStep(w, job, y, Sys(StopIncoming(y.rx, tid, env), y.streams), tid);
    }
  }

  lemma StopOnDisk(job: Job, files: Files, t: Transfer, env: IoEnv)
    requires Healthy(files, t)
    ensures var files' := StopFiles(files, t, env);
            && IsBlob(files', PartOf(t)) && files'[PartOf(t)].bytes == files[PartOf(t)].bytes && t.dest !in files'
            && (NotPosing(job, files, t) ==> NotPosing(job, files', t))
  {
    CompanionsAreNotPlain(t.dest);
  }

  lemma StopLeavesRealSidecar(w: World, job: Job, y: Sys, tid: string, env: IoEnv)
    requires SysInv(w, job, y) && tid in y.rx.incoming && Inv(w, StopIncoming(y.rx, tid, env))
    requires SidecarSafe(StopIncoming(y.rx, tid, env).files)
    ensures var s' := StopIncoming(y.rx, tid, env);
            var t := y.rx.incoming[tid];
            ReadMeta(s'.files, MetaOf(t)).Some? ==> Real(job, s'.files, s'.files[MetaOf(t)].rec)
    ensures y.rx.incoming[tid].dest !in StopIncoming(y.rx, tid, env).files
  {
    var s', t := StopIncoming(y.rx, tid, env), y.rx.incoming[tid];
    assert TransferOk(job, y, tid) && Healthy(y.rx.files, t);
    StopOnDisk(job, y.rx.files, t, env);
    if Mine(job, t) && ReadMeta(s'.files, MetaOf(t)).Some? {
      PrefixSidecarIsReal(w, job, s', t);
    }
  }

  // ---- everybody else's transfers ---------------------------------------------

  lemma StrangerStoreStaysStranger(job: Job, files: Files, t: Transfer, data: seq<byte>, env: IoEnv)
    requires Healthy(files, t) && !Mine(job, t) && NotPosing(job, files, t)
    ensures NotPosing(job, StoredFiles(files, t, data, env), StoredTransfer(t, |data|, env))
    ensures !Mine(job, StoredTransfer(t, |data|, env))
  {
    CompanionsAreNotPlain(t.dest);
    assert ReadMeta(Append(files, PartOf(t), data), MetaOf(t)) == ReadMeta(files, MetaOf(t));
  }

  lemma StrangerRestartStaysStranger(job: Job, files: Files, t: Transfer, env: IoEnv)
    requires Healthy(files, t) && !Mine(job, t) && NotPosing(job, files, t)
    ensures NotPosing(job, RestartFiles(files, t, env), Restarted(t))
  {
    CompanionsAreNotPlain(t.dest);
    var truncated := Truncate(files, PartOf(t), 0);
    assert ReadMeta(truncated, MetaOf(t)) == ReadMeta(files, MetaOf(t));
  }

  lemma StrangerChunkStaysStranger(job: Job, s: State, e: Event)
    requires e.ChunkArrives? && e.tid in s.incoming && FilesOk(s.files) && Healthy(s.files, s.incoming[e.tid])
    requires !Mine(job, s.incoming[e.tid]) && NotPosing(job, s.files, s.incoming[e.tid])
    ensures var s' := HandleChunk(s, e.tid, e.sequence, e.offset, e.data, e.env);
            e.tid in s'.incoming ==> !Mine(job, s'.incoming[e.tid]) && NotPosing(job, s'.files, s'.incoming[e.tid])
                                     && s'.incoming[e.tid].dest == s.incoming[e.tid].dest
  {
    var t := s.incoming[e.tid];
    RestartKeeps(s.files, t, e.env);
    StrangerRestartStaysStranger(job, s.files, t, e.env);
    StrangerStoreStaysStranger(job, RestartFiles(s.files, t, e.env), Restarted(t), e.data, e.env);
    StrangerStoreStaysStranger(job, s.files, t.(firstSeen := true, state := Receiving), e.data, e.env);
  }

  lemma StrangerChunkKeepsInv(w: World, job: Job, y: Sys, e: Event)
    requires e.ChunkArrives? && SysInv(w, job, y) && Benign(y.rx, e) && e.tid !in y.streams
    ensures SysInv(w, job, Sys(Step(w, y.rx, e), y.streams))
  {
    if e.tid in y.rx.incoming {
      var t := y.rx.incoming[e.tid];
      var y' := Sys(Step(w, y.rx, e), y.streams);
      assert TransferOk(job, y, e.tid) && Healthy(y.rx.files, t);
      StrangerChunkStaysStranger(job, y.rx, e);
      ChunkKeepsInv(w, y.rx, e.tid, e.sequence, e.offset, e.data, e.env);
      ChunkSafety(w, y.rx, e);
      ChunkChangesOnlyItsTransfer(y.rx, e.tid, e.sequence, e.offset, e.data, e.env);
      if e.tid in y'.rx.incoming {
        assert Healthy(y'.rx.files, y'.rx.incoming[e.tid]);
        assert TransferOk(job, y', e.tid);
      } else {
        CompanionsAreNotPlain(t.dest);
        assert y'.rx == AbortIncoming(y.rx, e.tid);
      }
      ConfinedStep(w, job, y, y', e.tid);
    }
  }

  // ---- offers -------------------------------------------------------------

  lemma SweepKeepsSys(w: World, job: Job, y: Sys, now: real)
    requires SysInv(w, job, y)
    requires forall id :: id in y.rx.incoming ==> !Partial.Expired(y.rx.files, now, MetaOf(y.rx.incoming[id]))
    ensures SysInv(w, job, Sys(y.rx.(files := Swept(y.rx.files, now)), y.streams))
  {
    var swept := Swept(y.rx.files, now);
    SweepKeepsInv(w, y.rx, now);
    SweepKeepsSafe(y.rx.files, now);
    forall n | ReadMeta(swept, n).Some? ensures Real(job, swept, swept[n].rec) {
      assert ReadMeta(y.rx.files, n).Some?;
    }
    var y' := Sys(y.rx.(files := swept), y.streams);
    forall id | id in y.rx.incoming ensures TransferOk(job, y', id) {
      assert TransferOk(job, y, id) && Healthy(y.rx.files, y.rx.incoming[id]);
      SweepSparesFresh(y.rx.files, now, y.rx.incoming[id].dest);
    }
  }

  /** A change confined to names nobody holds keeps the system invariant. */
  lemma UnheldStep(w: World, job: Job, y: Sys, files': Files, d: string)
    requires SysInv(w, job, y) && Plain(d) && !Holds(y.rx.incoming, d) && OnlyTouches(y.rx.files, files', d)
    requires Inv(w, y.rx.(files := files')) && SidecarSafe(files')
    requires d in files' ==> d in y.rx.files && files'[d] == y.rx.files[d]
    requires ReadMeta(files', MetaName(d)).Some? ==> Real(job, files', files'[MetaName(d)].rec)
    ensures SysInv(w, job, Sys(y.rx.(files := files'), y.streams))
  {
    var y' := Sys(y.rx.(files := files'), y.streams);
    forall n | ReadMeta(files', n).Some? ensures Real(job, files', files'[n].rec) {
      if n != MetaName(d) {
        OtherSidecarsStayReal(job, y.rx.files, files', d, n);
      }
    }
    forall id | id in y.rx.incoming ensures TransferOk(job, y', id) {
      assert Healthy(y.rx.files, y.rx.incoming[id]);
      NotHeldMeansDifferent(y.rx.incoming, d, id);
      OthersStayOk(job, y, y', d, id);
    }
  }

  lemma DiscardKeepsSys(w: World, job: Job, y: Sys, d: string)
    requires SysInv(w, job, y) && Plain(d) && !Holds(y.rx.incoming, d)
    ensures SysInv(w, job, Sys(y.rx.(files := Discard(y.rx.files, d)), y.streams))
  {
    CompanionsAreNotPlain(d);
    DiscardUnheldKeepsInv(w, y.rx, d);
    DiscardSafety(y.rx.files, d);
    UnheldStep(w, job, y, Discard(y.rx.files, d), d);
  }

  lemma PlanFiles(w: World, files: Files, incoming: map<string, Transfer>, o: Offer, env: OfferEnv)
    ensures var files' := PlanOffer(w, files, incoming, o, env).files;
            var found := FoundPartial(files, o, env);
            || files' == files
            || (found.Some? && !Holds(incoming, found.value.destName) && files' == Discard(files, found.value.destName))
  {
  }

  lemma PlanKeepsSys(w: World, job: Job, y: Sys, o: Offer, env: OfferEnv)
    requires SysInv(w, job, y)
    ensures SysInv(w, job, Sys(y.rx.(files := PlanOffer(w, y.rx.files, y.rx.incoming, o, env).files), y.streams))
  {
    PlanFiles(w, y.rx.files, y.rx.incoming, o, env);
    var found := FoundPartial(y.rx.files, o, env);
    if found.Some? && !Holds(y.rx.incoming, found.value.destName) {
      DiscardKeepsSys(w, job, y, found.value.destName);
    }
  }

  /** Accepting at `start` leaves the new transfer in order: a source prefix if it is the
      job's, no false sidecar if it is not. */
  lemma AcceptKeepsSys(w: World, job: Job, y: Sys, y': Sys, o: Offer, env: OfferEnv, d: string, start: nat)
    requires SysInv(w, job, y) && Plain(d) && d !in y.rx.files && !Holds(y.rx.incoming, d)
    requires start <= o.size && start % CHUNK_SIZE == 0
    requires start > 0 ==>
               && ReadMeta(y.rx.files, MetaName(d)).Some? && KeyOf(y.rx.files[MetaName(d)].rec) == OfferKey(o, env)
               && y.rx.files[MetaName(d)].rec.committed == start
               && IsBlob(y.rx.files, PartName(d)) && start <= y.rx.files[PartName(d)].synced && env.peer != ""
    requires y'.rx.files == AcceptedFiles(y.rx.files, o, env, d, start)
    requires y'.rx.incoming == y.rx.incoming[o.tid := NewTransfer(o, env, d, start)]
    requires y'.rx.intact == y.rx.intact
    requires o.tid !in y.streams
    requires if Mine(job, NewTransfer(o, env, d, start))
             then o.tid in y'.streams && y'.streams == y.streams[o.tid := y'.streams[o.tid]]
               && y'.streams[o.tid] in {0, start}
             else y'.streams == y.streams
    ensures SysInv(w, job, y')
  {
    AcceptReadies(w, job, y, o, env, d, start);
    var t := NewTransfer(o, env, d, start);
    var mid := Sys(y.rx.(files := y'.rx.files), y.streams);
    InvIgnoresSent(w, y.rx.(files := y'.rx.files, incoming := y.rx.incoming[o.tid := t]), y'.rx);
    forall id | id in y'.rx.incoming ensures TransferOk(job, y', id) {
      if id != o.tid {
        assert TransferOk(job, mid, id);
      }
    }
    forall id | id in y'.streams ensures y'.streams[id] <= |job.src| {
      if id == o.tid { assert Mine(job, t); }
    }
  }

  lemma InvIgnoresSent(w: World, s: State, s': State)
    requires Inv(w, s) && s'.files == s.files && s'.incoming == s.incoming && s'.intact == s.intact
    ensures Inv(w, s')
  {
  }

  /** Everything about the files after accepting, before anything is said of the streams. */
  lemma AcceptReadies(w: World, job: Job, y: Sys, o: Offer, env: OfferEnv, d: string, start: nat)
    requires SysInv(w, job, y) && Plain(d) && d !in y.rx.files && !Holds(y.rx.incoming, d)
    requires start <= o.size && start % CHUNK_SIZE == 0
    requires start > 0 ==>
               && ReadMeta(y.rx.files, MetaName(d)).Some? && KeyOf(y.rx.files[MetaName(d)].rec) == OfferKey(o, env)
               && y.rx.files[MetaName(d)].rec.committed == start
               && IsBlob(y.rx.files, PartName(d)) && start <= y.rx.files[PartName(d)].synced && env.peer != ""
    ensures var t := NewTransfer(o, env, d, start);
            var files' := AcceptedFiles(y.rx.files, o, env, d, start);
            && SysInv(w, job, Sys(y.rx.(files := files'), y.streams))
            && Inv(w, y.rx.(files := files', incoming := y.rx.incoming[o.tid := t]))
            && SidecarSafe(files') && (Mine(job, t) ==> IsPrefix(job, files', t)) && NotPosing(job, files', t)
  {
    var files' := AcceptedFiles(y.rx.files, o, env, d, start);
    CompanionsAreNotPlain(d);
    assert IsBlob(y.rx.files, PartName(d)) ==> y.rx.files[PartName(d)].synced <= |y.rx.files[PartName(d)].bytes|;
    AcceptedFilesKeep(w, y.rx, o, env, d, start);
    AcceptKeepsInv(w, y.rx, o, env, d, start);
    AcceptSafety(w, y.rx, o, env, d, start);
    UnheldChangeKeepsInv(w, y.rx, files', d);
    AcceptedPrefix(w, job, y, o, env, d, start);
    UnheldStep(w, job, y, files', d);
  }

  lemma AcceptedPrefix(w: World, job: Job, y: Sys, o: Offer, env: OfferEnv, d: string, start: nat)
    requires SysInv(w, job, y) && Plain(d)
    requires start <= o.size && start % CHUNK_SIZE == 0
    requires start > 0 ==>
               && ReadMeta(y.rx.files, MetaName(d)).Some? && KeyOf(y.rx.files[MetaName(d)].rec) == OfferKey(o, env)
               && y.rx.files[MetaName(d)].rec.committed == start
               && IsBlob(y.rx.files, PartName(d)) && start <= |y.rx.files[PartName(d)].bytes| && env.peer != ""
    ensures var t := NewTransfer(o, env, d, start);
            var files' := AcceptedFiles(y.rx.files, o, env, d, start);
            && (Mine(job, t) ==> IsPrefix(job, files', t))
            && NotPosing(job, files', t)
            && (ReadMeta(files', MetaName(d)).Some? ==> Real(job, files', files'[MetaName(d)].rec))
  {
    var t := NewTransfer(o, env, d, start);
    CompanionsAreNotPlain(d);
    if start > 0 {
      var r := y.rx.files[MetaName(d)].rec;
      CompanionsAreInjective(d, r.destName);
      assert Real(job, y.rx.files, r);
      assert Mine(job, t) ==> KeyOf(r) == JobKey(job);
      assert start <= |job.src| ==> job.src[..start][..start] == job.src[..start];
    } else {
      assert job.src[..0] == [];
    }
  }

  lemma ConcludeKeepsSys(w: World, job: Job, y: Sys, y': Sys, o: Offer, env: OfferEnv, plan: Plan)
    requires GoodPlan(w, y.rx, o, plan) && TruePlan(plan.files, o, env, plan)
    requires SysInv(w, job, Sys(y.rx.(files := plan.files), y.streams))
    requires plan.Planned? && plan.offset > 0 ==> env.peer != ""
    requires o.tid !in y.streams
    requires y'.rx == Conclude(y.rx, o, env, plan)
    requires if plan.Planned? && env.spaceOk && env.accept
             && Mine(job, NewTransfer(o, env, plan.dest, if env.openOk then plan.offset else 0))
             then o.tid in y'.streams && y'.streams == y.streams[o.tid := y'.streams[o.tid]]
                  && y'.streams[o.tid] in {0, if env.openOk then plan.offset else 0}
             else y'.streams == y.streams
    ensures SysInv(w, job, y')
  {
    var planned := Sys(y.rx.(files := plan.files), y.streams);
    if plan.Planned? {
      DiscardKeepsSys(w, job, planned, plan.dest);
      if env.spaceOk && env.accept {
        AcceptKeepsSys(w, job, planned, y', o, env, plan.dest, if env.openOk then plan.offset else 0);
      }
    }
    if !(plan.Planned? && env.spaceOk && env.accept) {
      SentDoesNotMatter(w, job, Sys(y.rx.(files := y'.rx.files), y.streams), y');
    }
  }

  lemma SentDoesNotMatter(w: World, job: Job, y: Sys, y': Sys)
    requires SysInv(w, job, y) && y'.streams == y.streams && y'.rx.(sent := y.rx.sent) == y.rx
    ensures SysInv(w, job, y')
  {
    forall id | id in y'.rx.incoming ensures TransferOk(job, y', id) {
      assert TransferOk(job, y, id);
    }
  }

  /** Any offer, the job's or not: what an accepted one opens is in order. */
  lemma OfferKeepsSys(w: World, job: Job, y: Sys, y': Sys, o: Offer, env: OfferEnv)
    requires SysInv(w, job, y) && Admissible(w, y.rx, OfferArrives(o, env)) && o.tid !in y.streams
    requires y'.rx == HandleOffer(w, y.rx, o, env)
    requires if WasAccepted(y.rx, y'.rx) && SameFile(job, o.filename, o.size, o.checksum)
             && (env.peer == job.peer || env.peer == "")
             then o.tid in y'.streams && y'.streams == y.streams[o.tid := y'.streams[o.tid]]
                  && y'.streams[o.tid] in {0, y'.rx.sent[|y'.rx.sent| - 1].offset}
             else y'.streams == y.streams
    ensures SysInv(w, job, y')
  {
    var swept := y.rx.(files := Swept(y.rx.files, env.now));
    SweepKeepsSys(w, job, y, env.now);
    PlanIsSafe(w, swept, o, env);
    PlanSafety(w, swept, o, env);
    PlanKeepsSys(w, job, Sys(swept, y.streams), o, env);
    ConcludeKeepsSys(w, job, y, y', o, env, PlanOffer(w, swept.files, y.rx.incoming, o, env));
  }

  lemma CrashKeepsSys(w: World, job: Job, y: Sys, e: Event)
    requires e.Crashes? && SysInv(w, job, y) && Admissible(w, y.rx, e)
    ensures SysInv(w, job, Sys(Step(w, y.rx, e), y.streams))
  {
    CrashKeepsInv(w, y.rx, e.after, e.now);
    CrashSafety(w, y.rx, e);
    var files' := Swept(e.after, e.now);
    forall n | ReadMeta(files', n).Some? ensures Real(job, files', files'[n].rec) {
      CrashLeavesReal(job, y.rx.files, e.after, n);
    }
  }

  lemma CrashLeavesReal(job: Job, files: Files, after: Files, n: string)
    requires CrashImage(files, after) && SidecarSafe(files) && AllReal(job, files) && Sane(files)
    requires ReadMeta(after, n).Some?
    ensures Real(job, after, after[n].rec)
  {
    assert n in files && ReadMeta(files, n).Some? && after[n] == files[n];
    var r := after[n].rec;
    var p := PartName(r.destName);
    assert Real(job, files, r) && Backed(files, r);
    if IsBlob(after, p) {
      assert p in files && IsBlob(files, p);
      var k := files[p].synced;
      assert after[p].bytes[..k][..r.committed] == after[p].bytes[..r.committed];
      assert files[p].bytes[..k][..r.committed] == files[p].bytes[..r.committed];
    }
  }

  // ---- the main result --------------------------------------------------------

  lemma SysStepKeepsInv(w: World, job: Job, y: Sys, e: SysEvent)
    requires SysInv(w, job, y) && Allowed(w, job, y, e)
    ensures SysInv(w, job, SysStep(w, job, y, e))
  {
    match e
    case Reoffer(o, env, _) => OfferKeepsSys(w, job, y, SysStep(w, job, y, e), o, env);
    case Deliver(tid, env) => DeliverKeepsInv(w, job, y, tid, env);
    case Finish(tid, renameOk) =>
      if tid in y.streams && y.streams[tid] == |job.src| {
        DoneKeepsSys(w, job, y, tid, renameOk);
      }
    case Other(OfferArrives(o, env)) => OfferKeepsSys(w, job, y, SysStep(w, job, y, e), o, env);
    case Other(ChunkArrives(_, _, _, _, _)) => StrangerChunkKeepsInv(w, job, y, e.e);
    case Other(DoneArrives(tid, renameOk)) => DoneKeepsSys(w, job, y, tid, renameOk);
    case Other(Stops(tid, env)) => StopKeepsSys(w, job, y, tid, env);
    case Other(Crashes(_, _)) => CrashKeepsSys(w, job, y, e.e);
  }

  function SysRun(w: World, job: Job, y: Sys, events: seq<SysEvent>): Sys {
    if events == [] then y else SysStep(w, job, SysRun(w, job, y, events[..|events| - 1]), events[|events| - 1])
  }

  ghost predicate AllowedRun(w: World, job: Job, y: Sys, events: seq<SysEvent>) {
    events == [] || (AllowedRun(w, job, y, events[..|events| - 1])
                     && Allowed(w, job, SysRun(w, job, y, events[..|events| - 1]), events[|events| - 1]))
  }

  /** Over any run of offers, deliveries, disconnects, crashes and re-offers, with a sender that
      honours or ignores each resume offset: every active part file of the job is the source's
      first `received` bytes, and every sidecar of the job covers only real source bytes. */
  lemma {:induction false} SysRunKeepsInv(w: World, job: Job, y: Sys, events: seq<SysEvent>)
    requires SysInv(w, job, y) && AllowedRun(w, job, y, events)
    ensures SysInv(w, job, SysRun(w, job, y, events))
    decreases |events|
  {
    if events != [] {
      SysRunKeepsInv(w, job, y, events[..|events| - 1]);
      SysStepKeepsInv(w, job, SysRun(w, job, y, events[..|events| - 1]), events[|events| - 1]);
    }
  }

  /** The same, read off at any point of a run: a transfer whose stream has been sent in full
      ends with the source delivered and acknowledged. */
  lemma CompleteStreamDelivers(w: World, job: Job, y: Sys, events: seq<SysEvent>, tid: string)
    requires SysInv(w, job, y) && AllowedRun(w, job, y, events) && job.checksum == w.hash(job.src)
    requires var now := SysRun(w, job, y, events);
             tid in now.streams && now.streams[tid] == |job.src| && tid in now.rx.incoming
    ensures var now := SysRun(w, job, y, events);
            var t := now.rx.incoming[tid];
            var done := SysStep(w, job, now, Finish(tid, true));
            && t.dest !in now.rx.files && t.dest in done.rx.files
            && done.rx.files[t.dest].Blob? && done.rx.files[t.dest].bytes == job.src
            && done.rx.sent == now.rx.sent + [Ack(tid, true)]
  {
    SysRunKeepsInv(w, job, y, events);
    var now := SysRun(w, job, y, events);
    assert Healthy(now.rx.files, now.rx.incoming[tid]);
    FinishDeliversSource(w, job, now, tid);
  }

  lemma ConcludedOffset(s: State, o: Offer, env: OfferEnv, plan: Plan)
    requires WasAccepted(s, Conclude(s, o, env, plan))
    ensures var sent := Conclude(s, o, env, plan).sent;
            plan.Planned? && sent[|sent| - 1].offset in {0, plan.offset}
  {
  }

  /** The offset an accept asks for always passes the sender's own validation. */
  lemma AcceptedOffsetIsValid(w: World, s: State, o: Offer, env: OfferEnv)
    requires Inv(w, s) && Admissible(w, s, OfferArrives(o, env))
    requires WasAccepted(s, HandleOffer(w, s, o, env))
    ensures var sent := HandleOffer(w, s, o, env).sent;
            ValidResumeOffset(sent[|sent| - 1].offset, o.size)
  {
    var swept := s.(files := Swept(s.files, env.now));
    var plan := PlanOffer(w, swept.files, s.incoming, o, env);
    SweepKeepsInv(w, s, env.now);
    PlanIsSafe(w, swept, o, env);
    ConcludedOffset(s, o, env, plan);
    assert plan.offset % CHUNK_SIZE == 0 && plan.offset <= o.size;
  }

  // ---- from the start of a session ----------------------------------------------

  function BootedSys(files: Files, now: real): Sys { Sys(Booted(files, now), map[]) }

  /** A directory in which no earlier session left a sidecar is one to start from. */
  lemma CleanDirectoryIsReal(job: Job, files: Files)
    requires Sane(files) && forall n :: n in files ==> files[n].Blob?
    ensures FilesOk(files) && SidecarSafe(files) && AllReal(job, files)
  {
  }

  lemma SysStartIsSafe(w: World, job: Job, files: Files, now: real)
    requires FilesOk(files) && SidecarSafe(files) && AllReal(job, files)
    ensures SysInv(w, job, BootedSys(files, now))
  {
    StartIsSafe(w, files, now);
    SweepKeepsSafe(files, now);
    forall n | ReadMeta(Swept(files, now), n).Some? ensures Real(job, Swept(files, now), Swept(files, now)[n].rec) {
      assert ReadMeta(files, n).Some? && Real(job, files, files[n].rec);
    }
  }

  /** From the start of a session, over any run of offers, deliveries, disconnects, crashes and
      re-offers: every active part file of the job is a prefix of the source, no chunk of the
      job is out of order, and a stream sent in full delivers exactly the source. */
  lemma EveryReachableTransferIsTrue(w: World, job: Job, files: Files, now: real, events: seq<SysEvent>, tid: string)
    requires FilesOk(files) && SidecarSafe(files) && AllReal(job, files)
    requires AllowedRun(w, job, BootedSys(files, now), events) && job.checksum == w.hash(job.src)
    requires tid in SysRun(w, job, BootedSys(files, now), events).streams
    requires tid in SysRun(w, job, BootedSys(files, now), events).rx.incoming
    ensures var y := SysRun(w, job, BootedSys(files, now), events);
            var t := y.rx.incoming[tid];
            && IsPrefix(job, y.rx.files, t) && y.streams[tid] <= |job.src|
            && (y.streams[tid] < |job.src| ==> NextIsTaken(job, y, tid))
            && (y.streams[tid] == |job.src| ==> DeliversSource(job, y, SysStep(w, job, y, Finish(tid, true)), tid))
  {
    SysStartIsSafe(w, job, files, now);
    SysRunKeepsInv(w, job, BootedSys(files, now), events);
    var y := SysRun(w, job, BootedSys(files, now), events);
    assert TransferOk(job, y, tid);
    if y.streams[tid] < |job.src| {
      forall env: IoEnv | env.writeOk && env.truncateOk
        ensures tid in ChunkResult(job, y.rx, tid, y.streams[tid], env).incoming
      {
        NextChunkIsInOrder(w, job, y, tid, env);
      }
    } else {
      assert Healthy(y.rx.files, y.rx.incoming[tid]);
      FinishDeliversSource(w, job, y, tid);
    }
  }

  /** The next chunk of the stream is not refused, unless by the disk. */
  ghost predicate NextIsTaken(job: Job, y: Sys, tid: string)
    requires tid in y.streams && y.streams[tid] <= |job.src|
  {
    forall env: IoEnv :: env.writeOk && env.truncateOk ==>
      tid in ChunkResult(job, y.rx, tid, y.streams[tid], env).incoming
  }

  /** The source is where nothing was before, and is acknowledged. */
  ghost predicate DeliversSource(job: Job, y: Sys, y': Sys, tid: string)
    requires tid in y.rx.incoming
  {
    var d := y.rx.incoming[tid].dest;
    && d !in y.rx.files && d in y'.rx.files && y'.rx.files[d].Blob? && y'.rx.files[d].bytes == job.src
    && y'.rx.sent == y.rx.sent + [Ack(tid, true)]
  }
}
