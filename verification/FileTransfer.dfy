/** FileTransferSession: the receiving handlers as they change the session step by step, each
    proved to do exactly what the step system of module Session says. */
module FileTransfer {
  import opened Bytes
  import opened Names
  import opened Partial
  import opened TransferState
  import opened Session
  import Chunker

  /** Stopping several transfers one after the other, each with what the disk answers then. */
  function StopAll(s: State, ids: seq<string>, envs: string -> IoEnv): State {
    if ids == [] then s
    else StopIncoming(StopAll(s, ids[..|ids| - 1], envs), ids[|ids| - 1], envs(ids[|ids| - 1]))
  }

  function StopEvents(ids: seq<string>, envs: string -> IoEnv): seq<Event> {
    seq(|ids|, i requires 0 <= i < |ids| => Stops(ids[i], envs(ids[i])))
  }

  /** A lost connection is a run of stop events, so everything proved of runs holds of it. */
  lemma {:induction false} StopAllIsRun(w: World, s: State, ids: seq<string>, envs: string -> IoEnv)
    ensures StopAll(s, ids, envs) == Run(w, s, StopEvents(ids, envs))
    decreases |ids|
  {
    if ids != [] {
      var front := ids[..|ids| - 1];
      StopAllIsRun(w, s, front, envs);
      assert StopEvents(ids, envs)[..|ids| - 1] == StopEvents(front, envs);
    }
  }

  /** At most the part file and the sidecar of d differ. */
  ghost predicate OnlyCompanions(files: Files, files': Files, d: string) {
    files' - {PartName(d), MetaName(d)} == files - {PartName(d), MetaName(d)}
  }

  class FileTransferSession {
    const world: World
    var files: Files
    var incoming: map<string, Transfer>
    var sent: seq<Reply>
    ghost var verified: set<Receipt>
    ghost var intact: set<Receipt>

    /** A session starts with a sweep of what an earlier one left behind. */
    constructor (world: World, files: Files, listing: seq<string>, now: real)
      requires forall n :: n in files ==> n in listing
      ensures this.world == world
      ensures View() == State(Swept(files, now), map[], [], {}, {})
    {
      this.world := world;
      var swept := SweepExpired(files, listing, now);
      this.files, incoming, sent, verified, intact := swept, map[], [], {}, {};
    }

    ghost function View(): State
      reads this
    {
      State(files, incoming, sent, verified, intact)
    }

    /** Looking for a partial of this offer, and settling where the file will go. */
    method Settle(o: Offer, env: OfferEnv) returns (plan: Plan)
      modifies this`files
      ensures plan == PlanOffer(world, old(files), incoming, o, env)
      ensures files == plan.files
    {
      if o.size > Chunker.MAX_INCOMING_FILE_SIZE || Busy(incoming, o.addr, o.filename) {
        return Refused(files);
      }
      var found: Option<Record> := None;
      if env.peer != "" {
        found := FindResumable(files, env.listing, OfferKey(o, env));
      }
      assert found == FoundPartial(files, o, env);
      if found.Some? {
        if Holds(incoming, found.value.destName) {
          return Refused(files);
        }
        var offset := ResumeOffset(files, found.value);
        var name := world.sanitize(found.value.destName);
        if offset > 0 && name.Some? {
          var candidate := ResolveDestination(files.Keys, name.value, true);
          if candidate == found.value.destName {
            return Planned(files, candidate, offset);
          }
        }
        files := Discard(files, found.value.destName);
      }
      plan := SettleFresh(o);
    }

    method SettleFresh(o: Offer) returns (plan: Plan)
      ensures plan == PlanFresh(world, files, incoming, o) && plan.files == files
    {
      var name := world.sanitize(o.filename);
      if name.None? {
        return Refused(files);
      }
      var dest := ResolveDestination(files.Keys, name.value, false);
      if Holds(incoming, dest) {
        return Refused(files);
      }
      return Planned(files, dest, 0);
    }

    method OnOffer(o: Offer, env: OfferEnv)
      requires forall n :: n in files ==> n in env.listing
      modifies this
      ensures View() == HandleOffer(world, old(View()), o, env)
    {
      files := SweepExpired(files, env.listing, env.now);
      var plan := Settle(o, env);
      Decide(o, env, plan);
    }

    method Decide(o: Offer, env: OfferEnv, plan: Plan)
      requires files == plan.files
      modifies this
      ensures View() == Conclude(old(View()), o, env, plan)
    {
      if plan.Refused? || !env.spaceOk {
        sent := sent + [Reject(o.tid)];
        return;
      }
      if !env.accept {
        if plan.offset > 0 {
          files := Discard(files, plan.dest);
        }
        sent := sent + [Reject(o.tid)];
        return;
      }
      Begin(o, env, plan.dest, if env.openOk then plan.offset else 0);
    }

    /** Opening the part file, writing the sidecar, and answering file_accept. */
    method Begin(o: Offer, env: OfferEnv, dest: string, start: nat)
      modifies this
      ensures files == AcceptedFiles(old(files), o, env, dest, start)
      ensures incoming == old(incoming)[o.tid := NewTransfer(o, env, dest, start)]
      ensures sent == old(sent) + [Accept(o.tid, start)]
      ensures verified == old(verified) && intact == old(intact)
    {
      var t := NewTransfer(o, env, dest, start);
      if start > 0 {
        files := Truncate(files, PartName(dest), start);
      } else {
        files := Discard(files, dest);
        files := files[PartName(dest) := Blob([], 0)];
      }
      if env.peer != "" {
        files := WriteMeta(files, RecordFor(t, env.peer, start, env.now), env.metaOk);
      }
      incoming := incoming[o.tid := t];
      sent := sent + [Accept(o.tid, start)];
    }

    method Abort(tid: string)
      requires tid in incoming
      modifies this
      ensures View() == AbortIncoming(old(View()), tid)
    {
      var t := incoming[tid];
      incoming := incoming - {tid};
      files := Discard(files, t.dest);
      if t.dest in files {
        files := files - {t.dest};
      }
      sent := sent + [Ack(tid, false)];
    }

    /** _checkpoint_incoming. */
    method Checkpoint(tid: string, env: IoEnv)
      requires tid in incoming
      modifies this`files, this`incoming
      ensures files == CheckpointFiles(old(files), old(incoming[tid]), env)
      ensures incoming == old(incoming)[tid := CheckpointTransfer(old(incoming[tid]), env)]
    {
      var t := incoming[tid];
      var peer := if t.peer != "" then t.peer else env.peer;
      if peer == "" || !env.syncOk {
        return;
      }
      files := Fsync(files, PartOf(t));
      var committed := t.received - t.received % CHUNK_SIZE;
      incoming := incoming[tid := t.(lastCommitted := committed)];
      files := WriteMeta(files, RecordFor(t, peer, committed, env.now), env.metaOk);
    }

    /** The sender did not resume: start over in the same part file. */
    method Restart(tid: string, env: IoEnv)
      requires tid in incoming
      modifies this`files, this`incoming
      ensures files == RestartFiles(old(files), old(incoming[tid]), env)
      ensures incoming == old(incoming)[tid := Restarted(old(incoming[tid]))]
    {
      var t := incoming[tid];
      files := Truncate(files, PartOf(t), 0);
      incoming := incoming[tid := t.(received := 0, nextIndex := 0, resumeOffset := 0, lastCommitted := 0,
                                     firstSeen := true, state := Receiving)];
      if env.peer != "" {
        files := WriteMeta(files, RecordFor(t, env.peer, 0, env.now), env.metaOk);
      }
    }

    /** Writing the data of an in-order chunk. */
    method Store(tid: string, data: seq<byte>, env: IoEnv)
      requires tid in incoming
      modifies this`files, this`incoming
      ensures files == StoredFiles(old(files), old(incoming[tid]), data, env)
      ensures incoming == old(incoming)[tid := StoredTransfer(old(incoming[tid]), |data|, env)]
    {
      var t := incoming[tid];
      files := Append(files, PartOf(t), data);
      t := t.(received := t.received + |data|, nextIndex := t.nextIndex + 1);
      incoming := incoming[tid := t];
      if t.received - t.lastCommitted >= COMMIT_INTERVAL {
        Checkpoint(tid, env);
      }
    }

    /** Restart detection: false means the chunk is out of order and aborts the transfer. */
    method NoteFirstChunk(tid: string, sequence: int, offset: int, env: IoEnv) returns (ok: bool)
      requires tid in incoming
      modifies this`files, this`incoming
      ensures var t := old(incoming[tid]);
              var odd := t.resumeOffset > 0 && !t.firstSeen && !(sequence == t.nextIndex && offset == t.received);
              && ok == (odd ==> IsRestart(t, sequence, offset) && env.truncateOk)
              && files == (if ok && odd then RestartFiles(old(files), t, env) else old(files))
              && incoming == (if !ok then old(incoming)
                              else if odd then old(incoming)[tid := Restarted(t)]
                              else old(incoming)[tid := t.(firstSeen := true, state := Receiving)])
    {
      var t := incoming[tid];
      if t.resumeOffset > 0 && !t.firstSeen && !(sequence == t.nextIndex && offset == t.received) {
        if sequence != 0 || offset != 0 || !env.truncateOk {
          return false;
        }
        Restart(tid, env);
      } else {
        incoming := incoming[tid := t.(firstSeen := true, state := Receiving)];
      }
      return true;
    }

    /** Aborting looks at the destination only, so what was noted meanwhile does not matter. */
    method AbortFrom(tid: string, ghost before: State)
      requires tid in incoming && tid in before.incoming && incoming[tid].dest == before.incoming[tid].dest
      requires OnlyCompanions(before.files, files, incoming[tid].dest) && incoming - {tid} == before.incoming - {tid}
      requires sent == before.sent && verified == before.verified && intact == before.intact
      modifies this
      ensures View() == AbortIncoming(before, tid)
    {
      ghost var d := incoming[tid].dest;
      assert Discard(files, d) == Discard(before.files, d);
      Abort(tid);
    }

    method OnChunk(tid: string, sequence: int, offset: int, data: seq<byte>, env: IoEnv)
      modifies this
      ensures View() == HandleChunk(old(View()), tid, sequence, offset, data, env)
    {
      if tid !in incoming || Receiving !in IncomingTable(incoming[tid].state) {
        return;
      }
      ghost var before := View();
      var ok := NoteFirstChunk(tid, sequence, offset, env);
      var t := incoming[tid];
      if !ok || sequence != t.nextIndex || offset != t.received || t.received + |data| > t.size || !env.writeOk {
        AbortFrom(tid, before);
        return;
      }
      Store(tid, data, env);
    }

    method OnDone(tid: string, renameOk: bool)
      modifies this
      ensures View() == HandleDone(world, old(View()), tid, renameOk)
    {
      if tid !in incoming || !MayVerify(incoming[tid].state) {
        return;
      }
      var t := incoming[tid];
      incoming := incoming - {tid};
      if !IsBlob(files, PartOf(t)) {
        return;
      }
      var success := world.hash(files[PartOf(t)].bytes) == t.checksum && t.received == t.size;
      sent := sent + [Ack(tid, success)];
      if !success {
        files := Discard(files, t.dest);
        return;
      }
      if !renameOk {
        return;
      }
      files := files[t.dest := files[PartOf(t)]];
      files := Discard(files, t.dest);
      verified := verified + {Receipt(tid, t.size, t.checksum, t.dest)};
      intact := intact + {Receipt(tid, t.size, t.checksum, t.dest)};
    }

    /** The part of handle_connection_lost and _fail_incoming that stops one transfer. */
    method Stop(tid: string, env: IoEnv)
      modifies this
      ensures View() == StopIncoming(old(View()), tid, env)
    {
      if tid !in incoming {
        return;
      }
      var t := incoming[tid];
      incoming := incoming - {tid};
      if env.syncOk {
        files := Fsync(files, PartOf(t));
      }
      var committed := t.received - t.received % CHUNK_SIZE;
      var peer := if t.peer != "" then t.peer else env.peer;
      if peer != "" && PartOf(t) in files {
        files := WriteMeta(files, RecordFor(t, peer, committed, env.now), env.metaOk);
      }
    }

    /** Every transfer of that address is stopped, in some order, and no other is touched. */
    method ConnectionLost(addr: string, envs: string -> IoEnv)
      modifies this
      ensures forall id :: id in incoming <==> id in old(incoming) && old(incoming[id].addr) != addr
      ensures forall id :: id in incoming ==> incoming[id] == old(incoming[id])
      ensures exists ids :: View() == StopAll(old(View()), ids, envs)
                            && forall id :: id in ids <==> id in old(incoming) && old(incoming[id].addr) == addr
    {
      var matching := set id | id in incoming && incoming[id].addr == addr;
      ghost var before := View();
      ghost var ids: seq<string> := [];
      while matching != {}
        invariant View() == StopAll(before, ids, envs)
        invariant forall id :: id in matching ==> id in incoming
        invariant forall id :: id in incoming <==> id in before.incoming && id !in ids
        invariant forall id :: id in incoming ==> incoming[id] == before.incoming[id]
        invariant forall id :: id in ids || id in matching <==>
                    id in before.incoming && before.incoming[id].addr == addr
        invariant forall id :: id in ids ==> id !in matching
        decreases matching
      {
        var id :| id in matching;
        Stop(id, envs(id));
        assert (ids + [id])[..|ids|] == ids;
        ids := ids + [id];
        matching := matching - {id};
      }
    }
  }
}
