/** What each message does at the receiver, told by the fields it looks at and changes, and
    where the bytes of every chunk end up. */
module Receiving {
  import opened Bytes
  import opened Names
  import opened Partial
  import opened TransferState
  import opened Session
  import opened SessionSafety
  import Chunker
  import Clock

  // ---- chunks ---------------------------------------------------------------------------

  predicate InOrder(t: Transfer, sequence: int, offset: int) { sequence == t.nextIndex && offset == t.received }

  /** The sender ignored the offset of a resume and began at zero. */
  predicate StartsOver(t: Transfer, sequence: int, offset: int) {
    t.resumeOffset > 0 && !t.firstSeen && sequence == 0 && offset == 0
  }

  /** A chunk is kept if it is the one expected, or starts a resume over; if it fits the size;
      and if the disk takes it. */
  predicate Keeps(t: Transfer, sequence: int, offset: int, data: seq<byte>, env: IoEnv) {
    && env.writeOk
    && if InOrder(t, sequence, offset) then t.received + |data| <= t.size
       else StartsOver(t, sequence, offset) && env.truncateOk && |data| <= t.size
  }

  /** The bytes that are there, or none if the chunk starts over. */
  function Base(files: Files, t: Transfer, sequence: int, offset: int): seq<byte>
    requires IsBlob(files, PartOf(t))
  {
    if InOrder(t, sequence, offset) then files[PartOf(t)].bytes else []
  }

  /** After a chunk that was kept: the bytes are `base` and the chunk, and the next chunk is
      expected where they end. The terms of the transfer are as before; nothing is sent. */
  predicate Kept(s: State, s': State, tid: string, base: seq<byte>, index: nat, data: seq<byte>)
    requires tid in s.incoming
  {
    var t := s.incoming[tid];
    && tid in s'.incoming && s'.sent == s.sent
    && IsBlob(s'.files, PartOf(t)) && s'.files[PartOf(t)].bytes == base + data
    && var t' := s'.incoming[tid];
       && t'.received == |base + data| && t'.nextIndex == index + 1 && t'.firstSeen && t'.state == Receiving
       && t'.dest == t.dest && t'.addr == t.addr && t'.peer == t.peer
       && t'.filename == t.filename && t'.size == t.size && t'.checksum == t.checksum
  }

  /** After one that was not: transfer, part file and sidecar are gone, and the peer is told. */
  predicate Dropped(s: State, s': State, tid: string)
    requires tid in s.incoming
  {
    && tid !in s'.incoming && s'.sent == s.sent + [Ack(tid, false)]
    && PartOf(s.incoming[tid]) !in s'.files && MetaOf(s.incoming[tid]) !in s'.files
  }

  lemma StoringKeeps(s: State, tid: string, t: Transfer, files: Files, data: seq<byte>, env: IoEnv)
    requires tid in s.incoming && IsBlob(files, PartOf(t)) && t.received == |files[PartOf(t)].bytes|
    requires t.firstSeen && t.state == Receiving
    requires var u := s.incoming[tid];
             && t.dest == u.dest && t.addr == u.addr && t.peer == u.peer
             && t.filename == u.filename && t.size == u.size && t.checksum == u.checksum
    ensures Kept(s, StoreChunk(s.(files := files), tid, t, data, env), tid, files[PartOf(t)].bytes, t.nextIndex, data)
  {
    KeptBytes(files, t, data, env);
  }

  lemma KeptBytes(files: Files, t: Transfer, data: seq<byte>, env: IoEnv)
    requires IsBlob(files, PartOf(t))
    ensures var files' := StoredFiles(files, t, data, env);
            IsBlob(files', PartOf(t)) && files'[PartOf(t)].bytes == files[PartOf(t)].bytes + data
  {
    CompanionsAreInjective(t.dest, t.dest);
  }

  lemma InOrderOutcome(w: World, s: State, tid: string, sequence: int, offset: int, data: seq<byte>, env: IoEnv)
    requires Inv(w, s) && tid in s.incoming && InOrder(s.incoming[tid], sequence, offset)
    ensures var t := s.incoming[tid];
            var s' := Step(w, s, ChunkArrives(tid, sequence, offset, data, env));
            if Keeps(t, sequence, offset, data, env) then Kept(s, s', tid, s.files[PartOf(t)].bytes, t.nextIndex, data)
            else Dropped(s, s', tid)
  {
    var t := s.incoming[tid];
    assert Healthy(s.files, t);
    if Keeps(t, sequence, offset, data, env) {
      StoringKeeps(s, tid, t.(firstSeen := true, state := Receiving), s.files, data, env);
      assert s.(files := s.files) == s;
    }
  }

  lemma OutOfOrderOutcome(w: World, s: State, tid: string, sequence: int, offset: int, data: seq<byte>, env: IoEnv)
    requires Inv(w, s) && tid in s.incoming && !InOrder(s.incoming[tid], sequence, offset)
    ensures var t := s.incoming[tid];
            var s' := Step(w, s, ChunkArrives(tid, sequence, offset, data, env));
            if Keeps(t, sequence, offset, data, env) then Kept(s, s', tid, [], 0, data) else Dropped(s, s', tid)
  {
    var t := s.incoming[tid];
    assert Healthy(s.files, t);
    if Keeps(t, sequence, offset, data, env) {
      RestartKeeps(s.files, t, env);
      StoringKeeps(s, tid, Restarted(t), RestartFiles(s.files, t, env), data, env);
    }
  }

  lemma ChunkLeavesOthers(s: State, tid: string, sequence: int, offset: int, data: seq<byte>, env: IoEnv)
    ensures HandleChunk(s, tid, sequence, offset, data, env).incoming - {tid} == s.incoming - {tid}
  {
  }

  /** What became of the chunk. */
  predicate Outcome(s: State, s': State, tid: string, sequence: int, offset: int, data: seq<byte>, env: IoEnv)
    requires tid in s.incoming && IsBlob(s.files, PartOf(s.incoming[tid]))
  {
    var t := s.incoming[tid];
    if Keeps(t, sequence, offset, data, env)
    then Kept(s, s', tid, Base(s.files, t, sequence, offset),
              if InOrder(t, sequence, offset) then t.nextIndex else 0, data)
    else Dropped(s, s', tid)
  }

  /** For every state and every chunk: the transfer goes on exactly with a chunk that is kept,
      and otherwise it is dropped. No other transfer changes, and no other file. */
  lemma ChunkIsKeptIff(w: World, s: State, tid: string, sequence: int, offset: int, data: seq<byte>, env: IoEnv)
    requires Inv(w, s) && tid in s.incoming
    ensures var s' := Step(w, s, ChunkArrives(tid, sequence, offset, data, env));
            && IsBlob(s.files, PartOf(s.incoming[tid])) && Outcome(s, s', tid, sequence, offset, data, env)
            && s'.incoming - {tid} == s.incoming - {tid} && OnlyTouches(s.files, s'.files, s.incoming[tid].dest)
  {
    assert Healthy(s.files, s.incoming[tid]);
    ChunkKeepsInv(w, s, tid, sequence, offset, data, env);
    ChunkLeavesOthers(s, tid, sequence, offset, data, env);
    if InOrder(s.incoming[tid], sequence, offset) {
      InOrderOutcome(w, s, tid, sequence, offset, data, env);
    } else {
      OutOfOrderOutcome(w, s, tid, sequence, offset, data, env);
    }
  }

  // ---- where the bytes of a chunk stay ---------------------------------------------------

  /** The part file of t is as it was. */
  predicate SamePart(files: Files, files': Files, t: Transfer) {
    PartOf(t) in files && PartOf(t) in files' && files'[PartOf(t)] == files[PartOf(t)]
  }

  lemma ConfinedLeavesPart(files: Files, files': Files, d: string, t: Transfer)
    requires OnlyTouches(files, files', d) && Plain(d) && t.dest != d && Healthy(files, t)
    ensures SamePart(files, files', t)
  {
    CompanionsAreInjective(d, t.dest);
    CompanionsAreInjective(t.dest, d);
    CompanionsAreNotPlain(t.dest);
  }

  lemma DiscardLeavesPart(files: Files, d: string, t: Transfer)
    requires d != t.dest && PartOf(t) in files
    ensures SamePart(files, Discard(files, d), t)
  {
    CompanionsAreInjective(d, t.dest);
    CompanionsAreInjective(t.dest, d);
  }

  lemma PlanLeavesPart(w: World, s: State, o: Offer, env: OfferEnv, id: string)
    requires Inv(w, s) && id in s.incoming
    ensures SamePart(s.files, PlanOffer(w, s.files, s.incoming, o, env).files, s.incoming[id])
  {
    var t := s.incoming[id];
    assert Healthy(s.files, t);
    var found := FoundPartial(s.files, o, env);
    if found.Some? && !Holds(s.incoming, found.value.destName) {
      NotHeldMeansDifferent(s.incoming, found.value.destName, id);
      DiscardLeavesPart(s.files, found.value.destName, t);
    }
  }

  lemma ConcludeLeavesPart(w: World, s: State, o: Offer, env: OfferEnv, plan: Plan, id: string)
    requires GoodPlan(w, s, o, plan) && id in s.incoming
    ensures SamePart(plan.files, Conclude(s, o, env, plan).files, s.incoming[id])
  {
    var t := s.incoming[id];
    assert Healthy(plan.files, t);
    if plan.Planned? {
      NotHeldMeansDifferent(s.incoming, plan.dest, id);
      DiscardLeavesPart(plan.files, plan.dest, t);
      if env.spaceOk && env.accept {
        var start := if env.openOk then plan.offset else 0;
        AcceptedFilesKeep(w, s.(files := plan.files), o, env, plan.dest, start);
        ConfinedLeavesPart(plan.files, AcceptedFiles(plan.files, o, env, plan.dest, start), plan.dest, t);
      }
    }
  }

  lemma OfferLeavesPart(w: World, s: State, o: Offer, env: OfferEnv, id: string)
    requires Inv(w, s) && Admissible(w, s, OfferArrives(o, env)) && id in s.incoming
    ensures SamePart(s.files, HandleOffer(w, s, o, env).files, s.incoming[id])
  {
    var swept := s.(files := Swept(s.files, env.now));
    SweepKeepsInv(w, s, env.now);
    assert Healthy(swept.files, s.incoming[id]);
    PlanLeavesPart(w, swept, o, env, id);
    PlanIsSafe(w, swept, o, env);
    ConcludeLeavesPart(w, s, o, env, PlanOffer(w, swept.files, s.incoming, o, env), id);
  }

  /** The transfer goes on, and its part file with it. */
  predicate GoesOn(s: State, s': State, tid: string) {
    && tid in s.incoming && tid in s'.incoming && s'.incoming[tid].dest == s.incoming[tid].dest
    && s'.incoming[tid].firstSeen
    && IsBlob(s.files, PartOf(s.incoming[tid])) && IsBlob(s'.files, PartOf(s.incoming[tid]))
    && s.files[PartOf(s.incoming[tid])].bytes <= s'.files[PartOf(s.incoming[tid])].bytes
  }

  lemma OthersLeavePart(w: World, s: State, e: Event, tid: string)
    requires Inv(w, s) && tid in s.incoming && (e.ChunkArrives? || e.DoneArrives? || e.Stops?) && e.tid != tid
    ensures SamePart(s.files, Step(w, s, e).files, s.incoming[tid])
    ensures tid in Step(w, s, e).incoming && Step(w, s, e).incoming[tid] == s.incoming[tid]
  {
    assert Healthy(s.files, s.incoming[tid]);
    OthersLeaveTransfer(w, s, e);
    assert tid in Step(w, s, e).incoming - {e.tid};
    if e.tid in s.incoming {
      assert Healthy(s.files, s.incoming[e.tid]);
      StepIsConfined(w, s, e);
      ConfinedLeavesPart(s.files, Step(w, s, e).files, s.incoming[e.tid].dest, s.incoming[tid]);
    }
  }

  lemma OthersLeaveTransfer(w: World, s: State, e: Event)
    requires e.ChunkArrives? || e.DoneArrives? || e.Stops?
    ensures Step(w, s, e).incoming - {e.tid} == s.incoming - {e.tid}
    ensures e.tid !in s.incoming ==> Step(w, s, e) == s
  {
    if e.ChunkArrives? { ChunkLeavesOthers(s, e.tid, e.sequence, e.offset, e.data, e.env); }
  }

  lemma StepIsConfined(w: World, s: State, e: Event)
    requires Inv(w, s) && (e.ChunkArrives? || e.DoneArrives? || e.Stops?) && e.tid in s.incoming
    ensures OnlyTouches(s.files, Step(w, s, e).files, s.incoming[e.tid].dest)
  {
    match e {
      case ChunkArrives(_, sequence, offset, data, env) => ChunkKeepsInv(w, s, e.tid, sequence, offset, data, env);
      case DoneArrives(_, renameOk) => DoneKeepsInv(w, s, e.tid, renameOk);
      case Stops(_, env) => StopKeepsInv(w, s, e.tid, env);
    }
  }

  /** A transfer that has had its first chunk only ever grows, as long as it goes on. */
  lemma StepGoesOn(w: World, s: State, e: Event, tid: string)
    requires Inv(w, s) && Admissible(w, s, e) && tid in s.incoming && s.incoming[tid].firstSeen
    requires tid in Step(w, s, e).incoming && !(e.OfferArrives? && e.offer.tid == tid)
    ensures GoesOn(s, Step(w, s, e), tid)
  {
    var t := s.incoming[tid];
    assert Healthy(s.files, t);
    match e {
      case OfferArrives(o, env) => OfferLeavesPart(w, s, o, env, tid);
      case Crashes(_, _) =>
      case ChunkArrives(_, sequence, offset, data, env) =>
        if e.tid == tid {
          ChunkIsKeptIff(w, s, tid, sequence, offset, data, env);
          assert InOrder(t, sequence, offset);
        } else {
          OthersLeavePart(w, s, e, tid);
        }
      case _ => if e.tid != tid { OthersLeavePart(w, s, e, tid); }
    }
  }

  predicate LiesAt(bytes: seq<byte>, from: int, data: seq<byte>) {
    0 <= from && from + |data| <= |bytes| && bytes[from..from + |data|] == data
  }

  /** The transfer has had its first chunk, and the data lie in its part file. */
  predicate Holding(s: State, tid: string, from: int, data: seq<byte>) {
    && tid in s.incoming && s.incoming[tid].firstSeen && IsBlob(s.files, PartOf(s.incoming[tid]))
    && LiesAt(s.files[PartOf(s.incoming[tid])].bytes, from, data)
  }

  lemma KeptIsHeld(w: World, s: State, e: Event)
    requires Inv(w, s) && e.ChunkArrives? && e.tid in s.incoming && e.tid in Step(w, s, e).incoming
    ensures Holding(Step(w, s, e), e.tid, e.offset, e.data)
  {
    ChunkIsKeptIff(w, s, e.tid, e.sequence, e.offset, e.data, e.env);
    var t := s.incoming[e.tid];
    assert Healthy(s.files, t);
    var base := Base(s.files, t, e.sequence, e.offset);
    assert (base + e.data)[|base|..] == e.data && e.offset == |base|;
  }

  lemma HeldStays(s: State, s': State, tid: string, from: int, data: seq<byte>)
    requires Holding(s, tid, from, data) && GoesOn(s, s', tid)
    ensures Holding(s', tid, from, data)
  {
    var part := PartOf(s.incoming[tid]);
    var b, b' := s.files[part].bytes, s'.files[part].bytes;
    assert b'[from..from + |data|] == b'[..|b|][from..from + |data|];
  }

  /** A chunk for the transfer arrives at i, and the transfer goes on from there to the end. */
  predicate GoesOnFrom(w: World, s: State, events: seq<Event>, i: nat, tid: string) {
    && i < |events| && events[i].ChunkArrives? && events[i].tid == tid
    && tid in Run(w, s, events).incoming && tid in Run(w, s, events[..|events| - 1]).incoming
    && var last := events[|events| - 1];
       i == |events| - 1
       || (!(last.OfferArrives? && last.offer.tid == tid) && GoesOnFrom(w, s, events[..|events| - 1], i, tid))
  }

  /** Over any run: whatever else arrives, the bytes of a chunk that was kept lie in the part
      file at the offset the chunk carried, for as long as the transfer goes on. */
  lemma {:induction false} ChunkStaysWhereItBelongs(w: World, s: State, events: seq<Event>, i: nat, tid: string)
    requires Inv(w, s) && AdmissibleRun(w, s, events) && GoesOnFrom(w, s, events, i, tid)
    ensures Holding(Run(w, s, events), tid, events[i].offset, events[i].data)
    decreases |events|
  {
    var front, e := events[..|events| - 1], events[|events| - 1];
    RunKeepsInv(w, s, front);
    var u := Run(w, s, front);
    if i == |events| - 1 {
      KeptIsHeld(w, u, e);
    } else {
      ChunkStaysWhereItBelongs(w, s, front, i, tid);
      StepGoesOn(w, u, e, tid);
      HeldStays(u, Step(w, u, e), tid, events[i].offset, events[i].data);
    }
  }

  // ---- offers ---------------------------------------------------------------------------

  predicate AnyHas(incoming: map<string, Transfer>, dest: string) {
    exists id :: id in incoming && incoming[id].dest == dest
  }

  lemma HoldsIffHas(incoming: map<string, Transfer>, dest: string)
    ensures Holds(incoming, dest) <==> AnyHas(incoming, dest)
  {
    forall id | id in incoming ensures PartOf(incoming[id]) == PartName(dest) <==> incoming[id].dest == dest {
      CompanionsAreInjective(incoming[id].dest, dest);
    }
  }

  /** The newest partial in the directory with the authenticated peer, name, size and checksum
      of the offer. */
  function Left(files: Files, o: Offer, env: OfferEnv): Option<Record> {
    if env.peer == "" then None else Best(files, env.listing, Key(env.peer, o.filename, o.size, o.checksum))
  }

  /** It can be gone on with: it has a whole chunk, and its name is still to be had. */
  predicate Usable(w: World, files: Files, r: Record)
    requires WellFormed(r)
  {
    && ResumeOffset(files, r) > 0 && r.destName !in files
    && w.sanitize(r.destName) == Some(r.destName)
  }

  /** The name of a partial is settled on again only if the sanitizer passes it and nothing has
      that name; where the sanitizer leaves it alone, exactly then. */
  lemma ReusableIffUsable(w: World, files: Files, r: Record)
    requires WellFormed(r)
    ensures Reusable(w, files, r) ==> ResumeOffset(files, r) > 0 && r.destName !in files && w.sanitize(r.destName).Some?
    ensures w.sanitize(r.destName) == Some(r.destName) ==> (Reusable(w, files, r) <==> Usable(w, files, r))
  {
    DestinationKeepsFreeName(files.Keys, r.destName, true);
  }

  /** What an offer is refused for. */
  predicate Refuses(w: World, s: State, files: Files, o: Offer, env: OfferEnv) {
    || o.size > 2 * 1024 * 1024 * 1024
    || (exists id :: id in s.incoming && s.incoming[id].addr == o.addr && s.incoming[id].filename == o.filename)
    || (Left(files, o, env).Some? && AnyHas(s.incoming, Left(files, o, env).value.destName))
    || (!GoesOnWith(w, files, o, env) && NoPlace(w, s, WithoutLeft(files, o, env), o))
    || !env.spaceOk || !env.accept
  }

  predicate GoesOnWith(w: World, files: Files, o: Offer, env: OfferEnv) {
    Left(files, o, env).Some? && Reusable(w, files, Left(files, o, env).value)
  }

  /** The directory without a partial that cannot be gone on with. */
  function WithoutLeft(files: Files, o: Offer, env: OfferEnv): Files {
    if Left(files, o, env).Some? then Discard(files, Left(files, o, env).value.destName) else files
  }

  /** The name cannot be used, or what it would become is another transfer's. */
  predicate NoPlace(w: World, s: State, files: Files, o: Offer) {
    w.sanitize(o.filename).None? || AnyHas(s.incoming, Destination(files.Keys, w.sanitize(o.filename).value, false))
  }

  /** A new transfer on the terms of the offer, from `start` on, at `d`. */
  predicate Begun(t: Transfer, o: Offer, env: OfferEnv, d: string, start: nat) {
    && t.addr == o.addr && t.filename == o.filename && t.size == o.size && t.checksum == o.checksum
    && t.peer == env.peer && t.dest == d && t.received == start && t.nextIndex == start / CHUNK_SIZE
    && t.resumeOffset == start && t.lastCommitted == start && (t.firstSeen <==> start == 0) && t.state == Accepted
  }

  /** The destination: that of the partial gone on with, or the first free candidate. */
  function SettledOn(w: World, files: Files, o: Offer, env: OfferEnv): string {
    if GoesOnWith(w, files, o, env) then Left(files, o, env).value.destName
    else if w.sanitize(o.filename).Some?
    then Destination(WithoutLeft(files, o, env).Keys, w.sanitize(o.filename).value, false) else ""
  }

  /** Where it starts: at the offset of the partial gone on with, or at zero. */
  function OffsetOf(w: World, files: Files, o: Offer, env: OfferEnv): nat {
    if GoesOnWith(w, files, o, env) then ResumeOffset(files, Left(files, o, env).value) else 0
  }

  lemma PlanIffNotRefused(w: World, s: State, files: Files, o: Offer, env: OfferEnv)
    ensures var plan := PlanOffer(w, files, s.incoming, o, env);
            && (Refuses(w, s, files, o, env) <==> !plan.Planned? || !env.spaceOk || !env.accept)
            && (plan.Planned? ==> plan.dest == SettledOn(w, files, o, env) && plan.offset == OffsetOf(w, files, o, env))
  {
    var left := Left(files, o, env);
    if left.Some? { HoldsIffHas(s.incoming, left.value.destName); }
    var rest := WithoutLeft(files, o, env);
    if w.sanitize(o.filename).Some? {
      HoldsIffHas(s.incoming, Destination(rest.Keys, w.sanitize(o.filename).value, false));
    }
  }

  /** What answer an offer gets, and which transfer comes of it. */
  predicate Answered(s: State, s': State, o: Offer, env: OfferEnv, accepts: bool, d: string, offset: nat) {
    if !accepts then s'.sent == s.sent + [Reject(o.tid)] && s'.incoming == s.incoming
    else
      var start := if env.openOk then offset else 0;
      && s'.sent == s.sent + [Accept(o.tid, start)] && s'.incoming - {o.tid} == s.incoming - {o.tid}
      && o.tid in s'.incoming && Begun(s'.incoming[o.tid], o, env, d, start)
  }

  lemma ConcludeAnswers(s: State, o: Offer, env: OfferEnv, plan: Plan)
    ensures var accepts := plan.Planned? && env.spaceOk && env.accept;
            Answered(s, Conclude(s, o, env, plan), o, env, accepts, if plan.Planned? then plan.dest else "",
                     if plan.Planned? then plan.offset else 0)
  {
  }

  /** An offer is answered with an accept exactly if nothing speaks against it. Then a transfer on
      its terms is registered, in place of any with its id: from the offset of the partial that
      is gone on with, if the file could be opened, and else from zero. Otherwise the answer is
      a reject and no transfer changes. */
  lemma OfferIsAcceptedIff(w: World, s: State, o: Offer, env: OfferEnv)
    ensures var files := Swept(s.files, env.now);
            Answered(s, Step(w, s, OfferArrives(o, env)), o, env, !Refuses(w, s, files, o, env),
                     SettledOn(w, files, o, env), OffsetOf(w, files, o, env))
  {
    var files := Swept(s.files, env.now);
    PlanIffNotRefused(w, s, files, o, env);
    ConcludeAnswers(s, o, env, PlanOffer(w, files, s.incoming, o, env));
  }

  /** What an offer does to the directory after the sweep. Accepted, its part file has the bytes
      it goes on with and no others; refused by the user, the partial it would have gone on with
      is gone; a partial that could not be gone on with is gone in any case. Nothing else
      changes but the sidecar of the transfer. */
  lemma OfferOnDisk(w: World, s: State, o: Offer, env: OfferEnv)
    requires Inv(w, s) && Admissible(w, s, OfferArrives(o, env))
    ensures var files, files' := Swept(s.files, env.now), Step(w, s, OfferArrives(o, env)).files;
            var d := SettledOn(w, files, o, env);
            var start := if env.openOk then OffsetOf(w, files, o, env) else 0;
            && (!Refuses(w, s, files, o, env) ==>
                  && d !in files' && IsBlob(files', PartName(d)) && |files'[PartName(d)].bytes| == start
                  && (start > 0 ==>
                        IsBlob(files, PartName(d)) && files'[PartName(d)].bytes <= files[PartName(d)].bytes))
            && (Refuses(w, s, files, o, env) ==> forall n :: n in files' ==> n in files && files'[n] == files[n])
  {
    var swept := s.(files := Swept(s.files, env.now));
    SweepKeepsInv(w, s, env.now);
    PlanIsSafe(w, swept, o, env);
    PlanIffNotRefused(w, s, swept.files, o, env);
    var plan := PlanOffer(w, swept.files, s.incoming, o, env);
    if plan.Planned? && env.spaceOk && env.accept {
      AcceptedFilesKeep(w, s.(files := plan.files), o, env, plan.dest, if env.openOk then plan.offset else 0);
      CompanionsAreNotPlain(plan.dest);
    }
  }

  // ---- sidecars -------------------------------------------------------------------------

  /** The record speaks for the transfer: its terms, one of the two peers it is known by, and a
      count of whole chunks that have been received. */
  predicate SpeaksFor(r: Record, t: Transfer, peer: string, now: real) {
    && r.filename == t.filename && r.size == t.size && r.checksum == t.checksum && r.destName == t.dest
    && (r.peer == t.peer || r.peer == peer) && r.peer != "" && r.updatedAt == Clock.At(now)
    && r.committed % CHUNK_SIZE == 0 && 0 <= r.committed <= t.received
  }

  /** Whatever sidecar is there afterwards was there before, just so, or speaks for t. */
  ghost predicate OnlyNews(files: Files, files': Files, t: Transfer, peer: string, now: real) {
    forall n :: n in files' && files'[n].Sidecar? ==>
      (n in files && files'[n] == files[n]) || (n == MetaOf(t) && SpeaksFor(files'[n].rec, t, peer, now))
  }

  lemma StopWritesNews(files: Files, t: Transfer, env: IoEnv)
    ensures OnlyNews(files, StopFiles(files, t, env), t, env.peer, env.now)
  {
  }

  /** A stop keeps the bytes of the partial, and syncs them if it can. */
  lemma StopKeepsBytes(files: Files, t: Transfer, env: IoEnv)
    requires IsBlob(files, PartOf(t))
    ensures var b := StopFiles(files, t, env);
            && IsBlob(b, PartOf(t)) && b[PartOf(t)].bytes == files[PartOf(t)].bytes
            && b[PartOf(t)].synced == (if env.syncOk then |files[PartOf(t)].bytes| else files[PartOf(t)].synced)
            && (env.metaOk && WellFormed(RecordFor(t, FirstPeer(t, env), RoundDown(t.received), env.now)) ==>
                  && ReadMeta(b, MetaOf(t)).Some? && t.received - CHUNK_SIZE < b[MetaOf(t)].rec.committed <= t.received
                  && b[MetaOf(t)].rec.peer == if t.peer != "" then t.peer else env.peer)
  {
    CompanionsAreInjective(t.dest, t.dest);
  }

  /** Stopping a transfer removes it, leaves all others, and sends nothing. */
  lemma StopsOne(w: World, s: State, tid: string, env: IoEnv)
    ensures var s' := Step(w, s, Stops(tid, env));
            && s'.incoming == s.incoming - {tid} && s'.sent == s.sent
            && (tid in s.incoming ==> OnlyNews(s.files, s'.files, s.incoming[tid], env.peer, env.now))
  {
    if tid in s.incoming { StopWritesNews(s.files, s.incoming[tid], env); }
  }

  lemma StoreWritesNews(files: Files, t: Transfer, data: seq<byte>, env: IoEnv)
    ensures OnlyNews(files, StoredFiles(files, t, data, env), Advanced(t, |data|), env.peer, env.now)
  {
  }

  lemma RestartWritesNews(files: Files, t: Transfer, env: IoEnv)
    ensures OnlyNews(files, RestartFiles(files, t, env), t, env.peer, env.now)
  {
  }

  /** Whatever chunk arrives for a transfer, a sidecar it leaves that was not there just so
      speaks for the transfer. */
  lemma ChunkWritesNews(w: World, s: State, tid: string, sequence: int, offset: int, data: seq<byte>, env: IoEnv)
    requires tid in s.incoming
    ensures var t := s.incoming[tid];
            var s' := Step(w, s, ChunkArrives(tid, sequence, offset, data, env));
            OnlyNews(s.files, s'.files, t.(received := t.received + |data|), env.peer, env.now)
  {
    var t := s.incoming[tid];
    if IsRestart(t, sequence, offset) {
      RestartThenStoreWritesNews(s.files, t, data, env);
    } else {
      StoreWritesNews(s.files, t.(firstSeen := true, state := Receiving), data, env);
    }
  }

  lemma RestartThenStoreWritesNews(files: Files, t: Transfer, data: seq<byte>, env: IoEnv)
    ensures var files' := StoredFiles(RestartFiles(files, t, env), Restarted(t), data, env);
            OnlyNews(files, files', t.(received := t.received + |data|), env.peer, env.now)
  {
    RestartWritesNews(files, t, env);
    StoreWritesNews(RestartFiles(files, t, env), Restarted(t), data, env);
  }

  /** And so with an offer that is accepted. */
  lemma OfferWritesNews(w: World, s: State, o: Offer, env: OfferEnv)
    ensures var files, s' := Swept(s.files, env.now), Step(w, s, OfferArrives(o, env));
            if Refuses(w, s, files, o, env)
            then forall n :: n in s'.files && s'.files[n].Sidecar? ==> n in files && s'.files[n] == files[n]
            else o.tid in s'.incoming && OnlyNews(files, s'.files, s'.incoming[o.tid], env.peer, env.now)
  {
    var files := Swept(s.files, env.now);
    PlanIffNotRefused(w, s, files, o, env);
    var plan := PlanOffer(w, files, s.incoming, o, env);
    if plan.Planned? && env.spaceOk && env.accept {
      AcceptWritesNews(plan.files, o, env, plan.dest, if env.openOk then plan.offset else 0);
    }
  }

  lemma AcceptWritesNews(files: Files, o: Offer, env: OfferEnv, d: string, start: nat)
    requires start % CHUNK_SIZE == 0
    ensures OnlyNews(files, AcceptedFiles(files, o, env, d, start), NewTransfer(o, env, d, start), env.peer, env.now)
  {
  }
}
