/** The receiving half of a file-transfer session as a step system: the downloads directory,
    the active incoming transfers, and what every message, disconnect and crash does to them. */
module Session {
  import opened Bytes
  import opened Names
  import opened Partial
  import opened TransferState
  import Chunker
  import Clock

  const CHUNK_SIZE: nat := Chunker.CHUNK_SIZE

  datatype Transfer = Transfer(addr: string, filename: string, size: nat, checksum: string, dest: string,
                               peer: string, received: nat, nextIndex: nat, resumeOffset: nat,
                               lastCommitted: nat, firstSeen: bool, state: Incoming)

  function PartOf(t: Transfer): string { PartName(t.dest) }
  function MetaOf(t: Transfer): string { MetaName(t.dest) }

  function RecordFor(t: Transfer, peer: string, committed: nat, now: real): Record {
    Record(peer, t.filename, t.size, t.checksum, t.dest, committed, Clock.At(now))
  }

  datatype Reply = Accept(tid: string, offset: nat) | Reject(tid: string) | Ack(tid: string, success: bool)

  /** A transfer the receiver verified and delivered. */
  datatype Receipt = Receipt(tid: string, size: nat, checksum: string, dest: string)

  /** `verified` remembers every delivery ever made, `intact` those made since the last crash. */
  datatype State = State(files: Files, incoming: map<string, Transfer>, sent: seq<Reply>,
                         verified: set<Receipt>, intact: set<Receipt>)

  /** Supplied from outside: the file-name sanitizer and the hash. */
  datatype World = World(sanitize: string -> Option<string>, hash: seq<byte> -> string)

  datatype Offer = Offer(tid: string, addr: string, filename: string, size: nat, checksum: string)

  /** What the environment answers while an offer is handled: the authenticated peer ("" if
      there is none), the clock, the directory listing, whether there is disk space, whether
      the user accepts, and whether opening the part file and writing the sidecar succeed. */
  datatype OfferEnv = OfferEnv(peer: string, now: real, listing: seq<string>, spaceOk: bool,
                               accept: bool, openOk: bool, metaOk: bool)

  /** The same for a chunk, a disconnect or a peer error: the peer currently registered for the
      address, the clock, and which file operations succeed. */
  datatype IoEnv = IoEnv(peer: string, now: real, truncateOk: bool, writeOk: bool, syncOk: bool, metaOk: bool)

  // ---- _handle_offer ------------------------------------------------------

  predicate Busy(incoming: map<string, Transfer>, addr: string, filename: string) {
    exists id :: id in incoming && incoming[id].addr == addr && incoming[id].filename == filename
  }

  predicate Holds(incoming: map<string, Transfer>, dest: string) {
    exists id :: id in incoming && (PartOf(incoming[id]) == PartName(dest) || incoming[id].dest == dest)
  }

  datatype Plan = Refused(files: Files) | Planned(files: Files, dest: string, offset: nat)

  function OfferKey(o: Offer, env: OfferEnv): Key { Key(env.peer, o.filename, o.size, o.checksum) }

  function FoundPartial(files: Files, o: Offer, env: OfferEnv): Option<Record> {
    if env.peer == "" then None else Best(files, env.listing, OfferKey(o, env))
  }

  /** The recorded destination is used again only if it survives sanitizing and nothing is there. */
  predicate Reusable(w: World, files: Files, r: Record)
    requires WellFormed(r)
  {
    && ResumeOffset(files, r) > 0
    && w.sanitize(r.destName).Some?
    && Destination(files.Keys, w.sanitize(r.destName).value, true) == r.destName
  }

  function PlanOffer(w: World, files: Files, incoming: map<string, Transfer>, o: Offer, env: OfferEnv): Plan {
    if o.size > Chunker.MAX_INCOMING_FILE_SIZE || Busy(incoming, o.addr, o.filename) then Refused(files)
    else
      var found := FoundPartial(files, o, env);
      if found.Some? && Holds(incoming, found.value.destName) then Refused(files)
      else if found.Some? && Reusable(w, files, found.value) then
        Planned(files, found.value.destName, ResumeOffset(files, found.value))
      else PlanFresh(w, if found.Some? then Discard(files, found.value.destName) else files, incoming, o)
  }

  function PlanFresh(w: World, files: Files, incoming: map<string, Transfer>, o: Offer): Plan {
    match w.sanitize(o.filename)
    case None => Refused(files)
    case Some(name) =>
      var dest := Destination(files.Keys, name, false);
      if Holds(incoming, dest) then Refused(files) else Planned(files, dest, 0)
  }

  function Opened(files: Files, dest: string, start: nat): Files {
    if start > 0 then Truncate(files, PartName(dest), start)
    else Discard(files, dest)[PartName(dest) := Blob([], 0)]
  }

  function NewTransfer(o: Offer, env: OfferEnv, dest: string, start: nat): Transfer {
    Transfer(o.addr, o.filename, o.size, o.checksum, dest, env.peer, start, start / CHUNK_SIZE, start, start,
             start == 0, Accepted)
  }

  function AcceptedFiles(files: Files, o: Offer, env: OfferEnv, d: string, start: nat): Files {
    var onDisk := Opened(files, d, start);
    if env.peer != ""
    then WriteMeta(onDisk, RecordFor(NewTransfer(o, env, d, start), env.peer, start, env.now), env.metaOk)
    else onDisk
  }

  /** What remains to be done once the destination is settled. */
  function Conclude(s: State, o: Offer, env: OfferEnv, plan: Plan): State {
    match plan
    case Refused(files) => s.(files := files, sent := s.sent + [Reject(o.tid)])
    case Planned(files, dest, offset) =>
      if !env.spaceOk then s.(files := files, sent := s.sent + [Reject(o.tid)])
      else if !env.accept then
        s.(files := if offset > 0 then Discard(files, dest) else files, sent := s.sent + [Reject(o.tid)])
      else
        var start := if env.openOk then offset else 0;
        s.(files := AcceptedFiles(files, o, env, dest, start),
           incoming := s.incoming[o.tid := NewTransfer(o, env, dest, start)],
           sent := s.sent + [Accept(o.tid, start)])
  }

  function HandleOffer(w: World, s: State, o: Offer, env: OfferEnv): State {
    Conclude(s, o, env, PlanOffer(w, Swept(s.files, env.now), s.incoming, o, env))
  }

  // ---- _handle_chunk -----------------------------------------------------

  function AbortIncoming(s: State, tid: string): State
    requires tid in s.incoming
  {
    var t := s.incoming[tid];
    s.(files := Discard(s.files, t.dest) - {t.dest}, incoming := s.incoming - {tid}, sent := s.sent + [Ack(tid, false)])
  }

  /** A resumed transfer whose first chunk starts over at zero. */
  predicate IsRestart(t: Transfer, sequence: int, offset: int) {
    && t.resumeOffset > 0 && !t.firstSeen
    && !(sequence == t.nextIndex && offset == t.received)
    && sequence == 0 && offset == 0
  }

  function Restarted(t: Transfer): Transfer {
    t.(received := 0, nextIndex := 0, resumeOffset := 0, lastCommitted := 0, firstSeen := true, state := Receiving)
  }

  function RestartFiles(files: Files, t: Transfer, env: IoEnv): Files {
    var truncated := Truncate(files, PartOf(t), 0);
    if env.peer != "" then WriteMeta(truncated, RecordFor(t, env.peer, 0, env.now), env.metaOk) else truncated
  }

  function FirstPeer(t: Transfer, env: IoEnv): string { if t.peer != "" then t.peer else env.peer }

  /** _checkpoint_incoming: fsync, then record; nothing is recorded if the fsync fails. */
  function CheckpointFiles(files: Files, t: Transfer, env: IoEnv): Files {
    if FirstPeer(t, env) == "" || !env.syncOk then files
    else WriteMeta(Fsync(files, PartOf(t)), RecordFor(t, FirstPeer(t, env), RoundDown(t.received), env.now), env.metaOk)
  }

  function CheckpointTransfer(t: Transfer, env: IoEnv): Transfer {
    if FirstPeer(t, env) == "" || !env.syncOk then t else t.(lastCommitted := RoundDown(t.received))
  }

  function Advanced(t: Transfer, n: nat): Transfer {
    t.(received := t.received + n, nextIndex := t.nextIndex + 1)
  }

  predicate DueForCheckpoint(t: Transfer) { t.received - t.lastCommitted >= COMMIT_INTERVAL }

  function StoredFiles(files: Files, t: Transfer, data: seq<byte>, env: IoEnv): Files {
    var written := Append(files, PartOf(t), data);
    var t' := Advanced(t, |data|);
    if DueForCheckpoint(t') then CheckpointFiles(written, t', env) else written
  }

  function StoredTransfer(t: Transfer, n: nat, env: IoEnv): Transfer {
    var t' := Advanced(t, n);
    if DueForCheckpoint(t') then CheckpointTransfer(t', env) else t'
  }

  /** Writing an in-order chunk, with a checkpoint once enough has arrived. */
  function StoreChunk(s: State, tid: string, t: Transfer, data: seq<byte>, env: IoEnv): State {
    s.(files := StoredFiles(s.files, t, data, env), incoming := s.incoming[tid := StoredTransfer(t, |data|, env)])
  }

  function HandleChunk(s: State, tid: string, sequence: int, offset: int, data: seq<byte>, env: IoEnv): State {
    if tid !in s.incoming || Receiving !in IncomingTable(s.incoming[tid].state) then s
    else
      var t := s.incoming[tid];
      if IsRestart(t, sequence, offset) then
        if !env.truncateOk || |data| > t.size || !env.writeOk then AbortIncoming(s, tid)
        else
          StoreChunk(s.(files := RestartFiles(s.files, t, env)), tid, Restarted(t), data, env)
      else if sequence != t.nextIndex || offset != t.received then AbortIncoming(s, tid)
      else if t.received + |data| > t.size || !env.writeOk then AbortIncoming(s, tid)
      else StoreChunk(s, tid, t.(firstSeen := true, state := Receiving), data, env)
  }

  // ---- _handle_done ------------------------------------------------------

  predicate MayVerify(state: Incoming) {
    (state == Accepted && Receiving in IncomingTable(state)) || Verifying in IncomingTable(state)
  }

  predicate Verifies(w: World, files: Files, t: Transfer)
    requires IsBlob(files, PartOf(t))
  {
    w.hash(files[PartOf(t)].bytes) == t.checksum && t.received == t.size
  }

  function Delivered(files: Files, t: Transfer): Files
    requires IsBlob(files, PartOf(t))
  {
    Discard(files[t.dest := files[PartOf(t)]], t.dest)
  }

  /** The answer is sent before the rename, which may fail: then the partial stays. */
  function HandleDone(w: World, s: State, tid: string, renameOk: bool): State {
    if tid !in s.incoming || !MayVerify(s.incoming[tid].state) then s
    else
      var t := s.incoming[tid];
      var rest := s.(incoming := s.incoming - {tid});
      if !IsBlob(s.files, PartOf(t)) then rest
      else if !Verifies(w, s.files, t) then
        rest.(files := Discard(s.files, t.dest), sent := s.sent + [Ack(tid, false)])
      else if !renameOk then rest.(sent := s.sent + [Ack(tid, true)])
      else
        var r := Receipt(tid, t.size, t.checksum, t.dest);
        rest.(files := Delivered(s.files, t), sent := s.sent + [Ack(tid, true)],
              verified := s.verified + {r}, intact := s.intact + {r})
  }

  // ---- handle_connection_lost and _fail_incoming ---------------------------

  /** Both stop a transfer and keep its partial: the handle is flushed, and whether or not the
      fsync succeeded the sidecar is written. */
  function StopFiles(files: Files, t: Transfer, env: IoEnv): Files {
    var synced := if env.syncOk then Fsync(files, PartOf(t)) else files;
    if FirstPeer(t, env) != "" && PartOf(t) in synced
    then WriteMeta(synced, RecordFor(t, FirstPeer(t, env), RoundDown(t.received), env.now), env.metaOk)
    else synced
  }

  function StopIncoming(s: State, tid: string, env: IoEnv): State {
    if tid !in s.incoming then s
    else s.(files := StopFiles(s.files, s.incoming[tid], env), incoming := s.incoming - {tid})
  }

  // ---- runs ---------------------------------------------------------------

  datatype Event =
    | OfferArrives(offer: Offer, oenv: OfferEnv)
    | ChunkArrives(tid: string, sequence: int, offset: int, data: seq<byte>, env: IoEnv)
    | DoneArrives(tid: string, renameOk: bool)
    | Stops(tid: string, env: IoEnv)
    | Crashes(after: Files, now: real)

  function Step(w: World, s: State, e: Event): State {
    match e
    case OfferArrives(o, env) => HandleOffer(w, s, o, env)
    case ChunkArrives(tid, sequence, offset, data, env) => HandleChunk(s, tid, sequence, offset, data, env)
    case DoneArrives(tid, renameOk) => HandleDone(w, s, tid, renameOk)
    case Stops(tid, env) => StopIncoming(s, tid, env)
    case Crashes(after, now) => State(Swept(after, now), map[], s.sent, s.verified, {})
  }

  /** The name the file would get is not the name of a partial or a sidecar. */
  predicate Ordinary(w: World, o: Offer) {
    w.sanitize(o.filename).Some? ==> Plain(w.sanitize(o.filename).value)
  }

  /** Messages are arbitrary, except for two things. No offer names a `.part` or `.part.meta`
      file, and no expiry sweep finds the sidecar of a transfer in progress older than a week.
      A crash leaves a crash image. */
  ghost predicate Admissible(w: World, s: State, e: Event) {
    match e
    case OfferArrives(o, env) =>
      && Ordinary(w, o)
      && forall id :: id in s.incoming ==> !Partial.Expired(s.files, env.now, MetaOf(s.incoming[id]))
    case Crashes(after, _) => CrashImage(s.files, after)
    case _ => true
  }

  function Run(w: World, s: State, events: seq<Event>): State {
    if events == [] then s else Step(w, Run(w, s, events[..|events| - 1]), events[|events| - 1])
  }

  ghost predicate AdmissibleRun(w: World, s: State, events: seq<Event>) {
    events == [] || (AdmissibleRun(w, s, events[..|events| - 1])
                     && Admissible(w, Run(w, s, events[..|events| - 1]), events[|events| - 1]))
  }
}
