/** The sending half of one transfer: the message handlers and the streaming task, interleaved
    at every await, and the two peers together. */
module Sender {
  import opened Bytes
  import opened TransferState
  import Session
  import SessionSafety
  import Resume
  import Chunker
  import Partial

  const CHUNK_SIZE: nat := Chunker.CHUNK_SIZE

  /** Where offer_file, and later the streaming task, is suspended. */
  datatype Task = Offering | Absent | NotStarted | InChunk(pos: nat) | InDone | InAck | Ended

  /** What reading the file gives. */
  datatype Read = Data | End | OsError

  /** One entry of the outgoing table. `notices` are the completion notices given so far. */
  datatype Out = Out(size: nat, state: Outgoing, registered: bool, resumeOffset: nat,
                     ackSet: bool, ackSuccess: bool, task: Task, notices: seq<bool>)

  /** While offer_file is sending the offer. */
  function Created(size: nat): Out {
    Out(size, Offered, false, 0, false, false, Offering, [])
  }

  datatype Event =
    | OfferReturns(ok: bool)
    | AcceptArrives(offset: int)
    | RejectArrives
    | AckArrives(success: bool)
    | ErrorArrives(terminal: bool)
    | Disconnects
    | TaskStarts(fileSize: Option<nat>, read: Read)
    | SendReturns(ok: bool, read: Read)
    | DoneReturns
    | AckWakes
    | AckTimesOut

  /** _fail_outgoing: the table allows FAILED to be entered again. */
  function Fail(o: Out): Out {
    if Failed !in OutgoingTable(o.state) then o
    else o.(state := Failed, registered := false, ackSet := true, ackSuccess := false, notices := o.notices + [false])
  }

  function EndTask(o: Out): Out { o.(task := Ended, registered := false) }

  /** The head of the streaming loop: read, check the state, and send; or go on to file_done. */
  function NextRound(o: Out, pos: nat, read: Read): Out {
    if read == OsError then EndTask(Fail(o))
    else if o.state != Sending then EndTask(o)
    else if read == Data then o.(task := InChunk(pos))
    else o.(task := InDone)
  }

  /** The first use of read_chunks asks for the size of the file, None being an OSError, and
      raises a ValueError, which _send_chunks does not catch, if it is below the offset. */
  predicate TooShort(o: Out, fileSize: Option<nat>) { fileSize.Some? && o.resumeOffset > fileSize.value }

  function FirstRound(o: Out, fileSize: Option<nat>, read: Read): Out {
    if TooShort(o, fileSize) then EndTask(o)
    else NextRound(o, o.resumeOffset, if fileSize.None? then OsError else read)
  }

  function Resolve(o: Out, success: bool): Out {
    if o.state != WaitingForAck then EndTask(o)
    else EndTask(o.(state := if success then Completed else Failed, notices := o.notices + [success]))
  }

  function Step(o: Out, e: Event): Out {
    match e
    case OfferReturns(ok) =>
      if o.task != Offering then o
      else if !ok then o.(task := Absent)
      else o.(state := WaitingForAccept, registered := true, task := Absent)
    case AcceptArrives(offset) =>
      if !o.registered then o
      else
        var o' := o.(resumeOffset := if Resume.ValidResumeOffset(offset, o.size) then offset else 0);
        if Sending in OutgoingTable(o.state) then o'.(state := Sending, task := NotStarted) else o'
    case RejectArrives =>
      if !o.registered || Rejected !in OutgoingTable(o.state) then o
      else o.(state := Rejected, notices := o.notices + [false], registered := false)
    case AckArrives(success) =>
      if !o.registered then o
      else if o.state == WaitingForAck then o.(ackSuccess := success, ackSet := true)
      else if o.state == Sending && !success then Fail(o)
      else o
    case ErrorArrives(terminal) => if o.registered && terminal then Fail(o) else o
    case Disconnects => if o.registered then Fail(o) else o
    case TaskStarts(fileSize, read) => if o.task == NotStarted then FirstRound(o, fileSize, read) else o
    case SendReturns(ok, read) =>
      if !o.task.InChunk? then o
      else if !ok then EndTask(Fail(o))
      else NextRound(o, o.task.pos + CHUNK_SIZE, read)
    case DoneReturns =>
      if o.task != InDone then o
      else if WaitingForAck in OutgoingTable(o.state) then o.(state := WaitingForAck, task := InAck)
      else EndTask(o)
    case AckWakes => if o.task == InAck && o.ackSet then Resolve(o, o.ackSuccess) else o
    case AckTimesOut => if o.task == InAck then Resolve(o, false) else o
  }

  function Run(o: Out, events: seq<Event>): Out {
    if events == [] then o else Step(Run(o, events[..|events| - 1]), events[|events| - 1])
  }

  // ---- one transfer, one verdict --------------------------------------------

  ghost predicate AllFailures(notices: seq<bool>) {
    forall i :: 0 <= i < |notices| ==> !notices[i]
  }

  /** State, notices and task always tell the same story. */
  ghost predicate Inv(o: Out) {
    && (match o.state
        case Completed => o.notices == [true] && o.task == Ended
        case Failed => o.notices != [] && AllFailures(o.notices)
        case Rejected => o.notices == [false] && o.task == Absent
        case _ => o.notices == [])
    && (o.state == Offered ==> !o.registered && (o.task == Offering || o.task == Absent))
    && (o.state == WaitingForAccept ==> o.registered && o.task == Absent)
    && (o.state == Sending ==>
          o.task.NotStarted? || o.task.InChunk? || o.task == InDone || (o.task == Ended && !o.registered))
    && (o.state == WaitingForAck <==> o.task == InAck && o.state != Failed)
    && (o.task == Offering ==> o.state == Offered) && o.state != Cancelled
    && (o.state == Failed && o.task == InAck ==> o.ackSet)
    && (o.registered ==> !OutgoingTerminal(o.state))
    && o.resumeOffset <= o.size
  }

  /** The invariant, and with it: a resolved transfer stays resolved, and nothing reported is
      taken back. */
  ghost predicate Onward(o: Out, o': Out) {
    && Inv(o') && o'.size == o.size && (OutgoingTerminal(o.state) ==> o'.state == o.state) && o.notices <= o'.notices
  }

  lemma HearingKeepsInv(o: Out, e: Event)
    requires Inv(o) && (e.OfferReturns? || e.AcceptArrives? || e.RejectArrives?
                        || e.AckArrives? || e.ErrorArrives? || e.Disconnects?)
    ensures Onward(o, Step(o, e))
  {
  }

  lemma NextRoundKeepsInv(o: Out, pos: nat, read: Read)
    requires Inv(o) && (o.task.NotStarted? || o.task.InChunk?)
    ensures Onward(o, NextRound(o, pos, read))
  {
  }

  lemma SendingKeepsInv(o: Out, e: Event)
    requires Inv(o) && (e.TaskStarts? || e.SendReturns?)
    ensures Onward(o, Step(o, e))
  {
    if e.TaskStarts? && o.task == NotStarted {
      NextRoundKeepsInv(o, o.resumeOffset, if e.fileSize.None? then OsError else e.read);
    } else if e.SendReturns? && o.task.InChunk? && e.ok {
      NextRoundKeepsInv(o, o.task.pos + CHUNK_SIZE, e.read);
    }
  }

  lemma AwaitingKeepsInv(o: Out, e: Event)
    requires Inv(o) && (e.DoneReturns? || e.AckWakes? || e.AckTimesOut?)
    ensures Onward(o, Step(o, e))
  {
  }

  lemma StepKeepsInv(o: Out, e: Event)
    requires Inv(o)
    ensures Onward(o, Step(o, e))
  {
    if e.TaskStarts? || e.SendReturns? {
      SendingKeepsInv(o, e);
    } else if e.DoneReturns? || e.AckWakes? || e.AckTimesOut? {
      AwaitingKeepsInv(o, e);
    } else {
      HearingKeepsInv(o, e);
    }
  }

  // ---- what resolves a transfer -------------------------------------------------

  /** The file cannot be read, or the chunk not be sent. */
  predicate StreamingFails(o: Out, e: Event) {
    || (&& e.TaskStarts? && o.task == NotStarted
        && (e.fileSize.None? || (o.resumeOffset <= e.fileSize.value && e.read == OsError)))
    || (e.SendReturns? && o.task.InChunk? && (!e.ok || e.read == OsError))
  }

  /** Exactly what fails a transfer that is not resolved: a terminal error or a lost connection
      while it is registered, a negative ack while it is sending, streaming that fails, and a
      wait for the ack that times out or ends with a negative one. */
  lemma FailsIff(o: Out, e: Event)
    requires Inv(o) && !OutgoingTerminal(o.state)
    ensures Step(o, e).state == Failed <==>
              || (o.registered && (e == ErrorArrives(true) || e == Disconnects))
              || (o.registered && e == AckArrives(false) && o.state == Sending)
              || StreamingFails(o, e)
              || (o.task == InAck && (e == AckTimesOut || (e == AckWakes && o.ackSet && !o.ackSuccess)))
    ensures Step(o, e).state == Failed ==> Step(o, e).notices == [false] && !Step(o, e).registered
  {
  }

  /** It is rejected exactly by a reject while its accept is awaited, and completed exactly by
      waking to a positive ack. */
  lemma EndsOtherwiseIff(o: Out, e: Event)
    requires Inv(o) && !OutgoingTerminal(o.state)
    ensures Step(o, e).state == Rejected <==> o.state == WaitingForAccept && e == RejectArrives
    ensures Step(o, e).state == Completed <==> o.task == InAck && e == AckWakes && o.ackSet && o.ackSuccess
    ensures OutgoingTerminal(Step(o, e).state) ==> Step(o, e).notices == [Step(o, e).state == Completed]
  {
  }

  /** It begins to send exactly on an accept while one is awaited, from the offset that says, or
      from zero if that is not a whole number of chunks within the file; it awaits its ack
      exactly when file_done has been sent. */
  lemma AdvancesIff(o: Out, e: Event)
    requires Inv(o) && !OutgoingTerminal(o.state)
    ensures o.state != Sending && Step(o, e).state == Sending <==> o.state == WaitingForAccept && e.AcceptArrives?
    ensures o.state == WaitingForAccept && e.AcceptArrives? ==>
              && Step(o, e).task == NotStarted
              && Step(o, e).resumeOffset == if 0 <= e.offset <= o.size && e.offset % 65536 == 0 then e.offset else 0
    ensures o.state != WaitingForAck && Step(o, e).state == WaitingForAck <==>
              o.task == InDone && e == DoneReturns && o.state == Sending
    ensures o.state != WaitingForAccept && Step(o, e).state == WaitingForAccept <==>
              o.task == Offering && e == OfferReturns(true)
  {
  }

  /** An offer that could not be sent is forgotten, whatever arrives later. */
  lemma {:induction false} UnsentOfferIsForgotten(size: nat, events: seq<Event>)
    ensures Run(Step(Created(size), OfferReturns(false)), events) == Created(size).(task := Absent)
    decreases |events|
  {
    if events != [] { UnsentOfferIsForgotten(size, events[..|events| - 1]); }
  }

  function Sent(n: nat): seq<Event> { seq(n, i => SendReturns(true, Data)) }

  /** The chunks go out one after the other from the accepted offset on. */
  lemma {:induction false} StreamsInOrder(o: Out, fileSize: nat, n: nat)
    requires o.state == Sending && o.task == NotStarted && o.resumeOffset <= fileSize
    ensures var started := Step(o, TaskStarts(Some(fileSize), Data));
            Run(started, Sent(n)) == o.(task := InChunk(o.resumeOffset + n * CHUNK_SIZE))
    decreases n
  {
    if n > 0 {
      StreamsInOrder(o, fileSize, n - 1);
      assert Sent(n)[..n - 1] == Sent(n - 1);
    }
  }

  /** Over every interleaving of acks, rejects, errors, disconnects and timeouts, success and
      failure are never both reported, success is reported at most once, and exactly when the
      transfer is COMPLETED. */
  lemma {:induction false} NeverBothSuccessAndFailure(size: nat, events: seq<Event>)
    ensures var o := Run(Created(size), events);
            && Inv(o)
            && (true in o.notices <==> o.state == Completed)
            && (true in o.notices ==> o.notices == [true])
            && (false in o.notices <==> o.state in {Failed, Rejected})
    decreases |events|
  {
    if events != [] {
      NeverBothSuccessAndFailure(size, events[..|events| - 1]);
      StepKeepsInv(Run(Created(size), events[..|events| - 1]), events[|events| - 1]);
    }
    var o := Run(Created(size), events);
    if o.state == Failed { assert !o.notices[0]; }
  }

  /** Once resolved, resolved for good: the rest of the run changes neither the state nor,
      apart from repeated failures, what was reported. */
  lemma {:induction false} ResolvedForGood(o: Out, events: seq<Event>)
    requires Inv(o) && OutgoingTerminal(o.state)
    ensures Inv(Run(o, events)) && Run(o, events).state == o.state && o.notices <= Run(o, events).notices
    decreases |events|
  {
    if events != [] {
      ResolvedForGood(o, events[..|events| - 1]);
      StepKeepsInv(Run(o, events[..|events| - 1]), events[|events| - 1]);
    }
  }

  /** A send or a read that fails after something else already failed the transfer. */
  predicate LateFailure(o: Out, e: Event) {
    && o.state == Failed
    && (|| (e.SendReturns? && o.task.InChunk? && (!e.ok || e.read == OsError))
        || (&& e.TaskStarts? && o.task == NotStarted && !TooShort(o, e.fileSize)
            && (e.fileSize.None? || e.read == OsError)))
  }

  /** A failure is reported a second time exactly on a late failure. */
  lemma SecondNoticeIffLateFailure(o: Out, e: Event)
    requires Inv(o) && |o.notices| <= 1
    ensures |Step(o, e).notices| <= 1 <==> !LateFailure(o, e)
  {
  }

  lemma RunGoesOn(o: Out, events: seq<Event>, o1: Out, e: Event, o2: Out)
    requires Run(o, events) == o1 && Step(o1, e) == o2
    ensures Run(o, events + [e]) == o2
  {
    assert (events + [e])[..|events|] == events;
  }

  /** A run of four events, step by step. */
  lemma RunOfFour(o: Out, e1: Event, o1: Out, e2: Event, o2: Out, e3: Event, o3: Out, e4: Event, o4: Out)
    requires Step(o, e1) == o1 && Step(o1, e2) == o2 && Step(o2, e3) == o3 && Step(o3, e4) == o4
    ensures Run(o, [e1] + [e2] + [e3] + [e4]) == o4
  {
    assert [] + [e1] == [e1];
    RunGoesOn(o, [], o, e1, o1);
    RunGoesOn(o, [e1], o1, e2, o2);
    RunGoesOn(o, [e1] + [e2], o2, e3, o3);
    RunGoesOn(o, [e1] + [e2] + [e3], o3, e4, o4);
  }

  /** The concrete interleaving: a peer error arrives while a chunk is being sent, and then the
      send fails. */
  lemma FailureCanBeReportedTwice(size: nat)
    ensures Run(Step(Created(size), OfferReturns(true)),
                [AcceptArrives(0)] + [TaskStarts(Some(1), Data)] + [ErrorArrives(true)] + [SendReturns(false, Data)])
            .notices == [false, false]
  {
    var o := Step(Created(size), OfferReturns(true));
    var o1 := Step(o, AcceptArrives(0));
    var o2 := Step(o1, TaskStarts(Some(1), Data));
    var o3 := Step(o2, ErrorArrives(true));
    var o4 := Step(o3, SendReturns(false, Data));
    RunOfFour(o, AcceptArrives(0), o1, TaskStarts(Some(1), Data), o2, ErrorArrives(true), o3,
              SendReturns(false, Data), o4);
    assert o2.task == InChunk(0) && o3.notices == [false] && o4.notices == [false, false];
  }

  // ---- transfers that end without a word ---------------------------------------

  /** The file has become shorter than the accepted offset when streaming starts, and nothing
      has resolved the transfer yet. */
  predicate EscapesAt(o: Out, e: Event) {
    o.state == Sending && e.TaskStarts? && o.task == NotStarted && TooShort(o, e.fileSize)
  }

  predicate Escaped(o: Out, events: seq<Event>) {
    events != []
    && (Escaped(o, events[..|events| - 1]) || EscapesAt(Run(o, events[..|events| - 1]), events[|events| - 1]))
  }

  lemma SilentIffEscaped(o: Out, e: Event)
    requires Inv(o)
    ensures var o' := Step(o, e);
            o'.state == Sending && o'.task == Ended <==> (o.state == Sending && o.task == Ended) || EscapesAt(o, e)
  {
  }

  /** A transfer whose task has ended was reported, as a success or a failure, if and only if its
      file was not found too short. If it was, the transfer is left SENDING and unregistered,
      and nothing ever resolves it. */
  lemma EndedIsReportedIff(size: nat, events: seq<Event>)
    ensures var o := Run(Created(size), events);
            && (o.task == Ended ==> (o.notices != [] <==> !Escaped(Created(size), events)))
            && (Escaped(Created(size), events) ==> o.task == Ended && o.state == Sending && !o.registered)
  {
    NeverBothSuccessAndFailure(size, events);
    SilentIffEscapedRun(size, events);
  }

  lemma {:induction false} SilentIffEscapedRun(size: nat, events: seq<Event>)
    ensures var o := Run(Created(size), events);
            o.state == Sending && o.task == Ended <==> Escaped(Created(size), events)
    decreases |events|
  {
    if events != [] {
      var front := events[..|events| - 1];
      SilentIffEscapedRun(size, front);
      NeverBothSuccessAndFailure(size, front);
      SilentIffEscaped(Run(Created(size), front), events[|events| - 1]);
    }
  }

  /** So it goes with a file cut short after it was offered, when a resume is accepted. */
  lemma ShortenedFileEndsSilently(o: Out)
    requires o == Step(Created(CHUNK_SIZE), OfferReturns(true))
    ensures var ended := Step(Step(o, AcceptArrives(CHUNK_SIZE)), TaskStarts(Some(0), End));
            ended.resumeOffset == CHUNK_SIZE && ended.task == Ended && ended.state == Sending && ended.notices == []
  {
    assert Resume.ValidResumeOffset(CHUNK_SIZE, CHUNK_SIZE);
  }

  /** No accept has been taken so far. */
  predicate Unaccepted(o: Out) { o.task == Offering || o.task == Absent }

  predicate NoAccept(events: seq<Event>) {
    forall i :: 0 <= i < |events| ==> !events[i].AcceptArrives?
  }

  lemma {:induction false} StaysUnaccepted(o: Out, events: seq<Event>)
    requires Inv(o) && Unaccepted(o) && NoAccept(events)
    ensures Inv(Run(o, events)) && Unaccepted(Run(o, events))
    decreases |events|
  {
    if events != [] {
      StaysUnaccepted(o, events[..|events| - 1]);
      StepKeepsInv(Run(o, events[..|events| - 1]), events[|events| - 1]);
    }
  }

  /** The receiver accepts once. The transfer can still complete if and only if that accept
      arrives in WAITING_FOR_ACCEPT; one that overtakes the return of offer_file's own send is
      lost. */
  lemma AcceptedTransferCompletesIff(o: Out, offset: int)
    requires Inv(o) && Unaccepted(o)
    ensures (exists events :: NoAccept(events) && Run(Step(o, AcceptArrives(offset)), events).state == Completed) <==>
              o.state == WaitingForAccept
  {
    var o' := Step(o, AcceptArrives(offset));
    if o.state == WaitingForAccept {
      var start := TaskStarts(Some(o'.resumeOffset), End);
      var o1 := Step(o', start);
      var o2 := Step(o1, DoneReturns);
      var o3 := Step(o2, AckArrives(true));
      RunOfFour(o', start, o1, DoneReturns, o2, AckArrives(true), o3, AckWakes, Step(o3, AckWakes));
      var events := [start] + [DoneReturns] + [AckArrives(true)] + [AckWakes];
      assert NoAccept(events) && Run(o', events).state == Completed;
    } else {
      assert o' == o;
      forall events | NoAccept(events) ensures Run(o', events).state != Completed {
        StaysUnaccepted(o, events);
      }
    }
  }

  // ---- acknowledgements at the wrong moment --------------------------------------

  /** While file_done is being sent, a positive ack is dropped, and the sender then waits until
      it times out: the receiver has the file and the sender reports failure. */
  lemma PrematureAckIsLost(o: Out)
    requires Inv(o) && o.registered && o.task == InDone
    ensures var early := Step(Step(Step(o, AckArrives(true)), DoneReturns), AckTimesOut);
            early.state == Failed && early.notices == [false]
    ensures var late := Step(Step(Step(o, DoneReturns), AckArrives(true)), AckWakes);
            late.state == Completed && late.notices == [true]
  {
    assert o.state == Sending;
  }

  /** The only moment at which a positive ack is taken. */
  predicate AwaitsAck(o: Out) { o.registered && o.state == WaitingForAck }

  predicate NoPositiveAck(events: seq<Event>) {
    forall i :: 0 <= i < |events| ==> events[i] != AckArrives(true)
  }

  /** Not completed, and not about to be. */
  predicate Unacked(o: Out) { o.state != Completed && !(o.ackSet && o.ackSuccess) }

  lemma StaysUnacked(o: Out, e: Event)
    requires Unacked(o) && e != AckArrives(true)
    ensures Unacked(Step(o, e))
  {
  }

  lemma {:induction false} RunStaysUnacked(o: Out, events: seq<Event>)
    requires Unacked(o) && NoPositiveAck(events)
    ensures Unacked(Run(o, events))
    decreases |events|
  {
    if events != [] {
      RunStaysUnacked(o, events[..|events| - 1]);
      StaysUnacked(Run(o, events[..|events| - 1]), events[|events| - 1]);
    }
  }

  /** The receiver acknowledges once. A transfer it verified can still complete at the sender if
      and only if that ack arrives while the sender awaits it; arriving at any other moment,
      the transfer ends otherwise whatever follows. */
  lemma AckedTransferCompletesIff(o: Out)
    requires Inv(o) && Unacked(o)
    ensures (exists events :: NoPositiveAck(events) && Run(Step(o, AckArrives(true)), events).state == Completed) <==>
              AwaitsAck(o)
  {
    var o' := Step(o, AckArrives(true));
    if AwaitsAck(o) {
      assert [AckWakes][..0] == [];
      assert Run(o', []) == o' && Run(o', [AckWakes]) == Step(o', AckWakes);
      assert NoPositiveAck([AckWakes]) && Run(o', [AckWakes]).state == Completed;
    } else {
      assert o' == o;
      forall events | NoPositiveAck(events) ensures Run(o', events).state != Completed {
        RunStaysUnacked(o, events);
      }
    }
  }

  // ---- two peers ------------------------------------------------------------

  /** A receiver, a sender of transfer `tid`, and how much of what the receiver sent the sender
      has read. */
  datatype Pair = Pair(rx: Session.State, tx: Out, read: nat)

  datatype PairEvent = AtReceiver(r: Session.Event) | AtSender(s: Event) | Hear

  function Heard(tid: string, tx: Out, m: Session.Reply): Out {
    if m.tid != tid then tx
    else match m
      case Accept(_, offset) => Step(tx, AcceptArrives(offset))
      case Reject(_) => Step(tx, RejectArrives)
      case Ack(_, success) => Step(tx, AckArrives(success))
  }

  function PairStep(w: Session.World, tid: string, p: Pair, e: PairEvent): Pair {
    match e
    case AtReceiver(e) => p.(rx := Session.Step(w, p.rx, e))
    case AtSender(e) => p.(tx := Step(p.tx, e))
    case Hear => if p.read < |p.rx.sent| then p.(tx := Heard(tid, p.tx, p.rx.sent[p.read]), read := p.read + 1) else p
  }

  function PairRun(w: Session.World, tid: string, p: Pair, events: seq<PairEvent>): Pair {
    if events == [] then p else PairStep(w, tid, PairRun(w, tid, p, events[..|events| - 1]), events[|events| - 1])
  }

  /** What the receiver answered is what the sender acts on when it hears it. */
  lemma HearsTheAnswer(w: Session.World, tid: string, p: Pair)
    requires Inv(p.tx) && p.read < |p.rx.sent| && p.rx.sent[p.read].tid == tid
    ensures var m, tx := p.rx.sent[p.read], PairStep(w, tid, p, Hear).tx;
            && (m.Reject? && p.tx.state == WaitingForAccept ==> tx.state == Rejected)
            && (m.Accept? && p.tx.state == WaitingForAccept ==> tx.state == Sending && tx.task == NotStarted)
            && (m.Ack? && p.tx.state == WaitingForAck && p.tx.registered ==> tx.ackSet && tx.ackSuccess == m.success)
  {
  }

  /** Acceptances, rejections and acks reach the sender only through the ordered channel, and
      the receiver is only ever offered `tid` with the sender's size and checksum. */
  ghost predicate Faithful(w: Session.World, tid: string, size: nat, checksum: string, p: Pair, e: PairEvent) {
    match e
    case AtReceiver(e) =>
      && Session.Admissible(w, p.rx, e)
      && (e.OfferArrives? && e.offer.tid == tid ==> e.offer.size == size && e.offer.checksum == checksum)
    case AtSender(e) => !e.AcceptArrives? && !e.RejectArrives? && !e.AckArrives?
    case Hear => true
  }

  ghost predicate FaithfulRun(w: Session.World, tid: string, size: nat, checksum: string, p: Pair,
                              events: seq<PairEvent>) {
    events == [] || (FaithfulRun(w, tid, size, checksum, p, events[..|events| - 1])
                     && Faithful(w, tid, size, checksum, PairRun(w, tid, p, events[..|events| - 1]),
                                 events[|events| - 1]))
  }

  /** At some point of the run the receiver processed file_done for `tid` while its part file
      held exactly `size` bytes with the sender's checksum. */
  ghost predicate ReceiverVerified(w: Session.World, tid: string, size: nat, checksum: string, p: Pair,
                                   events: seq<PairEvent>) {
    exists k :: 0 <= k < |events| && VerifiedAt(w, tid, size, checksum, PairRun(w, tid, p, events[..k]).rx, events[k])
  }

  ghost predicate VerifiedAt(w: Session.World, tid: string, size: nat, checksum: string, s: Session.State,
                             e: PairEvent) {
    && e.AtReceiver? && e.r.DoneArrives? && e.r.tid == tid && tid in s.incoming
    && var part := Session.PartOf(s.incoming[tid]);
       && part in s.files && s.files[part].Blob?
       && |s.files[part].bytes| == size && w.hash(s.files[part].bytes) == checksum
  }

  ghost predicate PairInv(w: Session.World, tid: string, size: nat, checksum: string, p: Pair) {
    && SessionSafety.Inv(w, p.rx) && Inv(p.tx)
    && (tid in p.rx.incoming ==> p.rx.incoming[tid].size == size && p.rx.incoming[tid].checksum == checksum)
    && p.read <= |p.rx.sent|
    && ((p.tx.state == Completed || (p.tx.ackSet && p.tx.ackSuccess)) ==> Session.Ack(tid, true) in p.rx.sent[..p.read])
  }

  lemma SentOnlyGrows(w: Session.World, s: Session.State, e: Session.Event)
    ensures s.sent <= Session.Step(w, s, e).sent
    ensures forall m :: m in Session.Step(w, s, e).sent && m !in s.sent && m.Ack? && m.success ==>
              e.DoneArrives? && e.tid == m.tid
  {
  }

  /** The receiver's transfer `tid` keeps the offered size and checksum. */
  lemma OfferedTermsAreKept(w: Session.World, tid: string, size: nat, checksum: string, s: Session.State,
                            e: Session.Event)
    requires tid in s.incoming ==> s.incoming[tid].size == size && s.incoming[tid].checksum == checksum
    requires e.OfferArrives? && e.offer.tid == tid ==> e.offer.size == size && e.offer.checksum == checksum
    ensures var s' := Session.Step(w, s, e);
            tid in s'.incoming ==> s'.incoming[tid].size == size && s'.incoming[tid].checksum == checksum
  {
  }

  lemma HearKeepsInv(w: Session.World, tid: string, size: nat, checksum: string, p: Pair)
    requires PairInv(w, tid, size, checksum, p) && p.read < |p.rx.sent|
    ensures PairInv(w, tid, size, checksum, PairStep(w, tid, p, Hear))
  {
    var m := p.rx.sent[p.read];
    assert p.rx.sent[..p.read + 1] == p.rx.sent[..p.read] + [m];
    if m.tid == tid {
      StepKeepsInv(p.tx,
                   if m.Accept? then AcceptArrives(m.offset)
                   else if m.Reject? then RejectArrives
                   else AckArrives(m.success));
    }
  }

  lemma PairStepKeepsInv(w: Session.World, tid: string, size: nat, checksum: string, p: Pair, e: PairEvent)
    requires PairInv(w, tid, size, checksum, p) && Faithful(w, tid, size, checksum, p, e)
    ensures PairInv(w, tid, size, checksum, PairStep(w, tid, p, e))
  {
    match e
    case AtReceiver(r) =>
      SessionSafety.StepKeepsInv(w, p.rx, r);
      SentOnlyGrows(w, p.rx, r);
      OfferedTermsAreKept(w, tid, size, checksum, p.rx, r);
      assert Session.Step(w, p.rx, r).sent[..p.read] == p.rx.sent[..p.read];
    case AtSender(s) => StepKeepsInv(p.tx, s);
    case Hear => if p.read < |p.rx.sent| { HearKeepsInv(w, tid, size, checksum, p); }
  }

  lemma PositiveAckMeansVerified(w: Session.World, tid: string, size: nat, checksum: string, p: Pair, r: Session.Event)
    requires PairInv(w, tid, size, checksum, p)
    requires Session.Ack(tid, true) in Session.Step(w, p.rx, r).sent && Session.Ack(tid, true) !in p.rx.sent
    ensures VerifiedAt(w, tid, size, checksum, p.rx, AtReceiver(r))
  {
    SentOnlyGrows(w, p.rx, r);
    assert tid in p.rx.incoming;
    SessionSafety.DoneDeliversExactlyWhatVerifies(w, p.rx, tid, r.renameOk);
    assert SessionSafety.Healthy(p.rx.files, p.rx.incoming[tid]);
  }

  lemma {:induction false} PairRunInvariant(w: Session.World, tid: string, size: nat, checksum: string, p: Pair,
                                            events: seq<PairEvent>)
    requires PairInv(w, tid, size, checksum, p)
    requires Session.Ack(tid, true) !in p.rx.sent && FaithfulRun(w, tid, size, checksum, p, events)
    ensures var q := PairRun(w, tid, p, events);
            && PairInv(w, tid, size, checksum, q)
            && (Session.Ack(tid, true) in q.rx.sent ==> ReceiverVerified(w, tid, size, checksum, p, events))
    decreases |events|
  {
    if events != [] {
      var front, e := events[..|events| - 1], events[|events| - 1];
      var q := PairRun(w, tid, p, front);
      PairRunInvariant(w, tid, size, checksum, p, front);
      PairStepKeepsInv(w, tid, size, checksum, q, e);
      if Session.Ack(tid, true) in q.rx.sent {
        var k :| 0 <= k < |front| && VerifiedAt(w, tid, size, checksum, PairRun(w, tid, p, front[..k]).rx, front[k]);
        assert front[..k] == events[..k] && front[k] == events[k];
      } else if e.AtReceiver? && Session.Ack(tid, true) in PairStep(w, tid, q, e).rx.sent {
        PositiveAckMeansVerified(w, tid, size, checksum, q, e.r);
        assert VerifiedAt(w, tid, size, checksum, PairRun(w, tid, p, events[..|events| - 1]).rx, events[|events| - 1]);
      }
    }
  }

  /** With two peers running this code over an ordered channel, the sender reaches COMPLETED
      only if the receiver verified size and checksum. */
  lemma CompletedMeansVerified(w: Session.World, tid: string, size: nat, checksum: string, rx: Session.State,
                               events: seq<PairEvent>)
    requires SessionSafety.Inv(w, rx) && tid !in rx.incoming && Session.Ack(tid, true) !in rx.sent
    requires var p := Pair(rx, Created(size), |rx.sent|);
             && FaithfulRun(w, tid, size, checksum, p, events)
             && PairRun(w, tid, p, events).tx.state == Completed
    ensures ReceiverVerified(w, tid, size, checksum, Pair(rx, Created(size), |rx.sent|), events)
  {
    var p := Pair(rx, Created(size), |rx.sent|);
    PairRunInvariant(w, tid, size, checksum, p, events);
    var q := PairRun(w, tid, p, events);
    assert Session.Ack(tid, true) in q.rx.sent[..q.read];
  }

  /** The same from the start of the receiver's session. */
  lemma CompletedMeansVerifiedFromStart(w: Session.World, tid: string, size: nat, checksum: string,
                                        files: Partial.Files, now: real, events: seq<PairEvent>)
    requires SessionSafety.FilesOk(files)
    requires var p := Pair(SessionSafety.Booted(files, now), Created(size), 0);
             && FaithfulRun(w, tid, size, checksum, p, events)
             && PairRun(w, tid, p, events).tx.state == Completed
    ensures ReceiverVerified(w, tid, size, checksum, Pair(SessionSafety.Booted(files, now), Created(size), 0), events)
  {
    SessionSafety.StartIsSafe(w, files, now);
    CompletedMeansVerified(w, tid, size, checksum, SessionSafety.Booted(files, now), events);
  }

  // ---- the handlers -----------------------------------------------------------

  /** An OutgoingTransfer with its streaming task, updated in place; `fsm` is its state
      machine. */
  class OutgoingTransfer {
    const size: nat
    const fsm: StateMachine<Outgoing>
    var registered: bool
    var resumeOffset: nat
    var ackSet: bool
    var ackSuccess: bool
    var task: Task
    var notices: seq<bool>

    /** offer_file up to its send. */
    constructor (size: nat)
      ensures Valid() && fresh(fsm) && View() == Created(size)
    {
      this.size, registered, resumeOffset := size, false, 0;
      fsm := new StateMachine<Outgoing>(Offered, OutgoingTable);
      ackSet, ackSuccess, task, notices := false, false, Offering, [];
    }

    ghost predicate Valid() {
      forall s :: fsm.table(s) == OutgoingTable(s)
    }

    ghost function View(): Out
      reads this, fsm
    {
      Out(size, fsm.state, registered, resumeOffset, ackSet, ackSuccess, task, notices)
    }

    method FailTransfer() returns (applied: bool)
      requires Valid()
      modifies this, fsm
      ensures View() == Fail(old(View()))
    {
      applied := fsm.TransitionTo(Failed);
      if applied {
        registered, ackSuccess, ackSet := false, false, true;
        notices := notices + [false];
      }
    }

    /** The rest of offer_file, once its send has returned. */
    method AfterOffer(ok: bool)
      requires Valid() && task == Offering && fsm.state == Offered
      modifies this, fsm
      ensures View() == Step(old(View()), OfferReturns(ok))
    {
      task := Absent;
      if ok {
        var _ := fsm.TransitionTo(WaitingForAccept);
        registered := true;
      }
    }

    method OnAccept(offset: int)
      requires Valid()
      modifies this, fsm
      ensures View() == Step(old(View()), AcceptArrives(offset))
    {
      if !registered {
        return;
      }
      resumeOffset := if Resume.ValidResumeOffset(offset, size) then offset else 0;
      var ok := fsm.TransitionTo(Sending);
      if ok {
        task := NotStarted;
      }
    }

    method OnReject()
      requires Valid()
      modifies this, fsm
      ensures View() == Step(old(View()), RejectArrives)
    {
      if registered {
        var ok := fsm.TransitionTo(Rejected);
        if ok {
          notices := notices + [false];
          registered := false;
        }
      }
    }

    method OnCompleteAck(success: bool)
      requires Valid()
      modifies this, fsm
      ensures View() == Step(old(View()), AckArrives(success))
    {
      if !registered {
        return;
      }
      if fsm.state == WaitingForAck {
        ackSuccess, ackSet := success, true;
      } else if fsm.state == Sending && !success {
        var _ := FailTransfer();
      }
    }

    method OnError(terminal: bool)
      requires Valid()
      modifies this, fsm
      ensures View() == Step(old(View()), ErrorArrives(terminal))
    {
      if registered && terminal {
        var _ := FailTransfer();
      }
    }

    method OnDisconnect()
      requires Valid()
      modifies this, fsm
      ensures View() == Step(old(View()), Disconnects)
    {
      if registered {
        var _ := FailTransfer();
      }
    }

    /** From the top of the loop to the next await. */
    method Continue(pos: nat, read: Read)
      requires Valid()
      modifies this, fsm
      ensures View() == NextRound(old(View()), pos, read)
    {
      if read == OsError {
        var _ := FailTransfer();
        task, registered := Ended, false;
      } else if fsm.state != Sending {
        task, registered := Ended, false;
      } else if read == Data {
        task := InChunk(pos);
      } else {
        task := InDone;
      }
    }

    method StartTask(fileSize: Option<nat>, read: Read)
      requires Valid()
      modifies this, fsm
      ensures View() == Step(old(View()), TaskStarts(fileSize, read))
    {
      if task != NotStarted {
        return;
      }
      if fileSize.Some? && resumeOffset > fileSize.value {
        task, registered := Ended, false;
      } else {
        Continue(resumeOffset, if fileSize.None? then OsError else read);
      }
    }

    method AfterSend(ok: bool, read: Read)
      requires Valid()
      modifies this, fsm
      ensures View() == Step(old(View()), SendReturns(ok, read))
    {
      if !task.InChunk? {
        return;
      }
      if !ok {
        var _ := FailTransfer();
        task, registered := Ended, false;
      } else {
        Continue(task.pos + CHUNK_SIZE, read);
      }
    }

    method AfterDone()
      requires Valid()
      modifies this, fsm
      ensures View() == Step(old(View()), DoneReturns)
    {
      if task != InDone {
        return;
      }
      var ok := fsm.TransitionTo(WaitingForAck);
      if ok {
        task := InAck;
      } else {
        task, registered := Ended, false;
      }
    }

    /** The end of streaming, once the ack event is set or the wait timed out. */
    method AfterAck(timedOut: bool)
      requires Valid() && (timedOut || ackSet)
      modifies this, fsm
      ensures View() == Step(old(View()), if timedOut then AckTimesOut else AckWakes)
    {
      if task != InAck {
        return;
      }
      var success := !timedOut && ackSuccess;
      if fsm.state == WaitingForAck {
        var _ := fsm.TransitionTo(if success then Completed else Failed);
        notices := notices + [success];
      }
      task, registered := Ended, false;
    }
  }
}
