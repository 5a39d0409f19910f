/** The transition tables of both transfer directions. */
module TransferState {
  datatype Outgoing = Offered | WaitingForAccept | Sending | WaitingForAck | Completed | Failed | Rejected | Cancelled

  function OutgoingTable(s: Outgoing): set<Outgoing> {
    match s
    case Offered => {WaitingForAccept}
    case WaitingForAccept => {Sending, Failed, Rejected, Cancelled}
    case Sending => {WaitingForAck, Failed, Cancelled}
    case WaitingForAck => {Completed, Failed, Cancelled}
    case Completed => {Completed}
    case Failed => {Failed}
    case Rejected => {Rejected}
    case Cancelled => {Cancelled}
  }

  datatype Incoming = IncomingOffered | Accepted | Receiving | Paused | Resuming | Verifying
    | IncomingCompleted | IncomingRejected | IncomingCancelled | IncomingFailed | Expired

  const OUTCOMES := {IncomingRejected, IncomingCancelled, IncomingFailed, Expired}

  function IncomingTable(s: Incoming): set<Incoming> {
    match s
    case IncomingOffered => {Accepted} + OUTCOMES
    case Accepted => {Receiving} + OUTCOMES
    case Receiving => {Receiving, Verifying, Paused} + OUTCOMES
    case Paused => {Resuming} + OUTCOMES
    case Resuming => {Receiving} + OUTCOMES
    case Verifying => {IncomingCompleted} + OUTCOMES
    case IncomingCompleted => {IncomingCompleted}
    case IncomingRejected => {IncomingRejected}
    case IncomingCancelled => {IncomingCancelled}
    case IncomingFailed => {IncomingFailed}
    case Expired => {Expired}
  }

  /** The shared mechanics of both machines, over either table. */
  class StateMachine<T(==)> {
    var state: T
    const table: T -> set<T>

    constructor (initial: T, table: T -> set<T>)
      ensures state == initial && this.table == table
    {
      state, this.table := initial, table;
    }

    predicate IsTerminal()
      reads this
    {
      table(state) == {state}
    }

    /** False is the InvalidTransferTransition; the state is then what it was. A terminal
        state is left by no request at all. */
    method TransitionTo(next: T) returns (ok: bool)
      modifies this`state
      ensures ok == (next in table(old(state)))
      ensures state == if ok then next else old(state)
      ensures old(IsTerminal()) ==> state == old(state)
    {
      if next !in table(state) {
        return false;
      }
      state := next;
      return true;
    }
  }

  function OutgoingAfter(s: Outgoing, requests: seq<Outgoing>): Outgoing
    decreases |requests|
  {
    if requests == [] then s
    else OutgoingAfter(if requests[0] in OutgoingTable(s) then requests[0] else s, requests[1..])
  }

  predicate OutgoingTerminal(s: Outgoing) { s in {Completed, Failed, Rejected, Cancelled} }

  /** Whatever is requested afterwards, a terminal state stays; and these four states are
      the only ones of which that is true. */
  lemma {:induction false} OutgoingTerminalIsFinal(s: Outgoing, requests: seq<Outgoing>)
    ensures OutgoingTerminal(s) ==> OutgoingAfter(s, requests) == s
    ensures OutgoingTerminal(s) <==> OutgoingTable(s) == {s}
    decreases |requests|
  {
    assert Cancelled in OutgoingTable(WaitingForAccept) && Cancelled in OutgoingTable(Sending)
        && Cancelled in OutgoingTable(WaitingForAck) && WaitingForAccept in OutgoingTable(Offered);
    if requests != [] {
      OutgoingTerminalIsFinal(s, requests[1..]);
    }
  }
}
