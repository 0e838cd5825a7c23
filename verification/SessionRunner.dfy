/** The runner object: its fields change only inside these critical sections, each of which does
    what the protocol's function says. */
module SessionRunner {
  import opened Values
  import opened RunnerProtocol

  class SessionRunner {
    const target: PlaybackTarget
    const capacity: nat
    var tickets: seq<Ticket>
    var mailbox: seq<nat>
    var stop: Option<nat>
    var active: Option<nat>
    var closing: bool
    var canceled: bool
    var phase: Phase
    var failure: Option<Failure>
    var worker: Worker
    ghost var calls: seq<nat>

    ghost function View(): Runner
      reads this
    {
      Runner(target, capacity, tickets, mailbox, stop, active, closing, canceled, phase, failure,
             worker, calls)
    }

    ghost predicate Consistent()
      reads this
    {
      Valid(View())
    }

    constructor (target: PlaybackTarget, capacity: nat)
      requires capacity >= 1
      ensures View() == NewRunner(target, capacity) && Consistent()
    {
      this.target, this.capacity := target, capacity;
      this.tickets, this.mailbox, this.calls := [], [], [];
      this.stop, this.active, this.failure := None, None, None;
      this.closing, this.canceled, this.phase, this.worker := false, false, New, Unborn;
      new;
      FreshIsValid(target, capacity);
    }

    /** Marks what cancellation drops, and keeps the rest in order. */
    static method Drop(before: seq<Ticket>, pending: seq<nat>, all: bool)
      returns (after: seq<Ticket>, retained: seq<nat>)
      requires forall k :: 0 <= k < |pending| ==> pending[k] < |before|
      ensures |after| == |before|
      ensures forall k :: 0 <= k < |after| ==>
        after[k] == if k in pending && (all || Launches(before[k].command))
                    then before[k].(state := TicketState.Canceled) else before[k]
      ensures retained == if all then [] else Retained(before, pending)
    {
      hide Retained, Launches;
      after, retained := before, [];
      NothingRetained(before);
      for i := 0 to |pending|
        invariant |after| == |before|
        invariant forall k :: 0 <= k < |after| ==>
          after[k] == if k in pending[..i] && (all || Launches(before[k].command))
                      then before[k].(state := TicketState.Canceled) else before[k]
        invariant retained == if all then [] else Retained(before, pending[..i])
      {
        var ticket := pending[i];
        assert pending[..i + 1] == pending[..i] + [ticket];
        RetainedAppends(before, pending[..i], ticket);
        if all || Launches(before[ticket].command) {
          after := after[ticket := after[ticket].(state := TicketState.Canceled)];
        } else {
          retained := retained + [ticket];
        }
      }
      assert pending[..|pending|] == pending;
    }

    /** Latches cancellation and drops what must not run any more. */
    method CancelPendingCommands(all: bool)
      requires InRange(View())
      modifies this`tickets, this`mailbox, this`canceled
      ensures View() == CancelPending(old(View()), all)
    {
      canceled := true;
      tickets, mailbox := Drop(tickets, mailbox, all);
      assert tickets == CanceledTickets(old(View()), all);
    }

    method Known(command: Command) returns (r: Result<Option<nat>>)
      requires InRange(View())
      ensures r == KnownTicket(View(), command)
    {
      var candidates := mailbox + (if active.Some? then [active.value] else [])
        + (if stop.Some? then [stop.value] else []);
      assert candidates == Candidates(View());
      hide InRange, Candidates;
      for i := 0 to |candidates|
        invariant FirstWithId(tickets, candidates, command.commandId)
               == FirstWithId(tickets, candidates[i..], command.commandId)
      {
        assert candidates[i..][1..] == candidates[i + 1..];
        if tickets[candidates[i]].command.commandId == command.commandId {
          return if tickets[candidates[i]].command != command then Err(Malformed)
                 else Ok(Some(candidates[i]));
        }
      }
      r := Ok(None);
    }

    method SubmitCommand(command: Command) returns (r: Result<nat>)
      requires Consistent() && command.WellFormed()
      modifies this
      ensures Consistent()
      ensures Reply(View(), r) == Submit(old(View()), command)
    {
      SubmitKeeps(View(), command);
      if command.action.Stop? {
        r := StopSession(command.commandId);
        return;
      }
      if command.request.Some? && command.request.value.target != target {
        return Err(Malformed);
      }
      if closing || !(phase.Starting? || phase.Running?) || (canceled && Launches(command)) {
        return Err(Refused);
      }
      var known := Known(command);
      match known {
        case Err(fault) => return Err(fault);
        case Ok(Some(existing)) => return Ok(existing);
        case Ok(None) =>
      }
      if |mailbox| >= capacity {
        return Err(Refused);
      }
      r := Ok(|tickets|);
      mailbox := mailbox + [|tickets|];
      tickets := tickets + [Ticket(command, Queued)];
    }

    /** One priority stop for the whole life of the runner; repeats get the same ticket. */
    method StopSession(commandId: Id) returns (r: Result<nat>)
      requires Consistent()
      modifies this
      ensures Consistent()
      ensures Reply(View(), r) == RequestStop(old(View()), commandId)
    {
      StopKeeps(View(), commandId);
      if Blank(commandId) {
        return Err(Malformed);
      }
      var command := Command(commandId, CommandAction.Stop, None);
      var known := Known(command);
      match known {
        case Err(fault) => return Err(fault);
        case Ok(Some(existing)) => return Ok(existing);
        case Ok(None) =>
      }
      if stop.Some? {
        return Ok(stop.value);
      }
      if closing || !(phase.Starting? || phase.Running?) {
        return Err(Refused);
      }
      CancelPendingCommands(false);
      stop := Some(|tickets|);
      r := Ok(|tickets|);
      tickets := tickets + [Ticket(command, Queued)];
    }

    method CancelSession() returns (r: Result<Phase>)
      requires Consistent()
      modifies this
      ensures Consistent() && View() == Cancel(old(View()))
      ensures r.Ok? <==> Open(old(View()))
    {
      CancelKeeps(View());
      if closing || !(phase.Starting? || phase.Running?) {
        return Err(Refused);
      }
      CancelPendingCommands(false);
      r := Ok(phase);
    }

    method ShutdownSession()
      requires Consistent()
      modifies this
      ensures Consistent() && View() == Shutdown(old(View()))
    {
      ShutdownKeeps(View());
      closing := true;
      CancelPendingCommands(true);
      if phase.New? {
        phase := Phase.Stopped;
      } else if !phase.Stopped? && !phase.Failed? {
        phase := Stopping;
      }
    }

    /** The worker's choice; the answer is the ticket to run, a step, leaving, or waiting. */
    method ChooseNext(due: bool)
      requires Consistent() && worker.Choosing?
      modifies this
      ensures Consistent() && View() == Choose(old(View()), due)
    {
      ChooseKeeps(View(), due);
      var ticket: Option<nat> := None;
      if stop.Some? && tickets[stop.value].state.Queued? {
        ticket := stop;
      } else if closing {
        worker := Leaving;
        return;
      } else if due {
        worker := Calling(None);
      } else if mailbox != [] {
        ticket := Some(mailbox[0]);
        mailbox := mailbox[1..];
      } else {
        return;
      }
      if ticket.Some? {
        active := ticket;
        tickets := tickets[ticket.value := tickets[ticket.value].(state := TicketState.Running)];
        worker := Calling(ticket);
        calls := calls + [ticket.value];
      }
    }

    /** The playback task's call came back, or raised. */
    method FinishCall(succeeds: bool)
      requires Consistent() && worker.Calling?
      modifies this
      ensures Consistent() && View() == Return(old(View()), succeeds)
    {
      ReturnKeeps(View(), succeeds);
      var ticket := worker.ticket;
      if ticket.Some? {
        var state := if succeeds then Handled else TicketState.Failed;
        tickets := tickets[ticket.value := tickets[ticket.value].(state := state)];
        if succeeds {
          active := None;
        }
      }
      if succeeds {
        worker := Choosing;
      } else {
        failure := Some(if ticket.Some? then CommandFailed else StepFailed);
        worker := Leaving;
      }
    }

    /** Everything still queued is canceled, the stop included. */
    method CancelEverything()
      requires InRange(View())
      modifies this`tickets, this`mailbox, this`canceled, this`closing
      ensures View() == CancelAll(old(View()))
    {
      closing := true;
      CancelPendingCommands(true);
      if stop.Some? && tickets[stop.value].state.Queued? {
        tickets := tickets[stop.value := tickets[stop.value].(state := TicketState.Canceled)];
      }
    }

    method LeaveLoop()
      requires Consistent() && worker.Leaving?
      modifies this
      ensures Consistent() && View() == Leave(old(View()))
    {
      LeaveKeeps(View());
      CancelEverything();
      phase := Stopping;
      worker := Closing;
    }

    method EndWorker(closes: bool)
      requires Consistent() && worker.Closing?
      modifies this
      ensures Consistent() && View() == End(old(View()), closes)
      ensures forall k :: 0 <= k < |tickets| ==> tickets[k].Terminal()
    {
      EndKeeps(View(), closes);
      if failure.None? && !closes {
        failure := Some(CloseFailed);
      }
      CancelEverything();
      phase := if failure.Some? then Phase.Failed else Phase.Stopped;
      worker := Gone;
    }
  }

  lemma {:induction false} RetainedAppends(tickets: seq<Ticket>, mailbox: seq<nat>, ticket: nat)
    requires forall k :: 0 <= k < |mailbox| ==> mailbox[k] < |tickets|
    requires ticket < |tickets|
    ensures Retained(tickets, mailbox + [ticket])
         == Retained(tickets, mailbox)
            + if Launches(tickets[ticket].command) then [] else [ticket]
    decreases |mailbox|
  {
    if mailbox == [] {
      assert mailbox + [ticket] == [ticket];
      assert [ticket][1..] == [];
    } else {
      assert (mailbox + [ticket])[1..] == mailbox[1..] + [ticket];
      RetainedAppends(tickets, mailbox[1..], ticket);
    }
  }

  lemma {:induction false} NothingRetained(tickets: seq<Ticket>)
    ensures Retained(tickets, []) == []
  {
  }
}
