/** The owner thread and its clients, one critical section at a time: whatever holds the condition
    runs to its release before anything else does. */
module RunnerProtocol {
  import opened Values

  datatype Phase = New | Starting | Running | Stopping | Stopped | Failed

  datatype Failure = Ownership | Initialization | CommandFailed | StepFailed | CloseFailed

  datatype TicketState = Queued | Running | Handled | Canceled | Failed

  datatype Command = Command(commandId: Id, action: CommandAction, request: Option<PlaybackRequest>)
  {
    predicate WellFormed() {
      !Blank(commandId) && (action.Start? <==> request.Some?)
    }
  }

  datatype Ticket = Ticket(command: Command, state: TicketState)
  {
    predicate Terminal() {
      state.Handled? || state.Canceled? || state.Failed?
    }
  }

  /** Where the worker stands between its critical sections: before its thread runs, preparing its
      playback task, about to choose, inside a call of it, on its way out, and gone. */
  datatype Worker =
    | Unborn | Preparing | Choosing | Calling(ticket: Option<nat>) | Leaving | Closing | Gone

  /** Tickets are named by their place in the list of all tickets ever issued; `calls` lists the
      tickets handed to the playback task, in order. */
  datatype Runner = Runner(
    target: PlaybackTarget, capacity: nat, tickets: seq<Ticket>, mailbox: seq<nat>,
    stop: Option<nat>, active: Option<nat>, closing: bool, canceled: bool, phase: Phase,
    failure: Option<Failure>, worker: Worker, calls: seq<nat>)

  datatype Reply = Reply(runner: Runner, ticket: Result<nat>)

  function NewRunner(target: PlaybackTarget, capacity: nat): Runner {
    Runner(target, capacity, [], [], None, None, false, false, New, None, Unborn, [])
  }

  predicate InRange(r: Runner) {
    && (forall k :: 0 <= k < |r.mailbox| ==> r.mailbox[k] < |r.tickets|)
    && (r.stop.Some? ==> r.stop.value < |r.tickets|)
    && (r.active.Some? ==> r.active.value < |r.tickets|)
    && (r.worker.Calling? && r.worker.ticket.Some? ==> r.worker.ticket.value < |r.tickets|)
  }

  // ---------------------------------------------------------------- tickets

  function Marked(tickets: seq<Ticket>, k: nat, state: TicketState): seq<Ticket>
    requires k < |tickets|
  {
    tickets[k := tickets[k].(state := state)]
  }

  predicate Launches(command: Command) {
    command.action.Start? || command.action.Resume?
  }

  /** Cancellation marks what it drops from the mailbox. */
  function CanceledTickets(r: Runner, all: bool): (tickets: seq<Ticket>)
    requires InRange(r)
    ensures |tickets| == |r.tickets|
    ensures forall k :: 0 <= k < |tickets| ==>
      tickets[k] == if k in r.mailbox && (all || Launches(r.tickets[k].command))
                    then r.tickets[k].(state := TicketState.Canceled) else r.tickets[k]
  {
    seq(|r.tickets|, k requires 0 <= k < |r.tickets| =>
      if k in r.mailbox && (all || Launches(r.tickets[k].command))
      then r.tickets[k].(state := TicketState.Canceled) else r.tickets[k])
  }

  /** What cancellation leaves in the mailbox, in order. */
  function Retained(tickets: seq<Ticket>, mailbox: seq<nat>): (kept: seq<nat>)
    requires forall k :: 0 <= k < |mailbox| ==> mailbox[k] < |tickets|
    ensures |kept| <= |mailbox|
    ensures forall k :: k in kept <==> k in mailbox && !Launches(tickets[k].command)
    ensures Distinct(mailbox) ==> Distinct(kept)
  {
    if mailbox == [] then []
    else
      var rest := Retained(tickets, mailbox[1..]);
      assert forall k :: k in mailbox <==> k == mailbox[0] || k in mailbox[1..];
      assert Distinct(mailbox) ==> Distinct(mailbox[1..]) && mailbox[0] !in mailbox[1..];
      if Launches(tickets[mailbox[0]].command) then rest else [mailbox[0]] + rest
  }

  predicate Distinct(xs: seq<nat>) {
    forall i, j :: 0 <= i < j < |xs| ==> xs[i] != xs[j]
  }

  function CancelPending(r: Runner, all: bool): Runner
    requires InRange(r)
  {
    r.(canceled := true, tickets := CanceledTickets(r, all),
       mailbox := if all then [] else Retained(r.tickets, r.mailbox))
  }

  // ---------------------------------------------------------------- what clients do

  predicate Open(r: Runner) {
    !r.closing && (r.phase.Starting? || r.phase.Running?)
  }

  /** The tickets that are queued, running or the stop. */
  function Candidates(r: Runner): (candidates: seq<nat>)
    requires InRange(r)
    ensures forall k :: 0 <= k < |candidates| ==> candidates[k] < |r.tickets|
  {
    r.mailbox + (if r.active.Some? then [r.active.value] else [])
    + (if r.stop.Some? then [r.stop.value] else [])
  }

  /** The ticket of a command among them; the same identity may not name different work. */
  function KnownTicket(r: Runner, command: Command): Result<Option<nat>>
    requires InRange(r)
  {
    var found := FirstWithId(r.tickets, Candidates(r), command.commandId);
    if found.None? then Ok(None)
    else if r.tickets[found.value].command != command then Err(Malformed)
    else Ok(found)
  }

  function FirstWithId(tickets: seq<Ticket>, candidates: seq<nat>, id: Id): (found: Option<nat>)
    requires forall k :: 0 <= k < |candidates| ==> candidates[k] < |tickets|
    ensures found.Some? ==>
      found.value in candidates && found.value < |tickets|
      && tickets[found.value].command.commandId == id
    ensures found.None? ==>
      forall k :: 0 <= k < |candidates| ==> tickets[candidates[k]].command.commandId != id
  {
    if candidates == [] then None
    else if tickets[candidates[0]].command.commandId == id then Some(candidates[0])
    else FirstWithId(tickets, candidates[1..], id)
  }

  function Submit(r: Runner, command: Command): Reply
    requires InRange(r)
  {
    if command.action.Stop? then RequestStop(r, command.commandId)
    else if command.request.Some? && command.request.value.target != r.target
    then Reply(r, Err(Malformed))
    else if !Open(r) || (r.canceled && Launches(command)) then Reply(r, Err(Refused))
    else
      match KnownTicket(r, command)
      case Err(fault) => Reply(r, Err(fault))
      case Ok(Some(existing)) => Reply(r, Ok(existing))
      case Ok(None) =>
        if |r.mailbox| >= r.capacity then Reply(r, Err(Refused))
        else
          Reply(r.(tickets := r.tickets + [Ticket(command, Queued)],
                   mailbox := r.mailbox + [|r.tickets|]),
                Ok(|r.tickets|))
  }

  function RequestStop(r: Runner, commandId: Id): Reply
    requires InRange(r)
  {
    var command := Command(commandId, CommandAction.Stop, None);
    if Blank(commandId) then Reply(r, Err(Malformed)) else
    match KnownTicket(r, command)
    case Err(fault) => Reply(r, Err(fault))
    case Ok(Some(existing)) => Reply(r, Ok(existing))
    case Ok(None) =>
      if r.stop.Some? then Reply(r, Ok(r.stop.value))
      else if !Open(r) then Reply(r, Err(Refused))
      else
        var t := CancelPending(r, false);
        Reply(t.(tickets := t.tickets + [Ticket(command, Queued)], stop := Some(|t.tickets|)),
              Ok(|t.tickets|))
  }

  function Cancel(r: Runner): Runner
    requires InRange(r)
  {
    if !Open(r) then r else CancelPending(r, false)
  }

  function Shutdown(r: Runner): Runner
    requires InRange(r)
  {
    var t := CancelPending(r.(closing := true), true);
    if r.phase.New? then t.(phase := Phase.Stopped)
    else if r.phase.Stopped? || r.phase.Failed? then t
    else t.(phase := Stopping)
  }

  function Start(r: Runner, threadStarts: bool): Runner {
    if !r.phase.New? then r
    else if threadStarts then r.(phase := Starting, worker := Preparing)
    else r.(phase := Phase.Failed, failure := Some(Initialization), closing := true)
  }

  // ---------------------------------------------------------------- what the worker does

  /** Ownership is taken and the playback task is made, or one of the two fails. */
  function Prepare(r: Runner, owns: bool, made: bool): Runner {
    if !r.worker.Preparing? then r
    else if !owns then r.(worker := Closing, failure := Some(Ownership))
    else if !made then r.(worker := Leaving, failure := Some(Initialization))
    else r.(worker := Choosing, phase := if r.closing then Stopping else Phase.Running)
  }

  predicate StopQueued(r: Runner)
    requires InRange(r)
  {
    r.stop.Some? && r.tickets[r.stop.value].state.Queued?
  }

  function Take(r: Runner, k: nat): Runner
    requires k < |r.tickets|
  {
    r.(active := Some(k), tickets := Marked(r.tickets, k, TicketState.Running),
       worker := Calling(Some(k)), calls := r.calls + [k])
  }

  /** The worker's choice: a queued stop first, then leaving, then a step that is due, then the
      oldest command; with nothing to do it waits. */
  function Choose(r: Runner, due: bool): Runner
    requires InRange(r)
  {
    if !r.worker.Choosing? then r
    else if StopQueued(r) then Take(r, r.stop.value)
    else if r.closing then r.(worker := Leaving)
    else if due then r.(worker := Calling(None))
    else if r.mailbox != [] then Take(r.(mailbox := r.mailbox[1..]), r.mailbox[0])
    else r
  }

  /** The call of the playback task returns a view, or fails. */
  function Return(r: Runner, succeeds: bool): Runner
    requires InRange(r)
  {
    match r.worker
    case Calling(None) =>
      if succeeds then r.(worker := Choosing)
      else r.(worker := Leaving, failure := Some(StepFailed))
    case Calling(Some(k)) =>
      if succeeds then
        r.(worker := Choosing, active := None, tickets := Marked(r.tickets, k, Handled))
      else
        r.(worker := Leaving, failure := Some(CommandFailed),
           tickets := Marked(r.tickets, k, TicketState.Failed))
    case _ => r
  }

  /** Everything still queued is canceled, the stop included. */
  function CancelAll(r: Runner): Runner
    requires InRange(r)
  {
    var t := CancelPending(r.(closing := true), true);
    if t.stop.Some? && t.tickets[t.stop.value].state.Queued?
    then t.(tickets := Marked(t.tickets, t.stop.value, TicketState.Canceled)) else t
  }

  /** The worker leaves its loop, releases the playback task, and ends. */
  function Leave(r: Runner): Runner
    requires InRange(r)
  {
    if !r.worker.Leaving? then r else CancelAll(r).(worker := Closing, phase := Stopping)
  }

  function End(r: Runner, closes: bool): Runner
    requires InRange(r)
  {
    if !r.worker.Closing? then r
    else
      var failure := if r.failure.None? && !closes then Some(CloseFailed) else r.failure;
      CancelAll(r).(worker := Gone, failure := failure,
                    phase := if failure.Some? then Phase.Failed else Phase.Stopped)
  }

  datatype Event =
    | DoStart(threadStarts: bool) | DoSubmit(command: Command) | DoStop(commandId: Id) | DoCancel
    | DoShutdown
    | DoPrepare(owns: bool, made: bool) | DoChoose(due: bool) | DoReturn(succeeds: bool) | DoLeave
    | DoEnd(closes: bool)

  function Next(r: Runner, e: Event): Runner
    requires InRange(r)
  {
    match e
    case DoStart(threadStarts) => Start(r, threadStarts)
    case DoSubmit(command) => Submit(r, command).runner
    case DoStop(commandId) => RequestStop(r, commandId).runner
    case DoCancel => Cancel(r)
    case DoShutdown => Shutdown(r)
    case DoPrepare(owns, made) => Prepare(r, owns, made)
    case DoChoose(due) => Choose(r, due)
    case DoReturn(succeeds) => Return(r, succeeds)
    case DoLeave => Leave(r)
    case DoEnd(closes) => End(r, closes)
  }

  // ---------------------------------------------------------------- the invariant

  /** A ticket is queued exactly while it waits in the mailbox or as the stop, and running exactly
      while the worker is inside its call. */
  predicate TicketsPlaced(r: Runner)
    requires InRange(r)
  {
    && Distinct(r.mailbox)
    && (forall k :: k in r.mailbox ==>
          r.tickets[k].state.Queued? && !r.tickets[k].command.action.Stop?)
    && (r.stop.Some? ==> r.tickets[r.stop.value].command.action.Stop?)
    && (forall k :: 0 <= k < |r.tickets| && r.tickets[k].state.Queued? ==>
          k in r.mailbox || r.stop == Some(k))
    && (forall k :: 0 <= k < |r.tickets| ==>
          (r.tickets[k].state.Running? <==> r.worker == Calling(Some(k))))
  }

  /** Tickets handed to the playback task: each once, and none that is still queued. */
  predicate CallsOnce(r: Runner)
    requires InRange(r)
  {
    && Distinct(r.calls)
    && (forall k :: k in r.calls ==> k < |r.tickets| && !r.tickets[k].state.Queued?)
  }

  /** A stop that was accepted is queued, running or handled until the worker leaves; and a worker
      that leaves without a failure has handled it. */
  predicate StopKept(r: Runner)
    requires InRange(r)
  {
    r.stop.Some? ==>
      var state := r.tickets[r.stop.value].state;
      if r.worker.Leaving? || r.worker.Closing? || r.worker.Gone?
      then r.failure.None? || r.failure == Some(CloseFailed) ==> state.Handled?
      else state.Queued? || state.Running? || state.Handled?
  }

  predicate Valid(r: Runner) {
    && InRange(r) && TicketsPlaced(r) && CallsOnce(r) && StopKept(r)
    && |r.mailbox| <= r.capacity
    && (r.closing ==> r.mailbox == [])
    && (r.canceled ==> forall k :: k in r.mailbox ==> !Launches(r.tickets[k].command))
    && (r.worker.Unborn? ==> r.tickets == [] && r.mailbox == [] && !Open(r) && (r.phase.New? || r.closing))
    && (r.phase.New? ==> r.worker.Unborn?)
    && (r.failure == Some(CloseFailed) ==> r.worker.Gone?)
    && (r.worker.Leaving? || r.worker.Closing? ==> r.closing || r.failure.Some?)
    && (r.worker.Gone? ==> r.closing && forall k :: 0 <= k < |r.tickets| ==> r.tickets[k].Terminal())
  }

  lemma {:induction false} CancelPlaces(r: Runner, all: bool)
    requires Valid(r)
    ensures InRange(CancelPending(r, all)) && TicketsPlaced(CancelPending(r, all))
  {
    assert InRange(r) && TicketsPlaced(r);
    hide Valid, CallsOnce, StopKept, Launches, Distinct;
    var t := CancelPending(r, all);
    DistinctNothing();
    forall k | 0 <= k < |t.mailbox| ensures t.mailbox[k] < |t.tickets| {
      assert t.mailbox[k] in t.mailbox;
    }
    forall k | k in t.mailbox
      ensures t.tickets[k].state.Queued? && !t.tickets[k].command.action.Stop?
    {
      assert k in r.mailbox && t.tickets[k] == r.tickets[k];
    }
    forall k | 0 <= k < |t.tickets| && t.tickets[k].state.Queued?
      ensures k in t.mailbox || t.stop == Some(k)
    {
      assert t.tickets[k] == r.tickets[k];
    }
    forall k | 0 <= k < |t.tickets|
      ensures t.tickets[k].state.Running? <==> t.worker == Calling(Some(k))
    {
      assert k in r.mailbox ==> r.tickets[k].state.Queued?;
    }
  }

  lemma {:induction false} DistinctNothing()
    ensures Distinct([])
  {
  }

  lemma {:induction false} CancelKeepsCalls(r: Runner, all: bool)
    requires Valid(r) && InRange(CancelPending(r, all))
    ensures CallsOnce(CancelPending(r, all)) && StopKept(CancelPending(r, all))
  {
  }

  lemma {:induction false} CancelPendingKeeps(r: Runner, all: bool)
    requires Valid(r)
    ensures Valid(CancelPending(r, all))
    ensures all ==> CancelPending(r, all).mailbox == []
  {
    CancelPlaces(r, all);
    CancelKeepsCalls(r, all);
    hide TicketsPlaced, CallsOnce, StopKept;
    var t := CancelPending(r, all);
    forall k | k in t.mailbox ensures !Launches(t.tickets[k].command) {
    }
    forall k | 0 <= k < |t.tickets| && r.worker.Gone? ensures t.tickets[k].Terminal() {
    }
  }

  lemma {:induction false} NewTicketKeeps(r: Runner, command: Command)
    requires Valid(r) && Open(r) && command.WellFormed()
    requires !command.action.Stop? && (r.canceled ==> !Launches(command))
    requires |r.mailbox| < r.capacity
    ensures Valid(r.(tickets := r.tickets + [Ticket(command, Queued)],
                     mailbox := r.mailbox + [|r.tickets|]))
  {
  }

  lemma {:induction false} NewStopKeeps(r: Runner, commandId: Id)
    requires Valid(r) && Open(r) && r.stop.None?
    ensures var ticket := Ticket(Command(commandId, CommandAction.Stop, None), Queued);
            Valid(r.(tickets := r.tickets + [ticket], stop := Some(|r.tickets|)))
  {
  }

  /** Every other ticket keeps its state. */
  lemma {:induction false} MarkedOne(tickets: seq<Ticket>, k: nat, state: TicketState)
    requires k < |tickets|
    ensures forall i :: 0 <= i < |tickets| ==>
      Marked(tickets, k, state)[i] == if i == k then tickets[i].(state := state) else tickets[i]
  {
  }

  lemma {:induction false} TakesStop(r: Runner)
    requires Valid(r) && r.worker.Choosing? && StopQueued(r)
    ensures Valid(Take(r, r.stop.value))
  {
    MarkedOne(r.tickets, r.stop.value, TicketState.Running);
  }

  lemma {:induction false} TakesOldest(r: Runner)
    requires Valid(r) && r.worker.Choosing? && r.mailbox != [] && !StopQueued(r)
    ensures Valid(Take(r.(mailbox := r.mailbox[1..]), r.mailbox[0]))
  {
    hide Launches;
    var k := r.mailbox[0];
    MarkedOne(r.tickets, k, TicketState.Running);
    assert k in r.mailbox && k !in r.mailbox[1..];
    assert forall i :: i in r.mailbox <==> i == k || i in r.mailbox[1..];
    assert r.stop != Some(k);
  }

  lemma {:induction false} ChooseKeeps(r: Runner, due: bool)
    requires Valid(r)
    ensures Valid(Choose(r, due))
  {
    hide TicketsPlaced, CallsOnce, Take;
    if r.worker.Choosing? {
      if StopQueued(r) {
        TakesStop(r);
      } else if r.closing {
        LeavesClosed(r);
      } else if due {
        StepsNext(r);
      } else if r.mailbox != [] {
        TakesOldest(r);
      }
    }
  }

  lemma {:induction false} LeavesClosed(r: Runner)
    requires Valid(r) && r.worker.Choosing? && !StopQueued(r) && r.closing
    ensures Valid(r.(worker := Leaving))
  {
  }

  lemma {:induction false} StepsNext(r: Runner)
    requires Valid(r) && r.worker.Choosing?
    ensures Valid(r.(worker := Calling(None)))
  {
  }

  /** The ticket in a call is settled; all others stay where they are. */
  lemma {:induction false} SettlesCall(r: Runner, k: nat, state: TicketState)
    requires Valid(r) && r.worker == Calling(Some(k)) && (state.Handled? || state.Failed?)
    ensures k < |r.tickets| && k !in r.mailbox && r.tickets[k].state.Running?
    ensures var t := r.(tickets := Marked(r.tickets, k, state), worker := Choosing);
            InRange(t) && TicketsPlaced(t) && CallsOnce(t)
    ensures forall n :: n in r.mailbox ==>
      Marked(r.tickets, k, state)[n].command == r.tickets[n].command
  {
    hide Launches, StopKept, Distinct;
    assert r.tickets[k].state.Running?;
    assert k !in r.mailbox;
    MarkedOne(r.tickets, k, state);
  }

  lemma {:induction false} ReturnKeeps(r: Runner, succeeds: bool)
    requires Valid(r)
    ensures Valid(Return(r, succeeds))
  {
    if r.worker.Calling? && r.worker.ticket.Some? {
      var k := r.worker.ticket.value;
      var state := if succeeds then Handled else TicketState.Failed;
      SettlesCall(r, k, state);
      MarkedOne(r.tickets, k, state);
    }
  }

  lemma {:induction false} PrepareKeeps(r: Runner, owns: bool, made: bool)
    requires Valid(r)
    ensures Valid(Prepare(r, owns, made))
  {
  }

  lemma {:induction false} StartKeeps(r: Runner, threadStarts: bool)
    requires Valid(r)
    ensures Valid(Start(r, threadStarts))
  {
  }

  /** After everything queued was canceled, every ticket has its final state, unless it is the one
      in a call. */
  lemma {:induction false} CancelAllSettles(r: Runner)
    requires Valid(r) && (r.worker.Leaving? || r.worker.Closing?)
    ensures InRange(CancelAll(r)) && CancelAll(r).mailbox == [] && CancelAll(r).closing
    ensures forall k :: 0 <= k < |CancelAll(r).tickets| ==> CancelAll(r).tickets[k].Terminal()
    ensures TicketsPlaced(CancelAll(r)) && CallsOnce(CancelAll(r))
    ensures r.stop.Some? && r.tickets[r.stop.value].state.Handled? ==>
      CancelAll(r).tickets[r.stop.value].state.Handled?
    ensures CancelAll(r).stop == r.stop && CancelAll(r).worker == r.worker
    ensures CancelAll(r).failure == r.failure && CancelAll(r).calls == r.calls
    ensures CancelAll(r).capacity == r.capacity
  {
    var t := CancelPending(r.(closing := true), true);
    if t.stop.Some? && t.tickets[t.stop.value].state.Queued? {
      MarkedOne(t.tickets, t.stop.value, TicketState.Canceled);
    }
  }

  lemma {:induction false} LeaveKeeps(r: Runner)
    requires Valid(r)
    ensures Valid(Leave(r))
  {
    if r.worker.Leaving? {
      CancelAllSettles(r);
      hide CancelAll;
    }
  }

  lemma {:induction false} EndKeeps(r: Runner, closes: bool)
    requires Valid(r)
    ensures Valid(End(r, closes))
  {
    if r.worker.Closing? {
      CancelAllSettles(r);
      hide CancelAll;
    }
  }

  lemma {:induction false} ShutdownKeeps(r: Runner)
    requires Valid(r)
    ensures Valid(Shutdown(r))
  {
  }

  lemma {:induction false} StopKeeps(r: Runner, commandId: Id)
    requires Valid(r)
    ensures Valid(RequestStop(r, commandId).runner)
  {
    hide TicketsPlaced, CallsOnce, StopKept, KnownTicket;
    CancelPendingKeeps(r, false);
    if RequestStop(r, commandId).runner != r {
      NewStopKeeps(CancelPending(r, false), commandId);
    }
  }

  lemma {:induction false} SubmitKeeps(r: Runner, command: Command)
    requires Valid(r) && command.WellFormed()
    ensures Valid(Submit(r, command).runner)
  {
    hide TicketsPlaced, CallsOnce, StopKept, KnownTicket, RequestStop;
    if command.action.Stop? {
      StopKeeps(r, command.commandId);
    } else if Submit(r, command).runner != r {
      NewTicketKeeps(r, command);
    }
  }

  predicate WellFormedEvent(e: Event) {
    e.DoSubmit? ==> e.command.WellFormed()
  }

  lemma {:induction false} NextKeeps(r: Runner, e: Event)
    requires Valid(r) && WellFormedEvent(e)
    ensures Valid(Next(r, e))
  {
    hide Valid, Start, Submit, RequestStop, Cancel, Shutdown, Prepare, Choose, Return, Leave, End;
    match e
    case DoStart(threadStarts) => StartKeeps(r, threadStarts);
    case DoSubmit(command) => SubmitKeeps(r, command);
    case DoStop(commandId) => StopKeeps(r, commandId);
    case DoCancel => CancelKeeps(r);
    case DoShutdown => ShutdownKeeps(r);
    case DoPrepare(owns, made) => PrepareKeeps(r, owns, made);
    case DoChoose(due) => ChooseKeeps(r, due);
    case DoReturn(succeeds) => ReturnKeeps(r, succeeds);
    case DoLeave => LeaveKeeps(r);
    case DoEnd(closes) => EndKeeps(r, closes);
  }

  lemma {:induction false} CancelKeeps(r: Runner)
    requires Valid(r)
    ensures Valid(Cancel(r))
  {
    hide TicketsPlaced, CallsOnce, StopKept, CancelPending;
    CancelPendingKeeps(r, false);
  }

  // ---------------------------------------------------------------- every interleaving

  function Run(r: Runner, events: seq<Event>): (t: Runner)
    requires Valid(r) && forall k :: 0 <= k < |events| ==> WellFormedEvent(events[k])
    ensures Valid(t)
    decreases |events|
  {
    if events == [] then r
    else
      NextKeeps(r, events[0]);
      Run(Next(r, events[0]), events[1..])
  }

  lemma {:induction false} FreshIsValid(target: PlaybackTarget, capacity: nat)
    ensures Valid(NewRunner(target, capacity))
  {
  }

  /** In every interleaving of clients and worker: the mailbox stays within its capacity, each ticket
      is handed to the playback task at most once, and when the worker is gone every ticket is settled. */
  lemma {:induction false} EveryInterleaving(target: PlaybackTarget, capacity: nat,
                                             events: seq<Event>)
    requires forall k :: 0 <= k < |events| ==> WellFormedEvent(events[k])
    ensures Valid(NewRunner(target, capacity))
    ensures var r := Run(NewRunner(target, capacity), events);
            && |r.mailbox| <= r.capacity
            && (forall i, j :: 0 <= i < j < |r.calls| ==> r.calls[i] != r.calls[j])
            && (r.worker.Gone? ==>
                  forall k :: 0 <= k < |r.tickets| ==> r.tickets[k].Terminal())
            && (r.worker.Gone? && r.stop.Some? && r.failure.None? ==>
                  r.stop.value < |r.tickets| && r.tickets[r.stop.value].state.Handled?)
  {
    FreshIsValid(target, capacity);
    var r := Run(NewRunner(target, capacity), events);
    assert Valid(r);
    hide Run;
  }

  /** What one critical section may do to earlier tickets and calls. */
  predicate Continues(r: Runner, t: Runner) {
    && |r.tickets| <= |t.tickets|
    && (forall k :: 0 <= k < |r.tickets| ==> t.tickets[k].command == r.tickets[k].command)
    && r.calls <= t.calls
    && (r.canceled ==> t.canceled)
    && (r.stop.Some? ==> t.stop == r.stop)
  }

  lemma {:induction false} CancelContinues(r: Runner, all: bool)
    requires InRange(r)
    ensures Continues(r, CancelPending(r, all))
    ensures CancelPending(r, all).calls == r.calls && CancelPending(r, all).stop == r.stop
  {
    hide Retained, CanceledTickets, Launches;
  }

  /** What clients do touches no call. */
  lemma {:induction false} ClientContinues(r: Runner, e: Event)
    requires InRange(r) && (e.DoSubmit? || e.DoStop? || e.DoCancel? || e.DoShutdown? || e.DoStart?)
    ensures Continues(r, Next(r, e)) && Next(r, e).calls == r.calls
  {
    hide KnownTicket, CancelPending;
    CancelContinues(r, false);
    CancelContinues(r.(closing := true), true);
  }

  lemma {:induction false} LeavingContinues(r: Runner)
    requires InRange(r)
    ensures Continues(r, CancelAll(r)) && CancelAll(r).calls == r.calls
  {
    hide CancelPending;
    CancelContinues(r.(closing := true), true);
  }

  /** The worker begins at most one call. */
  lemma {:induction false} ChooseContinues(r: Runner, due: bool)
    requires InRange(r)
    ensures Continues(r, Choose(r, due)) && |Choose(r, due).calls| <= |r.calls| + 1
  {
  }

  lemma {:induction false} ReturnContinues(r: Runner, succeeds: bool)
    requires InRange(r)
    ensures Continues(r, Return(r, succeeds)) && Return(r, succeeds).calls == r.calls
  {
  }

  lemma {:induction false} WorkerContinues(r: Runner, e: Event)
    requires InRange(r) && (e.DoPrepare? || e.DoChoose? || e.DoReturn? || e.DoLeave? || e.DoEnd?)
    ensures Continues(r, Next(r, e)) && |Next(r, e).calls| <= |r.calls| + 1
  {
    hide CancelAll, Choose, Return, InRange;
    LeavingContinues(r);
    match e {
      case DoChoose(due) => ChooseContinues(r, due);
      case DoReturn(succeeds) => ReturnContinues(r, succeeds);
      case _ =>
    }
  }

  lemma {:induction false} NextContinues(r: Runner, e: Event)
    requires Valid(r)
    ensures Continues(r, Next(r, e))
    ensures |Next(r, e).calls| <= |r.calls| + 1
  {
    hide Valid, Continues, Next;
    ValidInRange(r);
    if e.DoSubmit? || e.DoStop? || e.DoCancel? || e.DoShutdown? || e.DoStart? {
      ClientContinues(r, e);
    } else {
      WorkerContinues(r, e);
    }
  }

  lemma {:induction false} ValidInRange(r: Runner)
    requires Valid(r)
    ensures InRange(r)
  {
  }

  /** A call that begins after cancellation is not a start or a resume; while a stop is queued it is
      the stop. */
  lemma {:induction false} NextCalls(r: Runner, e: Event)
    requires Valid(r)
    ensures var t := Next(r, e);
            |t.calls| > |r.calls| ==>
              && t.calls == r.calls + [t.calls[|r.calls|]]
              && var k := t.calls[|r.calls|];
              && k < |r.tickets|
              && (r.canceled ==> !Launches(r.tickets[k].command))
              && (StopQueued(r) ==> r.stop == Some(k))
  {
    hide CallsOnce, StopKept, KnownTicket, Retained;
  }

  lemma {:induction false} StopSurvivesCancel(r: Runner, all: bool)
    requires InRange(r) && StopQueued(r) && r.stop.value !in r.mailbox
    ensures var t := CancelPending(r, all);
            && t.stop == r.stop && |t.tickets| == |r.tickets|
            && t.tickets[r.stop.value] == r.tickets[r.stop.value]
  {
    hide Retained, Launches;
  }

  /** No client removes a queued stop. */
  lemma {:induction false} StopSurvivesClients(r: Runner, e: Event)
    requires InRange(r) && StopQueued(r) && r.stop.value !in r.mailbox && InRange(Next(r, e))
    requires e.DoSubmit? || e.DoStop? || e.DoCancel? || e.DoShutdown? || e.DoStart?
    ensures StopQueued(Next(r, e))
  {
    hide KnownTicket, CancelPending;
    StopSurvivesCancel(r, false);
    StopSurvivesCancel(r.(closing := true), true);
  }

  /** The worker takes it, leaves, or touches another ticket. */
  lemma {:induction false} StopWaitsForWorker(r: Runner, e: Event)
    requires InRange(r) && StopQueued(r) && r.worker != Calling(r.stop) && InRange(Next(r, e))
    requires e.DoPrepare? || e.DoChoose? || e.DoReturn? || e.DoLeave? || e.DoEnd?
    ensures var t := Next(r, e);
            |t.calls| > |r.calls| || StopQueued(t) || t.worker.Closing? || t.worker.Gone?
  {
    hide CancelAll;
  }

  /** A queued stop stays queued until it is called or the worker has left after a failure. */
  lemma {:induction false} StopWaits(r: Runner, e: Event)
    requires Valid(r) && WellFormedEvent(e) && StopQueued(r)
    ensures var t := Next(r, e);
            && Valid(t)
            && (|t.calls| > |r.calls| || StopQueued(t) || t.worker.Closing? || t.worker.Gone?)
  {
    hide Valid, Next;
    ValidInRange(r);
    NextKeeps(r, e);
    ValidInRange(Next(r, e));
    StopNotPending(r);
    if e.DoSubmit? || e.DoStop? || e.DoCancel? || e.DoShutdown? || e.DoStart? {
      StopSurvivesClients(r, e);
    } else {
      StopWaitsForWorker(r, e);
    }
  }

  lemma {:induction false} StopNotPending(r: Runner)
    requires Valid(r) && StopQueued(r)
    ensures r.stop.value !in r.mailbox && r.worker != Calling(r.stop)
  {
  }

  /** After a worker has left there are no more calls. */
  lemma {:induction false} NoMoreCalls(r: Runner, e: Event)
    requires Valid(r) && (r.worker.Leaving? || r.worker.Closing? || r.worker.Gone?)
    ensures Next(r, e).calls == r.calls
    ensures var w := Next(r, e).worker;
            if r.worker.Leaving? then w.Leaving? || w.Closing? else w.Closing? || w.Gone?
  {
    hide KnownTicket, Retained, TicketsPlaced, CallsOnce, StopKept;
  }

  lemma {:induction false} RunAfterLeaving(r: Runner, events: seq<Event>)
    requires Valid(r) && forall k :: 0 <= k < |events| ==> WellFormedEvent(events[k])
    requires r.worker.Leaving? || r.worker.Closing? || r.worker.Gone?
    ensures Run(r, events).calls == r.calls
    decreases |events|
  {
    hide Valid, Next;
    if events != [] {
      NextKeeps(r, events[0]);
      ValidInRange(r);
      NoMoreCalls(r, events[0]);
      RunAfterLeaving(Next(r, events[0]), events[1..]);
    }
  }

  lemma {:induction false} RunContinues(r: Runner, events: seq<Event>)
    requires Valid(r) && forall k :: 0 <= k < |events| ==> WellFormedEvent(events[k])
    ensures Continues(r, Run(r, events))
    decreases |events|
  {
    hide Valid, Next;
    ValidInRange(r);
    if events != [] {
      NextKeeps(r, events[0]);
      NextContinues(r, events[0]);
      RunContinues(Next(r, events[0]), events[1..]);
    }
  }

  /** Once cancellation is latched, no start and no resume ever leaves the mailbox again. */
  lemma {:induction false} NothingLaunchesAfterCancel(r: Runner, events: seq<Event>, i: nat)
    requires Valid(r) && forall k :: 0 <= k < |events| ==> WellFormedEvent(events[k])
    requires r.canceled && |r.calls| <= i < |Run(r, events).calls|
    ensures Run(r, events).calls[i] < |Run(r, events).tickets|
    ensures !Launches(Run(r, events).tickets[Run(r, events).calls[i]].command)
    decreases |events|
  {
    hide Valid, Next;
    ValidInRange(r);
    if events != [] {
      var t := Next(r, events[0]);
      NextKeeps(r, events[0]);
      NextContinues(r, events[0]);
      RunContinues(t, events[1..]);
      if i < |t.calls| {
        NextCalls(r, events[0]);
      } else {
        NothingLaunchesAfterCancel(t, events[1..], i);
      }
    }
  }

  /** While a stop is queued, whatever the clients and the worker do next, the first command handed
      to the playback task is that stop: it overtakes every queued command, and the worker does not leave
      before it without a failure. */
  lemma {:induction false} StopRunsFirst(r: Runner, events: seq<Event>)
    requires Valid(r) && forall k :: 0 <= k < |events| ==> WellFormedEvent(events[k])
    requires StopQueued(r)
    ensures var t := Run(r, events);
            && (|t.calls| > |r.calls| ==> t.calls[|r.calls|] == r.stop.value)
            && (t.worker.Gone? && (t.failure.None? || t.failure == Some(CloseFailed)) ==>
                  t.stop == r.stop && InRange(t) && t.tickets[r.stop.value].state.Handled?)
    decreases |events|
  {
    RunContinues(r, events);
    GoneHandled(Run(r, events));
    ValidInRange(r);
    hide Valid, Next;
    if events != [] {
      var t := Next(r, events[0]);
      StopWaits(r, events[0]);
      NextCalls(r, events[0]);
      NextContinues(r, events[0]);
      RunContinues(t, events[1..]);
      if |t.calls| == |r.calls| {
        ValidInRange(t);
        if StopQueued(t) {
          StopRunsFirst(t, events[1..]);
        } else {
          RunAfterLeaving(t, events[1..]);
        }
      }
    }
  }

  lemma {:induction false} GoneHandled(r: Runner)
    requires Valid(r)
    ensures r.worker.Gone? && (r.failure.None? || r.failure == Some(CloseFailed)) && r.stop.Some? ==>
      InRange(r) && r.tickets[r.stop.value].state.Handled?
  {
  }
}
