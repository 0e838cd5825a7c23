/** The order of service: commands are called in the order in which they were issued, whatever is
    canceled in between, and a worker that is left alone serves the whole mailbox. */
module RunnerOrder {
  import opened Values
  import opened RunnerProtocol

  // ---------------------------------------------------------------- first in, first out

  predicate Increasing(xs: seq<nat>) {
    forall i, j :: 0 <= i < j < |xs| ==> xs[i] < xs[j]
  }

  predicate IsStop(r: Runner, k: nat) {
    k < |r.tickets| && r.tickets[k].command.action.Stop?
  }

  /** Calls that are not the stop follow the order of issue. */
  predicate CalledInOrder(r: Runner) {
    forall i, j :: 0 <= i < j < |r.calls| && !IsStop(r, r.calls[i]) && !IsStop(r, r.calls[j]) ==>
      r.calls[i] < r.calls[j]
  }

  predicate Issued(r: Runner) {
    && (forall i :: 0 <= i < |r.calls| ==> r.calls[i] < |r.tickets|)
    && (forall k :: 0 <= k < |r.mailbox| ==>
          r.mailbox[k] < |r.tickets| && !IsStop(r, r.mailbox[k]))
  }

  /** What waits was issued after everything that was called, and waits in the order of issue. */
  predicate Queue(r: Runner) {
    && Issued(r) && CalledInOrder(r) && Increasing(r.mailbox)
    && forall i, k :: 0 <= i < |r.calls| && 0 <= k < |r.mailbox| && !IsStop(r, r.calls[i]) ==>
         r.calls[i] < r.mailbox[k]
  }

  lemma {:induction false} RetainedInOrder(tickets: seq<Ticket>, mailbox: seq<nat>)
    requires forall k :: 0 <= k < |mailbox| ==> mailbox[k] < |tickets|
    requires Increasing(mailbox)
    ensures Increasing(Retained(tickets, mailbox))
  {
    if mailbox != [] {
      RetainedInOrder(tickets, mailbox[1..]);
      var rest := Retained(tickets, mailbox[1..]);
      forall k | 0 <= k < |rest| ensures mailbox[0] < rest[k] {
        assert rest[k] in rest;
      }
    }
  }

  /** The same calls, with the same stops among them, and part of the same mailbox in order. */
  lemma {:induction false} LessWaits(r: Runner, t: Runner)
    requires Queue(r) && t.calls == r.calls && |t.tickets| == |r.tickets|
    requires forall k :: 0 <= k < |r.tickets| ==> t.tickets[k].command == r.tickets[k].command
    requires Increasing(t.mailbox) && forall k :: k in t.mailbox ==> k in r.mailbox
    ensures Queue(t)
  {
    hide Increasing;
    assert forall k :: 0 <= k < |t.mailbox| ==> t.mailbox[k] in t.mailbox;
    assert forall k :: 0 <= k < |r.tickets| ==> (IsStop(t, k) <==> IsStop(r, k));
  }

  lemma {:induction false} CancelOrders(r: Runner, all: bool)
    requires InRange(r) && Queue(r)
    ensures InRange(CancelPending(r, all)) ==> Queue(CancelPending(r, all))
  {
    hide Launches, Queue;
    QueueIncreasing(r);
    RetainedInOrder(r.tickets, r.mailbox);
    LessWaits(r, CancelPending(r, all));
  }

  lemma {:induction false} QueueIncreasing(r: Runner)
    requires Queue(r)
    ensures Increasing(r.mailbox)
  {
  }

  /** A stop is issued, or a command: the latest of all, and not yet called. */
  lemma {:induction false} StopIssued(r: Runner, ticket: Ticket)
    requires Queue(r)
    ensures Queue(r.(tickets := r.tickets + [ticket], stop := Some(|r.tickets|)))
  {
    hide Increasing;
    assert forall k :: 0 <= k < |r.tickets| ==> (r.tickets + [ticket])[k] == r.tickets[k];
  }

  lemma {:induction false} CommandIssued(r: Runner, ticket: Ticket)
    requires Queue(r) && !ticket.command.action.Stop?
    ensures Queue(r.(tickets := r.tickets + [ticket], mailbox := r.mailbox + [|r.tickets|]))
  {
    assert forall k :: 0 <= k < |r.tickets| ==> (r.tickets + [ticket])[k] == r.tickets[k];
  }

  lemma {:induction false} TakeOrders(r: Runner, rest: seq<nat>, k: nat)
    requires Queue(r) && InRange(r) && k < |r.tickets|
    requires (IsStop(r, k) && rest == r.mailbox)
          || (r.mailbox != [] && k == r.mailbox[0] && rest == r.mailbox[1..])
    ensures Queue(Take(r.(mailbox := rest), k))
  {
    var t := Take(r.(mailbox := rest), k);
    assert forall n :: 0 <= n < |r.tickets| ==> t.tickets[n].command == r.tickets[n].command;
    assert forall n :: IsStop(t, n) <==> IsStop(r, n);
    assert forall n :: 0 <= n < |rest| ==> rest[n] in r.mailbox;
  }

  lemma {:induction false} SameOrders(r: Runner, t: Runner)
    requires Queue(r) && t.calls == r.calls && t.mailbox == r.mailbox
    requires |t.tickets| == |r.tickets|
    requires forall k :: 0 <= k < |r.tickets| ==> t.tickets[k].command == r.tickets[k].command
    ensures Queue(t)
  {
    hide Queue, Increasing;
    QueueIncreasing(r);
    LessWaits(r, t);
  }

  lemma {:induction false} CancelAllOrders(r: Runner)
    requires InRange(r) && Queue(r)
    ensures Queue(CancelAll(r))
  {
    hide Queue, CancelPending;
    SameOrders(r, r.(closing := true));
    CancelOrders(r.(closing := true), true);
    CancelContinues(r.(closing := true), true);
    var t := CancelPending(r.(closing := true), true);
    CancelRange(r.(closing := true), true);
    if t.stop.Some? && t.tickets[t.stop.value].state.Queued? {
      SameOrders(t, CancelAll(r));
    }
  }

  lemma {:induction false} CancelRange(r: Runner, all: bool)
    requires InRange(r)
    ensures InRange(CancelPending(r, all)) && |CancelPending(r, all).tickets| == |r.tickets|
  {
    hide Launches;
    var t := CancelPending(r, all);
    assert forall k :: 0 <= k < |t.mailbox| ==> t.mailbox[k] in t.mailbox;
  }

  lemma {:induction false} ClientOrders(r: Runner, e: Event)
    requires Valid(r) && Queue(r) && InRange(r)
    requires e.DoSubmit? || e.DoStop? || e.DoCancel? || e.DoShutdown? || e.DoStart?
    ensures Queue(Next(r, e))
  {
    hide Valid, Queue, CancelPending, KnownTicket, RequestStop;
    CancelRange(r, false);
    CancelRange(r.(closing := true), true);
    CancelOrders(r, false);
    SameOrders(r, r.(closing := true));
    CancelOrders(r.(closing := true), true);
    SameOrders(CancelPending(r.(closing := true), true), Shutdown(r));
    if e.DoStart? {
      SameOrders(r, RunnerProtocol.Start(r, e.threadStarts));
    }
    if e.DoStop? {
      StopOrders(r, e.commandId);
    }
    if e.DoSubmit? {
      StopOrders(r, e.command.commandId);
      if !e.command.action.Stop? {
        CommandIssued(r, Ticket(e.command, Queued));
      }
    }
  }

  lemma {:induction false} StopOrders(r: Runner, commandId: Id)
    requires InRange(r) && Queue(r)
    ensures Queue(RequestStop(r, commandId).runner)
  {
    hide Queue, CancelPending, KnownTicket;
    CancelRange(r, false);
    CancelOrders(r, false);
    StopIssued(CancelPending(r, false), Ticket(Command(commandId, CommandAction.Stop, None), Queued));
  }

  lemma {:induction false} ChooseOrders(r: Runner, due: bool)
    requires Valid(r) && Queue(r) && InRange(r)
    ensures Queue(Choose(r, due))
  {
    hide Queue, Take;
    if r.worker.Choosing? {
      if StopQueued(r) {
        TakeOrders(r, r.mailbox, r.stop.value);
        assert r.(mailbox := r.mailbox) == r;
      } else if !r.closing && !due && r.mailbox != [] {
        TakeOrders(r, r.mailbox[1..], r.mailbox[0]);
      } else {
        SameOrders(r, Choose(r, due));
      }
    }
  }

  lemma {:induction false} WorkerOrders(r: Runner, e: Event)
    requires Valid(r) && Queue(r) && InRange(r)
    requires e.DoPrepare? || e.DoChoose? || e.DoReturn? || e.DoLeave? || e.DoEnd?
    ensures Queue(Next(r, e))
  {
    hide Valid, Queue, CancelAll, Choose;
    CancelAllOrders(r);
    CancelAllKeeps(r);
    match e {
      case DoPrepare(owns, made) => SameOrders(r, Prepare(r, owns, made));
      case DoChoose(due) => ChooseOrders(r, due);
      case DoReturn(succeeds) => SameOrders(r, Return(r, succeeds));
      case DoLeave => SameOrders(CancelAll(r), CancelAll(r).(worker := Closing, phase := Stopping));
      case DoEnd(closes) =>
        if r.worker.Closing? {
          SameOrders(CancelAll(r), End(r, closes));
        }
    }
  }

  lemma {:induction false} CancelAllKeeps(r: Runner)
    requires InRange(r)
    ensures |CancelAll(r).tickets| == |r.tickets|
  {
    hide CancelPending;
    CancelRange(r.(closing := true), true);
  }

  lemma {:induction false} NextOrders(r: Runner, e: Event)
    requires Valid(r) && Queue(r)
    ensures Queue(Next(r, e))
  {
    hide Valid, Queue, Next;
    ValidInRange(r);
    if e.DoSubmit? || e.DoStop? || e.DoCancel? || e.DoShutdown? || e.DoStart? {
      ClientOrders(r, e);
    } else {
      WorkerOrders(r, e);
    }
  }

  lemma {:induction false} RunOrders(r: Runner, events: seq<Event>)
    requires Valid(r) && Queue(r)
    requires forall k :: 0 <= k < |events| ==> WellFormedEvent(events[k])
    ensures Queue(Run(r, events))
    decreases |events|
  {
    hide Valid, Queue, Next;
    if events != [] {
      NextKeeps(r, events[0]);
      ValidInRange(r);
      NextOrders(r, events[0]);
      RunOrders(Next(r, events[0]), events[1..]);
    }
  }

  /** In every interleaving, the commands that were handed to the playback task were handed over in
      the order in which their tickets were issued; only the stop may overtake. */
  lemma {:induction false} ServedInOrder(target: PlaybackTarget, capacity: nat, events: seq<Event>)
    requires forall k :: 0 <= k < |events| ==> WellFormedEvent(events[k])
    ensures Valid(NewRunner(target, capacity))
    ensures var r := Run(NewRunner(target, capacity), events);
            && (forall i, j ::
                  0 <= i < j < |r.calls| && !IsStop(r, r.calls[i]) && !IsStop(r, r.calls[j]) ==>
                    r.calls[i] < r.calls[j])
            && (forall i, k ::
                  0 <= i < |r.calls| && 0 <= k < |r.mailbox| && !IsStop(r, r.calls[i]) ==>
                    r.calls[i] < r.mailbox[k])
  {
    FreshIsValid(target, capacity);
    hide Valid, Run;
    assert Queue(NewRunner(target, capacity));
    RunOrders(NewRunner(target, capacity), events);
  }

  // ---------------------------------------------------------------- what is accepted

  /** The ticket waits in the mailbox, is in a call, or is the stop. */
  predicate Waits(r: Runner, k: nat) {
    k < |r.tickets| && (k in r.mailbox || r.active == Some(k) || r.stop == Some(k))
  }

  predicate WaitsAs(r: Runner, k: nat, id: Id) {
    Waits(r, k) && r.tickets[k].command.commandId == id
  }

  /** A command for this target may be taken now. */
  predicate Admits(r: Runner, command: Command) {
    && (command.request.Some? ==> command.request.value.target == r.target)
    && !r.closing && (r.phase.Starting? || r.phase.Running?)
    && (r.canceled ==> !command.action.Start? && !command.action.Resume?)
  }

  lemma {:induction false} CandidatesWait(r: Runner)
    requires InRange(r)
    ensures forall k: nat :: k in Candidates(r) <==> Waits(r, k)
  {
  }

  lemma {:induction false} KnownWaits(r: Runner, command: Command)
    requires InRange(r)
    ensures match KnownTicket(r, command)
            case Ok(None) => forall k: nat :: !WaitsAs(r, k, command.commandId)
            case Ok(Some(k)) =>
              k < |r.tickets| && WaitsAs(r, k, command.commandId) && r.tickets[k].command == command
            case Err(fault) =>
              && fault.Malformed?
              && exists k: nat :: k < |r.tickets| && WaitsAs(r, k, command.commandId)
                   && r.tickets[k].command != command
  {
    CandidatesWait(r);
    hide Candidates;
    var found := FirstWithId(r.tickets, Candidates(r), command.commandId);
    if found.Some? {
      assert WaitsAs(r, found.value, command.commandId);
    } else {
      forall k: nat ensures !WaitsAs(r, k, command.commandId) {
        if Waits(r, k) {
          var i :| 0 <= i < |Candidates(r)| && Candidates(r)[i] == k;
        }
      }
    }
  }

  /** No two waiting tickets have one identity. */
  predicate WaitingOnce(r: Runner) {
    forall k, m :: 0 <= k < m < |r.tickets| && Waits(r, k) && Waits(r, m) ==>
      r.tickets[k].command.commandId != r.tickets[m].command.commandId
  }

  /** What becomes of a command that is not a stop: it is refused when it may not be taken now; a
      waiting command of its identity is answered for, if it is the same command; otherwise it is
      issued at the end of the mailbox, if there is room. */
  lemma {:induction false} SubmitExactly(r: Runner, command: Command)
    requires InRange(r) && WaitingOnce(r) && command.WellFormed() && !command.action.Stop?
    ensures var reply := Submit(r, command);
            var known := exists k: nat :: k < |r.tickets| && WaitsAs(r, k, command.commandId);
            && (Admits(r, command) && !known && |r.mailbox| < r.capacity
                <==> reply.ticket == Ok(|r.tickets|))
            && (reply.ticket == Ok(|r.tickets|) ==>
                  reply.runner == r.(tickets := r.tickets + [Ticket(command, Queued)],
                                     mailbox := r.mailbox + [|r.tickets|]))
            && (reply.ticket != Ok(|r.tickets|) ==> reply.runner == r)
            && (forall k: nat :: k < |r.tickets| ==>
                  (reply.ticket == Ok(k)
                   <==> Admits(r, command) && WaitsAs(r, k, command.commandId)
                        && r.tickets[k].command == command))
  {
    hide KnownTicket, Waits, InRange;
    KnownWaits(r, command);
  }

  /** What becomes of a stop: it is malformed without an identity or when the identity names waiting
      work that is not a stop; a waiting ticket of its identity, or the one stop there is, answers
      it; otherwise it is issued while the runner is open, and cancels what would launch. */
  lemma {:induction false} StopExactly(r: Runner, commandId: Id)
    requires InRange(r) && WaitingOnce(r)
    ensures var reply := RequestStop(r, commandId);
            var command := Command(commandId, CommandAction.Stop, None);
            var known := exists k: nat :: k < |r.tickets| && WaitsAs(r, k, commandId);
            var open := !r.closing && (r.phase.Starting? || r.phase.Running?);
            && (reply.ticket == Ok(|r.tickets|) <==>
                  !Blank(commandId) && !known && r.stop.None? && open)
            && (reply.ticket == Ok(|r.tickets|) ==>
                  && reply.runner.stop == Some(|r.tickets|)
                  && reply.runner.canceled
                  && reply.runner.tickets
                     == CanceledTickets(r, false) + [Ticket(command, Queued)]
                  && (forall k: nat :: k in reply.runner.mailbox <==>
                        k in r.mailbox && !r.tickets[k].command.action.Start?
                        && !r.tickets[k].command.action.Resume?))
            && (reply.ticket != Ok(|r.tickets|) ==> reply.runner == r)
            && (forall k: nat :: k < |r.tickets| ==>
                  (reply.ticket == Ok(k) <==>
                     && !Blank(commandId)
                     && (if known then WaitsAs(r, k, commandId) && r.tickets[k].command == command
                         else r.stop == Some(k))))
  {
    hide KnownTicket, Waits, WaitsAs, WaitingOnce, CancelPending, CanceledTickets, Blank, InRange;
    var command := Command(commandId, CommandAction.Stop, None);
    KnownWaits(r, command);
    CancelLeaves(r);
    OneKnown(r, command);
  }

  lemma {:induction false} CancelLeaves(r: Runner)
    requires InRange(r)
    ensures var t := CancelPending(r, false);
            && t.canceled && t.tickets == CanceledTickets(r, false) && |t.tickets| == |r.tickets|
            && t.stop == r.stop
            && (forall k: nat :: k in t.mailbox <==>
                  k in r.mailbox && k < |r.tickets| && !r.tickets[k].command.action.Start?
                  && !r.tickets[k].command.action.Resume?)
    ensures forall k: nat :: k in r.mailbox ==> k < |r.tickets|
  {
    hide Retained;
  }

  /** The known ticket is the only one that waits under its identity. */
  lemma {:induction false} OneKnown(r: Runner, command: Command)
    requires InRange(r) && WaitingOnce(r)
    ensures match KnownTicket(r, command)
            case Ok(Some(n)) =>
              && n < |r.tickets| && WaitsAs(r, n, command.commandId)
              && forall k: nat :: k < |r.tickets| ==>
                   (WaitsAs(r, k, command.commandId) && r.tickets[k].command == command <==> k == n)
            case Ok(None) => forall k: nat :: !WaitsAs(r, k, command.commandId)
            case Err(fault) =>
              && (exists k: nat :: k < |r.tickets| && WaitsAs(r, k, command.commandId))
              && forall k: nat :: k < |r.tickets| ==>
                   !(WaitsAs(r, k, command.commandId) && r.tickets[k].command == command)
    ensures r.stop.Some? ==> r.stop.value < |r.tickets|
  {
    hide KnownTicket, Waits;
    KnownWaits(r, command);
  }

  lemma {:induction false} LessWaiting(r: Runner, t: Runner)
    requires WaitingOnce(r) && |t.tickets| == |r.tickets|
    requires forall k :: 0 <= k < |r.tickets| ==> t.tickets[k].command == r.tickets[k].command
    requires forall k: nat :: Waits(t, k) ==> Waits(r, k)
    ensures WaitingOnce(t)
  {
    hide Waits;
  }

  lemma {:induction false} CancelWaits(r: Runner, all: bool)
    requires InRange(r) && WaitingOnce(r)
    ensures WaitingOnce(CancelPending(r, all))
    ensures forall k: nat :: Waits(CancelPending(r, all), k) ==> Waits(r, k)
  {
    CancelContinues(r, all);
    CancelRange(r, all);
    LessWaiting(r, CancelPending(r, all));
  }

  lemma {:induction false} CancelAllWaits(r: Runner)
    requires InRange(r) && WaitingOnce(r)
    ensures WaitingOnce(CancelAll(r))
  {
    hide WaitingOnce, CancelPending;
    LessWaiting(r, r.(closing := true));
    CancelWaits(r.(closing := true), true);
    CancelRange(r.(closing := true), true);
    LessWaiting(CancelPending(r.(closing := true), true), CancelAll(r));
  }

  /** A ticket of a new identity is issued. */
  lemma {:induction false} MoreWaiting(r: Runner, t: Runner, ticket: Ticket)
    requires WaitingOnce(r) && t.tickets == r.tickets + [ticket]
    requires forall k: nat :: k < |r.tickets| && Waits(t, k) ==> Waits(r, k)
    requires forall k: nat :: !WaitsAs(r, k, ticket.command.commandId)
    ensures WaitingOnce(t)
  {
    hide Waits;
    forall k, m | 0 <= k < m < |t.tickets| && Waits(t, k) && Waits(t, m)
      ensures t.tickets[k].command.commandId != t.tickets[m].command.commandId
    {
      assert t.tickets[k] == r.tickets[k];
      if m == |r.tickets| {
        assert !WaitsAs(r, k, ticket.command.commandId);
      } else {
        assert t.tickets[m] == r.tickets[m];
      }
    }
  }

  lemma {:induction false} StopWaitsOnce(r: Runner, commandId: Id)
    requires InRange(r) && WaitingOnce(r)
    ensures WaitingOnce(RequestStop(r, commandId).runner)
  {
    hide CancelPending, KnownTicket, WaitingOnce;
    var command := Command(commandId, CommandAction.Stop, None);
    var u := CancelPending(r, false);
    CancelRange(r, false);
    CancelWaits(r, false);
    CancelContinues(r, false);
    KnownWaits(r, command);
    if RequestStop(r, commandId).runner != r {
      forall k: nat ensures !WaitsAs(u, k, commandId) {
        assert !WaitsAs(r, k, commandId);
        if Waits(u, k) {
          assert u.tickets[k].command == r.tickets[k].command;
        }
      }
      MoreWaiting(u, RequestStop(r, commandId).runner, Ticket(command, Queued));
    }
  }

  lemma {:induction false} SubmitWaitsOnce(r: Runner, command: Command)
    requires InRange(r) && WaitingOnce(r)
    ensures WaitingOnce(Submit(r, command).runner)
  {
    hide KnownTicket, RequestStop, WaitingOnce;
    StopWaitsOnce(r, command.commandId);
    KnownWaits(r, command);
    if !command.action.Stop? && Submit(r, command).runner != r {
      MoreWaiting(r, Submit(r, command).runner, Ticket(command, Queued));
    }
  }

  lemma {:induction false} ClientWaitsOnce(r: Runner, e: Event)
    requires InRange(r) && WaitingOnce(r)
    requires e.DoSubmit? || e.DoStop? || e.DoCancel? || e.DoShutdown? || e.DoStart?
    ensures WaitingOnce(Next(r, e))
  {
    hide CancelPending, RequestStop, Submit, WaitingOnce;
    match e {
      case DoSubmit(command) => SubmitWaitsOnce(r, command);
      case DoStop(commandId) => StopWaitsOnce(r, commandId);
      case DoCancel => CancelWaits(r, false);
      case DoShutdown =>
        LessWaiting(r, r.(closing := true));
        CancelWaits(r.(closing := true), true);
        CancelRange(r.(closing := true), true);
        LessWaiting(CancelPending(r.(closing := true), true), Next(r, e));
      case DoStart(threadStarts) => LessWaiting(r, Next(r, e));
    }
  }

  lemma {:induction false} WorkerWaitsOnce(r: Runner, e: Event)
    requires InRange(r) && WaitingOnce(r)
    requires e.DoPrepare? || e.DoChoose? || e.DoReturn? || e.DoLeave? || e.DoEnd?
    ensures WaitingOnce(Next(r, e))
  {
    hide CancelAll, WaitingOnce, Choose;
    CancelAllWaits(r);
    CancelAllKeeps(r);
    match e {
      case DoChoose(due) => ChooseWaits(r, due);
      case DoLeave =>
        LessWaiting(CancelAll(r), CancelAll(r).(worker := Closing, phase := Stopping));
      case DoEnd(closes) =>
        if r.worker.Closing? {
          LessWaiting(CancelAll(r), Next(r, e));
        }
      case DoPrepare(owns, made) => LessWaiting(r, Next(r, e));
      case DoReturn(succeeds) => LessWaiting(r, Next(r, e));
    }
  }

  lemma {:induction false} NextWaitsOnce(r: Runner, e: Event)
    requires Valid(r) && WaitingOnce(r)
    ensures WaitingOnce(Next(r, e))
  {
    hide Valid, WaitingOnce, Next;
    ValidInRange(r);
    if e.DoSubmit? || e.DoStop? || e.DoCancel? || e.DoShutdown? || e.DoStart? {
      ClientWaitsOnce(r, e);
    } else {
      WorkerWaitsOnce(r, e);
    }
  }

  lemma {:induction false} ChooseWaits(r: Runner, due: bool)
    requires InRange(r) && WaitingOnce(r)
    ensures WaitingOnce(Choose(r, due))
  {
    LessWaiting(r, Choose(r, due));
  }

  /** In every interleaving the waiting tickets have different identities, so an identity finds at
      most one of them. */
  lemma {:induction false} WaitingIsUnique(r: Runner, events: seq<Event>)
    requires Valid(r) && WaitingOnce(r)
    requires forall k :: 0 <= k < |events| ==> WellFormedEvent(events[k])
    ensures WaitingOnce(Run(r, events))
    decreases |events|
  {
    hide Valid, WaitingOnce, Next;
    if events != [] {
      NextKeeps(r, events[0]);
      ValidInRange(r);
      NextWaitsOnce(r, events[0]);
      WaitingIsUnique(Next(r, events[0]), events[1..]);
    }
  }

  // ---------------------------------------------------------------- a worker that is left alone

  /** Choose and return, `n` times. */
  function Rounds(n: nat): seq<Event> {
    if n == 0 then [] else [DoChoose(false), DoReturn(true)] + Rounds(n - 1)
  }

  lemma {:induction false} RoundsAreWellFormed(n: nat)
    ensures |Rounds(n)| == 2 * n
    ensures forall k :: 0 <= k < |Rounds(n)| ==> WellFormedEvent(Rounds(n)[k])
  {
    if n > 0 {
      RoundsAreWellFormed(n - 1);
    }
  }

  /** One round serves the oldest command. */
  lemma {:induction false} RoundServes(r: Runner)
    requires Valid(r) && r.worker.Choosing? && !r.closing && !StopQueued(r) && r.mailbox != []
    ensures InRange(Next(r, DoChoose(false)))
    ensures var t := Next(Next(r, DoChoose(false)), DoReturn(true));
            && t.worker.Choosing? && !t.closing && t.stop == r.stop
            && t.mailbox == r.mailbox[1..] && t.calls == r.calls + [r.mailbox[0]]
            && |t.tickets| == |r.tickets| && r.mailbox[0] < |t.tickets|
            && t.tickets[r.mailbox[0]].state.Handled?
            && forall k :: 0 <= k < |t.tickets| && k != r.mailbox[0] ==> t.tickets[k] == r.tickets[k]
  {
    hide StopKept, CallsOnce, TicketsPlaced, Launches;
  }

  /** With nothing else happening and every call succeeding, the whole mailbox is served, in its
      order. */
  lemma {:induction false} MailboxIsServed(r: Runner)
    requires Valid(r) && r.worker.Choosing? && !r.closing && !StopQueued(r)
    ensures forall k :: 0 <= k < |Rounds(|r.mailbox|)| ==>
      WellFormedEvent(Rounds(|r.mailbox|)[k])
    ensures var t := Run(r, Rounds(|r.mailbox|));
            && t.mailbox == [] && t.calls == r.calls + r.mailbox
            && |t.tickets| == |r.tickets|
            && (forall k :: 0 <= k < |r.mailbox| ==>
                  r.mailbox[k] < |t.tickets| && t.tickets[r.mailbox[k]].state.Handled?)
            && forall k :: 0 <= k < |t.tickets| && k !in r.mailbox ==> t.tickets[k] == r.tickets[k]
    decreases |r.mailbox|
  {
    hide Valid, Next;
    RoundsAreWellFormed(|r.mailbox|);
    ValidInRange(r);
    if r.mailbox != [] {
      var events := Rounds(|r.mailbox|);
      var u := Next(r, DoChoose(false));
      NextKeeps(r, DoChoose(false));
      RoundServes(r);
      var t := Next(u, DoReturn(true));
      NextKeeps(u, DoReturn(true));
      assert events[0] == DoChoose(false) && events[1..][0] == DoReturn(true);
      assert events[1..][1..] == Rounds(|r.mailbox| - 1);
      ValidInRange(t);
      assert Run(r, events) == Run(t, Rounds(|t.mailbox|));
      StaysUnstopped(r, t);
      MailboxIsServed(t);
      MailboxDistinct(r);
    }
  }

  lemma {:induction false} StaysUnstopped(r: Runner, t: Runner)
    requires Valid(r) && InRange(t) && t.stop == r.stop && !StopQueued(r) && r.mailbox != []
    requires |t.tickets| == |r.tickets|
    requires r.mailbox[0] < |t.tickets| && t.tickets[r.mailbox[0]].state.Handled?
    requires forall k :: 0 <= k < |t.tickets| && k != r.mailbox[0] ==> t.tickets[k] == r.tickets[k]
    ensures !StopQueued(t)
  {
  }

  lemma {:induction false} MailboxDistinct(r: Runner)
    requires Valid(r)
    ensures Distinct(r.mailbox)
  {
  }

  // ---------------------------------------------------------------- the life of a worker

  /** A worker that owns its locks and has its playback task starts to choose. */
  lemma {:induction false} WorkerStarts(r: Runner)
    requires Valid(r) && r.phase.New? && !r.closing
    ensures InRange(r) && InRange(Next(r, DoStart(true)))
    ensures var t := Next(Next(r, DoStart(true)), DoPrepare(true, true));
            t == r.(phase := Phase.Running, worker := Choosing)
  {
  }

  /** A worker that cannot start says why: its thread, its locks, or its playback task. */
  lemma {:induction false} WorkerCannotStart(r: Runner, owns: bool)
    requires Valid(r) && r.phase.New? && !r.closing
    ensures InRange(r) && InRange(Next(r, DoStart(true)))
    ensures var t := Next(r, DoStart(false));
            t.phase.Failed? && t.failure == Some(Initialization) && t.closing
    ensures var t := Next(Next(r, DoStart(true)), DoPrepare(owns, false));
            if owns then t.worker.Leaving? && t.failure == Some(Initialization)
            else t.worker.Closing? && t.failure == Some(Ownership)
  {
  }

  /** The end of a worker: it takes no further command, and everything queued is canceled. */
  lemma {:induction false} WorkerEnds(r: Runner, due: bool, closes: bool)
    requires Valid(r) && r.worker.Choosing? && !StopQueued(r) && r.failure.None?
    requires r.phase.Running?
    ensures forall k :: 0 <= k < 4 ==> WellFormedEvent(Ending(due, closes)[k])
    ensures var t := Run(r, Ending(due, closes));
            && t.worker.Gone? && t.calls == r.calls
            && (if closes then t.phase.Stopped? && t.failure.None?
                else t.phase.Failed? && t.failure == Some(CloseFailed))
            && (forall k :: 0 <= k < |t.tickets| ==> t.tickets[k].Terminal())
            && |t.tickets| == |r.tickets|
            && (forall k :: k in r.mailbox ==> k < |t.tickets| && t.tickets[k].state.Canceled?)
  {
    hide Valid, Next;
    var events := Ending(due, closes);
    ValidInRange(r);
    NextKeeps(r, DoShutdown);
    var closing := Next(r, DoShutdown);
    ValidInRange(closing);
    ShutsDown(r);
    NextKeeps(closing, DoChoose(due));
    var leaving := Next(closing, DoChoose(due));
    ValidInRange(leaving);
    ClosedLeaves(closing, due);
    NextKeeps(leaving, DoLeave);
    var left := Next(leaving, DoLeave);
    ValidInRange(left);
    LeaverCloses(leaving);
    NextKeeps(left, DoEnd(closes));
    var t := Next(left, DoEnd(closes));
    CloserIsGone(left, closes);
    assert events[1..][0] == DoChoose(due) && events[1..][1..][0] == DoLeave;
    assert events[1..][1..][1..] == [DoEnd(closes)] && [DoEnd(closes)][1..] == [];
    assert Run(t, []) == t;
    assert Run(left, [DoEnd(closes)]) == t;
    assert Run(leaving, events[1..][1..]) == t;
    assert Run(closing, events[1..]) == t;
    GoneIsTerminal(t);
  }

  function Ending(due: bool, closes: bool): (events: seq<Event>)
    ensures |events| == 4
  {
    [DoShutdown, DoChoose(due), DoLeave, DoEnd(closes)]
  }

  lemma {:induction false} ShutsDown(r: Runner)
    requires Valid(r) && r.worker.Choosing? && !StopQueued(r) && r.phase.Running?
    ensures InRange(r)
    ensures var t := Next(r, DoShutdown);
            && InRange(t) && t.closing && t.worker.Choosing? && !StopQueued(t)
            && t.failure == r.failure && t.calls == r.calls && t.mailbox == []
            && |t.tickets| == |r.tickets|
            && (forall k :: k in r.mailbox ==> k < |t.tickets| && t.tickets[k].state.Canceled?)
  {
    hide CallsOnce, StopKept, Launches, Retained;
  }

  lemma {:induction false} ClosedLeaves(r: Runner, due: bool)
    requires InRange(r) && r.worker.Choosing? && r.closing && !StopQueued(r)
    ensures Next(r, DoChoose(due)) == r.(worker := Leaving)
  {
  }

  /** A state that is final stays. */
  predicate KeepsFinal(r: Runner, t: Runner) {
    && |t.tickets| == |r.tickets|
    && forall k :: 0 <= k < |r.tickets| && r.tickets[k].Terminal() ==> t.tickets[k] == r.tickets[k]
  }

  lemma {:induction false} CancelAllFinal(r: Runner)
    requires InRange(r) && r.mailbox == []
    ensures InRange(CancelAll(r))
    ensures KeepsFinal(r, CancelAll(r)) && CancelAll(r).calls == r.calls
    ensures CancelAll(r).failure == r.failure && CancelAll(r).worker == r.worker
    ensures CancelAll(r).mailbox == []
  {
    hide Retained;
  }

  lemma {:induction false} LeaverCloses(r: Runner)
    requires InRange(r) && r.worker.Leaving? && r.mailbox == []
    ensures var t := Next(r, DoLeave);
            && t.worker.Closing? && t.failure == r.failure && t.calls == r.calls
            && t.mailbox == [] && KeepsFinal(r, t)
  {
    hide CancelAll;
    CancelAllFinal(r);
  }

  lemma {:induction false} CloserIsGone(r: Runner, closes: bool)
    requires InRange(r) && r.worker.Closing? && r.mailbox == [] && r.failure.None?
    ensures var t := Next(r, DoEnd(closes));
            && t.worker.Gone? && t.calls == r.calls && KeepsFinal(r, t)
            && (if closes then t.phase.Stopped? && t.failure.None?
                else t.phase.Failed? && t.failure == Some(CloseFailed))
  {
    hide CancelAll;
    CancelAllFinal(r);
  }

  lemma {:induction false} GoneIsTerminal(r: Runner)
    requires Valid(r)
    ensures r.worker.Gone? ==> forall k :: 0 <= k < |r.tickets| ==> r.tickets[k].Terminal()
  {
    hide TicketsPlaced, CallsOnce, StopKept;
  }

  /** The call of a command returns: its ticket is handled and the worker goes on, or it failed and
      the worker leaves. */
  lemma {:induction false} CallReturns(r: Runner, k: nat, succeeds: bool)
    requires InRange(r) && k < |r.tickets| && r.worker == Calling(Some(k))
    ensures var t := Next(r, DoReturn(succeeds));
            && |t.tickets| == |r.tickets| && t.calls == r.calls && t.mailbox == r.mailbox
            && t.tickets[k] == r.tickets[k].(state := if succeeds then Handled
                                                      else TicketState.Failed)
            && (forall n :: 0 <= n < |t.tickets| && n != k ==> t.tickets[n] == r.tickets[n])
            && (if succeeds then t.worker.Choosing? && t.active.None? && t.failure == r.failure
                else t.worker.Leaving? && t.failure == Some(CommandFailed))
  {
  }

  /** What the worker chooses: the queued stop, leaving once it is closed, a step that is due, the
      oldest command, or to wait. */
  lemma {:induction false} ChoosesExactly(r: Runner, due: bool)
    requires InRange(r) && r.worker.Choosing?
    ensures var t := Next(r, DoChoose(due));
            if r.stop.Some? && r.tickets[r.stop.value].state.Queued? then
              && t.worker == Calling(r.stop) && t.calls == r.calls + [r.stop.value]
              && t.active == r.stop && t.mailbox == r.mailbox && |t.tickets| == |r.tickets|
              && t.tickets[r.stop.value].state.Running?
            else if r.closing then t == r.(worker := Leaving)
            else if due then t == r.(worker := Calling(None))
            else if r.mailbox == [] then t == r
            else
              && t.worker == Calling(Some(r.mailbox[0])) && t.calls == r.calls + [r.mailbox[0]]
              && t.active == Some(r.mailbox[0]) && r.mailbox == [r.mailbox[0]] + t.mailbox
              && |t.tickets| == |r.tickets| && t.tickets[r.mailbox[0]].state.Running?
  {
  }

  /** Cancellation while the runner is open: starts and resumes that wait are canceled, and nothing
      else changes but the latch. */
  lemma {:induction false} CancelsExactly(r: Runner)
    requires InRange(r) && (forall k :: k in r.mailbox ==> r.tickets[k].state.Queued?)
    ensures var t := Next(r, DoCancel);
            var open := !r.closing && (r.phase.Starting? || r.phase.Running?);
            && (!open ==> t == r)
            && (open ==>
                  && t == r.(canceled := true, tickets := t.tickets, mailbox := t.mailbox)
                  && |t.tickets| == |r.tickets|
                  && (forall k: nat :: k in t.mailbox <==>
                        k in r.mailbox && !r.tickets[k].command.action.Start?
                        && !r.tickets[k].command.action.Resume?)
                  && (forall k: nat :: k < |r.tickets| ==>
                        t.tickets[k] == if k in r.mailbox && k !in t.mailbox
                                        then r.tickets[k].(state := TicketState.Canceled)
                                        else r.tickets[k]))
  {
    hide Retained;
  }
}
