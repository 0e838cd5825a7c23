/** What the journal says about a reply: an outcome is recorded for an effect only if that is what the
    receiver answered to its invocation. */
module ReplyJournal {
  import opened Values
  import opened QueueRecords
  import opened QueueJournal
  import opened JournalInvariant
  import opened QueueHistory
  import opened QueueExecution
  import T = TransactionEffects

  predicate Conclusive(state: Option<ExecutionState>) {
    state.Some? && (state.value.Acknowledged? || state.value.Rejected?)
  }

  /** The transaction records this outcome of the effect. */
  predicate RecordsFor(op: StoreOp, e: Effect) {
    match e
    case CommandEffect(id) => op.OpOutcome? && op.commandId == id
    case NativeEffect(id) => op.OpNativeOutcome? && op.operationId == id
  }

  // ---------------------------------------------------------------- where an outcome comes from

  /** Commands that keep their identities keep their places. */
  lemma {:induction false} CommandPlaces(xs: seq<JournalCommand>, ys: seq<JournalCommand>, id: Id)
    requires |xs| <= |ys| && forall k :: 0 <= k < |xs| ==> ys[k].commandId == xs[k].commandId
    requires forall i, j :: 0 <= i < j < |ys| ==> ys[i].commandId != ys[j].commandId
    ensures CommandAt(xs, id).Some? ==> CommandAt(ys, id) == CommandAt(xs, id)
    ensures CommandAt(xs, id).None? && CommandAt(ys, id).Some? ==> CommandAt(ys, id).value >= |xs|
  {
  }

  lemma {:induction false} OperationPlaces(xs: seq<NativeOperation>, ys: seq<NativeOperation>,
                                           id: Id)
    requires |xs| <= |ys| && forall k :: 0 <= k < |xs| ==> ys[k].operationId == xs[k].operationId
    requires forall i, j :: 0 <= i < j < |ys| ==> ys[i].operationId != ys[j].operationId
    ensures OperationAt(xs, id).Some? ==> OperationAt(ys, id) == OperationAt(xs, id)
    ensures OperationAt(xs, id).None? && OperationAt(ys, id).Some? ==>
      OperationAt(ys, id).value >= |xs|
  {
  }

  lemma {:induction false} CommandsDiffer(s: QueueSnapshot)
    requires Keyed(s)
    ensures forall i, j :: 0 <= i < j < |s.commands| ==>
      s.commands[i].commandId != s.commands[j].commandId
  {
  }

  lemma {:induction false} OperationsDiffer(s: QueueSnapshot)
    requires Keyed(s)
    ensures forall i, j :: 0 <= i < j < |s.operations| ==>
      s.operations[i].operationId != s.operations[j].operationId
  {
  }

  /** What can become of the commands: nothing, a new one that is pending, one that moves, or doubt
      about those under way. */
  predicate CommandRows(s: QueueSnapshot, op: StoreOp, t: QueueSnapshot) {
    || t.commands == s.commands
    || (&& |t.commands| == |s.commands| + 1 && t.commands[..|s.commands|] == s.commands
        && t.commands[|s.commands|].state.Pending?)
    || (op.OpDispatch?
        && T.CommandsMoved(s.commands, t.commands, op.commandId, ExecutionState.Dispatched, op.at))
    || (op.OpOutcome? && CommandAt(s.commands, op.commandId).Some?
        && T.CommandsMoved(s.commands, t.commands, op.commandId, op.outcome, op.at))
    || T.CommandsUncertain(s.commands, t.commands)
  }

  lemma {:induction false} CommandShape(s: QueueSnapshot, taken: Taken, op: StoreOp,
                                        t: QueueSnapshot)
    requires T.Permits(s, taken, op) && T.Changes(s, op, t)
    ensures CommandRows(s, op, t)
    ensures op.OpOutcome? ==>
      && CommandAt(s.commands, op.commandId).Some?
      && T.CommandsMoved(s.commands, t.commands, op.commandId, op.outcome, op.at)
  {
    hide T.MayStart, T.MayStop, T.MayControl, T.MaySettle, T.MayAdopt, T.MayReserve, T.MayClear,
         T.MayExit, T.SelectedFor, T.CurrentNeedsAttention, T.ItemsSet, T.AttemptsSet,
         T.OperationsMoved, T.OperationsUncertain, T.MayMoveNative, T.MayRecover, T.CommandsMoved,
         T.CommandsUncertain;
  }

  /** A change never makes an effect's state conclusive, unless it records an outcome of it; and then
      that outcome is the state. */
  lemma {:induction false} CommandChange(s: QueueSnapshot, taken: Taken, op: StoreOp,
                                         t: QueueSnapshot, id: Id)
    requires Keyed(s) && Keyed(t) && T.Permits(s, taken, op) && T.Changes(s, op, t)
    ensures var e := CommandEffect(id);
            && (!RecordsFor(op, e) && Conclusive(StateOf(t, e)) ==> StateOf(t, e) == StateOf(s, e))
            && (RecordsFor(op, e) ==> StateOf(t, e) == Some(op.outcome))
  {
    hide T.Permits, T.Changes, Keyed, CommandAt;
    CommandShape(s, taken, op, t);
    CommandIdentitiesStay(s, op, t);
    CommandsDiffer(t);
    CommandPlaces(s.commands, t.commands, id);
    if CommandAt(s.commands, id).Some? {
      assert CommandAt(t.commands, id) == CommandAt(s.commands, id);
      assert t.commands[..|s.commands|] == s.commands ==>
        t.commands[CommandAt(s.commands, id).value] == s.commands[CommandAt(s.commands, id).value];
    }
  }

  lemma {:induction false} CommandIdentitiesStay(s: QueueSnapshot, op: StoreOp, t: QueueSnapshot)
    requires T.Changes(s, op, t)
    ensures |s.commands| <= |t.commands|
    ensures forall k :: 0 <= k < |s.commands| ==> t.commands[k].commandId == s.commands[k].commandId
  {
    hide T.CurrentNeedsAttention, T.ItemsSet, T.AttemptsSet, T.OperationsMoved,
         T.OperationsUncertain;
  }

  lemma {:induction false} OperationIdentitiesStay(s: QueueSnapshot, op: StoreOp, t: QueueSnapshot)
    requires T.Changes(s, op, t)
    ensures |s.operations| <= |t.operations|
    ensures forall k :: 0 <= k < |s.operations| ==>
      t.operations[k].operationId == s.operations[k].operationId
  {
    hide T.CurrentNeedsAttention, T.ItemsSet, T.AttemptsSet, T.CommandsMoved, T.CommandsUncertain;
  }

  predicate OperationRows(s: QueueSnapshot, op: StoreOp, t: QueueSnapshot) {
    || t.operations == s.operations
    || (&& |t.operations| == |s.operations| + 1 && t.operations[..|s.operations|] == s.operations
        && t.operations[|s.operations|].state.Pending?)
    || (op.OpNativeDispatch?
        && T.OperationsMoved(s.operations, t.operations, op.operationId,
                             ExecutionState.Dispatched, op.at))
    || (op.OpNativeOutcome? && OperationAt(s.operations, op.operationId).Some?
        && T.OperationsMoved(s.operations, t.operations, op.operationId, op.outcome, op.at))
    || T.OperationsUncertain(s.operations, t.operations)
  }

  lemma {:induction false} OperationShape(s: QueueSnapshot, taken: Taken, op: StoreOp,
                                          t: QueueSnapshot)
    requires T.Permits(s, taken, op) && T.Changes(s, op, t)
    ensures OperationRows(s, op, t)
    ensures op.OpNativeOutcome? ==>
      && OperationAt(s.operations, op.operationId).Some?
      && T.OperationsMoved(s.operations, t.operations, op.operationId, op.outcome, op.at)
  {
    hide T.MayStart, T.MayStop, T.MayControl, T.MaySettle, T.MayAdopt, T.MayReserve, T.MayClear,
         T.MayExit, T.SelectedFor, T.CurrentNeedsAttention, T.ItemsSet, T.AttemptsSet,
         T.OperationsMoved, T.OperationsUncertain, T.MayMove, T.MayRecover, T.CommandsMoved,
         T.CommandsUncertain;
  }

  lemma {:induction false} OperationChange(s: QueueSnapshot, taken: Taken, op: StoreOp,
                                           t: QueueSnapshot, id: Id)
    requires Keyed(s) && Keyed(t) && T.Permits(s, taken, op) && T.Changes(s, op, t)
    ensures var e := NativeEffect(id);
            && (!RecordsFor(op, e) && Conclusive(StateOf(t, e)) ==> StateOf(t, e) == StateOf(s, e))
            && (RecordsFor(op, e) ==> StateOf(t, e) == Some(op.outcome))
  {
    hide T.Permits, T.Changes, Keyed, OperationAt;
    OperationShape(s, taken, op, t);
    OperationIdentitiesStay(s, op, t);
    OperationsDiffer(t);
    OperationPlaces(s.operations, t.operations, id);
    if OperationAt(s.operations, id).Some? {
      assert OperationAt(t.operations, id) == OperationAt(s.operations, id);
      assert t.operations[..|s.operations|] == s.operations ==>
        t.operations[OperationAt(s.operations, id).value]
          == s.operations[OperationAt(s.operations, id).value];
    }
  }

  /** Every transaction. */
  lemma {:induction false} WriteOutcome(s: QueueSnapshot, taken: Taken, op: StoreOp, e: Effect)
    requires Keyed(s) && Write(s, taken, op).Ok? && Keyed(Write(s, taken, op).value)
    ensures var t := Write(s, taken, op).value;
            && (!RecordsFor(op, e) && Conclusive(StateOf(t, e)) ==> StateOf(t, e) == StateOf(s, e))
            && (RecordsFor(op, e) ==> StateOf(t, e) == Some(op.outcome))
  {
    hide Write, Keyed, StateOf, T.Permits, T.Changes, T.Repeats;
    T.TransactionDoes(s, taken, op);
    if T.Permits(s, taken, op) {
      match e {
        case CommandEffect(id) => CommandChange(s, taken, op, Write(s, taken, op).value, id);
        case NativeEffect(id) => OperationChange(s, taken, op, Write(s, taken, op).value, id);
      }
    } else if RecordsFor(op, e) {
      RepeatedOutcome(s, op, e);
    }
  }

  /** An outcome that is journaled already is the state. */
  lemma {:induction false} RepeatedOutcome(s: QueueSnapshot, op: StoreOp, e: Effect)
    requires T.Repeats(s, op) && RecordsFor(op, e)
    ensures StateOf(s, e) == Some(op.outcome)
  {
    hide T.Addresses, T.Observes;
  }

  /** What an executor records is what the journal says from then on. */
  lemma {:induction false} RecordIsJournaled(s: QueueSnapshot, taken: Taken, request: Request,
                                             outcome: ExecutionState, at: Instant, revision: int)
    requires Durable(s) && request.WellFormed()
    requires Apply(s, taken, request.Record(outcome, at, revision)).Ok?
    ensures StateOf(Apply(s, taken, request.Record(outcome, at, revision)).value, request.Effect())
         == Some(outcome)
  {
    hide Durable, Keyed, Write, RollsBack, StateOf, Apply;
    var op := request.Record(outcome, at, revision);
    ApplyKeeps(s, taken, op);
    DurableIsKeyed(s);
    DurableIsKeyed(Apply(s, taken, op).value);
    WriteOutcome(s, taken, op, request.Effect());
  }

  // ---------------------------------------------------------------- every execution

  /** The receiver answered that. */
  predicate Told(w: World, e: Effect, state: ExecutionState) {
    && (state.Acknowledged? ==> e in w.replies && w.replies[e] == Receipt(Accepted))
    && (state.Rejected? ==> e in w.replies && w.replies[e] == Receipt(CommandOutcome.Rejected))
  }

  /** What the journal says of the effect, and what any call is about to record of it, is what the
      receiver answered; and an effect that was not invoked has no answer. */
  predicate Truthful(w: World, e: Effect) {
    && (StateOf(w.rows, e).Some? ==> Told(w, e, StateOf(w.rows, e).value))
    && (forall p ::
          p in w.processes && w.processes[p].request.Effect() == e
          && w.processes[p].pc.Returned? ==>
            Told(w, e, w.processes[p].pc.outcome))
    && (e in w.replies ==> e in w.log)
  }

  /** Nobody else records an outcome of the effect. */
  predicate OnlyCalls(events: seq<Event>, e: Effect) {
    forall k :: 0 <= k < |events| && events[k].Other? ==> !RecordsFor(events[k].call.op, e)
  }

  lemma {:induction false} RowsTold(w: World, t: QueueSnapshot, e: Effect)
    requires Truthful(w, e)
    requires Conclusive(StateOf(t, e)) ==> StateOf(t, e) == StateOf(w.rows, e)
    ensures Truthful(w.(rows := t), e)
  {
    hide StateOf;
  }

  /** A transaction that records nothing of the effect. */
  lemma {:induction false} CommitTold(w: World, taken: Taken, op: StoreOp, e: Effect)
    requires Durable(w.rows) && op.WellFormed() && Apply(w.rows, taken, op).Ok?
    requires Truthful(w, e) && !RecordsFor(op, e)
    ensures Truthful(w.(rows := Apply(w.rows, taken, op).value), e)
  {
    hide Durable, Keyed, Write, RollsBack, StateOf, Apply, Truthful, Conclusive;
    ApplyKeeps(w.rows, taken, op);
    DurableIsKeyed(w.rows);
    DurableIsKeyed(Apply(w.rows, taken, op).value);
    WriteOutcome(w.rows, taken, op, e);
    RowsTold(w, Apply(w.rows, taken, op).value, e);
  }

  lemma {:induction false} GotoTold(w: World, pid: nat, pc: Pc, e: Effect)
    requires Truthful(w, e) && pid in w.processes
    requires pc.Returned? && w.processes[pid].request.Effect() == e ==> Told(w, e, pc.outcome)
    ensures Truthful(Goto(w, pid, pc), e)
  {
    hide StateOf;
  }

  /** Preparing and claiming record nothing. */
  lemma {:induction false} PreparesNothing(request: Request, at: Instant, revision: int, e: Effect)
    ensures !RecordsFor(request.Prepare(at), e) && !RecordsFor(request.Claim(at, revision), e)
    ensures request.WellFormed() ==>
      request.Prepare(at).WellFormed() && request.Claim(at, revision).WellFormed()
  {
  }

  lemma {:induction false} OtherRecord(request: Request, outcome: ExecutionState, at: Instant,
                                       revision: int, e: Effect)
    ensures RecordsFor(request.Record(outcome, at, revision), e) <==> request.Effect() == e
    ensures request.Record(outcome, at, revision).WellFormed()
  {
  }

  /** What was answered to another effect does not matter, and the first answer to this one is told. */
  lemma {:induction false} AnswerTold(w: World, x: Effect, reply: Reply, e: Effect)
    requires Truthful(w, e) && x !in w.log
    ensures Truthful(w.(log := w.log + [x], replies := w.replies[x := reply]), e)
  {
    hide StateOf;
  }

  /** An invocation is heard once, and its call records what it heard. */
  lemma {:induction false} InvocationTold(w: World, pid: nat, choice: Choice, e: Effect)
    requires Good(w) && Truthful(w, e) && pid in w.processes && w.processes[pid].pc.Permitted?
    ensures Truthful(Step(w, pid, choice), e)
  {
    hide Durable, StateOf, Spent, Good, Truthful, ClaimsOnce;
    GoodClaims(w);
    NothingReturned(w, pid);
    var Process(request, pc) := w.processes[pid];
    var x := request.Effect();
    AnswerTold(w, x, choice.reply, e);
    GotoTold(w.(log := w.log + [x], replies := w.replies[x := choice.reply]), pid,
             Returned(pc.revision, Outcome(choice.reply)), e);
    GotoTold(w, pid, Returned(pc.revision, ExecutionState.Uncertain), e);
  }

  /** While a call may still invoke its effect, no other one has invoked it. */
  lemma {:induction false} NothingReturned(w: World, pid: nat)
    requires ClaimsOnce(w) && pid in w.processes && Owns(w.processes[pid])
    ensures w.processes[pid].request.Effect() !in w.log
  {
    hide Spent;
  }

  lemma {:induction false} RecordTold(w: World, pid: nat, choice: Choice, e: Effect)
    requires Good(w) && Truthful(w, e) && pid in w.processes && w.processes[pid].pc.Returned?
    ensures Truthful(Step(w, pid, choice), e)
  {
    hide Good, Durable, Truthful, Apply, StateOf, Told;
    GoodProcess(w, pid);
    var Process(request, pc) := w.processes[pid];
    var op := request.Record(pc.outcome, choice.at, pc.revision);
    OtherRecord(request, pc.outcome, choice.at, pc.revision, e);
    if Apply(w.rows, choice.taken, op).Ok? {
      var v := w.(rows := Apply(w.rows, choice.taken, op).value);
      if request.Effect() == e {
        RecordIsJournaled(w.rows, choice.taken, request, pc.outcome, choice.at, pc.revision);
        RecordedTold(w, v.rows, pid, e);
      } else {
        CommitTold(w, choice.taken, op, e);
      }
      GotoTold(v, pid, Done, e);
    } else {
      GotoTold(w, pid, Done, e);
    }
  }

  lemma {:induction false} RecordedTold(w: World, t: QueueSnapshot, pid: nat, e: Effect)
    requires Truthful(w, e) && pid in w.processes && w.processes[pid].pc.Returned?
    requires w.processes[pid].request.Effect() == e
    requires StateOf(t, e) == Some(w.processes[pid].pc.outcome)
    ensures Truthful(w.(rows := t), e)
  {
    hide StateOf;
  }

  lemma {:induction false} StepTold(w: World, pid: nat, choice: Choice, e: Effect)
    requires Good(w) && Truthful(w, e) && pid in w.processes
    ensures Truthful(Step(w, pid, choice), e)
  {
    hide Good, Durable, Truthful, Apply, StateOf, AfterLoad, AfterPrepare, AfterReread, RecordsFor,
         Told;
    GoodProcess(w, pid);
    var Process(request, pc) := w.processes[pid];
    ChecksReturnNothing(w.rows, request);
    match pc {
      case Begun => GotoTold(w, pid, AfterLoad(w.rows, request), e);
      case Loaded(existing) =>
        PreparesNothing(request, choice.at, 0, e);
        if Apply(w.rows, choice.taken, request.Prepare(choice.at)).Ok? {
          var t := Apply(w.rows, choice.taken, request.Prepare(choice.at)).value;
          ChecksReturnNothing(t, request);
          CommitTold(w, choice.taken, request.Prepare(choice.at), e);
          GotoTold(w.(rows := t), pid, AfterPrepare(t, request, existing), e);
        } else {
          GotoTold(w, pid, Done, e);
        }
      case Prepared(revision) =>
        PreparesNothing(request, choice.at, revision, e);
        if Apply(w.rows, choice.taken, request.Claim(choice.at, revision)).Ok? {
          var t := Apply(w.rows, choice.taken, request.Claim(choice.at, revision)).value;
          CommitTold(w, choice.taken, request.Claim(choice.at, revision), e);
          GotoTold(w.(rows := t), pid, Claimed(t.revision), e);
        } else {
          GotoTold(w, pid, Done, e);
        }
      case Claimed(revision) => GotoTold(w, pid, AfterReread(w.rows, request, revision), e);
      case Permitted(_) => InvocationTold(w, pid, choice, e);
      case Returned(_, _) => RecordTold(w, pid, choice, e);
      case Done =>
    }
  }

  lemma {:induction false} ChecksReturnNothing(s: QueueSnapshot, request: Request)
    ensures !AfterLoad(s, request).Returned?
    ensures forall existing :: !AfterPrepare(s, request, existing).Returned?
    ensures forall revision :: !AfterReread(s, request, revision).Returned?
  {
    hide StateOf, OfGeneration, SelectedAttempt;
  }

  lemma {:induction false} NextTold(w: World, event: Event, e: Effect)
    requires Good(w) && event.WellFormed() && Truthful(w, e)
    requires event.Other? ==> !RecordsFor(event.call.op, e)
    ensures Truthful(Next(w, event), e)
  {
    hide Good, Durable, Truthful, Apply, Step, RecordsFor;
    match event {
      case Spawn(pid, request) =>
        if pid !in w.processes {
          SpawnTold(w, pid, request, e);
        }
      case Advance(pid, choice) =>
        if pid in w.processes {
          StepTold(w, pid, choice, e);
        }
      case Crash(pid) =>
        if pid in w.processes {
          GotoTold(w, pid, Done, e);
        }
      case Other(call) =>
        GoodClaims(w);
        if Apply(w.rows, call.taken, call.op).Ok? {
          CommitTold(w, call.taken, call.op, e);
        }
    }
  }

  lemma {:induction false} SpawnTold(w: World, pid: nat, request: Request, e: Effect)
    requires Truthful(w, e) && pid !in w.processes
    ensures Truthful(w.(processes := w.processes[pid := Process(request, Begun)]), e)
  {
    hide StateOf;
  }

  lemma {:induction false} ExecutionTold(w: World, events: seq<Event>, e: Effect)
    requires Good(w) && WellFormedEvents(events) && Truthful(w, e) && OnlyCalls(events, e)
    ensures Truthful(Execution(w, events), e)
    decreases |events|
  {
    hide Good, Truthful, Next, RecordsFor;
    if events != [] {
      NextKeeps(w, events[0]);
      NextTold(w, events[0], e);
      ExecutionTold(Next(w, events[0]), events[1..], e);
    }
  }

  /** Over every execution in which only the calls record outcomes of an effect that was not concluded
      before: the journal says ACKNOWLEDGED only if the effect was invoked and the receiver accepted
      it, and REJECTED only if the receiver refused it.  Whatever failed, was unclear or was withheld
      is left uncertain. */
  lemma {:induction false} JournalTellsReplies(s: QueueSnapshot, events: seq<Event>, e: Effect)
    requires Durable(s) && WellFormedEvents(events) && OnlyCalls(events, e)
    requires !Conclusive(StateOf(s, e))
    ensures var w := Execution(World(s, map[], [], map[]), events);
            && (StateOf(w.rows, e) == Some(ExecutionState.Acknowledged) ==>
                  e in w.log && e in w.replies && w.replies[e] == Receipt(Accepted))
            && (StateOf(w.rows, e) == Some(ExecutionState.Rejected) ==>
                  e in w.log && e in w.replies
                  && w.replies[e] == Receipt(CommandOutcome.Rejected))
  {
    hide Durable, StateOf, Execution, Spent;
    var w := World(s, map[], [], map[]);
    IsGood(w);
    ExecutionTold(w, events, e);
  }
}
