/** The durable store: one database of queues whose rows its methods update in place.

    A method begins a transaction by reading the queue's rows, runs its guards and statements on
    the uncommitted rows, bumps the revision, reloads them, and only then commits.  Any refusal
    rolls back.  Every method is proved to perform the transaction of `QueueJournal`. */
module QueueStore {
  import opened Values
  import opened QueueRecords
  import opened QueueJournal
  import opened JournalInvariant

  type Database = map<Id, QueueSnapshot>

  /** The keys that the rows of other queues hold. */
  function Elsewhere(queues: Database, id: Id): Taken {
    Taken(
      set q, k | q in queues && q != id && 0 <= k < |queues[q].attempts| ::
        queues[q].attempts[k].attemptId,
      set q, k | q in queues && q != id && 0 <= k < |queues[q].commands| ::
        queues[q].commands[k].commandId,
      set q, k | q in queues && q != id && 0 <= k < |queues[q].attempts|
                 && queues[q].attempts[k].decisionId.Some? ::
        queues[q].attempts[k].decisionId.value,
      set q, k | q in queues && q != id && 0 <= k < |queues[q].reservations| ::
        queues[q].reservations[k].reservationId,
      set q, k | q in queues && q != id && 0 <= k < |queues[q].reservations| ::
        queues[q].reservations[k].successorAttemptId,
      set q, k | q in queues && q != id && 0 <= k < |queues[q].operations| ::
        queues[q].operations[k].operationId,
      set q, k | q in queues && q != id && 0 <= k < |queues[q].reservations|
                 && queues[q].reservations[k].adoptionDecisionId.Some? ::
        queues[q].reservations[k].adoptionDecisionId.value,
      set q, k | q in queues && q != id && 0 <= k < |queues[q].reservations|
                 && queues[q].reservations[k].exitDecisionId.Some? ::
        queues[q].reservations[k].exitDecisionId.value)
  }

  /** What a method call does to the database: exactly one transaction of one queue, or nothing. */
  ghost predicate Transacted(before: Database, after: Database, id: Id, op: StoreOp,
                             r: Result<QueueSnapshot>) {
    if id !in before then r.Err? && after == before
    else
      && r == Apply(before[id], Elsewhere(before, id), op)
      && after == if r.Ok? then before[id := r.value] else before
  }

  class SQLiteQueueStore {
    var queues: Database

    ghost predicate Valid()
      reads this
    {
      forall id :: id in queues ==> Durable(queues[id]) && !Blank(id)
    }

    constructor ()
      ensures Valid() && queues == map[]
    {
      queues := map[];
    }

    method Create(id: Id, target: PlaybackTarget, items: seq<QueueEntry>, mode: QueueMode)
      returns (r: Result<QueueSnapshot>)
      requires Valid() && WellFormedQueue(target, items)
      modifies this
      ensures Valid()
      ensures id in old(queues) ==> r == Err(Conflict) && queues == old(queues)
      ensures id !in old(queues) ==>
        && r == QueueJournal.Create(id, target, items, mode)
        && queues == if r.Ok? then old(queues)[id := r.value] else old(queues)
    {
      if id in queues {
        return Err(Conflict);
      }
      r := QueueJournal.Create(id, target, items, mode);
      if r.Ok? {
        CreateKeeps(id, target, items, mode);
        queues := queues[id := r.value];
      }
    }

    /** Reads inside a transaction run the reload check; it never fails on committed rows. */
    method Load(id: Id) returns (found: Option<QueueSnapshot>)
      requires Valid()
      ensures found == if id in queues then Some(queues[id]) else None
      ensures found.Some? ==> Durable(found.value)
    {
      if id in queues {
        found := Some(queues[id]);
      } else {
        found := None;
      }
    }

    /** `UPDATE queues SET revision=revision+1`, reload, commit; or roll back. */
    method Changed(id: Id, rows: QueueSnapshot) returns (r: Result<QueueSnapshot>)
      requires id in queues
      modifies this
      ensures r == if ReloadAccepts(Bump(rows)) then Ok(Bump(rows)) else Err(Refused)
      ensures queues == if r.Ok? then old(queues)[id := r.value] else old(queues)
    {
      var next := Bump(rows);
      if !ReloadAccepts(next) {
        return Err(Refused);
      }
      queues := queues[id := next];
      r := Ok(next);
    }

    method PrepareStart(id: Id, itemId: Id, attemptId: Id, commandId: Id, at: Instant,
                        expectedRevision: int) returns (r: Result<QueueSnapshot>)
      requires Valid()
      modifies this
      ensures Valid()
      ensures Transacted(old(queues), queues, id,
                         OpStart(itemId, attemptId, commandId, at, expectedRevision), r)
    {
      hide Durable, ReloadAccepts, Keyed, Elsewhere, Blank, PendingItem, AnyUnsettledItem, WithItem,
           AttemptAt, CommandAt;
      if id in queues {
        ApplyKeeps(queues[id], Elsewhere(queues, id),
                   OpStart(itemId, attemptId, commandId, at, expectedRevision));
      }
      if Blank(id) || Blank(itemId) || Blank(attemptId) || Blank(commandId) {
        return Err(Malformed);
      }
      if id !in queues {
        return Err(Refused);
      }
      var rows, taken := queues[id], Elsewhere(queues, id);
      var known := Duplicate(rows, commandId, attemptId, Start);
      if known.Err? {
        return Err(known.fault);
      }
      if known.value {
        var k := AttemptAt(rows.attempts, attemptId);
        return if k.Some? && rows.attempts[k.value].itemId == itemId then Ok(rows) else Err(Refused);
      }
      if rows.revision != expectedRevision {
        return Err(Conflict);
      }
      if rows.mode.Native? && (rows.attempts != [] || rows.reconciliationRequired) {
        return Err(Refused);
      }
      if rows.cancellationRequested || AnyUnsettledItem(rows.items) {
        return Err(Refused);
      }
      if !PendingItem(rows.items, itemId) {
        return Err(Refused);
      }
      if AttemptAt(rows.attempts, attemptId).Some? || attemptId in taken.attempts
         || commandId in taken.commands {
        return Err(Refused);
      }
      var start := NewCommand(rows, attemptId, commandId, Start, at);
      var attempt := QueueAttempt(attemptId, itemId, Current, at, None, LocalStart);
      rows := rows.(items := WithItem(rows.items, itemId, Current));
      rows := rows.(currentItemId := Some(itemId));
      rows := rows.(attempts := rows.attempts + [attempt]);
      rows := rows.(commands := rows.commands + [start]);
      r := Changed(id, rows);
    }

    method PrepareStop(id: Id, attemptId: Id, commandId: Id, at: Instant, expectedRevision: int)
      returns (r: Result<QueueSnapshot>)
      requires Valid()
      modifies this
      ensures Valid()
      ensures Transacted(old(queues), queues, id,
                         OpStop(attemptId, commandId, at, expectedRevision), r)
    {
      hide Durable, ReloadAccepts, Keyed, Elsewhere, Blank, Stoppable, AttemptAt, CommandAt;
      if id in queues {
        ApplyKeeps(queues[id], Elsewhere(queues, id),
                   OpStop(attemptId, commandId, at, expectedRevision));
      }
      if Blank(commandId) {
        return Err(Malformed);
      }
      if id !in queues {
        return Err(Refused);
      }
      var rows, taken := queues[id], Elsewhere(queues, id);
      var known := Duplicate(rows, commandId, attemptId, Stop);
      if known.Err? {
        return Err(known.fault);
      }
      if known.value {
        return Ok(rows);
      }
      if rows.revision != expectedRevision {
        return Err(Conflict);
      }
      if !Stoppable(rows, attemptId) || commandId in taken.commands {
        return Err(Refused);
      }
      rows := rows.(cancellationRequested := true);
      rows := rows.(commands := rows.commands + [NewCommand(rows, attemptId, commandId, Stop, at)]);
      r := Changed(id, rows);
    }

    method PrepareControl(id: Id, attemptId: Id, commandId: Id, action: CommandAction,
                          at: Instant, expectedRevision: int) returns (r: Result<QueueSnapshot>)
      requires Valid()
      modifies this
      ensures Valid()
      ensures Transacted(old(queues), queues, id,
                         OpControl(attemptId, commandId, action, at, expectedRevision), r)
    {
      hide Durable, ReloadAccepts, Keyed, Elsewhere, Blank, AttemptAt, CommandAt, AnyReserved,
           AnyUnresolved, Has;
      if id in queues {
        ApplyKeeps(queues[id], Elsewhere(queues, id),
                   OpControl(attemptId, commandId, action, at, expectedRevision));
      }
      if action.Start? || action.Stop? || Blank(commandId) {
        return Err(Malformed);
      }
      if id !in queues {
        return Err(Refused);
      }
      var rows, taken := queues[id], Elsewhere(queues, id);
      var known := Duplicate(rows, commandId, attemptId, action);
      if known.Err? {
        return Err(known.fault);
      }
      if known.value {
        return Ok(rows);
      }
      if rows.revision != expectedRevision {
        return Err(Conflict);
      }
      if action.Release? && AnyReserved(rows.reservations) {
        return Err(Refused);
      }
      if rows.cancellationRequested || rows.attempts == [] {
        return Err(Refused);
      }
      var last := rows.attempts[|rows.attempts| - 1];
      var expected := if action.Release? then QueueIntent.Finished else Current;
      if last.attemptId != attemptId || rows.currentItemId != Some(last.itemId)
         || last.intent != expected || AnyUnresolved(rows.commands) {
        return Err(Refused);
      }
      if action.Release? && (last.decisionId == None || last.decisionId == Some("")) {
        return Err(Refused);
      }
      if action.Release? && Has(rows.commands, attemptId, Release) {
        return Err(Refused);
      }
      if commandId in taken.commands {
        return Err(Refused);
      }
      rows := rows.(commands :=
        rows.commands + [NewCommand(rows, attemptId, commandId, action, at)]);
      r := Changed(id, rows);
    }

    method CancelQueue(id: Id, expectedRevision: int) returns (r: Result<QueueSnapshot>)
      requires Valid()
      modifies this
      ensures Valid()
      ensures Transacted(old(queues), queues, id, OpCancel(expectedRevision), r)
    {
      hide Durable, ReloadAccepts, Keyed, Elsewhere, Blank;
      if id !in queues {
        return Err(Refused);
      }
      var rows := queues[id];
      ApplyKeeps(rows, Elsewhere(queues, id), OpCancel(expectedRevision));
      if rows.revision != expectedRevision {
        return Err(Conflict);
      }
      if rows.cancellationRequested {
        return Ok(rows);
      }
      rows := rows.(cancellationRequested := true);
      r := Changed(id, rows);
    }

    /** Shared by the claim of a prepared command and the record of its outcome. */
    method Transition(id: Id, commandId: Id, state: ExecutionState, at: Instant,
                      expectedRevision: int, ghost op: StoreOp)
      returns (r: Result<QueueSnapshot>)
      requires Valid() && (state.Dispatched? || IsOutcome(state))
      requires op == if state.Dispatched? then OpDispatch(commandId, at, expectedRevision)
                     else OpOutcome(commandId, state, at, expectedRevision)
      modifies this
      ensures Valid()
      ensures Transacted(old(queues), queues, id, op, r)
    {
      hide Durable, ReloadAccepts, Keyed, Elsewhere, Blank, Dispatchable, WithCommand, CommandAt;
      if id !in queues {
        return Err(Refused);
      }
      var rows := queues[id];
      ApplyKeeps(rows, Elsewhere(queues, id), op);
      var k := CommandAt(rows.commands, commandId);
      if k.None? {
        return Err(Refused);
      }
      var command := rows.commands[k.value];
      if rows.revision != expectedRevision || command.generation != rows.generation {
        return Err(Conflict);
      }
      if command.state == state && !state.Dispatched? {
        return Ok(rows);
      }
      if state.Dispatched? {
        if !command.state.Pending? {
          return Err(Refused);
        }
        if !command.action.Stop? && rows.cancellationRequested {
          return Err(Refused);
        }
        if !Dispatchable(rows, command) {
          return Err(Refused);
        }
      } else if !command.state.Dispatched? && !command.state.Uncertain? {
        return Err(Refused);
      }
      if at < command.updatedAt {
        return Err(Malformed);
      }
      rows := rows.(commands := WithCommand(rows.commands, commandId, state, at));
      r := Changed(id, rows);
    }

    method MarkDispatched(id: Id, commandId: Id, at: Instant, expectedRevision: int)
      returns (r: Result<QueueSnapshot>)
      requires Valid()
      modifies this
      ensures Valid()
      ensures Transacted(old(queues), queues, id, OpDispatch(commandId, at, expectedRevision), r)
    {
      r := Transition(id, commandId, ExecutionState.Dispatched, at, expectedRevision,
                      OpDispatch(commandId, at, expectedRevision));
    }

    method RecordOutcome(id: Id, commandId: Id, outcome: ExecutionState, at: Instant,
                         expectedRevision: int) returns (r: Result<QueueSnapshot>)
      requires Valid()
      modifies this
      ensures Valid()
      ensures Transacted(old(queues), queues, id,
                         OpOutcome(commandId, outcome, at, expectedRevision), r)
    {
      hide Durable, Keyed, ReloadAccepts, Elsewhere;
      if !IsOutcome(outcome) {
        if id in queues {
          ApplyKeeps(queues[id], Elsewhere(queues, id),
                     OpOutcome(commandId, outcome, at, expectedRevision));
        }
        return Err(Malformed);
      }
      r := Transition(id, commandId, outcome, at, expectedRevision,
                      OpOutcome(commandId, outcome, at, expectedRevision));
    }

    method SettleAttempt(id: Id, attemptId: Id, outcome: QueueIntent, decisionId: Id,
                         expectedRevision: int) returns (r: Result<QueueSnapshot>)
      requires Valid()
      modifies this
      ensures Valid()
      ensures Transacted(old(queues), queues, id,
                         OpSettle(attemptId, outcome, decisionId, expectedRevision), r)
    {
      hide Durable, ReloadAccepts, Keyed, Elsewhere, Blank, WithAttempt, WithItem, AttemptAt, Has,
           DecisionFree;
      if id in queues {
        ApplyKeeps(queues[id], Elsewhere(queues, id),
                   OpSettle(attemptId, outcome, decisionId, expectedRevision));
      }
      if Blank(decisionId) || !Settled(outcome) {
        return Err(Malformed);
      }
      if id !in queues {
        return Err(Refused);
      }
      var rows, taken := queues[id], Elsewhere(queues, id);
      var k := AttemptAt(rows.attempts, attemptId);
      if k.None? {
        return Err(Refused);
      }
      var attempt := rows.attempts[k.value];
      if attempt.decisionId == Some(decisionId) && attempt.intent == outcome {
        return Ok(rows);
      }
      if rows.revision != expectedRevision {
        return Err(Conflict);
      }
      if attempt.decisionId.Some? || !(attempt.intent.Current? || attempt.intent.NeedsAttention?) {
        return Err(Refused);
      }
      if outcome.Finished? && Has(rows.commands, attemptId, Stop) {
        return Err(Refused);
      }
      if decisionId in taken.decisions || !DecisionFree(rows.attempts, decisionId) {
        return Err(Refused);
      }
      rows := rows.(attempts := WithAttempt(rows.attempts, attemptId, outcome, decisionId));
      rows := rows.(items := WithItem(rows.items, attempt.itemId, outcome));
      if outcome.Stopped? || outcome.NeedsAttention? {
        if rows.mode.Native? && outcome.NeedsAttention? {
          rows := rows.(reconciliationRequired := true);
        } else {
          rows := rows.(cancellationRequested := true);
        }
      }
      r := Changed(id, rows);
    }

    method Recover(id: Id, expectedRevision: int) returns (r: Result<QueueSnapshot>)
      requires Valid()
      modifies this
      ensures Valid()
      ensures Transacted(old(queues), queues, id, OpRecover(expectedRevision), r)
    {
      hide Durable, ReloadAccepts, Keyed, Elsewhere, Blank, OwnsUnresolved, UncertainCommands,
           UncertainOperations, HeldItems, HeldAttempts;
      if id !in queues {
        return Err(Refused);
      }
      var rows := queues[id];
      ApplyKeeps(rows, Elsewhere(queues, id), OpRecover(expectedRevision));
      if rows.revision != expectedRevision {
        return Err(Conflict);
      }
      if rows.mode.Native? {
        if rows.attempts == [] && rows.reservations == [] {
          return Ok(rows);
        }
        rows := rows.(generation := rows.generation + 1);
        rows := rows.(reconciliationRequired := true);
        rows := rows.(commands := UncertainCommands(rows.commands));
        rows := rows.(operations := UncertainOperations(rows.operations));
        r := Changed(id, rows);
        return;
      }
      if !OwnsUnresolved(rows) {
        return Ok(rows);
      }
      rows := rows.(generation := rows.generation + 1, cancellationRequested := true);
      rows := rows.(items := HeldItems(rows.items));
      rows := rows.(attempts := HeldAttempts(rows.attempts));
      rows := rows.(commands := UncertainCommands(rows.commands));
      r := Changed(id, rows);
    }

    method HoldForReconciliation(id: Id, expectedRevision: int)
      returns (r: Result<QueueSnapshot>)
      requires Valid()
      modifies this
      ensures Valid()
      ensures Transacted(old(queues), queues, id, OpHold(expectedRevision), r)
    {
      hide Durable, ReloadAccepts, Keyed, Elsewhere, Blank;
      if id !in queues {
        return Err(Refused);
      }
      var rows := queues[id];
      ApplyKeeps(rows, Elsewhere(queues, id), OpHold(expectedRevision));
      var fenced := Fence(rows, expectedRevision, rows.generation);
      if fenced.Some? {
        return Err(fenced.value);
      }
      if rows.reconciliationRequired {
        return Ok(rows);
      }
      rows := rows.(reconciliationRequired := true);
      r := Changed(id, rows);
    }

    method PrepareNativeSuccessor(id: Id, successorItemId: Id, reservationId: Id,
                                  successorAttemptId: Id, request: NativeQueueRequest,
                                  at: Instant, expectedRevision: int, expectedGeneration: int)
      returns (r: Result<QueueSnapshot>)
      requires Valid() && request.WellFormed()
      modifies this
      ensures Valid()
      ensures Transacted(old(queues), queues, id,
                         OpReserve(successorItemId, reservationId, successorAttemptId, request, at,
                                   expectedRevision, expectedGeneration), r)
    {
      hide Durable, ReloadAccepts, Keyed, Elsewhere, Blank, Stageable, RequestMatches,
           ReservationFree, ItemAt, OperationAt, ReservationAt, AnyReserved;
      ghost var op := OpReserve(successorItemId, reservationId, successorAttemptId, request, at,
                                expectedRevision, expectedGeneration);
      if id in queues {
        ApplyKeeps(queues[id], Elsewhere(queues, id), op);
      }
      if Blank(reservationId) || Blank(successorItemId) || Blank(successorAttemptId)
         || Blank(request.operationId) {
        return Err(Malformed);
      }
      if !request.action.PlayNext? || request.scope.applicationId.None? {
        return Err(Malformed);
      }
      if id !in queues {
        return Err(Refused);
      }
      var rows, taken := queues[id], Elsewhere(queues, id);
      var existing := OperationAt(rows.operations, request.operationId);
      if existing.Some? {
        r := StagedAgain(rows, rows.operations[existing.value], successorItemId, reservationId,
                         successorAttemptId, request, expectedGeneration);
        return;
      }
      var fenced := Fence(rows, expectedRevision, expectedGeneration);
      if fenced.Some? {
        return Err(fenced.value);
      }
      if rows.cancellationRequested || rows.reconciliationRequired
         || AnyReserved(rows.reservations) {
        return Err(Refused);
      }
      if rows.attempts == [] {
        return Err(Refused);
      }
      var source := rows.attempts[|rows.attempts| - 1];
      if at < source.createdAt {
        return Err(Malformed);
      }
      if !Stageable(rows, source, successorItemId, successorAttemptId, request) {
        return Err(Refused);
      }
      assert ItemAt(rows.items, source.itemId).Some? by { StageableItem(rows, source, successorItemId, successorAttemptId, request); }
      var row := NewReservation(rows, source, successorItemId, reservationId, successorAttemptId,
                                request, at);
      if !RequestMatches(rows, row, request) {
        return Err(Refused);
      }
      var index := ItemAt(rows.items, source.itemId).value;
      if source.itemId == successorItemId || Some(rows.items[index].content) == request.successor {
        return Err(Refused);
      }
      if !ReservationFree(rows, taken, row) || request.operationId in taken.operations {
        return Err(Refused);
      }
      var operation := NewOperation(rows, reservationId, request, at);
      rows := rows.(reservations := rows.reservations + [row]);
      rows := rows.(operations := rows.operations + [operation]);
      r := Changed(id, rows);
    }

    method PrepareNativeClear(id: Id, reservationId: Id, request: NativeQueueRequest, at: Instant,
                              expectedRevision: int, expectedGeneration: int)
      returns (r: Result<QueueSnapshot>)
      requires Valid() && request.WellFormed()
      modifies this
      ensures Valid()
      ensures Transacted(old(queues), queues, id,
                         OpClear(reservationId, request, at, expectedRevision, expectedGeneration),
                         r)
    {
      hide Durable, ReloadAccepts, Keyed, Elsewhere, Blank, RequestMatches, OperationAt,
           ReservationAt, SameOperation, ActionFree;
      ghost var op := OpClear(reservationId, request, at, expectedRevision, expectedGeneration);
      if id in queues {
        ApplyKeeps(queues[id], Elsewhere(queues, id), op);
      }
      if !request.action.Clear? {
        return Err(Malformed);
      }
      if id !in queues {
        return Err(Refused);
      }
      var rows, taken := queues[id], Elsewhere(queues, id);
      var k := ReservationAt(rows.reservations, reservationId);
      if k.None? || !RequestMatches(rows, rows.reservations[k.value], request) {
        return Err(Refused);
      }
      var reservation := rows.reservations[k.value];
      var existing := OperationAt(rows.operations, request.operationId);
      if existing.Some? {
        if !SameOperation(rows, rows.operations[existing.value], reservationId, request,
                          expectedGeneration) {
          return Err(Conflict);
        }
        return Ok(rows);
      }
      var fenced := Fence(rows, expectedRevision, expectedGeneration);
      if fenced.Some? {
        return Err(fenced.value);
      }
      if !rows.cancellationRequested || reservation.state.SessionExitObserved? {
        return Err(Refused);
      }
      if at < reservation.createdAt {
        return Err(Malformed);
      }
      if request.operationId in taken.operations
         || !ActionFree(rows.operations, reservationId, request.action) {
        return Err(Refused);
      }
      rows := rows.(operations :=
        rows.operations + [NewOperation(rows, reservationId, request, at)]);
      r := Changed(id, rows);
    }

    /** Shared by the claim of a native operation and the record of its outcome. */
    method TransitionNative(id: Id, operationId: Id, state: ExecutionState, at: Instant,
                            expectedRevision: int, expectedGeneration: int, ghost op: StoreOp)
      returns (r: Result<QueueSnapshot>)
      requires Valid() && (state.Dispatched? || IsOutcome(state))
      requires op == if state.Dispatched?
                     then OpNativeDispatch(operationId, at, expectedRevision, expectedGeneration)
                     else OpNativeOutcome(operationId, state, at, expectedRevision,
                                          expectedGeneration)
      modifies this
      ensures Valid()
      ensures Transacted(old(queues), queues, id, op, r)
    {
      hide Durable, ReloadAccepts, Keyed, Elsewhere, Blank, OperationAt, ReservationAt,
           NativeDispatchable, WithOperation, RollsBack;
      if id !in queues {
        return Err(Refused);
      }
      var rows := queues[id];
      ApplyKeeps(rows, Elsewhere(queues, id), op);
      var fenced := Fence(rows, expectedRevision, expectedGeneration);
      if fenced.Some? {
        return Err(fenced.value);
      }
      var k := OperationAt(rows.operations, operationId);
      if k.None? {
        return Err(Refused);
      }
      var operation := rows.operations[k.value];
      var n := ReservationAt(rows.reservations, operation.reservationId);
      if n.None? {
        return Err(Refused);
      }
      if operation.generation != rows.generation {
        return Err(Conflict);
      }
      if at < operation.updatedAt {
        return Err(Malformed);
      }
      if operation.state == state && !state.Dispatched? {
        return Ok(rows);
      }
      if state.Dispatched? {
        if !operation.state.Pending? {
          return Err(Refused);
        }
        if !NativeDispatchable(rows, rows.reservations[n.value], operation) {
          return Err(Refused);
        }
      } else if !operation.state.Dispatched? && !operation.state.Uncertain? {
        return Err(Refused);
      }
      rows := rows.(operations := WithOperation(rows.operations, operationId, state, at));
      if state.Uncertain? {
        rows := rows.(reconciliationRequired := true);
      }
      r := Changed(id, rows);
    }

    method MarkNativeDispatched(id: Id, operationId: Id, at: Instant, expectedRevision: int,
                                expectedGeneration: int) returns (r: Result<QueueSnapshot>)
      requires Valid()
      modifies this
      ensures Valid()
      ensures Transacted(old(queues), queues, id,
                         OpNativeDispatch(operationId, at, expectedRevision, expectedGeneration), r)
    {
      r := TransitionNative(id, operationId, ExecutionState.Dispatched, at, expectedRevision,
                            expectedGeneration,
                            OpNativeDispatch(operationId, at, expectedRevision,
                                             expectedGeneration));
    }

    method RecordNativeOutcome(id: Id, operationId: Id, outcome: ExecutionState, at: Instant,
                               expectedRevision: int, expectedGeneration: int)
      returns (r: Result<QueueSnapshot>)
      requires Valid()
      modifies this
      ensures Valid()
      ensures Transacted(old(queues), queues, id,
                         OpNativeOutcome(operationId, outcome, at, expectedRevision,
                                         expectedGeneration), r)
    {
      hide Durable, Keyed, ReloadAccepts, Elsewhere, RollsBack;
      ghost var op := OpNativeOutcome(operationId, outcome, at, expectedRevision,
                                      expectedGeneration);
      if !IsOutcome(outcome) {
        if id in queues {
          ApplyKeeps(queues[id], Elsewhere(queues, id), op);
        }
        return Err(Malformed);
      }
      r := TransitionNative(id, operationId, outcome, at, expectedRevision, expectedGeneration, op);
    }

    /** The guards of an adoption, in their order: a refusal, nothing left to do for a reservation
        that was adopted under the same decision, or the position of the reservation to adopt. */
    static method AdoptionGuards(rows: QueueSnapshot, taken: Taken, reservationId: Id,
                                 observed: SessionSnapshot, now: Monotonic, at: Instant,
                                 decisionId: Id, expectedRevision: int, expectedGeneration: int)
      returns (r: Result<Option<nat>>)
      requires !Blank(decisionId)
      ensures var adopted := QueueJournal.AdoptNativeSuccessor(
                rows, taken, reservationId, observed, now, at, decisionId, expectedRevision,
                expectedGeneration);
              match r
              case Err(fault) => adopted == Err(fault)
              case Ok(None) => adopted == Ok(rows)
              case Ok(Some(k)) =>
                && k < |rows.reservations| && rows.attempts != []
                && adopted == Ok(Adoption(rows, rows.reservations[k],
                                          rows.attempts[|rows.attempts| - 1], at, decisionId))
    {
      hide Blank, ItemAt, EnqueueAt, ReservationAt, Sent, ObservedMatches, QualifiedProgress,
           AdoptionFree, Adoption;
      if rows.generation != expectedGeneration {
        return Err(Conflict);
      }
      var k := ReservationAt(rows.reservations, reservationId);
      if k.None? {
        return Err(Refused);
      }
      var reservation := rows.reservations[k.value];
      var n := ItemAt(rows.items, reservation.successorItemId);
      if n.None? {
        return Err(Refused);
      }
      var item := rows.items[n.value];
      if !ObservedMatches(rows, reservation, item, observed) {
        return Err(Refused);
      }
      if reservation.adoptionDecisionId.Some? {
        return if reservation.adoptionDecisionId.value != decisionId then Err(Refused)
               else Ok(None);
      }
      var fenced := Fence(rows, expectedRevision, expectedGeneration);
      if fenced.Some? {
        return Err(fenced.value);
      }
      var e := EnqueueAt(rows.operations, reservationId);
      if e.None? || !reservation.state.Reserved? || !Sent(rows.operations[e.value].state)
         || !QualifiedProgress(observed, rows.target, item.content, now) {
        return Err(Refused);
      }
      if at < reservation.createdAt {
        return Err(Malformed);
      }
      if rows.attempts == []
         || rows.attempts[|rows.attempts| - 1].attemptId != reservation.predecessorAttemptId {
        return Err(Refused);
      }
      var source := rows.attempts[|rows.attempts| - 1];
      if !AdoptionFree(rows, taken, reservation, source, decisionId) {
        return Err(Refused);
      }
      r := Ok(k);
    }

    /** The statements of an adoption, on the uncommitted rows. */
    static method AdoptionStatements(before: QueueSnapshot, reservation: NativeReservation,
                                     source: QueueAttempt, at: Instant, decisionId: Id)
      returns (rows: QueueSnapshot)
      ensures Bump(rows) == Adoption(before, reservation, source, at, decisionId)
    {
      hide WithAttempt, WithItem, WithAdoption;
      rows := before;
      if !source.intent.Finished? {
        if source.intent.Current? || source.intent.NeedsAttention? {
          var decision := SourceDecision(source, decisionId);
          rows := rows.(attempts :=
            WithAttempt(rows.attempts, source.attemptId, NeedsAttention, decision));
          rows := rows.(items := WithItem(rows.items, source.itemId, NeedsAttention));
        }
        rows := rows.(reconciliationRequired := true);
      }
      var successor := QueueAttempt(reservation.successorAttemptId, reservation.successorItemId,
                                    Current, at, None, NativeObserved(reservation.reservationId));
      rows := rows.(attempts := rows.attempts + [successor]);
      rows := rows.(items := WithItem(rows.items, reservation.successorItemId, Current));
      rows := rows.(currentItemId := Some(reservation.successorItemId));
      rows := rows.(reservations :=
        WithAdoption(rows.reservations, reservation.reservationId, decisionId));
    }

    method AdoptNativeSuccessor(id: Id, reservationId: Id, observed: SessionSnapshot,
                                now: Monotonic, at: Instant, decisionId: Id,
                                expectedRevision: int, expectedGeneration: int)
      returns (r: Result<QueueSnapshot>)
      requires Valid()
      modifies this
      ensures Valid()
      ensures Transacted(old(queues), queues, id,
                         OpAdopt(reservationId, observed, now, at, decisionId, expectedRevision,
                                 expectedGeneration), r)
    {
      hide Durable, ReloadAccepts, Keyed, Elsewhere, Blank, Adoption;
      ghost var op := OpAdopt(reservationId, observed, now, at, decisionId, expectedRevision,
                              expectedGeneration);
      if id in queues {
        ApplyKeeps(queues[id], Elsewhere(queues, id), op);
      }
      if Blank(decisionId) {
        return Err(Malformed);
      }
      if id !in queues {
        return Err(Refused);
      }
      var rows := queues[id];
      var guarded := AdoptionGuards(rows, Elsewhere(queues, id), reservationId, observed, now, at,
                                    decisionId, expectedRevision, expectedGeneration);
      hide QueueJournal.AdoptNativeSuccessor;
      if guarded.Err? {
        return Err(guarded.fault);
      }
      if guarded.value.None? {
        return Ok(rows);
      }
      rows := AdoptionStatements(rows, rows.reservations[guarded.value.value],
                                 rows.attempts[|rows.attempts| - 1], at, decisionId);
      r := Changed(id, rows);
    }

    method RecordNativeSessionExit(id: Id, reservationId: Id, at: Instant, decisionId: Id,
                                   expectedRevision: int, expectedGeneration: int)
      returns (r: Result<QueueSnapshot>)
      requires Valid()
      modifies this
      ensures Valid()
      ensures Transacted(old(queues), queues, id,
                         OpExit(reservationId, at, decisionId, expectedRevision,
                                expectedGeneration), r)
    {
      hide Durable, ReloadAccepts, Keyed, Elsewhere, Blank, ReservationAt, WithExit;
      ghost var op := OpExit(reservationId, at, decisionId, expectedRevision, expectedGeneration);
      if id in queues {
        ApplyKeeps(queues[id], Elsewhere(queues, id), op);
      }
      if Blank(decisionId) {
        return Err(Malformed);
      }
      if id !in queues {
        return Err(Refused);
      }
      var rows, taken := queues[id], Elsewhere(queues, id);
      var k := ReservationAt(rows.reservations, reservationId);
      if k.None? {
        return Err(Refused);
      }
      var reservation := rows.reservations[k.value];
      var fenced := Fence(rows, expectedRevision, expectedGeneration);
      if fenced.Some? {
        return Err(fenced.value);
      }
      if reservation.exitDecisionId.Some? {
        return if reservation.exitDecisionId.value != decisionId then Err(Refused) else Ok(rows);
      }
      if !rows.cancellationRequested {
        return Err(Refused);
      }
      if at < reservation.createdAt {
        return Err(Malformed);
      }
      if decisionId in taken.exits
         || exists n :: 0 <= n < |rows.reservations|
              && rows.reservations[n].exitDecisionId == Some(decisionId) {
        return Err(Refused);
      }
      rows := rows.(reservations := WithExit(rows.reservations, reservationId, decisionId));
      r := Changed(id, rows);
    }
  }

  lemma {:induction false} StageableItem(s: QueueSnapshot, source: QueueAttempt,
                                         successorItemId: Id, successorAttemptId: Id,
                                         request: NativeQueueRequest)
    requires Stageable(s, source, successorItemId, successorAttemptId, request)
    ensures ItemAt(s.items, source.itemId).Some?
  {
  }
}
