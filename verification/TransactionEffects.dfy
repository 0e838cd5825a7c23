/** What each transaction does to the rows, said of the rows themselves: when it is let through, when
    it finds its work journaled already, and exactly which rows it changes. */
module TransactionEffects {
  import opened Values
  import opened QueueRecords
  import opened QueueJournal
  import H = QueueHistory

  // ---------------------------------------------------------------- rows that change in place

  /** The items named `id` get a new intent. */
  predicate ItemsSet(xs: seq<QueueEntry>, ys: seq<QueueEntry>, id: Id, intent: QueueIntent) {
    && |ys| == |xs|
    && forall k :: 0 <= k < |xs| ==>
         && ys[k].itemId == xs[k].itemId && ys[k].content == xs[k].content
         && ys[k].intent == if xs[k].itemId == id then intent else xs[k].intent
  }

  /** The attempts named `id` are settled under a decision. */
  predicate AttemptsSet(xs: seq<QueueAttempt>, ys: seq<QueueAttempt>, id: Id, intent: QueueIntent,
                        decision: Id) {
    && |ys| == |xs|
    && forall k :: 0 <= k < |xs| ==>
         if xs[k].attemptId == id
         then ys[k] == xs[k].(intent := intent, decisionId := Some(decision))
         else ys[k] == xs[k]
  }

  predicate CommandsMoved(xs: seq<JournalCommand>, ys: seq<JournalCommand>, id: Id,
                          state: ExecutionState, at: Instant) {
    && |ys| == |xs|
    && forall k :: 0 <= k < |xs| ==>
         if xs[k].commandId == id then ys[k] == xs[k].(state := state, updatedAt := at)
         else ys[k] == xs[k]
  }

  predicate OperationsMoved(xs: seq<NativeOperation>, ys: seq<NativeOperation>, id: Id,
                            state: ExecutionState, at: Instant) {
    && |ys| == |xs|
    && forall k :: 0 <= k < |xs| ==>
         if xs[k].operationId == id then ys[k] == xs[k].(state := state, updatedAt := at)
         else ys[k] == xs[k]
  }

  /** Whatever was on its way to the receiver is uncertain. */
  predicate CommandsUncertain(xs: seq<JournalCommand>, ys: seq<JournalCommand>) {
    && |ys| == |xs|
    && forall k :: 0 <= k < |xs| ==>
         if xs[k].state.Dispatched? then ys[k] == xs[k].(state := ExecutionState.Uncertain)
         else ys[k] == xs[k]
  }

  predicate OperationsUncertain(xs: seq<NativeOperation>, ys: seq<NativeOperation>) {
    && |ys| == |xs|
    && forall k :: 0 <= k < |xs| ==>
         if xs[k].state.Dispatched? then ys[k] == xs[k].(state := ExecutionState.Uncertain)
         else ys[k] == xs[k]
  }

  /** Whatever was current is handed to a human. */
  predicate CurrentNeedsAttention(s: QueueSnapshot, t: QueueSnapshot) {
    && |t.items| == |s.items| && |t.attempts| == |s.attempts|
    && (forall k :: 0 <= k < |s.items| ==>
          if s.items[k].intent.Current? then t.items[k] == s.items[k].(intent := NeedsAttention)
          else t.items[k] == s.items[k])
    && (forall k :: 0 <= k < |s.attempts| ==>
          if s.attempts[k].intent.Current?
          then t.attempts[k] == s.attempts[k].(intent := NeedsAttention)
          else t.attempts[k] == s.attempts[k])
  }

  // ---------------------------------------------------------------- one predicate per change

  predicate StartEffect(s: QueueSnapshot, t: QueueSnapshot, itemId: Id, attemptId: Id,
                        commandId: Id, at: Instant) {
    && t == s.(revision := s.revision + 1, currentItemId := Some(itemId), items := t.items,
               attempts := s.attempts
                 + [QueueAttempt(attemptId, itemId, Current, at, None, LocalStart)],
               commands := s.commands
                 + [JournalCommand(commandId, attemptId, Start, ExecutionState.Pending,
                                   s.generation, at, at)])
    && ItemsSet(s.items, t.items, itemId, Current)
  }

  /** A stop also cancels the queue. */
  predicate StopEffect(s: QueueSnapshot, t: QueueSnapshot, attemptId: Id, commandId: Id,
                       at: Instant) {
    t == s.(revision := s.revision + 1, cancellationRequested := true,
            commands := s.commands
              + [JournalCommand(commandId, attemptId, Stop, ExecutionState.Pending, s.generation,
                                at, at)])
  }

  predicate ControlEffect(s: QueueSnapshot, t: QueueSnapshot, attemptId: Id, commandId: Id,
                          action: CommandAction, at: Instant) {
    t == s.(revision := s.revision + 1,
            commands := s.commands
              + [JournalCommand(commandId, attemptId, action, ExecutionState.Pending, s.generation,
                                at, at)])
  }

  predicate CommandEffect(s: QueueSnapshot, t: QueueSnapshot, commandId: Id,
                          state: ExecutionState, at: Instant) {
    && t == s.(revision := s.revision + 1, commands := t.commands)
    && CommandsMoved(s.commands, t.commands, commandId, state, at)
  }

  /** A settlement settles the attempt and its item alike.  A stopped or unclear attempt also cancels
      the queue, except that an unclear one of a native queue holds it instead. */
  predicate SettleEffect(s: QueueSnapshot, t: QueueSnapshot, attemptId: Id, outcome: QueueIntent,
                         decisionId: Id) {
    && AttemptAt(s.attempts, attemptId).Some?
    && t == s.(revision := s.revision + 1, items := t.items, attempts := t.attempts,
               cancellationRequested := t.cancellationRequested,
               reconciliationRequired := t.reconciliationRequired)
    && AttemptsSet(s.attempts, t.attempts, attemptId, outcome, decisionId)
    && ItemsSet(s.items, t.items, s.attempts[AttemptAt(s.attempts, attemptId).value].itemId, outcome)
    && (t.reconciliationRequired <==>
          s.reconciliationRequired || (s.mode.Native? && outcome.NeedsAttention?))
    && (t.cancellationRequested <==>
          || s.cancellationRequested || outcome.Stopped?
          || (s.mode.Legacy? && outcome.NeedsAttention?))
  }

  /** A recovery fences the old owner.  A legacy queue is canceled, a native one is held. */
  predicate RecoverEffect(s: QueueSnapshot, t: QueueSnapshot) {
    && CommandsUncertain(s.commands, t.commands)
    && if s.mode.Native? then
         && t == s.(revision := s.revision + 1, generation := s.generation + 1,
                    reconciliationRequired := true, commands := t.commands,
                    operations := t.operations)
         && OperationsUncertain(s.operations, t.operations)
       else
         && t == s.(revision := s.revision + 1, generation := s.generation + 1,
                    cancellationRequested := true, commands := t.commands, items := t.items,
                    attempts := t.attempts)
         && CurrentNeedsAttention(s, t)
  }

  predicate ReserveEffect(s: QueueSnapshot, t: QueueSnapshot, itemId: Id, reservationId: Id,
                          attemptId: Id, q: NativeQueueRequest, at: Instant) {
    && s.attempts != [] && q.scope.applicationId.Some?
    && t == s.(revision := s.revision + 1,
               reservations := s.reservations
                 + [NativeReservation(
                      reservationId, s.attempts[|s.attempts| - 1].attemptId, itemId, attemptId,
                      q.scope.applicationId.value, q.scope.sessionId, q.playbackId, s.generation,
                      at, Reserved, None, None)],
               operations := s.operations + [OperationOf(s, reservationId, q, at)])
  }

  function OperationOf(s: QueueSnapshot, reservationId: Id, q: NativeQueueRequest, at: Instant)
    : NativeOperation
  {
    NativeOperation(q.operationId, reservationId, q.action, ExecutionState.Pending, s.generation,
                    at, at, q.scope.request.attemptId, q.scope.connectionGeneration, q.playbackId)
  }

  /** An uncertain outcome also holds the queue. */
  predicate OperationEffect(s: QueueSnapshot, t: QueueSnapshot, operationId: Id,
                            state: ExecutionState, at: Instant) {
    && t == s.(revision := s.revision + 1, operations := t.operations,
               reconciliationRequired := s.reconciliationRequired || state.Uncertain?)
    && OperationsMoved(s.operations, t.operations, operationId, state, at)
  }

  /** An adoption selects the successor.  A predecessor that was not seen to finish needs attention,
      and unless it had finished the queue is held. */
  predicate AdoptEffect(s: QueueSnapshot, t: QueueSnapshot, r: NativeReservation, at: Instant,
                        decisionId: Id) {
    && s.attempts != []
    && var source := s.attempts[|s.attempts| - 1];
    && var unclear := source.intent.Current? || source.intent.NeedsAttention?;
    && t == s.(revision := s.revision + 1, items := t.items, attempts := t.attempts,
               currentItemId := Some(r.successorItemId), reservations := t.reservations,
               reconciliationRequired := s.reconciliationRequired || !source.intent.Finished?)
    && |t.attempts| == |s.attempts| + 1
    && t.attempts[|s.attempts|]
         == QueueAttempt(r.successorAttemptId, r.successorItemId, Current, at, None,
                         NativeObserved(r.reservationId))
    && (if unclear then
          AttemptsSet(s.attempts, t.attempts[..|s.attempts|], source.attemptId, NeedsAttention,
                      if source.decisionId.Some? && source.decisionId.value != ""
                      then source.decisionId.value else "native-unobserved-" + decisionId)
        else t.attempts[..|s.attempts|] == s.attempts)
    && |t.items| == |s.items|
    && (forall k :: 0 <= k < |s.items| ==>
          && t.items[k] == s.items[k].(intent := t.items[k].intent)
          && t.items[k].intent
               == if s.items[k].itemId == r.successorItemId then Current
                  else if unclear && s.items[k].itemId == source.itemId then NeedsAttention
                  else s.items[k].intent)
    && |t.reservations| == |s.reservations|
    && (forall k :: 0 <= k < |s.reservations| ==>
          if s.reservations[k].reservationId == r.reservationId
          then t.reservations[k]
                 == s.reservations[k].(state := Adopted, adoptionDecisionId := Some(decisionId))
          else t.reservations[k] == s.reservations[k])
  }

  predicate ExitEffect(s: QueueSnapshot, t: QueueSnapshot, reservationId: Id, decisionId: Id) {
    && t == s.(revision := s.revision + 1, reservations := t.reservations)
    && |t.reservations| == |s.reservations|
    && (forall k :: 0 <= k < |s.reservations| ==>
          if s.reservations[k].reservationId == reservationId
          then t.reservations[k]
                 == s.reservations[k].(state := SessionExitObserved,
                                       exitDecisionId := Some(decisionId))
          else t.reservations[k] == s.reservations[k])
  }

  /** The change that a committed transaction makes. */
  predicate Changes(s: QueueSnapshot, op: StoreOp, t: QueueSnapshot) {
    match op
    case OpStart(i, a, c, at, _) => StartEffect(s, t, i, a, c, at)
    case OpStop(a, c, at, _) => StopEffect(s, t, a, c, at)
    case OpControl(a, c, action, at, _) => ControlEffect(s, t, a, c, action, at)
    case OpCancel(_) => t == s.(revision := s.revision + 1, cancellationRequested := true)
    case OpDispatch(c, at, _) => CommandEffect(s, t, c, ExecutionState.Dispatched, at)
    case OpOutcome(c, outcome, at, _) => CommandEffect(s, t, c, outcome, at)
    case OpSettle(a, intent, d, _) => SettleEffect(s, t, a, intent, d)
    case OpRecover(_) => RecoverEffect(s, t)
    case OpHold(_) => t == s.(revision := s.revision + 1, reconciliationRequired := true)
    case OpReserve(i, r, a, q, at, _, _) => ReserveEffect(s, t, i, r, a, q, at)
    case OpClear(r, q, at, _, _) =>
      t == s.(revision := s.revision + 1,
              operations := s.operations + [OperationOf(s, r, q, at)])
    case OpNativeDispatch(o, at, _, _) => OperationEffect(s, t, o, ExecutionState.Dispatched, at)
    case OpNativeOutcome(o, outcome, at, _, _) => OperationEffect(s, t, o, outcome, at)
    case OpAdopt(r, _, _, at, d, _, _) =>
      && ReservationAt(s.reservations, r).Some?
      && AdoptEffect(s, t, s.reservations[ReservationAt(s.reservations, r).value], at, d)
    case OpExit(r, _, d, _, _) => ExitEffect(s, t, r, d)
  }

  // ---------------------------------------------------------------- when a change is let through

  predicate NoCommand(s: QueueSnapshot, commandId: Id) {
    forall k :: 0 <= k < |s.commands| ==> s.commands[k].commandId != commandId
  }

  predicate NoAttempt(s: QueueSnapshot, attemptId: Id) {
    forall k :: 0 <= k < |s.attempts| ==> s.attempts[k].attemptId != attemptId
  }

  /** Nothing is current or unclear, and nothing latched, that stands against a start. */
  predicate MayStart(s: QueueSnapshot, taken: Taken, itemId: Id, attemptId: Id, commandId: Id,
                     revision: int) {
    && !Blank(itemId) && !Blank(attemptId) && !Blank(commandId)
    && NoCommand(s, commandId) && NoAttempt(s, attemptId)
    && attemptId !in taken.attempts && commandId !in taken.commands
    && s.revision == revision && !s.cancellationRequested
    && (s.mode.Native? ==> s.attempts == [] && !s.reconciliationRequired)
    && (forall k :: 0 <= k < |s.items| ==>
          !s.items[k].intent.Current? && !s.items[k].intent.NeedsAttention?)
    && (exists k :: 0 <= k < |s.items| && s.items[k].itemId == itemId && s.items[k].intent.Pending?)
  }

  /** The attempt is selected and not settled otherwise than as finished. */
  predicate MayStop(s: QueueSnapshot, taken: Taken, attemptId: Id, commandId: Id, revision: int) {
    && !Blank(commandId) && NoCommand(s, commandId) && commandId !in taken.commands
    && s.revision == revision
    && (exists k :: 0 <= k < |s.attempts| && s.attempts[k].attemptId == attemptId
          && s.currentItemId == Some(s.attempts[k].itemId)
          && (s.attempts[k].intent.Current? || s.attempts[k].intent.Finished?))
  }

  /** The attempt is the last and selected one, and nothing else is under way.  A release is for an
      attempt that finished under a decision, and happens once. */
  predicate MayControl(s: QueueSnapshot, taken: Taken, attemptId: Id, commandId: Id,
                       action: CommandAction, revision: int) {
    && (action.Pause? || action.Resume? || action.Release?)
    && !Blank(commandId) && NoCommand(s, commandId) && commandId !in taken.commands
    && s.revision == revision && !s.cancellationRequested && s.attempts != []
    && var last := s.attempts[|s.attempts| - 1];
    && last.attemptId == attemptId && s.currentItemId == Some(last.itemId)
    && (forall k :: 0 <= k < |s.commands| ==>
          s.commands[k].state.Acknowledged? || s.commands[k].state.Rejected?)
    && (if action.Release? then
          && last.intent.Finished? && last.decisionId.Some? && last.decisionId.value != ""
          && (forall k :: 0 <= k < |s.commands| ==>
                !(s.commands[k].attemptId == attemptId && s.commands[k].action.Release?))
          && (forall k :: 0 <= k < |s.reservations| ==> !s.reservations[k].state.Reserved?)
        else last.intent.Current?)
  }

  /** The command is of this generation, time does not run backwards, and its state may move: a claim
      only from PENDING, in order and for the selected attempt; an outcome only after a claim. */
  predicate MayMove(s: QueueSnapshot, commandId: Id, state: ExecutionState, at: Instant,
                    revision: int) {
    && CommandAt(s.commands, commandId).Some?
    && var c := s.commands[CommandAt(s.commands, commandId).value];
    && s.revision == revision && c.generation == s.generation && c.updatedAt <= at
    && if state.Dispatched? then
         && c.state.Pending? && (c.action.Stop? || !s.cancellationRequested)
         && SelectedFor(s, c)
       else
         && (state.Acknowledged? || state.Rejected? || state.Uncertain?)
         && (c.state.Dispatched? || c.state.Uncertain?) && c.state != state
  }

  /** The command is for the last attempt, which is selected, has the intent that the action needs,
      and shares it with its item. */
  predicate SelectedFor(s: QueueSnapshot, c: JournalCommand) {
    && s.attempts != []
    && var last := s.attempts[|s.attempts| - 1];
    && last.attemptId == c.attemptId && s.currentItemId == Some(last.itemId)
    && (if c.action.Release? then last.intent.Finished?
        else if c.action.Stop? then last.intent.Current? || last.intent.Finished?
        else last.intent.Current?)
    && (exists k :: 0 <= k < |s.items| && s.items[k].itemId == last.itemId
          && s.items[k].intent == last.intent)
  }

  /** The attempt is unsettled, a stopped one does not finish, and the decision is new. */
  predicate MaySettle(s: QueueSnapshot, taken: Taken, attemptId: Id, outcome: QueueIntent,
                      decisionId: Id, revision: int) {
    && !Blank(decisionId) && !outcome.Pending? && !outcome.Current?
    && AttemptAt(s.attempts, attemptId).Some?
    && var a := s.attempts[AttemptAt(s.attempts, attemptId).value];
    && s.revision == revision && a.decisionId.None?
    && (a.intent.Current? || a.intent.NeedsAttention?)
    && (outcome.Finished? ==>
          forall k :: 0 <= k < |s.commands| ==>
            !(s.commands[k].attemptId == attemptId && s.commands[k].action.Stop?))
    && decisionId !in taken.decisions
    && (forall k :: 0 <= k < |s.attempts| ==> s.attempts[k].decisionId != Some(decisionId))
  }

  /** There is something of the old owner to fence. */
  predicate MayRecover(s: QueueSnapshot, revision: int) {
    && s.revision == revision
    && if s.mode.Native? then s.attempts != [] || s.reservations != []
       else
         || (exists k :: 0 <= k < |s.attempts| && s.attempts[k].intent.Current?)
         || (exists k :: 0 <= k < |s.commands| && s.commands[k].generation == s.generation
               && !s.commands[k].state.Acknowledged? && !s.commands[k].state.Rejected?)
  }

  predicate Fenced(s: QueueSnapshot, revision: int, generation: int) {
    s.mode.Native? && s.revision == revision && s.generation == generation
  }

  /** The request is for the device of the queue, through the application and session of the
      reservation, and names either end of it with its item and content.  An enqueue names the
      predecessor, its playback, and the content of the reserved item. */
  predicate Addresses(s: QueueSnapshot, r: NativeReservation, q: NativeQueueRequest) {
    && AttemptAt(s.attempts, r.predecessorAttemptId).Some?
    && var source := s.attempts[AttemptAt(s.attempts, r.predecessorAttemptId).value];
    && var scope := q.scope;
    && scope.request.target == s.target
    && scope.applicationId == Some(r.applicationId) && scope.sessionId == r.sessionId
    && (if scope.request.attemptId == source.attemptId
        then Names(s, scope.request, source.itemId)
        else scope.request.attemptId == r.successorAttemptId
             && Names(s, scope.request, r.successorItemId))
    && (q.action.PlayNext? ==>
          && scope.request.attemptId == source.attemptId
          && q.playbackId == r.predecessorPlaybackId
          && ItemAt(s.items, r.successorItemId).Some?
          && q.successor == Some(s.items[ItemAt(s.items, r.successorItemId).value].content))
  }

  /** The request is for this item of the queue. */
  predicate Names(s: QueueSnapshot, request: PlaybackRequest, itemId: Id) {
    && request.queueItemId == itemId && ItemAt(s.items, itemId).Some?
    && request.content == s.items[ItemAt(s.items, itemId).value].content
  }

  /** What was observed is the reserved attempt of the reserved item, on the device of the queue and
      in the application and session of the reservation. */
  predicate Observes(s: QueueSnapshot, r: NativeReservation, observed: SessionSnapshot) {
    && Names(s, observed.scope.request, r.successorItemId)
    && observed.scope.request.attemptId == r.successorAttemptId
    && observed.scope.request.target == s.target
    && observed.scope.applicationId == Some(r.applicationId)
    && observed.scope.sessionId == r.sessionId
  }

  /** It is confirmed, owned and not stopped, and its latest sample, at most five seconds old and
      newer than its scope, shows exactly that content playing without an ad: an explicit media
      sample of the scope's session and connection, with a playback and a position. */
  predicate ShowsPlayback(observed: SessionSnapshot, now: Monotonic) {
    && observed.evidence.receiverPlaybackConfirmed && observed.hasConfirmedPlayback
    && !observed.ownershipLost && !observed.stopRequested && observed.latest.Some?
    && var scope := observed.scope;
    && var o := observed.latest.value;
    && o.target == scope.request.target && o.content == Some(scope.request.content)
    && o.applicationId == scope.applicationId && o.sessionId == Some(scope.sessionId)
    && o.connectionGeneration == scope.connectionGeneration
    && o.playbackId.Some? && o.position.Some?
    && o.state == PlayerState.Playing && o.adActive == Some(false)
    && o.identityUpdate == IdentityUpdate.Explicit
    && o.sessionActive.None? && !o.connectionReset
    && scope.startedMonotonic < o.monotonic <= now <= o.monotonic + 5.0
  }

  /** The new attempt, the adoption and, if one is needed, the predecessor's decision have identities
      that nothing else has. */
  predicate NewForAdoption(s: QueueSnapshot, taken: Taken, r: NativeReservation,
                           decisionId: Id)
    requires s.attempts != []
  {
    var source := s.attempts[|s.attempts| - 1];
    && NoAttempt(s, r.successorAttemptId) && r.successorAttemptId !in taken.attempts
    && decisionId !in taken.adoptions
    && (forall k :: 0 <= k < |s.reservations| ==>
          s.reservations[k].adoptionDecisionId != Some(decisionId))
    && (forall k :: 0 <= k < |s.attempts| ==>
          s.attempts[k].origin != NativeObserved(r.reservationId))
    && (source.intent.Current? || source.intent.NeedsAttention? ==>
          var d := if source.decisionId.Some? && source.decisionId.value != ""
                   then source.decisionId.value else "native-unobserved-" + decisionId;
          && d !in taken.decisions
          && forall k :: 0 <= k < |s.attempts| && s.attempts[k].attemptId != source.attemptId ==>
               s.attempts[k].decisionId != Some(d))
  }

  /** A queue that is neither canceled nor held nor waiting for another successor stages the pending
      item right after the current one, with nothing unresolved and nothing unclear. */
  predicate MayReserve(s: QueueSnapshot, taken: Taken, itemId: Id, reservationId: Id,
                       attemptId: Id, q: NativeQueueRequest, at: Instant, revision: int,
                       generation: int) {
    && !Blank(reservationId) && !Blank(itemId) && !Blank(attemptId) && !Blank(q.operationId)
    && q.action.PlayNext? && q.scope.applicationId.Some?
    && OperationAt(s.operations, q.operationId).None? && q.operationId !in taken.operations
    && Fenced(s, revision, generation) && !s.cancellationRequested && !s.reconciliationRequired
    && (forall k :: 0 <= k < |s.reservations| ==> !s.reservations[k].state.Reserved?)
    && s.attempts != []
    && var source := s.attempts[|s.attempts| - 1];
    && source.createdAt <= at && source.intent.Current?
    && ItemAt(s.items, source.itemId).Some?
    && var n := ItemAt(s.items, source.itemId).value;
    && n + 1 < |s.items| && s.items[n + 1].itemId == itemId && s.items[n + 1].intent.Pending?
    && itemId != source.itemId && Some(s.items[n].content) != q.successor
    && (forall k :: 0 <= k < |s.items| ==> !s.items[k].intent.NeedsAttention?)
    && (forall k :: 0 <= k < |s.commands| ==>
          s.commands[k].state.Acknowledged? || s.commands[k].state.Rejected?)
    && NoAttempt(s, attemptId)
    && q.scope.request.attemptId == source.attemptId
    && Addresses(s, NativeReservation(
         reservationId, source.attemptId, itemId, attemptId, q.scope.applicationId.value,
         q.scope.sessionId, q.playbackId, s.generation, at, Reserved, None, None), q)
    && reservationId !in taken.reservations && attemptId !in taken.successors
    && (forall k :: 0 <= k < |s.reservations| ==>
          && s.reservations[k].reservationId != reservationId
          && s.reservations[k].predecessorAttemptId != source.attemptId
          && s.reservations[k].successorItemId != itemId
          && s.reservations[k].successorAttemptId != attemptId)
  }

  /** A canceled queue clears what a reservation may have enqueued, once. */
  predicate MayClear(s: QueueSnapshot, taken: Taken, reservationId: Id, q: NativeQueueRequest,
                     at: Instant, revision: int, generation: int) {
    && q.action.Clear? && ReservationAt(s.reservations, reservationId).Some?
    && var r := s.reservations[ReservationAt(s.reservations, reservationId).value];
    && Addresses(s, r, q)
    && OperationAt(s.operations, q.operationId).None? && q.operationId !in taken.operations
    && Fenced(s, revision, generation)
    && s.cancellationRequested && !r.state.SessionExitObserved? && r.createdAt <= at
    && (forall k :: 0 <= k < |s.operations| ==>
          !(s.operations[k].reservationId == reservationId && s.operations[k].action.Clear?))
  }

  /** As for commands.  An enqueue is claimed only while nothing stands against it, behind the current
      attempt; a clear only in a canceled queue. */
  predicate MayMoveNative(s: QueueSnapshot, operationId: Id, state: ExecutionState, at: Instant,
                          revision: int, generation: int) {
    && Fenced(s, revision, generation) && OperationAt(s.operations, operationId).Some?
    && var o := s.operations[OperationAt(s.operations, operationId).value];
    && ReservationAt(s.reservations, o.reservationId).Some?
    && var r := s.reservations[ReservationAt(s.reservations, o.reservationId).value];
    && o.generation == s.generation && o.updatedAt <= at
    && if state.Dispatched? then
         && o.state.Pending?
         && if o.action.PlayNext? then
              && !s.cancellationRequested && !s.reconciliationRequired && r.state.Reserved?
              && s.attempts != []
              && s.attempts[|s.attempts| - 1].attemptId == r.predecessorAttemptId
              && s.attempts[|s.attempts| - 1].intent.Current?
            else s.cancellationRequested && !r.state.SessionExitObserved?
       else
         && (state.Acknowledged? || state.Rejected? || state.Uncertain?)
         && (o.state.Dispatched? || o.state.Uncertain?) && o.state != state
  }

  /** What is observed names the reserved successor and qualifies; the reservation is outstanding,
      its enqueue was sent, and its predecessor is still the last attempt. */
  predicate MayAdopt(s: QueueSnapshot, taken: Taken, reservationId: Id,
                     observed: SessionSnapshot, now: Monotonic, at: Instant, decisionId: Id,
                     revision: int, generation: int) {
    && !Blank(decisionId) && Fenced(s, revision, generation)
    && ReservationAt(s.reservations, reservationId).Some?
    && var r := s.reservations[ReservationAt(s.reservations, reservationId).value];
    && Observes(s, r, observed) && ShowsPlayback(observed, now)
    && r.adoptionDecisionId.None? && r.state.Reserved? && r.createdAt <= at
    && EnqueueAt(s.operations, reservationId).Some?
    && Sent(s.operations[EnqueueAt(s.operations, reservationId).value].state)
    && s.attempts != []
    && s.attempts[|s.attempts| - 1].attemptId == r.predecessorAttemptId
    && NewForAdoption(s, taken, r, decisionId)
  }

  predicate MayExit(s: QueueSnapshot, taken: Taken, reservationId: Id, at: Instant,
                    decisionId: Id, revision: int, generation: int) {
    && !Blank(decisionId) && Fenced(s, revision, generation) && s.cancellationRequested
    && ReservationAt(s.reservations, reservationId).Some?
    && var r := s.reservations[ReservationAt(s.reservations, reservationId).value];
    && r.exitDecisionId.None? && r.createdAt <= at && decisionId !in taken.exits
    && (forall k :: 0 <= k < |s.reservations| ==>
          s.reservations[k].exitDecisionId != Some(decisionId))
  }

  /** The guards of a transaction that is to change rows. */
  predicate Permits(s: QueueSnapshot, taken: Taken, op: StoreOp) {
    match op
    case OpStart(i, a, c, _, rev) => MayStart(s, taken, i, a, c, rev)
    case OpStop(a, c, _, rev) => MayStop(s, taken, a, c, rev)
    case OpControl(a, c, action, _, rev) => MayControl(s, taken, a, c, action, rev)
    case OpCancel(rev) => s.revision == rev && !s.cancellationRequested
    case OpDispatch(c, at, rev) => MayMove(s, c, ExecutionState.Dispatched, at, rev)
    case OpOutcome(c, outcome, at, rev) =>
      !outcome.Dispatched? && MayMove(s, c, outcome, at, rev)
    case OpSettle(a, intent, d, rev) => MaySettle(s, taken, a, intent, d, rev)
    case OpRecover(rev) => MayRecover(s, rev)
    case OpHold(rev) => Fenced(s, rev, s.generation) && !s.reconciliationRequired
    case OpReserve(i, r, a, q, at, rev, gen) => MayReserve(s, taken, i, r, a, q, at, rev, gen)
    case OpClear(r, q, at, rev, gen) => MayClear(s, taken, r, q, at, rev, gen)
    case OpNativeDispatch(o, at, rev, gen) =>
      MayMoveNative(s, o, ExecutionState.Dispatched, at, rev, gen)
    case OpNativeOutcome(o, outcome, at, rev, gen) =>
      !outcome.Dispatched? && MayMoveNative(s, o, outcome, at, rev, gen)
    case OpAdopt(r, observed, now, at, d, rev, gen) =>
      MayAdopt(s, taken, r, observed, now, at, d, rev, gen)
    case OpExit(r, at, d, rev, gen) => MayExit(s, taken, r, at, d, rev, gen)
  }

  // ---------------------------------------------------------------- work that is journaled already

  /** The command is journaled for exactly this attempt and action. */
  predicate CommandJournaled(s: QueueSnapshot, commandId: Id, attemptId: Id,
                             action: CommandAction) {
    && CommandAt(s.commands, commandId).Some?
    && var c := s.commands[CommandAt(s.commands, commandId).value];
    && c.attemptId == attemptId && c.action == action
  }

  /** The operation is journaled for exactly this request, in this generation. */
  predicate OperationJournaled(s: QueueSnapshot, reservationId: Id, q: NativeQueueRequest,
                               generation: int) {
    && OperationAt(s.operations, q.operationId).Some?
    && ReservationAt(s.reservations, reservationId).Some?
    && Addresses(s, s.reservations[ReservationAt(s.reservations, reservationId).value], q)
    && var o := s.operations[OperationAt(s.operations, q.operationId).value];
    && o.reservationId == reservationId && o.action == q.action
    && o.connectionGeneration == q.scope.connectionGeneration
    && o.generation == generation == s.generation
  }

  /** There is nothing left to change. */
  predicate Repeats(s: QueueSnapshot, op: StoreOp) {
    match op
    case OpStart(i, a, c, _, _) =>
      && !Blank(i) && !Blank(a) && !Blank(c) && CommandJournaled(s, c, a, Start)
      && AttemptAt(s.attempts, a).Some? && s.attempts[AttemptAt(s.attempts, a).value].itemId == i
    case OpStop(a, c, _, _) => !Blank(c) && CommandJournaled(s, c, a, Stop)
    case OpControl(a, c, action, _, _) =>
      !action.Start? && !action.Stop? && !Blank(c) && CommandJournaled(s, c, a, action)
    case OpCancel(rev) => s.revision == rev && s.cancellationRequested
    case OpDispatch(_, _, _) => false
    case OpOutcome(c, outcome, _, rev) =>
      && IsOutcome(outcome) && CommandAt(s.commands, c).Some? && s.revision == rev
      && s.commands[CommandAt(s.commands, c).value].generation == s.generation
      && s.commands[CommandAt(s.commands, c).value].state == outcome
    case OpSettle(a, intent, d, _) =>
      && !Blank(d) && Settled(intent) && AttemptAt(s.attempts, a).Some?
      && s.attempts[AttemptAt(s.attempts, a).value].decisionId == Some(d)
      && s.attempts[AttemptAt(s.attempts, a).value].intent == intent
    case OpRecover(rev) => s.revision == rev && !MayRecover(s, rev)
    case OpHold(rev) => Fenced(s, rev, s.generation) && s.reconciliationRequired
    case OpReserve(i, r, a, q, _, _, gen) =>
      && !Blank(r) && !Blank(i) && !Blank(a) && !Blank(q.operationId) && q.action.PlayNext?
      && q.scope.applicationId.Some? && OperationJournaled(s, r, q, gen)
      && s.reservations[ReservationAt(s.reservations, r).value].successorItemId == i
      && s.reservations[ReservationAt(s.reservations, r).value].successorAttemptId == a
    case OpClear(r, q, _, _, gen) =>
      && q.action.Clear? && OperationJournaled(s, r, q, gen)
      && var o := s.operations[OperationAt(s.operations, q.operationId).value];
      && o.scopeAttemptId == q.scope.request.attemptId && o.playbackId == q.playbackId
    case OpNativeDispatch(_, _, _, _) => false
    case OpNativeOutcome(o, outcome, at, rev, gen) =>
      && IsOutcome(outcome) && Fenced(s, rev, gen) && OperationAt(s.operations, o).Some?
      && var op := s.operations[OperationAt(s.operations, o).value];
      && ReservationAt(s.reservations, op.reservationId).Some?
      && op.generation == s.generation && op.updatedAt <= at && op.state == outcome
    case OpAdopt(r, observed, _, _, d, _, gen) =>
      && !Blank(d) && s.generation == gen && ReservationAt(s.reservations, r).Some?
      && var row := s.reservations[ReservationAt(s.reservations, r).value];
      && Observes(s, row, observed) && row.adoptionDecisionId == Some(d)
    case OpExit(r, _, d, rev, gen) =>
      && !Blank(d) && Fenced(s, rev, gen) && ReservationAt(s.reservations, r).Some?
      && s.reservations[ReservationAt(s.reservations, r).value].exitDecisionId == Some(d)
  }

  /** A transaction is exactly this: a change of these rows if it is permitted, the rows as they were
      if its work is journaled already, and a refusal otherwise. */
  predicate DoesExactly(s: QueueSnapshot, taken: Taken, op: StoreOp) {
    && (Permits(s, taken, op) ==>
          Write(s, taken, op).Ok? && Changes(s, op, Write(s, taken, op).value))
    && (Repeats(s, op) ==> Write(s, taken, op) == Ok(s))
    && (!Permits(s, taken, op) && !Repeats(s, op) ==> Write(s, taken, op).Err?)
  }

  // ---------------------------------------------------------------- each transaction does that

  lemma {:induction false} NoCommandAt(s: QueueSnapshot, id: Id)
    ensures CommandAt(s.commands, id).None? <==> NoCommand(s, id)
  {
  }

  lemma {:induction false} NoAttemptAt(s: QueueSnapshot, id: Id)
    ensures AttemptAt(s.attempts, id).None? <==> NoAttempt(s, id)
  {
  }

  lemma {:induction false} StartDoes(s: QueueSnapshot, taken: Taken, op: StoreOp)
    requires op.OpStart?
    ensures DoesExactly(s, taken, op)
  {
    hide CommandAt, AttemptAt, Blank;
    NoCommandAt(s, op.commandId);
    NoAttemptAt(s, op.attemptId);
  }

  lemma {:induction false} StopDoes(s: QueueSnapshot, taken: Taken, op: StoreOp)
    requires op.OpStop?
    ensures DoesExactly(s, taken, op)
  {
    hide CommandAt, AttemptAt, Blank;
    NoCommandAt(s, op.commandId);
  }

  lemma {:induction false} ControlDoes(s: QueueSnapshot, taken: Taken, op: StoreOp)
    requires op.OpControl?
    ensures DoesExactly(s, taken, op)
  {
    hide CommandAt, AttemptAt, Blank;
    NoCommandAt(s, op.commandId);
  }

  lemma {:induction false} MoveDoes(s: QueueSnapshot, taken: Taken, op: StoreOp)
    requires op.OpDispatch? || op.OpOutcome?
    ensures DoesExactly(s, taken, op)
  {
    hide CommandAt;
  }

  lemma {:induction false} SettleDoes(s: QueueSnapshot, taken: Taken, op: StoreOp)
    requires op.OpSettle?
    ensures DoesExactly(s, taken, op)
  {
    hide AttemptAt, Blank;
  }

  lemma {:induction false} LatchDoes(s: QueueSnapshot, taken: Taken, op: StoreOp)
    requires op.OpCancel? || op.OpHold?
    ensures DoesExactly(s, taken, op)
  {
  }

  lemma {:induction false} RecoveryIsNeeded(s: QueueSnapshot)
    ensures OwnsUnresolved(s) <==>
      || (exists k :: 0 <= k < |s.attempts| && s.attempts[k].intent.Current?)
      || (exists k :: 0 <= k < |s.commands| && s.commands[k].generation == s.generation
            && !s.commands[k].state.Acknowledged? && !s.commands[k].state.Rejected?)
  {
  }

  lemma {:induction false} RecoveryChanges(s: QueueSnapshot)
    ensures s.mode.Native? ==> RecoverEffect(s, RecoveredNative(s))
    ensures s.mode.Legacy? ==> RecoverEffect(s, RecoveredLegacy(s))
  {
  }

  lemma {:induction false} RecoverDoes(s: QueueSnapshot, taken: Taken, op: StoreOp)
    requires op.OpRecover?
    ensures DoesExactly(s, taken, op)
  {
    hide RecoverEffect, RecoveredNative, RecoveredLegacy, OwnsUnresolved;
    RecoveryIsNeeded(s);
    RecoveryChanges(s);
  }

  lemma {:induction false} AddressesMatches(s: QueueSnapshot, r: NativeReservation,
                                            q: NativeQueueRequest)
    ensures Addresses(s, r, q) <==> RequestMatches(s, r, q)
  {
    hide ItemAt, AttemptAt;
  }

  lemma {:induction false} ReserveDoes(s: QueueSnapshot, taken: Taken, op: StoreOp)
    requires op.OpReserve?
    ensures DoesExactly(s, taken, op)
  {
    hide ItemAt, AttemptAt, OperationAt, ReservationAt, Blank, RequestMatches, Addresses;
    NoAttemptAt(s, op.successorAttemptId);
    forall r { AddressesMatches(s, r, op.request); }
  }

  lemma {:induction false} ClearDoes(s: QueueSnapshot, taken: Taken, op: StoreOp)
    requires op.OpClear?
    ensures DoesExactly(s, taken, op)
  {
    hide OperationAt, ReservationAt, RequestMatches, Addresses;
    forall r { AddressesMatches(s, r, op.request); }
  }

  lemma {:induction false} MoveNativeDoes(s: QueueSnapshot, taken: Taken, op: StoreOp)
    requires op.OpNativeDispatch? || op.OpNativeOutcome?
    ensures DoesExactly(s, taken, op)
  {
    hide OperationAt, ReservationAt;
  }

  lemma {:induction false} ExitDoes(s: QueueSnapshot, taken: Taken, op: StoreOp)
    requires op.OpExit?
    ensures DoesExactly(s, taken, op)
  {
    hide ReservationAt, Blank;
  }

  lemma {:induction false} ObservesMatches(s: QueueSnapshot, r: NativeReservation,
                                           observed: SessionSnapshot, now: Monotonic)
    ensures Observes(s, r, observed) <==>
      && ItemAt(s.items, r.successorItemId).Some?
      && ObservedMatches(s, r, s.items[ItemAt(s.items, r.successorItemId).value], observed)
    ensures Observes(s, r, observed) ==>
      (ShowsPlayback(observed, now) <==>
         QualifiedProgress(observed, s.target,
                           s.items[ItemAt(s.items, r.successorItemId).value].content, now))
  {
    hide ItemAt;
  }

  lemma {:induction false} AdoptionIsFree(s: QueueSnapshot, taken: Taken, r: NativeReservation,
                                          decisionId: Id)
    requires s.attempts != []
    ensures NewForAdoption(s, taken, r, decisionId)
       <==> AdoptionFree(s, taken, r, s.attempts[|s.attempts| - 1], decisionId)
  {
    hide AttemptAt;
    NoAttemptAt(s, r.successorAttemptId);
  }

  lemma {:induction false} AdoptionChanges(s: QueueSnapshot, r: NativeReservation, at: Instant,
                                           decisionId: Id)
    requires s.attempts != []
    ensures AdoptEffect(s, Adoption(s, r, s.attempts[|s.attempts| - 1], at, decisionId), r, at,
                        decisionId)
  {
  }

  lemma {:induction false} AdoptDoes(s: QueueSnapshot, taken: Taken, op: StoreOp)
    requires op.OpAdopt?
    ensures DoesExactly(s, taken, op)
  {
    hide ItemAt, ReservationAt, EnqueueAt, Sent, Blank, ObservedMatches, QualifiedProgress,
         AdoptionFree, Adoption, Observes, ShowsPlayback, NewForAdoption, AdoptEffect;
    if ReservationAt(s.reservations, op.reservationId).Some? {
      var r := s.reservations[ReservationAt(s.reservations, op.reservationId).value];
      ObservesMatches(s, r, op.observed, op.now);
      if s.attempts != [] {
        AdoptionIsFree(s, taken, r, op.decisionId);
        AdoptionChanges(s, r, op.at, op.decisionId);
      }
    }
  }

  /** Every transaction does exactly what its guards and effects say. */
  lemma {:induction false} TransactionDoes(s: QueueSnapshot, taken: Taken, op: StoreOp)
    ensures DoesExactly(s, taken, op)
  {
    hide DoesExactly;
    match op {
      case OpStart(_, _, _, _, _) => StartDoes(s, taken, op);
      case OpStop(_, _, _, _) => StopDoes(s, taken, op);
      case OpControl(_, _, _, _, _) => ControlDoes(s, taken, op);
      case OpDispatch(_, _, _) => MoveDoes(s, taken, op);
      case OpOutcome(_, _, _, _) => MoveDoes(s, taken, op);
      case OpSettle(_, _, _, _) => SettleDoes(s, taken, op);
      case OpReserve(_, _, _, _, _, _, _) => ReserveDoes(s, taken, op);
      case OpClear(_, _, _, _, _) => ClearDoes(s, taken, op);
      case OpNativeDispatch(_, _, _, _) => MoveNativeDoes(s, taken, op);
      case OpNativeOutcome(_, _, _, _, _) => MoveNativeDoes(s, taken, op);
      case OpAdopt(_, _, _, _, _, _, _) => AdoptDoes(s, taken, op);
      case OpExit(_, _, _, _, _) => ExitDoes(s, taken, op);
      case OpRecover(_) => RecoverDoes(s, taken, op);
      case _ => LatchDoes(s, taken, op);
    }
  }

  /** A queue is created from a name and pending items that are told apart, and is empty otherwise. */
  lemma {:induction false} CreationDoes(id: Id, target: PlaybackTarget, items: seq<QueueEntry>,
                                        mode: QueueMode)
    ensures Create(id, target, items, mode).Ok? <==>
      && !Blank(id) && items != []
      && (forall i, j :: 0 <= i < j < |items| ==> items[i].itemId != items[j].itemId)
      && (forall k :: 0 <= k < |items| ==> items[k].intent.Pending?)
    ensures Create(id, target, items, mode).Ok? ==>
      var s := Create(id, target, items, mode).value;
      && s.queueId == id && s.target == target && s.mode == mode && s.items == items
      && s.revision == 0 && s.generation == 0 && s.currentItemId.None?
      && !s.cancellationRequested && !s.reconciliationRequired
      && s.attempts == [] && s.commands == [] && s.reservations == [] && s.operations == []
  {
    hide Blank;
  }

  // ---------------------------------------------------------------- what is latched in every run

  /** A stop, a stopped attempt, and in a legacy queue an unclear one or a recovery have canceled the
      queue; in a native queue an unclear attempt, an uncertain operation or a recovery hold it. */
  predicate AllLatched(s: QueueSnapshot) {
    && (forall k :: 0 <= k < |s.commands| && s.commands[k].action.Stop? ==> s.cancellationRequested)
    && (forall k :: 0 <= k < |s.attempts| && s.attempts[k].intent.Stopped? ==>
          s.cancellationRequested)
    && (forall k :: 0 <= k < |s.attempts| && s.attempts[k].intent.NeedsAttention? ==> Halted(s))
    && (s.mode.Native? ==>
          forall k :: 0 <= k < |s.operations| && s.operations[k].state.Uncertain? ==>
            s.reconciliationRequired)
    && (s.generation != 0 ==> Halted(s))
  }

  predicate Halted(s: QueueSnapshot) {
    if s.mode.Native? then s.reconciliationRequired else s.cancellationRequested
  }

  lemma {:induction false} CommandLatches(s: QueueSnapshot, taken: Taken, op: StoreOp,
                                          t: QueueSnapshot)
    requires op.OpStart? || op.OpStop? || op.OpControl? || op.OpDispatch? || op.OpOutcome?
    requires AllLatched(s) && Permits(s, taken, op) && Changes(s, op, t)
    ensures AllLatched(t)
  {
    hide MayStart, MayStop, MayMove;
  }

  lemma {:induction false} SettleLatches(s: QueueSnapshot, t: QueueSnapshot, a: Id,
                                         outcome: QueueIntent, d: Id)
    requires AllLatched(s) && SettleEffect(s, t, a, outcome, d)
    ensures AllLatched(t)
  {
    hide AttemptAt;
  }

  lemma {:induction false} RecoverLatches(s: QueueSnapshot, t: QueueSnapshot)
    requires AllLatched(s) && RecoverEffect(s, t)
    ensures AllLatched(t)
  {
  }

  lemma {:induction false} AdoptLatches(s: QueueSnapshot, t: QueueSnapshot, r: NativeReservation,
                                        at: Instant, d: Id)
    requires AllLatched(s) && s.mode.Native? && AdoptEffect(s, t, r, at, d)
    ensures AllLatched(t)
  {
    var n := |s.attempts|;
    var source := s.attempts[n - 1];
    assert forall k :: 0 <= k < n ==> t.attempts[k] == t.attempts[..n][k];
    forall k | 0 <= k < |t.attempts| && t.attempts[k].intent.Stopped?
      ensures t.cancellationRequested
    {
      assert k < n;
      assert s.attempts[k].intent.Stopped?;
    }
    forall k | 0 <= k < |t.attempts| && t.attempts[k].intent.NeedsAttention? ensures Halted(t) {
      assert k < n;
      assert !source.intent.Finished? || s.attempts[k].intent.NeedsAttention?;
    }
  }

  lemma {:induction false} NativeLatches(s: QueueSnapshot, op: StoreOp, t: QueueSnapshot)
    requires || op.OpReserve? || op.OpClear? || op.OpNativeDispatch? || op.OpNativeOutcome?
             || op.OpExit? || op.OpCancel? || op.OpHold?
    requires AllLatched(s) && Changes(s, op, t)
    ensures AllLatched(t)
  {
  }

  /** No transaction leaves something unlatched that has to latch. */
  lemma {:induction false} WriteLatches(s: QueueSnapshot, taken: Taken, op: StoreOp)
    requires AllLatched(s) && Write(s, taken, op).Ok?
    ensures AllLatched(Write(s, taken, op).value)
  {
    hide Write, AllLatched, Repeats, SettleEffect, RecoverEffect, AdoptEffect, MayAdopt;
    TransactionDoes(s, taken, op);
    var t := Write(s, taken, op).value;
    if Permits(s, taken, op) {
      match op {
        case OpSettle(a, outcome, d, _) => SettleLatches(s, t, a, outcome, d);
        case OpRecover(_) => RecoverLatches(s, t);
        case OpAdopt(r, observed, now, at, d, rev, gen) =>
          AdoptionIsNative(s, taken, r, observed, now, at, d, rev, gen);
          AdoptLatches(s, t, s.reservations[ReservationAt(s.reservations, r).value], at, d);
        case OpStart(_, _, _, _, _) => CommandLatches(s, taken, op, t);
        case OpStop(_, _, _, _) => CommandLatches(s, taken, op, t);
        case OpControl(_, _, _, _, _) => CommandLatches(s, taken, op, t);
        case OpDispatch(_, _, _) => CommandLatches(s, taken, op, t);
        case OpOutcome(_, _, _, _) => CommandLatches(s, taken, op, t);
        case _ => NativeLatches(s, op, t);
      }
    }
  }

  lemma {:induction false} AdoptionIsNative(s: QueueSnapshot, taken: Taken, r: Id,
                                            observed: SessionSnapshot, now: Monotonic,
                                            at: Instant, d: Id, rev: int, gen: int)
    requires MayAdopt(s, taken, r, observed, now, at, d, rev, gen)
    ensures s.mode.Native?
  {
    hide Observes, ShowsPlayback, NewForAdoption;
  }

  lemma {:induction false} AfterLatches(s: QueueSnapshot, call: H.Call)
    requires AllLatched(s)
    ensures AllLatched(H.After(s, call))
  {
    hide Write, AllLatched, ReloadAccepts;
    if Write(s, call.taken, call.op).Ok? {
      WriteLatches(s, call.taken, call.op);
    }
  }

  lemma {:induction false} RunLatches(s: QueueSnapshot, calls: seq<H.Call>)
    requires AllLatched(s)
    ensures AllLatched(H.Run(s, calls))
    decreases |calls|
  {
    hide AllLatched, H.After;
    if calls != [] {
      AfterLatches(s, calls[0]);
      RunLatches(H.After(s, calls[0]), calls[1..]);
    }
  }

  /** Over every run of calls on a queue that was created: whatever has to cancel or to hold it has
      done so.  In particular a queue with a STOP command is canceled. */
  lemma {:induction false} EverythingIsLatched(id: Id, target: PlaybackTarget,
                                               items: seq<QueueEntry>, mode: QueueMode,
                                               calls: seq<H.Call>)
    requires Create(id, target, items, mode).Ok?
    ensures AllLatched(H.Run(Create(id, target, items, mode).value, calls))
  {
    CreationDoes(id, target, items, mode);
    RunLatches(Create(id, target, items, mode).value, calls);
    hide Create;
  }
}
