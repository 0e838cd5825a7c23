/** History never unwinds: what every run of transactions, committed or refused, keeps. */
module QueueHistory {
  import opened Values
  import opened QueueRecords
  import opened QueueJournal
  import opened JournalInvariant

  // ---------------------------------------------------------------- what later rows may differ in

  predicate Terminal(intent: QueueIntent) {
    intent.Finished? || intent.Skipped? || intent.Stopped?
  }

  /** Pending, then dispatched, then uncertain, then acknowledged or rejected for good. */
  predicate Later(x: ExecutionState, y: ExecutionState) {
    x == y || x.Pending? || (x.Dispatched? && !y.Pending?)
    || (x.Uncertain? && (y.Acknowledged? || y.Rejected?))
  }

  predicate ItemContinues(x: QueueEntry, y: QueueEntry) {
    && y == x.(intent := y.intent)
    && (Terminal(x.intent) ==> y.intent == x.intent)
  }

  predicate AttemptContinues(x: QueueAttempt, y: QueueAttempt) {
    && y == x.(intent := y.intent, decisionId := y.decisionId)
    && (Terminal(x.intent) ==> y.intent == x.intent)
    && (x.decisionId.Some? && x.decisionId.value != "" ==> y.decisionId == x.decisionId)
  }

  /** A canceled queue dispatches nothing but stops. */
  predicate CommandContinues(canceled: bool, x: JournalCommand, y: JournalCommand) {
    && y == x.(state := y.state, updatedAt := y.updatedAt)
    && x.updatedAt <= y.updatedAt
    && Later(x.state, y.state)
    && (canceled && !x.action.Stop? && x.state.Pending? ==> y.state.Pending?)
  }

  predicate ReservationContinues(x: NativeReservation, y: NativeReservation) {
    && y == x.(state := y.state, adoptionDecisionId := y.adoptionDecisionId,
               exitDecisionId := y.exitDecisionId)
    && (x.adoptionDecisionId.Some? ==> y.adoptionDecisionId == x.adoptionDecisionId)
    && (x.exitDecisionId.Some? ==> y.exitDecisionId == x.exitDecisionId)
    && (y.state.Reserved? ==> x.state.Reserved?)
    && (x.state.SessionExitObserved? ==> y.state.SessionExitObserved?)
  }

  /** A canceled or held queue dispatches no enqueue. */
  predicate OperationContinues(latched: bool, x: NativeOperation, y: NativeOperation) {
    && y == x.(state := y.state, updatedAt := y.updatedAt)
    && x.updatedAt <= y.updatedAt
    && Later(x.state, y.state)
    && (latched && x.action.PlayNext? && x.state.Pending? ==> y.state.Pending?)
  }

  predicate RowsContinue(s: QueueSnapshot, t: QueueSnapshot) {
    && |s.items| == |t.items|
    && |s.attempts| <= |t.attempts| && |s.commands| <= |t.commands|
    && |s.reservations| <= |t.reservations| && |s.operations| <= |t.operations|
    && (forall k :: 0 <= k < |s.items| ==> ItemContinues(s.items[k], t.items[k]))
    && (forall k :: 0 <= k < |s.attempts| ==> AttemptContinues(s.attempts[k], t.attempts[k]))
    && (forall k :: 0 <= k < |s.commands| ==>
          CommandContinues(s.cancellationRequested, s.commands[k], t.commands[k]))
    && (forall k :: 0 <= k < |s.reservations| ==>
          ReservationContinues(s.reservations[k], t.reservations[k]))
    && (forall k :: 0 <= k < |s.operations| ==>
          OperationContinues(s.cancellationRequested || s.reconciliationRequired,
                             s.operations[k], t.operations[k]))
  }

  predicate LatchesContinue(s: QueueSnapshot, t: QueueSnapshot) {
    && t.queueId == s.queueId && t.target == s.target && t.mode == s.mode
    && (s.cancellationRequested ==> t.cancellationRequested)
    && (s.reconciliationRequired ==> t.reconciliationRequired)
    && s.generation <= t.generation
    && (t == s || s.revision < t.revision)
  }

  /** An attempt with a STOP command finishes only if it had finished before. */
  predicate StopsContinue(s: QueueSnapshot, t: QueueSnapshot)
    requires |s.attempts| <= |t.attempts|
  {
    forall k ::
      0 <= k < |s.attempts| && Has(s.commands, s.attempts[k].attemptId, Stop)
      && t.attempts[k].intent.Finished? ==>
        s.attempts[k].intent.Finished?
  }

  predicate Continues(s: QueueSnapshot, t: QueueSnapshot) {
    RowsContinue(s, t) && LatchesContinue(s, t) && StopsContinue(s, t)
  }

  lemma {:induction false} ContinuesTransitively(s: QueueSnapshot, t: QueueSnapshot,
                                                 u: QueueSnapshot)
    requires Continues(s, t) && Continues(t, u)
    ensures Continues(s, u)
  {
    RowsContinueTransitively(s, t, u);
    hide ItemContinues, CommandContinues, ReservationContinues, OperationContinues;
    forall k | 0 <= k < |s.attempts| && Has(s.commands, s.attempts[k].attemptId, Stop)
      && u.attempts[k].intent.Finished?
      ensures s.attempts[k].intent.Finished?
    {
      HasContinues(s, t, s.attempts[k].attemptId, Stop);
      assert t.attempts[k].attemptId == s.attempts[k].attemptId;
    }
  }

  lemma {:induction false} HasContinues(s: QueueSnapshot, t: QueueSnapshot, attemptId: Id,
                                        action: CommandAction)
    requires RowsContinue(s, t) && Has(s.commands, attemptId, action)
    ensures Has(t.commands, attemptId, action)
  {
    var n :| 0 <= n < |s.commands| && s.commands[n].attemptId == attemptId
      && s.commands[n].action == action;
    assert CommandContinues(s.cancellationRequested, s.commands[n], t.commands[n]);
  }

  lemma {:induction false} RowsContinueTransitively(s: QueueSnapshot, t: QueueSnapshot,
                                                    u: QueueSnapshot)
    requires Continues(s, t) && Continues(t, u)
    ensures RowsContinue(s, u)
  {
    hide StopsContinue;
    forall k | 0 <= k < |s.commands|
      ensures CommandContinues(s.cancellationRequested, s.commands[k], u.commands[k])
    {
      assert CommandContinues(s.cancellationRequested, s.commands[k], t.commands[k]);
      assert CommandContinues(t.cancellationRequested, t.commands[k], u.commands[k]);
    }
    forall k | 0 <= k < |s.operations|
      ensures OperationContinues(s.cancellationRequested || s.reconciliationRequired,
                                 s.operations[k], u.operations[k])
    {
      assert OperationContinues(s.cancellationRequested || s.reconciliationRequired,
                                s.operations[k], t.operations[k]);
      assert OperationContinues(t.cancellationRequested || t.reconciliationRequired,
                                t.operations[k], u.operations[k]);
    }
    forall k | 0 <= k < |s.attempts| ensures AttemptContinues(s.attempts[k], u.attempts[k]) {
      assert AttemptContinues(s.attempts[k], t.attempts[k]);
      assert AttemptContinues(t.attempts[k], u.attempts[k]);
    }
    forall k | 0 <= k < |s.items| ensures ItemContinues(s.items[k], u.items[k]) {
      assert ItemContinues(s.items[k], t.items[k]);
      assert ItemContinues(t.items[k], u.items[k]);
    }
    forall k | 0 <= k < |s.reservations|
      ensures ReservationContinues(s.reservations[k], u.reservations[k])
    {
      assert ReservationContinues(s.reservations[k], t.reservations[k]);
      assert ReservationContinues(t.reservations[k], u.reservations[k]);
    }
  }

  // ---------------------------------------------------------------- one transaction

  /** The item of an attempt has the attempt's intent; a pending item has no attempt. */
  lemma {:induction false} ItemOfAttempt(s: QueueSnapshot, k: nat, i: nat)
    requires Durable(s) && k < |s.attempts| && i < |s.items|
    requires s.items[i].itemId == s.attempts[k].itemId
    ensures s.items[i].intent == s.attempts[k].intent
  {
    assert AttemptOk(s.items, s.attempts[k]);
  }

  lemma {:induction false} ItemsWritten(items: seq<QueueEntry>, id: Id, intent: QueueIntent)
    requires forall i :: 0 <= i < |items| && items[i].itemId == id ==> !Terminal(items[i].intent)
    ensures forall i :: 0 <= i < |items| ==> ItemContinues(items[i], WithItem(items, id, intent)[i])
  {
  }

  lemma {:induction false} AttemptsWritten(attempts: seq<QueueAttempt>, id: Id, intent: QueueIntent,
                                           d: Id)
    requires forall k :: 0 <= k < |attempts| && attempts[k].attemptId == id ==>
      !Terminal(attempts[k].intent)
      && (attempts[k].decisionId.None? || attempts[k].decisionId.value in ["", d])
    ensures forall k :: 0 <= k < |attempts| ==>
      AttemptContinues(attempts[k], WithAttempt(attempts, id, intent, d)[k])
  {
  }

  /** Rows that differ in items and attempts only. */
  lemma {:induction false} SettledRows(s: QueueSnapshot, t: QueueSnapshot)
    requires t == s.(items := t.items, attempts := t.attempts, revision := t.revision,
                     cancellationRequested := t.cancellationRequested,
                     reconciliationRequired := t.reconciliationRequired)
    requires |s.items| == |t.items| && |s.attempts| == |t.attempts|
    requires forall i :: 0 <= i < |s.items| ==> ItemContinues(s.items[i], t.items[i])
    requires forall k :: 0 <= k < |s.attempts| ==> AttemptContinues(s.attempts[k], t.attempts[k])
    ensures RowsContinue(s, t)
  {
  }

  lemma {:induction false} SettlementContinues(s: QueueSnapshot, k: nat, outcome: QueueIntent,
                                               d: Id)
    requires Durable(s) && k < |s.attempts|
    requires s.attempts[k].decisionId.None? || s.attempts[k].decisionId.value in ["", d]
    requires s.attempts[k].intent.Current? || s.attempts[k].intent.NeedsAttention?
    requires outcome.Finished? ==> !Has(s.commands, s.attempts[k].attemptId, Stop)
    ensures Continues(s, Settlement(s, s.attempts[k], outcome, d))
  {
    var t := Settlement(s, s.attempts[k], outcome, d);
    AttemptedItems(s, k);
    OthersKept(s, k, outcome, d);
    hide Durable, ItemContinues, AttemptContinues, Has, RowsContinue, StopsContinue;
    ItemsWritten(s.items, s.attempts[k].itemId, outcome);
    SettledRows(s, t);
  }

  /** The item of an unsettled attempt is not terminal. */
  lemma {:induction false} AttemptedItems(s: QueueSnapshot, k: nat)
    requires Durable(s) && k < |s.attempts|
    requires s.attempts[k].intent.Current? || s.attempts[k].intent.NeedsAttention?
    ensures forall i :: 0 <= i < |s.items| && s.items[i].itemId == s.attempts[k].itemId ==>
      !Terminal(s.items[i].intent)
  {
    hide Durable;
    forall i | 0 <= i < |s.items| && s.items[i].itemId == s.attempts[k].itemId
      ensures !Terminal(s.items[i].intent)
    {
      ItemOfAttempt(s, k, i);
    }
  }

  /** A settlement rewrites one attempt, and finishes it only if it has no STOP. */
  lemma {:induction false} OthersKept(s: QueueSnapshot, k: nat, outcome: QueueIntent, d: Id)
    requires Durable(s) && k < |s.attempts|
    requires s.attempts[k].decisionId.None? || s.attempts[k].decisionId.value in ["", d]
    requires s.attempts[k].intent.Current? || s.attempts[k].intent.NeedsAttention?
    requires outcome.Finished? ==> !Has(s.commands, s.attempts[k].attemptId, Stop)
    ensures var t := Settlement(s, s.attempts[k], outcome, d);
            && (forall n :: 0 <= n < |s.attempts| ==>
                  AttemptContinues(s.attempts[n], t.attempts[n]))
            && StopsContinue(s, t)
  {
    hide Durable, AttemptContinues, Has, AttemptIds, WithItem;
    OneWithId(s, k);
    AttemptsWritten(s.attempts, s.attempts[k].attemptId, outcome, d);
  }

  lemma {:induction false} OneWithId(s: QueueSnapshot, k: nat)
    requires Durable(s) && k < |s.attempts|
    ensures forall n :: 0 <= n < |s.attempts| && n != k ==>
      s.attempts[n].attemptId != s.attempts[k].attemptId
  {
    assert AttemptIds(s.attempts);
    hide Durable;
  }

  lemma {:induction false} ReservationsAdopted(rs: seq<NativeReservation>, k: nat, d: Id)
    requires ReservationKeys(rs) && k < |rs| && rs[k].state.Reserved?
    requires rs[k].adoptionDecisionId.None?
    ensures forall i :: 0 <= i < |rs| ==>
      ReservationContinues(rs[i], WithAdoption(rs, rs[k].reservationId, d)[i])
  {
    assert forall i :: 0 <= i < |rs| && i != k ==> rs[i].reservationId != rs[k].reservationId;
  }

  lemma {:induction false} AdoptedRowsShape(u: QueueSnapshot, k: nat, at: Instant, d: Id,
                                            hold: bool)
    requires k < |u.reservations| && (u.reconciliationRequired ==> hold)
    requires var t := AdoptedRows(u, k, at, d, hold);
             && (forall i :: 0 <= i < |u.items| ==> ItemContinues(u.items[i], t.items[i]))
             && (forall i :: 0 <= i < |u.reservations| ==>
                   ReservationContinues(u.reservations[i], t.reservations[i]))
    ensures Continues(u, Bump(AdoptedRows(u, k, at, d, hold)))
  {
    hide ItemContinues, ReservationContinues, Has;
  }

  /** The rows an adoption writes on top of its settled source continue it. */
  lemma {:induction false} AdoptedRowsContinue(u: QueueSnapshot, k: nat, at: Instant, d: Id,
                                               hold: bool)
    requires Durable(u) && u.mode.Native? && k < |u.reservations|
    requires u.reservations[k].state.Reserved? && (u.reconciliationRequired ==> hold)
    ensures Continues(u, Bump(AdoptedRows(u, k, at, d, hold)))
  {
    var r := u.reservations[k];
    OutstandingSuccessor(u, k);
    assert r.adoptionDecisionId.None? by {
      assert ReservationOk(u.items, u.attempts, u.operations, u.currentItemId, u.generation, r);
    }
    var p :| 0 <= p < |u.items| && u.items[p].itemId == r.successorItemId
      && u.items[p].intent.Pending?;
    assert ItemKeys(u.items) && ReservationKeys(u.reservations);
    hide Durable, ItemContinues, AttemptAt, Continues, ReservationKeys, ReservationContinues;
    assert forall i :: 0 <= i < |u.items| && i != p ==> u.items[i].itemId != r.successorItemId;
    hide ItemKeys;
    ItemsWritten(u.items, r.successorItemId, Current);
    ReservationsAdopted(u.reservations, k, d);
    AdoptedRowsShape(u, k, at, d, hold);
  }

  lemma {:induction false} SourceLatches(s: QueueSnapshot, k: nat, at: Instant, d: Id)
    requires s.attempts != [] && k < |s.reservations| && s.mode.Native?
    ensures var t := Adoption(s, s.reservations[k], s.attempts[|s.attempts| - 1], at, d);
            var u := SourceSettled(s, d);
            && u.mode == s.mode && u.reservations == s.reservations
            && (u.reconciliationRequired ==> t.reconciliationRequired)
            && s.revision < t.revision
  {
  }

  lemma {:induction false} AdoptionContinues(s: QueueSnapshot, taken: Taken, k: nat, at: Instant,
                                             d: Id)
    requires Durable(s) && s.mode.Native? && s.attempts != [] && k < |s.reservations|
    requires s.reservations[k].state.Reserved?
    requires AdoptionFree(s, taken, s.reservations[k], s.attempts[|s.attempts| - 1], d)
    ensures Continues(s, Adoption(s, s.reservations[k], s.attempts[|s.attempts| - 1], at, d))
  {
    hide Durable, Adoption, SourceSettled, AdoptionFree, Settlement, Continues;
    var source, r := s.attempts[|s.attempts| - 1], s.reservations[k];
    var t := Adoption(s, r, source, at, d);
    var u := SourceSettled(s, d);
    AdoptionInTwo(s, k, at, d);
    SourceSettledKeeps(s, taken, r, d);
    SourceContinues(s, d);
    SourceLatches(s, k, at, d);
    var v := Bump(AdoptedRows(u, k, at, d, t.reconciliationRequired));
    AdoptedRowsContinue(u, k, at, d, t.reconciliationRequired);
    hide AdoptedRows;
    ContinuesTransitively(s, u, v);
    ContinuesAtRevision(s, v, t.revision);
  }

  lemma {:induction false} SourceContinues(s: QueueSnapshot, d: Id)
    requires Durable(s) && s.attempts != []
    ensures Continues(s, SourceSettled(s, d))
  {
    var n := |s.attempts| - 1;
    var source := s.attempts[n];
    ContinuesReflexively(s);
    hide Durable, Continues;
    if source.intent.Current? || source.intent.NeedsAttention? {
      SettlementContinues(s, n, NeedsAttention, SourceDecision(source, d));
    }
  }

  lemma {:induction false} ContinuesReflexively(s: QueueSnapshot)
    ensures Continues(s, s)
  {
  }

  lemma {:induction false} ContinuesAtRevision(s: QueueSnapshot, t: QueueSnapshot, revision: int)
    requires Continues(s, t) && s.revision < revision
    ensures Continues(s, t.(revision := revision))
  {
  }

  lemma {:induction false} StartedContinues(s: QueueSnapshot, i: Id, a: Id, c: Id, at: Instant)
    requires PendingItem(s.items, i) && ItemKeys(s.items)
    ensures Continues(s, Started(s, i, a, c, at))
  {
    var p :| 0 <= p < |s.items| && s.items[p].itemId == i && s.items[p].intent.Pending?;
    assert forall k :: 0 <= k < |s.items| && k != p ==> s.items[k].itemId != i;
    ItemsWritten(s.items, i, Current);
    hide ItemContinues, Has;
  }

  lemma {:induction false} RecoveredContinues(s: QueueSnapshot)
    ensures Continues(s, RecoveredNative(s)) && Continues(s, RecoveredLegacy(s))
  {
  }

  lemma {:induction false} CommandAddedContinues(s: QueueSnapshot, c: JournalCommand,
                                                 canceled: bool)
    requires s.cancellationRequested ==> canceled
    ensures Continues(s, Bump(s.(commands := s.commands + [c], cancellationRequested := canceled)))
  {
    hide Has;
  }

  /** A command moves only as its guards allow. */
  predicate MayMove(canceled: bool, c: JournalCommand, state: ExecutionState, at: Instant) {
    && c.updatedAt <= at
    && if state.Dispatched? then c.state.Pending? && (c.action.Stop? || !canceled)
       else IsOutcome(state) && (c.state.Dispatched? || c.state.Uncertain?)
  }

  lemma {:induction false} CommandMovedContinues(s: QueueSnapshot, k: nat, state: ExecutionState,
                                                 at: Instant)
    requires CommandKeys(s.attempts, s.commands) && k < |s.commands|
    requires MayMove(s.cancellationRequested, s.commands[k], state, at)
    ensures Continues(s, Bump(s.(
      commands := WithCommand(s.commands, s.commands[k].commandId, state, at))))
  {
    assert forall n :: 0 <= n < |s.commands| && n != k ==>
      s.commands[n].commandId != s.commands[k].commandId;
    hide Has, CommandKeys;
  }

  lemma {:induction false} TransitionContinues(s: QueueSnapshot, c: Id, state: ExecutionState,
                                               at: Instant, rev: int)
    requires CommandKeys(s.attempts, s.commands) && (state.Dispatched? || IsOutcome(state))
    requires Transition(s, c, state, at, rev).Ok?
    ensures Continues(s, Transition(s, c, state, at, rev).value)
  {
    hide Continues, Dispatchable, CommandKeys, WithCommand;
    if Transition(s, c, state, at, rev).value == s {
      ContinuesReflexively(s);
    } else {
      CommandMovedContinues(s, CommandAt(s.commands, c).value, state, at);
    }
  }

  lemma {:induction false} StagedContinues(s: QueueSnapshot, r: NativeReservation,
                                           o: NativeOperation)
    ensures Continues(s, Staged(s, r, o)) && Continues(s, Cleared(s, o))
  {
    hide Has;
  }

  predicate MayMoveNative(latched: bool, o: NativeOperation, state: ExecutionState, at: Instant) {
    && o.updatedAt <= at
    && if state.Dispatched? then o.state.Pending? && (o.action.PlayNext? ==> !latched)
       else IsOutcome(state) && (o.state.Dispatched? || o.state.Uncertain?)
  }

  lemma {:induction false} OperationMovedContinues(s: QueueSnapshot, k: nat, state: ExecutionState,
                                                   at: Instant)
    requires OperationKeys(s.reservations, s.operations) && k < |s.operations|
    requires MayMoveNative(s.cancellationRequested || s.reconciliationRequired, s.operations[k],
                           state, at)
    ensures Continues(s, OperationMoved(s, s.operations[k].operationId, state, at))
  {
    assert forall n :: 0 <= n < |s.operations| && n != k ==>
      s.operations[n].operationId != s.operations[k].operationId;
    hide Has, OperationKeys;
  }

  lemma {:induction false} NativeTransitionContinues(s: QueueSnapshot, id: Id,
                                                     state: ExecutionState, at: Instant, rev: int,
                                                     gen: int)
    requires OperationKeys(s.reservations, s.operations) && (state.Dispatched? || IsOutcome(state))
    requires TransitionNative(s, id, state, at, rev, gen).Ok?
    ensures Continues(s, TransitionNative(s, id, state, at, rev, gen).value)
  {
    hide Continues, ReservationAt, OperationKeys, OperationMoved;
    if TransitionNative(s, id, state, at, rev, gen).value == s {
      ContinuesReflexively(s);
    } else {
      OperationMovedContinues(s, OperationAt(s.operations, id).value, state, at);
    }
  }

  lemma {:induction false} ExitedContinues(s: QueueSnapshot, k: nat, d: Id)
    requires ReservationKeys(s.reservations) && k < |s.reservations|
    requires s.reservations[k].exitDecisionId.None?
    ensures Continues(s, Exited(s, s.reservations[k].reservationId, d))
  {
    assert forall i :: 0 <= i < |s.reservations| && i != k ==>
      s.reservations[i].reservationId != s.reservations[k].reservationId;
    hide Has, ReservationKeys;
  }

  lemma {:induction false} SettleContinues(s: QueueSnapshot, taken: Taken, a: Id,
                                           intent: QueueIntent, d: Id, rev: int)
    requires Durable(s) && SettleAttempt(s, taken, a, intent, d, rev).Ok?
    ensures Continues(s, SettleAttempt(s, taken, a, intent, d, rev).value)
  {
    hide Durable, Continues, Settlement, Has;
    ContinuesReflexively(s);
    if SettleAttempt(s, taken, a, intent, d, rev).value != s {
      SettlementContinues(s, AttemptAt(s.attempts, a).value, intent, d);
    }
  }

  lemma {:induction false} ReserveContinues(s: QueueSnapshot, taken: Taken, i: Id, r: Id, a: Id,
                                            q: NativeQueueRequest, at: Instant, rev: int, gen: int)
    requires PrepareNativeSuccessor(s, taken, i, r, a, q, at, rev, gen).Ok?
    ensures Continues(s, PrepareNativeSuccessor(s, taken, i, r, a, q, at, rev, gen).value)
  {
    hide Continues, Staged, Stageable, RequestMatches, ReservationFree;
    ContinuesReflexively(s);
    if PrepareNativeSuccessor(s, taken, i, r, a, q, at, rev, gen).value != s {
      StagedContinues(s, NewReservation(s, s.attempts[|s.attempts| - 1], i, r, a, q, at),
                      NewOperation(s, r, q, at));
    }
  }

  lemma {:induction false} ClearContinues(s: QueueSnapshot, taken: Taken, r: Id,
                                          q: NativeQueueRequest, at: Instant, rev: int, gen: int)
    requires PrepareNativeClear(s, taken, r, q, at, rev, gen).Ok?
    ensures Continues(s, PrepareNativeClear(s, taken, r, q, at, rev, gen).value)
  {
    hide Continues, Cleared, RequestMatches, ActionFree, SameOperation;
    ContinuesReflexively(s);
    if PrepareNativeClear(s, taken, r, q, at, rev, gen).value != s {
      StagedContinues(s, s.reservations[ReservationAt(s.reservations, r).value],
                      NewOperation(s, r, q, at));
    }
  }

  lemma {:induction false} AdoptContinues(s: QueueSnapshot, taken: Taken, r: Id,
                                          observed: SessionSnapshot, now: Monotonic, at: Instant,
                                          d: Id, rev: int, gen: int)
    requires Durable(s) && AdoptNativeSuccessor(s, taken, r, observed, now, at, d, rev, gen).Ok?
    ensures Continues(s, AdoptNativeSuccessor(s, taken, r, observed, now, at, d, rev, gen).value)
  {
    hide Durable, Continues, Adoption, QualifiedProgress, ObservedMatches, AdoptionFree;
    ContinuesReflexively(s);
    if AdoptNativeSuccessor(s, taken, r, observed, now, at, d, rev, gen).value != s {
      AdoptionContinues(s, taken, ReservationAt(s.reservations, r).value, at, d);
    }
  }

  lemma {:induction false} ExitContinues(s: QueueSnapshot, taken: Taken, r: Id, at: Instant, d: Id,
                                         rev: int, gen: int)
    requires ReservationKeys(s.reservations)
    requires RecordNativeSessionExit(s, taken, r, at, d, rev, gen).Ok?
    ensures Continues(s, RecordNativeSessionExit(s, taken, r, at, d, rev, gen).value)
  {
    hide Continues, ReservationKeys, Exited;
    ContinuesReflexively(s);
    if RecordNativeSessionExit(s, taken, r, at, d, rev, gen).value != s {
      ExitedContinues(s, ReservationAt(s.reservations, r).value, d);
    }
  }

  lemma {:induction false} StartContinues(s: QueueSnapshot, taken: Taken, i: Id, a: Id, c: Id,
                                          at: Instant, rev: int)
    requires ItemKeys(s.items) && PrepareStart(s, taken, i, a, c, at, rev).Ok?
    ensures Continues(s, PrepareStart(s, taken, i, a, c, at, rev).value)
  {
    hide Continues, Started, ItemKeys, AnyUnsettledItem, PendingItem, AnyReserved;
    ContinuesReflexively(s);
    if PrepareStart(s, taken, i, a, c, at, rev).value != s {
      StartedContinues(s, i, a, c, at);
    }
  }

  lemma {:induction false} StopContinues(s: QueueSnapshot, taken: Taken, a: Id, c: Id, at: Instant,
                                         rev: int)
    requires PrepareStop(s, taken, a, c, at, rev).Ok?
    ensures Continues(s, PrepareStop(s, taken, a, c, at, rev).value)
  {
    hide Continues, Stoppable;
    ContinuesReflexively(s);
    CommandAddedContinues(s, NewCommand(s, a, c, Stop, at), true);
  }

  lemma {:induction false} ControlContinues(s: QueueSnapshot, taken: Taken, a: Id, c: Id,
                                            action: CommandAction, at: Instant, rev: int)
    requires PrepareControl(s, taken, a, c, action, at, rev).Ok?
    ensures Continues(s, PrepareControl(s, taken, a, c, action, at, rev).value)
  {
    hide Continues, AnyUnresolved, Has;
    ContinuesReflexively(s);
    CommandAddedContinues(s, NewCommand(s, a, c, action, at), s.cancellationRequested);
  }

  lemma {:induction false} FenceContinues(s: QueueSnapshot, rev: int)
    ensures CancelQueue(s, rev).Ok? ==> Continues(s, CancelQueue(s, rev).value)
    ensures Hold(s, rev).Ok? ==> Continues(s, Hold(s, rev).value)
    ensures Recover(s, rev).Ok? ==> Continues(s, Recover(s, rev).value)
  {
    hide Continues, RecoveredNative, RecoveredLegacy;
    ContinuesReflexively(s);
    LatchContinues(s);
    RecoveredContinues(s);
  }

  /** Commands and items of one queue are told apart. */
  lemma {:induction false} OrdinaryKeys(s: QueueSnapshot)
    requires Durable(s)
    ensures CommandKeys(s.attempts, s.commands) && ItemKeys(s.items)
  {
    hide ReloadAccepts, CommandKeys, ReservationKeys, OperationKeys;
  }

  lemma {:induction false} NativeKeys(s: QueueSnapshot)
    requires Durable(s)
    ensures OperationKeys(s.reservations, s.operations) && ReservationKeys(s.reservations)
  {
    hide ReloadAccepts, CommandKeys, AttemptKeys, ReservationKeys, OperationKeys;
  }

  lemma {:induction false} CommandWriteContinues(s: QueueSnapshot, taken: Taken, op: StoreOp)
    requires Durable(s) && Write(s, taken, op).Ok?
    requires op.OpStart? || op.OpStop? || op.OpControl? || op.OpDispatch? || op.OpOutcome?
    ensures Continues(s, Write(s, taken, op).value)
  {
    hide Durable, Continues, CommandKeys, ItemKeys, PrepareStart, PrepareStop, PrepareControl,
         Transition;
    OrdinaryKeys(s);
    match op {
      case OpStart(i, a, c, at, rev) => StartContinues(s, taken, i, a, c, at, rev);
      case OpStop(a, c, at, rev) => StopContinues(s, taken, a, c, at, rev);
      case OpControl(a, c, action, at, rev) => ControlContinues(s, taken, a, c, action, at, rev);
      case OpDispatch(c, at, rev) => TransitionContinues(s, c, ExecutionState.Dispatched, at, rev);
      case OpOutcome(c, outcome, at, rev) => TransitionContinues(s, c, outcome, at, rev);
    }
  }

  lemma {:induction false} QueueWriteContinues(s: QueueSnapshot, taken: Taken, op: StoreOp)
    requires Durable(s) && Write(s, taken, op).Ok?
    requires op.OpCancel? || op.OpSettle? || op.OpRecover? || op.OpHold?
    ensures Continues(s, Write(s, taken, op).value)
  {
    hide Durable, Continues, CancelQueue, Hold, Recover, SettleAttempt;
    match op {
      case OpCancel(rev) => FenceContinues(s, rev);
      case OpSettle(a, intent, d, rev) => SettleContinues(s, taken, a, intent, d, rev);
      case OpRecover(rev) => FenceContinues(s, rev);
      case OpHold(rev) => FenceContinues(s, rev);
    }
  }

  lemma {:induction false} NativeWriteContinues(s: QueueSnapshot, taken: Taken, op: StoreOp)
    requires Durable(s) && Write(s, taken, op).Ok?
    requires || op.OpReserve? || op.OpClear? || op.OpNativeDispatch? || op.OpNativeOutcome?
             || op.OpAdopt? || op.OpExit?
    ensures Continues(s, Write(s, taken, op).value)
  {
    hide Durable, Continues, OperationKeys, ReservationKeys, PrepareNativeSuccessor,
         PrepareNativeClear, TransitionNative, AdoptNativeSuccessor, RecordNativeSessionExit;
    NativeKeys(s);
    match op {
      case OpReserve(i, r, a, q, at, rev, gen) =>
        ReserveContinues(s, taken, i, r, a, q, at, rev, gen);
      case OpClear(r, q, at, rev, gen) => ClearContinues(s, taken, r, q, at, rev, gen);
      case OpNativeDispatch(o, at, rev, gen) =>
        NativeTransitionContinues(s, o, ExecutionState.Dispatched, at, rev, gen);
      case OpNativeOutcome(o, outcome, at, rev, gen) =>
        NativeTransitionContinues(s, o, outcome, at, rev, gen);
      case OpAdopt(r, observed, now, at, d, rev, gen) =>
        AdoptContinues(s, taken, r, observed, now, at, d, rev, gen);
      case OpExit(r, at, d, rev, gen) => ExitContinues(s, taken, r, at, d, rev, gen);
    }
  }

  /** One transaction never unwinds history. */
  lemma {:induction false} WriteContinues(s: QueueSnapshot, taken: Taken, op: StoreOp)
    requires Durable(s) && Write(s, taken, op).Ok?
    ensures Continues(s, Write(s, taken, op).value)
  {
    hide Durable, Continues, Write;
    if op.OpStart? || op.OpStop? || op.OpControl? || op.OpDispatch? || op.OpOutcome? {
      CommandWriteContinues(s, taken, op);
    } else if op.OpCancel? || op.OpSettle? || op.OpRecover? || op.OpHold? {
      QueueWriteContinues(s, taken, op);
    } else {
      NativeWriteContinues(s, taken, op);
    }
  }

  lemma {:induction false} LatchContinues(s: QueueSnapshot)
    ensures Continues(s, Bump(s.(cancellationRequested := true)))
    ensures Continues(s, Bump(s.(reconciliationRequired := true)))
  {
    hide Has;
  }

  // ---------------------------------------------------------------- runs

  /** One call on one queue, whatever rows the other queues hold at that time. */
  datatype Call = Call(taken: Taken, op: StoreOp)

  /** The rows after a call: those it committed, or the same rows if it refused. */
  function After(s: QueueSnapshot, call: Call): QueueSnapshot {
    match Apply(s, call.taken, call.op)
    case Ok(t) => t
    case Err(_) => s
  }

  function Run(s: QueueSnapshot, calls: seq<Call>): QueueSnapshot
    decreases |calls|
  {
    if calls == [] then s else Run(After(s, calls[0]), calls[1..])
  }

  predicate WellFormedCalls(calls: seq<Call>) {
    forall k :: 0 <= k < |calls| ==> calls[k].op.WellFormed()
  }

  lemma {:induction false} AfterContinues(s: QueueSnapshot, call: Call)
    requires Durable(s) && call.op.WellFormed()
    ensures Durable(After(s, call)) && Continues(s, After(s, call))
  {
    hide Durable, Continues, Write, RollsBack;
    ApplyKeeps(s, call.taken, call.op);
    if Apply(s, call.taken, call.op).Ok? {
      WriteContinues(s, call.taken, call.op);
    } else {
      ContinuesReflexively(s);
    }
  }

  /** Over every run of calls, committed or refused, the rows stay durable and history never
      unwinds: latches and generation only rise, rows only append, terminal intents, receipts and
      decisions are permanent, a stopped attempt never finishes, and after cancellation or a hold
      nothing but stops (and clears) leaves PENDING. */
  lemma {:induction false} RunContinues(s: QueueSnapshot, calls: seq<Call>)
    requires Durable(s) && WellFormedCalls(calls)
    ensures Durable(Run(s, calls)) && Continues(s, Run(s, calls))
    decreases |calls|
  {
    hide Durable, Continues, After;
    if calls == [] {
      ContinuesReflexively(s);
    } else {
      AfterContinues(s, calls[0]);
      RunContinues(After(s, calls[0]), calls[1..]);
      ContinuesTransitively(s, After(s, calls[0]), Run(s, calls));
    }
  }
}
