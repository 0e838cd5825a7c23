/** Which rows a reload accepts, by position: every reference leads to a row, and what belongs
    together agrees. */
module JournalReload {
  import opened Values
  import opened QueueRecords
  import opened QueueJournal
  import D = DecisionTable

  // ---------------------------------------------------------------- rows by position

  predicate IsItem(s: QueueSnapshot, id: Id, n: nat) {
    n < |s.items| && s.items[n].itemId == id
  }

  predicate IsAttempt(s: QueueSnapshot, id: Id, n: nat) {
    n < |s.attempts| && s.attempts[n].attemptId == id
  }

  predicate IsEnqueue(s: QueueSnapshot, id: Id, n: nat) {
    n < |s.operations| && s.operations[n].reservationId == id && s.operations[n].action.PlayNext?
  }

  /** No mandatory text is empty and no counter is negative. */
  predicate Filled(s: QueueSnapshot) {
    && s.revision >= 0 && s.generation >= 0
    && "" !in {s.target.deviceId, s.target.route}
    && (forall k :: 0 <= k < |s.items| ==>
          "" !in {s.items[k].itemId, s.items[k].content.provider, s.items[k].content.contentId})
    && (forall k :: 0 <= k < |s.attempts| ==>
          && s.attempts[k].attemptId != ""
          && s.attempts[k].origin != NativeObserved(""))
    && (forall k :: 0 <= k < |s.commands| ==>
          s.commands[k].commandId != "" && s.commands[k].generation >= 0)
    && (forall k :: 0 <= k < |s.reservations| ==>
          var r := s.reservations[k];
          && r.generation >= 0
          && "" !in {r.reservationId, r.successorItemId, r.successorAttemptId, r.applicationId,
                     r.sessionId, r.predecessorPlaybackId})
    && (forall k :: 0 <= k < |s.operations| ==>
          var o := s.operations[k];
          && o.generation >= 0
          && "" !in {o.operationId, o.scopeAttemptId, o.connectionGeneration, o.playbackId})
  }

  /** Items exist, only the selected one can be current, and what is selected exists. */
  predicate Positioned(s: QueueSnapshot) {
    && s.items != []
    && (forall i :: 0 <= i < |s.items| && s.items[i].intent.Current? ==>
          s.currentItemId == Some(s.items[i].itemId))
    && (s.currentItemId.Some? ==>
          exists n: nat :: n < |s.items| && IsItem(s, s.currentItemId.value, n))
  }

  /** The attempt shares the intent of its item and was started as its origin says. */
  predicate Told(s: QueueSnapshot, a: QueueAttempt) {
    && (exists n: nat :: n < |s.items| && IsItem(s, a.itemId, n) && s.items[n].intent == a.intent)
    && !a.intent.Pending? && !(a.intent.Current? && a.decisionId.Some?)
    && (if a.origin.LocalStart? then D.StartedOnce(s, a.attemptId)
        else D.NeverStarted(s, a.attemptId))
  }

  predicate Attempted(s: QueueSnapshot) {
    && (forall i, j :: 0 <= i < j < |s.attempts| ==> s.attempts[i].itemId != s.attempts[j].itemId)
    && (s.attempts != [] ==> s.currentItemId == Some(s.attempts[|s.attempts| - 1].itemId))
    && (forall k :: 0 <= k < |s.attempts| ==> Told(s, s.attempts[k]))
  }

  predicate Commanded(s: QueueSnapshot) {
    forall k :: 0 <= k < |s.commands| ==>
      && s.commands[k].generation <= s.generation
      && s.commands[k].createdAt <= s.commands[k].updatedAt
  }

  /** The reservation leads from attempt `p`, whose item is `n`, to the next item, by operation `e`. */
  predicate Leads(s: QueueSnapshot, r: NativeReservation, p: nat, n: nat, e: nat) {
    && IsAttempt(s, r.predecessorAttemptId, p)
    && IsItem(s, s.attempts[p].itemId, n) && IsItem(s, r.successorItemId, n + 1)
    && s.items[n].content != s.items[n + 1].content
    && IsEnqueue(s, r.reservationId, e)
    && s.operations[e].scopeAttemptId == r.predecessorAttemptId
    && s.operations[e].generation == r.generation
    && s.operations[e].playbackId == r.predecessorPlaybackId
  }

  /** Every operation of the reservation comes after it, in time and in generation, and is scoped to
      one of its two attempts. */
  predicate Operated(s: QueueSnapshot, r: NativeReservation) {
    forall k :: 0 <= k < |s.operations| && s.operations[k].reservationId == r.reservationId ==>
      var o := s.operations[k];
      && r.generation <= o.generation <= s.generation
      && r.createdAt <= o.createdAt <= o.updatedAt
      && o.scopeAttemptId in {r.predecessorAttemptId, r.successorAttemptId}
  }

  /** While it is reserved, its predecessor is selected and its item pending; it was adopted exactly
      when its successor's attempt is there, after a sent enqueue; an exit is recorded exactly when
      it was observed. */
  predicate InState(s: QueueSnapshot, r: NativeReservation, p: nat, n: nat, e: nat)
    requires Leads(s, r, p, n, e)
  {
    && (r.state.Reserved? ==>
          && r.adoptionDecisionId.None?
          && s.currentItemId == Some(s.attempts[p].itemId) && s.items[n + 1].intent.Pending?)
    && (r.state.Adopted? ==> r.adoptionDecisionId.Some?)
    && (r.state.SessionExitObserved? <==> r.exitDecisionId.Some?)
    && (if r.adoptionDecisionId.None? then
          forall k: nat :: k < |s.attempts| ==> !IsAttempt(s, r.successorAttemptId, k)
        else
          && (exists k: nat :: k < |s.attempts| && IsAttempt(s, r.successorAttemptId, k)
                && s.attempts[k].itemId == r.successorItemId
                && s.attempts[k].origin == NativeObserved(r.reservationId))
          && s.operations[e].state in {ExecutionState.Dispatched, ExecutionState.Acknowledged,
                                       ExecutionState.Uncertain})
  }

  predicate Linked(s: QueueSnapshot, r: NativeReservation) {
    && r.generation <= s.generation && Operated(s, r)
    && exists p: nat, n: nat, e: nat ::
         p < |s.attempts| && n < |s.items| && e < |s.operations|
         && Leads(s, r, p, n, e) && InState(s, r, p, n, e)
  }

  predicate Backed(s: QueueSnapshot, a: QueueAttempt) {
    a.origin.NativeObserved? ==>
      exists k :: 0 <= k < |s.reservations|
        && s.reservations[k].reservationId == a.origin.reservationId
        && s.reservations[k].successorAttemptId == a.attemptId
        && s.reservations[k].adoptionDecisionId.Some?
  }

  /** A legacy queue has no native rows; in a native one at most one reservation is outstanding,
      every reservation is linked and every observed attempt backed. */
  predicate Native(s: QueueSnapshot) {
    if s.mode.Legacy? then
      && s.reservations == [] && s.operations == [] && !s.reconciliationRequired
      && forall k :: 0 <= k < |s.attempts| ==> s.attempts[k].origin.LocalStart?
    else
      && (forall i, j :: 0 <= i < j < |s.reservations| ==>
            !(s.reservations[i].state.Reserved? && s.reservations[j].state.Reserved?))
      && (forall k :: 0 <= k < |s.reservations| ==> Linked(s, s.reservations[k]))
      && (forall k :: 0 <= k < |s.attempts| ==> Backed(s, s.attempts[k]))
  }

  /** Rows that can be read again. */
  predicate Legible(s: QueueSnapshot) {
    Filled(s) && Positioned(s) && Attempted(s) && Commanded(s) && Native(s)
  }

  // ---------------------------------------------------------------- the same as the reload check

  lemma {:induction false} ItemFound(s: QueueSnapshot, id: Id)
    requires ItemKeys(s.items)
    ensures ItemAt(s.items, id).Some? ==> IsItem(s, id, ItemAt(s.items, id).value)
    ensures forall n: nat :: IsItem(s, id, n) ==> ItemAt(s.items, id) == Some(n)
    ensures ItemAt(s.items, id).Some? <==> exists n: nat :: n < |s.items| && IsItem(s, id, n)
  {
    hide ItemAt;
    if ItemAt(s.items, id).Some? {
      assert IsItem(s, id, ItemAt(s.items, id).value);
    }
  }

  lemma {:induction false} AttemptFound(s: QueueSnapshot, id: Id)
    requires AttemptIds(s.attempts)
    ensures AttemptAt(s.attempts, id).Some? ==> IsAttempt(s, id, AttemptAt(s.attempts, id).value)
    ensures forall n: nat :: IsAttempt(s, id, n) ==> AttemptAt(s.attempts, id) == Some(n)
  {
    hide AttemptAt;
  }

  lemma {:induction false} EnqueueFound(s: QueueSnapshot, id: Id)
    requires OperationKeys(s.reservations, s.operations)
    ensures EnqueueAt(s.operations, id).Some? ==> IsEnqueue(s, id, EnqueueAt(s.operations, id).value)
    ensures forall n: nat :: IsEnqueue(s, id, n) ==> EnqueueAt(s.operations, id) == Some(n)
  {
    hide EnqueueAt, ReservationAt;
  }

  lemma {:induction false} FilledIsText(s: QueueSnapshot)
    ensures TextOk(s) <==> Filled(s)
  {
  }

  lemma {:induction false} PositionedIsOk(s: QueueSnapshot)
    requires ItemKeys(s.items)
    ensures PositionOk(s.items, s.currentItemId) <==> Positioned(s)
  {
    hide ItemAt, IsItem;
    if s.currentItemId.Some? {
      ItemFound(s, s.currentItemId.value);
    }
  }

  lemma {:induction false} ToldIsOk(s: QueueSnapshot, a: QueueAttempt)
    requires ItemKeys(s.items)
    ensures Told(s, a)
        <==> && AttemptOk(s.items, a)
             && Starts(s.commands, a.attemptId) == (if a.origin.LocalStart? then 1 else 0)
  {
    hide ItemAt, Starts, D.StartedOnce, D.NeverStarted;
    ItemFound(s, a.itemId);
    D.StartsCount(s, a.attemptId);
  }

  lemma {:induction false} AttemptedIsOk(s: QueueSnapshot)
    requires ItemKeys(s.items)
    ensures Attempted(s)
        <==> AttemptsOk(s.items, s.attempts, s.currentItemId) && StartsOk(s.attempts, s.commands)
  {
    hide AttemptOk, Told, Starts;
    forall k | 0 <= k < |s.attempts|
      ensures Told(s, s.attempts[k])
          <==> && AttemptOk(s.items, s.attempts[k])
               && Starts(s.commands, s.attempts[k].attemptId)
                  == (if s.attempts[k].origin.LocalStart? then 1 else 0)
    {
      ToldIsOk(s, s.attempts[k]);
    }
  }

  lemma {:induction false} OperatedIsOk(s: QueueSnapshot, r: NativeReservation)
    requires OperationKeys(s.reservations, s.operations)
    ensures Operated(s, r) <==> OperationsOk(s.operations, s.generation, r)
  {
    hide ReservationAt;
  }

  lemma {:induction false} SuccessorFound(s: QueueSnapshot, r: NativeReservation, e: nat)
    requires AttemptIds(s.attempts) && e < |s.operations|
    ensures SuccessorOk(s.attempts, s.operations[e].state, r)
        <==> if r.adoptionDecisionId.None? then
               forall k: nat :: k < |s.attempts| ==> !IsAttempt(s, r.successorAttemptId, k)
             else
               && (exists k: nat :: k < |s.attempts| && IsAttempt(s, r.successorAttemptId, k)
                     && s.attempts[k].itemId == r.successorItemId
                     && s.attempts[k].origin == NativeObserved(r.reservationId))
               && s.operations[e].state in {ExecutionState.Dispatched, ExecutionState.Acknowledged,
                                            ExecutionState.Uncertain}
  {
    hide AttemptAt;
    AttemptFound(s, r.successorAttemptId);
  }

  /** The rows that a reservation leads through are those that the check finds. */
  predicate Finds(s: QueueSnapshot, r: NativeReservation) {
    && AttemptAt(s.attempts, r.predecessorAttemptId).Some?
    && EnqueueAt(s.operations, r.reservationId).Some?
    && var p := AttemptAt(s.attempts, r.predecessorAttemptId).value;
    && var e := EnqueueAt(s.operations, r.reservationId).value;
    && ItemAt(s.items, s.attempts[p].itemId).Some?
    && Leads(s, r, p, ItemAt(s.items, s.attempts[p].itemId).value, e)
  }

  lemma {:induction false} LeadsIsFound(s: QueueSnapshot, r: NativeReservation)
    requires ItemKeys(s.items) && AttemptIds(s.attempts)
    requires OperationKeys(s.reservations, s.operations)
    ensures forall p: nat, n: nat, e: nat :: Leads(s, r, p, n, e) ==>
      && AttemptAt(s.attempts, r.predecessorAttemptId) == Some(p)
      && EnqueueAt(s.operations, r.reservationId) == Some(e)
      && ItemAt(s.items, s.attempts[p].itemId) == Some(n)
      && Finds(s, r)
  {
    hide ItemAt, AttemptAt, EnqueueAt, IsItem, IsAttempt, IsEnqueue, OperationKeys;
    AttemptFound(s, r.predecessorAttemptId);
    EnqueueFound(s, r.reservationId);
    forall p: nat, n: nat, e: nat | Leads(s, r, p, n, e)
      ensures AttemptAt(s.attempts, r.predecessorAttemptId) == Some(p)
      ensures EnqueueAt(s.operations, r.reservationId) == Some(e)
      ensures ItemAt(s.items, s.attempts[p].itemId) == Some(n)
    {
      assert p < |s.attempts| by { AttemptInRange(s, r.predecessorAttemptId, p); }
      ItemFound(s, s.attempts[p].itemId);
    }
  }

  lemma {:induction false} AttemptInRange(s: QueueSnapshot, id: Id, p: nat)
    ensures IsAttempt(s, id, p) ==> p < |s.attempts|
  {
  }

  lemma {:induction false} FoundLeads(s: QueueSnapshot, r: NativeReservation)
    requires ItemKeys(s.items) && AttemptIds(s.attempts)
    requires OperationKeys(s.reservations, s.operations)
    ensures Finds(s, r)
        <==> && AttemptAt(s.attempts, r.predecessorAttemptId).Some?
             && EnqueueAt(s.operations, r.reservationId).Some?
             && NextItem(s.items,
                         s.attempts[AttemptAt(s.attempts, r.predecessorAttemptId).value].itemId,
                         r.successorItemId)
             && EnqueueOk(s.operations[EnqueueAt(s.operations, r.reservationId).value], r)
  {
    hide ItemAt, AttemptAt, EnqueueAt, OperationKeys;
    AttemptFound(s, r.predecessorAttemptId);
    EnqueueFound(s, r.reservationId);
    ItemFound(s, r.successorItemId);
    if AttemptAt(s.attempts, r.predecessorAttemptId).Some? {
      ItemFound(s, s.attempts[AttemptAt(s.attempts, r.predecessorAttemptId).value].itemId);
    }
  }

  lemma {:induction false} StateIsOk(s: QueueSnapshot, r: NativeReservation, p: nat, n: nat, e: nat)
    requires ItemKeys(s.items) && AttemptIds(s.attempts)
    requires Leads(s, r, p, n, e)
    ensures InState(s, r, p, n, e)
        <==> && (r.state.Reserved? ==>
                   OutstandingOk(s.items, s.currentItemId, s.attempts[p], r))
             && (r.state.Adopted? ==> r.adoptionDecisionId.Some?)
             && (r.state.SessionExitObserved? <==> r.exitDecisionId.Some?)
             && SuccessorOk(s.attempts, s.operations[e].state, r)
  {
    hide ItemAt, SuccessorOk;
    SuccessorFound(s, r, e);
    ItemFound(s, r.successorItemId);
  }

  lemma {:induction false} LinkedIsOk(s: QueueSnapshot, r: NativeReservation)
    requires ItemKeys(s.items) && AttemptIds(s.attempts)
    requires OperationKeys(s.reservations, s.operations)
    ensures Linked(s, r)
        <==> ReservationOk(s.items, s.attempts, s.operations, s.currentItemId, s.generation, r)
  {
    hide ItemAt, AttemptAt, EnqueueAt, OperationKeys, ItemKeys, AttemptIds, Leads, InState,
         NextItem, EnqueueOk, OutstandingOk, SuccessorOk, Operated, OperationsOk;
    LeadsIsFound(s, r);
    FoundLeads(s, r);
    OperatedIsOk(s, r);
    if Finds(s, r) {
      var p := AttemptAt(s.attempts, r.predecessorAttemptId).value;
      var n := ItemAt(s.items, s.attempts[p].itemId).value;
      var e := EnqueueAt(s.operations, r.reservationId).value;
      assert Leads(s, r, p, n, e);
      StateIsOk(s, r, p, n, e);
    }
  }

  lemma {:induction false} NativeIsOk(s: QueueSnapshot)
    requires ItemKeys(s.items) && AttemptIds(s.attempts)
    requires OperationKeys(s.reservations, s.operations)
    ensures Native(s)
        <==> NativeOk(s.mode, s.reconciliationRequired, s.items, s.attempts, s.reservations,
                      s.operations, s.currentItemId, s.generation)
  {
    hide Linked, ReservationOk, OperationKeys, ItemKeys, AttemptIds;
    forall k | 0 <= k < |s.reservations|
      ensures Linked(s, s.reservations[k])
          <==> ReservationOk(s.items, s.attempts, s.operations, s.currentItemId, s.generation,
                             s.reservations[k])
    {
      LinkedIsOk(s, s.reservations[k]);
    }
    forall k | 0 <= k < |s.attempts| && s.attempts[k].origin.NativeObserved?
      ensures Backed(s, s.attempts[k]) <==> Provenance(s.reservations, s.attempts[k])
    {
    }
  }

  /** A reload accepts the rows of a database exactly when they are legible. */
  lemma {:induction false} ReloadsExactly(s: QueueSnapshot)
    requires Keyed(s)
    ensures ReloadAccepts(s) <==> Legible(s)
  {
    hide TextOk, Filled, PositionOk, Positioned, AttemptsOk, StartsOk, Attempted, NativeOk, Native,
         OperationKeys, ReservationKeys, CommandKeys;
    FilledIsText(s);
    PositionedIsOk(s);
    AttemptedIsOk(s);
    NativeIsOk(s);
  }
}
