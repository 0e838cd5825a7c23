/** When an undisturbed executor call invokes its effect: whenever its intent can be journaled at all,
    time does not run backwards and the caller's guard allows it. */
module FreshCalls {
  import opened Values
  import opened QueueRecords
  import opened QueueJournal
  import opened JournalInvariant
  import opened QueueExecution
  import opened QueueExecutor
  import T = TransactionEffects
  import R = ReplyJournal

  /** The request is new, and for the rows as they are. */
  predicate IsFresh(s: QueueSnapshot, request: Request) {
    && StateOf(s, request.Effect()).None?
    && s.generation == request.expectedGeneration && s.revision == request.expectedRevision
    && (request.CommandRequest? && !request.action.Start? ==>
          exists k :: 0 <= k < |s.attempts|
            && s.attempts[k].attemptId == request.attemptId
            && s.attempts[k].itemId == request.itemId)
  }

  /** The guards of journaling the intent, the reload after it included. */
  predicate CanBeJournaled(s: QueueSnapshot, taken: Taken, request: Request, at: Instant) {
    T.Permits(s, taken, request.Prepare(at)) && !RollsBack(s, request.Prepare(at))
  }

  // ---------------------------------------------------------------- what was prepared can be claimed

  lemma {:induction false} AppendedCommand(cs: seq<JournalCommand>, c: JournalCommand)
    requires forall k :: 0 <= k < |cs| ==> cs[k].commandId != c.commandId
    ensures CommandAt(cs + [c], c.commandId) == Some(|cs|)
  {
    assert (cs + [c])[..|cs|] == cs;
  }

  /** The selected attempt of durable rows is the last one, and shares its intent with its item. */
  lemma {:induction false} SelectedIsLast(s: QueueSnapshot, k: nat)
    requires Durable(s) && k < |s.attempts| && s.currentItemId == Some(s.attempts[k].itemId)
    ensures k == |s.attempts| - 1
    ensures exists n ::
      && 0 <= n < |s.items| && s.items[n].itemId == s.attempts[k].itemId
      && s.items[n].intent == s.attempts[k].intent
  {
    hide StartsOk, NativeOk, Keyed, CommandsOk, TextOk, PositionOk;
    assert AttemptOk(s.items, s.attempts[k]);
    var n := ItemAt(s.items, s.attempts[k].itemId).value;
    assert s.items[n].itemId == s.attempts[k].itemId;
  }

  lemma {:induction false} StartCanBeClaimed(s: QueueSnapshot, t: QueueSnapshot, taken: Taken,
                                             i: Id, a: Id, c: Id, at: Instant, later: Instant,
                                             rev: int)
    requires T.MayStart(s, taken, i, a, c, rev) && T.StartEffect(s, t, i, a, c, at) && at <= later
    ensures T.MayMove(t, c, ExecutionState.Dispatched, later, t.revision)
  {
    hide CommandAt, Blank;
    AppendedCommand(s.commands, t.commands[|s.commands|]);
    var n :| 0 <= n < |s.items| && s.items[n].itemId == i && s.items[n].intent.Pending?;
    assert t.items[n].itemId == i && t.items[n].intent.Current?;
  }

  lemma {:induction false} StopCanBeClaimed(s: QueueSnapshot, t: QueueSnapshot, taken: Taken, a: Id,
                                            c: Id, at: Instant, later: Instant, rev: int)
    requires Durable(s) && at <= later
    requires T.MayStop(s, taken, a, c, rev) && T.StopEffect(s, t, a, c, at)
    ensures T.MayMove(t, c, ExecutionState.Dispatched, later, t.revision)
  {
    hide Durable, CommandAt, Blank;
    AppendedCommand(s.commands, t.commands[|s.commands|]);
    var k :| 0 <= k < |s.attempts| && s.attempts[k].attemptId == a
      && s.currentItemId == Some(s.attempts[k].itemId)
      && (s.attempts[k].intent.Current? || s.attempts[k].intent.Finished?);
    SelectedIsLast(s, k);
  }

  lemma {:induction false} ControlCanBeClaimed(s: QueueSnapshot, t: QueueSnapshot, taken: Taken,
                                               a: Id, c: Id, action: CommandAction, at: Instant,
                                               later: Instant, rev: int)
    requires Durable(s) && at <= later
    requires T.MayControl(s, taken, a, c, action, rev) && T.ControlEffect(s, t, a, c, action, at)
    ensures T.MayMove(t, c, ExecutionState.Dispatched, later, t.revision)
  {
    hide Durable, CommandAt, Blank;
    AppendedCommand(s.commands, t.commands[|s.commands|]);
    SelectedIsLast(s, |s.attempts| - 1);
  }

  lemma {:induction false} AppendedOperation(ops: seq<NativeOperation>, o: NativeOperation)
    requires OperationAt(ops, o.operationId).None?
    ensures OperationAt(ops + [o], o.operationId) == Some(|ops|)
  {
    assert (ops + [o])[..|ops|] == ops;
  }

  lemma {:induction false} AppendedReservation(rs: seq<NativeReservation>, r: NativeReservation)
    requires forall k :: 0 <= k < |rs| ==> rs[k].reservationId != r.reservationId
    ensures ReservationAt(rs + [r], r.reservationId) == Some(|rs|)
  {
    assert (rs + [r])[..|rs|] == rs;
  }

  lemma {:induction false} EnqueueCanBeClaimed(s: QueueSnapshot, t: QueueSnapshot, taken: Taken,
                                               i: Id, r: Id, a: Id, q: NativeQueueRequest,
                                               at: Instant, later: Instant, rev: int, gen: int)
    requires T.MayReserve(s, taken, i, r, a, q, at, rev, gen) && at <= later
    requires T.ReserveEffect(s, t, i, r, a, q, at)
    ensures T.MayMoveNative(t, q.operationId, ExecutionState.Dispatched, later, t.revision, gen)
  {
    hide OperationAt, ReservationAt, ItemAt, AttemptAt, Blank, T.Addresses;
    AppendedOperation(s.operations, t.operations[|s.operations|]);
    AppendedReservation(s.reservations, t.reservations[|s.reservations|]);
  }

  lemma {:induction false} ClearCanBeClaimed(s: QueueSnapshot, t: QueueSnapshot, taken: Taken,
                                             r: Id, q: NativeQueueRequest, at: Instant,
                                             later: Instant, rev: int, gen: int)
    requires T.MayClear(s, taken, r, q, at, rev, gen) && at <= later
    requires T.Changes(s, OpClear(r, q, at, rev, gen), t)
    ensures T.MayMoveNative(t, q.operationId, ExecutionState.Dispatched, later, t.revision, gen)
  {
    hide OperationAt, ReservationAt, T.Addresses;
    AppendedOperation(s.operations, t.operations[|s.operations|]);
  }

  /** Every intent that could be journaled can be claimed right away. */
  lemma {:induction false} JournaledCanBeClaimed(s: QueueSnapshot, t: QueueSnapshot, taken: Taken,
                                                 request: Request, at: Instant, later: Instant)
    requires Durable(s) && at <= later && T.Permits(s, taken, request.Prepare(at))
    requires request.NativeRequest? ==> s.generation == request.expectedGeneration
    requires T.Changes(s, request.Prepare(at), t)
    ensures T.Permits(t, taken, request.Claim(later, t.revision))
  {
    hide Durable, T.MayStart, T.MayStop, T.MayControl, T.MayMove, T.MayReserve, T.MayClear,
         T.MayMoveNative, T.StartEffect, T.StopEffect, T.ControlEffect, T.ReserveEffect;
    match request {
      case CommandRequest(i, a, c, action, rev, _) =>
        match action {
          case Start => StartCanBeClaimed(s, t, taken, i, a, c, at, later, rev);
          case Stop => StopCanBeClaimed(s, t, taken, a, c, at, later, rev);
          case _ => ControlCanBeClaimed(s, t, taken, a, c, action, at, later, rev);
        }
      case NativeRequest(r, i, a, q, rev, gen) =>
        if q.action.PlayNext? {
          EnqueueCanBeClaimed(s, t, taken, i, r, a, q, at, later, rev, gen);
        } else {
          ClearCanBeClaimed(s, t, taken, r, q, at, later, rev, gen);
        }
    }
  }

  // ---------------------------------------------------------------- the whole call

  lemma {:induction false} PreparedState(s: QueueSnapshot, t: QueueSnapshot, taken: Taken,
                                         request: Request, at: Instant)
    requires T.Permits(s, taken, request.Prepare(at)) && T.Changes(s, request.Prepare(at), t)
    ensures StateOf(t, request.Effect()) == Some(ExecutionState.Pending)
    ensures t.generation == s.generation && t.revision == s.revision + 1
    ensures s.generation == request.expectedGeneration ==> OfGeneration(t, request)
  {
    hide CommandAt, OperationAt, ReservationAt, ItemAt, AttemptAt, Blank, T.Addresses, T.ItemsSet;
    if request.CommandRequest? {
      AppendedCommand(s.commands, t.commands[|s.commands|]);
    } else {
      AppendedOperation(s.operations, t.operations[|s.operations|]);
    }
  }

  /** What is journaled already is not journaled again, and what is not is not repeated. */
  lemma {:induction false} NewIsNotRepeated(s: QueueSnapshot, taken: Taken, request: Request,
                                            at: Instant)
    ensures StateOf(s, request.Effect()).None? ==> !T.Repeats(s, request.Prepare(at))
    ensures T.Permits(s, taken, request.Prepare(at)) ==> StateOf(s, request.Effect()).None?
    ensures request.NativeRequest? && T.Permits(s, taken, request.Prepare(at)) ==>
      s.revision == request.expectedRevision && s.generation == request.expectedGeneration
  {
    hide ItemAt, AttemptAt, ReservationAt, Blank, T.Addresses;
    if request.CommandRequest? {
      T.NoCommandAt(s, request.commandId);
    }
  }

  /** What the first read makes of a call. */
  lemma {:induction false} FreshLoads(s: QueueSnapshot, request: Request)
    ensures AfterLoad(s, request) == Loaded(false) <==>
      && StateOf(s, request.Effect()).None? && s.generation == request.expectedGeneration
      && (request.CommandRequest? ==> IsFresh(s, request))
    ensures AfterLoad(s, request) in {Loaded(false), Loaded(true), Done}
  {
    hide StateOf;
  }

  lemma {:induction false} ClaimDisturbs(s: QueueSnapshot, taken: Taken, request: Request,
                                         at: Instant, u: QueueSnapshot)
    requires T.Permits(s, taken, request.Claim(at, s.revision))
    requires T.Changes(s, request.Claim(at, s.revision), u)
    requires s.generation == request.expectedGeneration
    requires request.CommandRequest? && !request.action.Stop? ==> !s.cancellationRequested
    ensures AfterReread(u, request, u.revision) == Permitted(u.revision)
  {
    hide CommandAt, OperationAt, ReservationAt, T.CommandsMoved, T.OperationsMoved;
  }

  /** A journaled intent keeps the latches as the claim needs them. */
  lemma {:induction false} PreparedUncanceled(s: QueueSnapshot, t: QueueSnapshot, taken: Taken,
                                              request: Request, at: Instant)
    requires T.Permits(s, taken, request.Prepare(at)) && T.Changes(s, request.Prepare(at), t)
    requires request.CommandRequest? && !request.action.Stop?
    ensures !t.cancellationRequested
  {
    hide CommandAt, Blank, T.ItemsSet;
  }

  lemma {:induction false} LaterClaim(s: QueueSnapshot, t: QueueSnapshot, taken: Taken,
                                      request: Request, at: Instant, later: Instant)
    requires T.Permits(s, taken, request.Prepare(at)) && T.Changes(s, request.Prepare(at), t)
    requires T.Permits(t, taken, request.Claim(later, t.revision))
    ensures at <= later
  {
    hide CommandAt, OperationAt, ReservationAt, ItemAt, AttemptAt, Blank, T.Addresses, T.ItemsSet,
         T.SelectedFor;
    if request.CommandRequest? {
      AppendedCommand(s.commands, t.commands[|s.commands|]);
    } else {
      AppendedOperation(s.operations, t.operations[|s.operations|]);
    }
  }

  lemma {:induction false} ClaimsAreKept(s: QueueSnapshot, request: Request, at: Instant,
                                         revision: int)
    ensures !RollsBack(s, request.Claim(at, revision)) && !T.Repeats(s, request.Claim(at, revision))
    ensures request.WellFormed() ==>
      request.Claim(at, revision).WellFormed() && request.Prepare(at).WellFormed()
  {
  }

  /** From a journaled intent on, only the clock and the guard decide. */
  lemma {:induction false} PreparedIsPermitted(s: QueueSnapshot, t: QueueSnapshot, taken: Taken,
                                               request: Request, at: Instant, later: Instant)
    requires Durable(s) && Durable(t) && request.WellFormed()
    requires s.generation == request.expectedGeneration
    requires T.Permits(s, taken, request.Prepare(at)) && T.Changes(s, request.Prepare(at), t)
    ensures Apply(t, taken, request.Claim(later, t.revision)).Ok? <==> at <= later
    ensures at <= later ==>
      var u := Apply(t, taken, request.Claim(later, t.revision)).value;
      AfterReread(u, request, u.revision) == Permitted(u.revision)
  {
    hide Durable, Write, RollsBack, Apply, AfterReread, T.Permits, T.Changes, T.Repeats;
    var op := request.Claim(later, t.revision);
    ClaimsAreKept(t, request, later, t.revision);
    T.TransactionDoes(t, taken, op);
    ApplyKeeps(t, taken, op);
    PreparedState(s, t, taken, request, at);
    if at <= later {
      JournaledCanBeClaimed(s, t, taken, request, at, later);
      if request.CommandRequest? && !request.action.Stop? {
        PreparedUncanceled(s, t, taken, request, at);
      }
      ClaimDisturbs(t, taken, request, later, Apply(t, taken, op).value);
    } else if T.Permits(t, taken, op) {
      LaterClaim(s, t, taken, request, at, later);
    }
  }

  /** An undisturbed call invokes its effect exactly if the request is new and for these rows, its
      intent can be journaled, time does not run backwards, and the guard allows it. */
  lemma {:induction false} FreshCallInvokes(s: QueueSnapshot, request: Request, taken: Taken,
                                            o: Outside)
    requires Durable(s) && request.WellFormed()
    ensures Straight(s, request, taken, o).1
        == (&& IsFresh(s, request) && CanBeJournaled(s, taken, request, o.preparedAt)
            && o.preparedAt <= o.claimedAt && (request.Guarded() ==> o.allowed))
  {
    hide Durable, Write, RollsBack, Apply, AfterLoad, AfterReread, StateOf, OfGeneration,
         T.Permits, T.Changes, T.Repeats, Outcome;
    var op := request.Prepare(o.preparedAt);
    FreshLoads(s, request);
    NewIsNotRepeated(s, taken, request, o.preparedAt);
    ClaimsAreKept(s, request, o.preparedAt, 0);
    T.TransactionDoes(s, taken, op);
    ApplyKeeps(s, taken, op);
    if AfterLoad(s, request) == Loaded(false) && Apply(s, taken, op).Ok? {
      var t := Apply(s, taken, op).value;
      PreparedState(s, t, taken, request, o.preparedAt);
      PreparedIsPermitted(s, t, taken, request, o.preparedAt, o.claimedAt);
    }
  }

  // ---------------------------------------------------------------- what it leaves in the journal

  /** What a permitted call records: the answer of the receiver, and nothing better than uncertain
      when there was none, when it is unclear, or when the guard withheld the invocation. */
  function Concluded(request: Request, o: Outside): ExecutionState {
    if request.Guarded() && !o.allowed then ExecutionState.Uncertain
    else if o.reply == Receipt(Accepted) then ExecutionState.Acknowledged
    else if o.reply == Receipt(CommandOutcome.Rejected) then ExecutionState.Rejected
    else ExecutionState.Uncertain
  }

  lemma {:induction false} OneCommand(cs: seq<JournalCommand>, id: Id, k: nat)
    requires k < |cs| && cs[k].commandId == id
    requires forall n :: 0 <= n < |cs| && n != k ==> cs[n].commandId != id
    ensures CommandAt(cs, id) == Some(k)
  {
    hide CommandAt;
  }

  lemma {:induction false} OneOperation(ops: seq<NativeOperation>, id: Id, k: nat)
    requires k < |ops| && ops[k].operationId == id
    requires forall n :: 0 <= n < |ops| && n != k ==> ops[n].operationId != id
    ensures OperationAt(ops, id) == Some(k)
  {
    hide OperationAt;
  }

  /** A claimed command is dispatched since its claim, in the queue's generation. */
  lemma {:induction false} CommandClaimed(s: QueueSnapshot, t: QueueSnapshot, u: QueueSnapshot,
                                          taken: Taken, request: Request, at: Instant,
                                          later: Instant)
    requires request.CommandRequest?
    requires T.Permits(s, taken, request.Prepare(at)) && T.Changes(s, request.Prepare(at), t)
    requires T.Changes(t, request.Claim(later, t.revision), u)
    ensures var k := CommandAt(u.commands, request.commandId);
            && k.Some? && u.commands[k.value].state.Dispatched?
            && u.commands[k.value].updatedAt == later
            && u.commands[k.value].generation == u.generation
  {
    hide CommandAt, Blank, T.ItemsSet;
    var n := |s.commands|;
    assert t.commands[n].commandId == request.commandId;
    assert forall k :: 0 <= k < n ==> t.commands[k] == s.commands[k];
    OneCommand(u.commands, request.commandId, n);
  }

  lemma {:induction false} OperationClaimed(s: QueueSnapshot, t: QueueSnapshot, u: QueueSnapshot,
                                            taken: Taken, request: Request, at: Instant,
                                            later: Instant)
    requires request.NativeRequest?
    requires T.Permits(s, taken, request.Prepare(at)) && T.Changes(s, request.Prepare(at), t)
    requires T.Changes(t, request.Claim(later, t.revision), u)
    ensures var k := OperationAt(u.operations, request.native.operationId);
            && k.Some? && u.operations[k.value].state.Dispatched?
            && u.operations[k.value].updatedAt == later
            && u.operations[k.value].generation == u.generation
            && u.operations[k.value].action == request.native.action
            && (request.native.action.PlayNext? ==>
                  u.operations[k.value].reservationId == request.reservationId)
  {
    hide OperationAt, ReservationAt, ItemAt, AttemptAt, Blank, T.Addresses;
    var n := |s.operations|;
    assert t.operations[n].operationId == request.native.operationId;
    assert forall k :: 0 <= k < n ==> t.operations[k] == s.operations[k];
    OneOperation(u.operations, request.native.operationId, n);
  }

  predicate IsAnswer(state: ExecutionState) {
    state.Acknowledged? || state.Rejected? || state.Uncertain?
  }

  lemma {:induction false} CommandRecorded(u: QueueSnapshot, taken: Taken, request: Request,
                                           outcome: ExecutionState, claimed: Instant, at: Instant)
    requires request.CommandRequest? && IsAnswer(outcome)
    requires var k := CommandAt(u.commands, request.commandId);
             && k.Some? && u.commands[k.value].state.Dispatched?
             && u.commands[k.value].updatedAt == claimed
             && u.commands[k.value].generation == u.generation
    ensures var op := request.Record(outcome, at, u.revision);
            && (T.Permits(u, taken, op) <==> claimed <= at)
            && !T.Repeats(u, op) && !RollsBack(u, op)
  {
    hide CommandAt;
  }

  lemma {:induction false} OperationRecorded(u: QueueSnapshot, taken: Taken, request: Request,
                                             outcome: ExecutionState, claimed: Instant, at: Instant)
    requires request.NativeRequest? && IsAnswer(outcome)
    requires u.mode.Native? && u.generation == request.expectedGeneration
    requires var k := OperationAt(u.operations, request.native.operationId);
             && k.Some? && u.operations[k.value].state.Dispatched?
             && u.operations[k.value].updatedAt == claimed
             && u.operations[k.value].generation == u.generation
             && var r := ReservationAt(u.reservations, u.operations[k.value].reservationId);
             && r.Some?
             && (u.operations[k.value].action.PlayNext? ==>
                   u.reservations[r.value].adoptionDecisionId.None?)
    ensures var op := request.Record(outcome, at, u.revision);
            && (T.Permits(u, taken, op) <==> claimed <= at)
            && !T.Repeats(u, op) && !RollsBack(u, op)
  {
    hide OperationAt, ReservationAt;
  }

  lemma {:induction false} NativePermitted(s: QueueSnapshot, taken: Taken, request: Request,
                                           at: Instant)
    requires request.NativeRequest? && T.Permits(s, taken, request.Prepare(at))
    ensures s.mode.Native?
  {
    hide ItemAt, AttemptAt, ReservationAt, OperationAt, Blank, T.Addresses, T.NoAttempt;
  }

  lemma {:induction false} ReservedIsOpen(s: QueueSnapshot, t: QueueSnapshot, taken: Taken,
                                          i: Id, r: Id, a: Id, q: NativeQueueRequest, at: Instant,
                                          rev: int, gen: int)
    requires T.MayReserve(s, taken, i, r, a, q, at, rev, gen) && T.ReserveEffect(s, t, i, r, a, q, at)
    ensures var k := ReservationAt(t.reservations, r);
            k.Some? && t.reservations[k.value].adoptionDecisionId.None? && t.mode == s.mode
  {
    hide OperationAt, ReservationAt, ItemAt, AttemptAt, Blank, T.Addresses, T.NoAttempt;
    AppendedReservation(s.reservations, t.reservations[|s.reservations|]);
  }

  lemma {:induction false} PreparedReservation(s: QueueSnapshot, t: QueueSnapshot, taken: Taken,
                                               request: Request, at: Instant)
    requires request.NativeRequest?
    requires T.Permits(s, taken, request.Prepare(at)) && T.Changes(s, request.Prepare(at), t)
    ensures t.mode == s.mode
    ensures request.native.action.PlayNext? ==>
      var k := ReservationAt(t.reservations, request.reservationId);
      k.Some? && t.reservations[k.value].adoptionDecisionId.None?
  {
    hide OperationAt, ReservationAt, T.MayReserve, T.MayClear, T.ReserveEffect;
    var NativeRequest(r, i, a, q, rev, gen) := request;
    if q.action.PlayNext? {
      ReservedIsOpen(s, t, taken, i, r, a, q, at, rev, gen);
    }
  }

  lemma {:induction false} ClaimKeepsReservations(t: QueueSnapshot, u: QueueSnapshot,
                                                  request: Request, later: Instant)
    requires request.NativeRequest? && T.Changes(t, request.Claim(later, t.revision), u)
    ensures u.reservations == t.reservations && u.mode == t.mode
  {
    hide T.OperationsMoved;
  }

  /** The reservation of a native operation that was just claimed is there and not adopted. */
  lemma {:induction false} ClaimedReservation(s: QueueSnapshot, t: QueueSnapshot, u: QueueSnapshot,
                                              taken: Taken, request: Request, at: Instant,
                                              later: Instant)
    requires Durable(u) && request.NativeRequest?
    requires T.Permits(s, taken, request.Prepare(at)) && T.Changes(s, request.Prepare(at), t)
    requires T.Changes(t, request.Claim(later, t.revision), u)
    requires OperationAt(u.operations, request.native.operationId).Some?
    ensures u.mode.Native?
    ensures var o := u.operations[OperationAt(u.operations, request.native.operationId).value];
            var r := ReservationAt(u.reservations, o.reservationId);
            && r.Some?
            && (request.native.action.PlayNext? && o.reservationId == request.reservationId ==>
                  u.reservations[r.value].adoptionDecisionId.None?)
  {
    hide Durable, OperationAt, ReservationAt, T.Permits, T.Changes;
    OperationsHaveReservations(u);
    NativePermitted(s, taken, request, at);
    PreparedReservation(s, t, taken, request, at);
    ClaimKeepsReservations(t, u, request, later);
  }

  lemma {:induction false} OperationsHaveReservations(u: QueueSnapshot)
    requires Durable(u)
    ensures forall k :: 0 <= k < |u.operations| ==>
      ReservationAt(u.reservations, u.operations[k].reservationId).Some?
  {
    hide ReloadAccepts, ReservationAt, AttemptKeys, CommandKeys, ReservationKeys;
  }

  lemma {:induction false} ClaimKeepsGeneration(t: QueueSnapshot, u: QueueSnapshot,
                                                request: Request, later: Instant)
    requires T.Changes(t, request.Claim(later, t.revision), u)
    ensures u.generation == t.generation && u.mode == t.mode
  {
    hide T.CommandsMoved, T.OperationsMoved;
  }

  /** The record of a call that was permitted is committed unless time runs backwards. */
  lemma {:induction false} ClaimedIsRecorded(s: QueueSnapshot, t: QueueSnapshot, u: QueueSnapshot,
                                             taken: Taken, request: Request, at: Instant,
                                             later: Instant, outcome: ExecutionState, end: Instant)
    requires Durable(u) && request.WellFormed() && IsAnswer(outcome)
    requires s.generation == request.expectedGeneration
    requires T.Permits(s, taken, request.Prepare(at)) && T.Changes(s, request.Prepare(at), t)
    requires T.Changes(t, request.Claim(later, t.revision), u)
    ensures StateOf(u, request.Effect()) == Some(ExecutionState.Dispatched)
    ensures Apply(u, taken, request.Record(outcome, end, u.revision)).Ok? <==> later <= end
  {
    hide Durable, Write, RollsBack, Apply, T.Permits, T.Changes, T.Repeats;
    var op := request.Record(outcome, end, u.revision);
    PreparedState(s, t, taken, request, at);
    ClaimKeepsGeneration(t, u, request, later);
    T.TransactionDoes(u, taken, op);
    ApplyKeeps(u, taken, op);
    if request.CommandRequest? {
      CommandClaimed(s, t, u, taken, request, at, later);
      CommandRecorded(u, taken, request, outcome, later, end);
    } else {
      OperationClaimed(s, t, u, taken, request, at, later);
      ClaimedReservation(s, t, u, taken, request, at, later);
      OperationRecorded(u, taken, request, outcome, later, end);
    }
  }

  lemma {:induction false} OutcomeIsConcluded(request: Request, o: Outside)
    ensures (if !request.Guarded() || o.allowed then Outcome(o.reply) else ExecutionState.Uncertain)
         == Concluded(request, o)
    ensures IsAnswer(Concluded(request, o))
  {
  }

  /** An undisturbed call that was permitted leaves the answer in the journal, or its claim if time
      runs backwards before it can be recorded. */
  lemma {:induction false} FreshCallRecords(s: QueueSnapshot, request: Request, taken: Taken,
                                            o: Outside)
    requires Durable(s) && request.WellFormed() && IsFresh(s, request)
    requires CanBeJournaled(s, taken, request, o.preparedAt) && o.preparedAt <= o.claimedAt
    ensures StateOf(Straight(s, request, taken, o).0, request.Effect())
         == Some(if o.claimedAt <= o.recordedAt then Concluded(request, o)
                 else ExecutionState.Dispatched)
  {
    hide Durable, Write, RollsBack, Apply, AfterLoad, AfterReread, StateOf, OfGeneration,
         T.Permits, T.Changes, T.Repeats, Outcome, Concluded;
    var op := request.Prepare(o.preparedAt);
    FreshLoads(s, request);
    NewIsNotRepeated(s, taken, request, o.preparedAt);
    ClaimsAreKept(s, request, o.preparedAt, 0);
    T.TransactionDoes(s, taken, op);
    ApplyKeeps(s, taken, op);
    var t := Apply(s, taken, op).value;
    PreparedState(s, t, taken, request, o.preparedAt);
    PreparedIsPermitted(s, t, taken, request, o.preparedAt, o.claimedAt);
    var claim := request.Claim(o.claimedAt, t.revision);
    var u := Apply(t, taken, claim).value;
    ClaimsAreKept(t, request, o.claimedAt, t.revision);
    T.TransactionDoes(t, taken, claim);
    ApplyKeeps(t, taken, claim);
    OutcomeIsConcluded(request, o);
    var outcome := Concluded(request, o);
    ClaimedIsRecorded(s, t, u, taken, request, o.preparedAt, o.claimedAt, outcome, o.recordedAt);
    if o.claimedAt <= o.recordedAt {
      R.RecordIsJournaled(u, taken, request, outcome, o.recordedAt, u.revision);
    }
  }
}
