/** The decisions and the journal agree: whatever is proposed is accepted, and a queue driven by
    the proposals starts its items once each, in list order, and ends. */
module QueueDriving {
  import opened Values
  import opened QueueRecords
  import opened QueueJournal
  import opened JournalInvariant
  import opened QueueHistory
  import P = QueuePolicy

  // ---------------------------------------------------------------- proposals are accepted

  /** A proposed settlement passes every guard of the journal, if its identity is new there; it
      always is (`SettlementIdentities`). */
  lemma {:induction false} NewSettlementIsAccepted(
      render: P.Rendering, q: QueueSnapshot, session: Option<SessionSnapshot>, now: Monotonic,
      authority: Option<P.QueueAuthority>, receiver: Option<PlaybackObservation>,
      skip: Option<P.SkipIntent>, policy: EvidencePolicy, taken: Taken)
    requires P.Decide(render, q, session, now, authority, receiver, skip, policy).settlement.Some?
    requires var d := P.Decide(render, q, session, now, authority, receiver, skip, policy);
             && d.settlement.value.decisionId !in taken.decisions
             && DecisionFree(q.attempts, d.settlement.value.decisionId)
    ensures q.attempts != []
    ensures var d := P.Decide(render, q, session, now, authority, receiver, skip, policy);
            var p := d.settlement.value;
            var last := q.attempts[|q.attempts| - 1];
            && last.intent.Current? && p.attemptId == last.attemptId && p.itemId == last.itemId
            && SettleAttempt(q, taken, p.attemptId, p.outcome, p.decisionId, d.expectedRevision)
                 == Ok(Settlement(q, last, p.outcome, p.decisionId))
  {
    hide P.Decide, Settlement, DecisionFree, AttemptAt, AttemptIds, Blank, Has;
    SettlementFacts(render, q, session, now, authority, receiver, skip, policy);
    var p := P.Decide(render, q, session, now, authority, receiver, skip, policy).settlement.value;
    PolicyIdentity(p.decisionId);
    LastAttemptAt(q);
  }

  lemma {:induction false} PolicyIdentity(id: Id)
    requires |id| >= 18 && id[..18] == "queue-decision-v1-"
    ensures !Blank(id)
  {
    assert !IsSpace('q') && id[0] == id[..18][0];
  }

  /** What a proposed settlement has made sure of. */
  lemma {:induction false} SettlementFacts(render: P.Rendering, q: QueueSnapshot,
                                           session: Option<SessionSnapshot>, now: Monotonic,
                                           authority: Option<P.QueueAuthority>,
                                           receiver: Option<PlaybackObservation>,
                                           skip: Option<P.SkipIntent>, policy: EvidencePolicy)
    requires P.Decide(render, q, session, now, authority, receiver, skip, policy).settlement.Some?
    ensures q.attempts != [] && AttemptIds(q.attempts)
    ensures var d := P.Decide(render, q, session, now, authority, receiver, skip, policy);
            var p := d.settlement.value;
            var last := q.attempts[|q.attempts| - 1];
            && d.expectedRevision == q.revision
            && last.intent.Current? && last.decisionId.None?
            && p.attemptId == last.attemptId && p.itemId == last.itemId
            && (p.outcome.Finished? || p.outcome.Skipped?)
            && |p.decisionId| >= 18 && p.decisionId[..18] == "queue-decision-v1-"
            && !Has(q.commands, p.attemptId, Stop)
  {
    hide P.ValidCompletion, P.SessionMatches, P.Unacknowledged, P.ReceiverReady, P.PendingLast,
         P.ValidOrigin, P.FirstPending, P.AnyUnsettled;
    assert P.ValidQueue(q);
    assert P.ValidAttempt(q, q.attempts[|q.attempts| - 1]);
  }

  /** A proposed item passes every guard of a start with new identities, unless the item's own
      identity is blank: the journal creates such an item but never starts it. */
  lemma {:induction false} ReadyIsAccepted(
      render: P.Rendering, q: QueueSnapshot, session: Option<SessionSnapshot>, now: Monotonic,
      authority: Option<P.QueueAuthority>, receiver: Option<PlaybackObservation>,
      skip: Option<P.SkipIntent>, policy: EvidencePolicy, taken: Taken, attemptId: Id,
      commandId: Id, at: Instant)
    requires P.Decide(render, q, session, now, authority, receiver, skip, policy).disposition.Ready?
    requires !Blank(attemptId) && !Blank(commandId)
    requires AttemptAt(q.attempts, attemptId).None? && attemptId !in taken.attempts
    requires CommandAt(q.commands, commandId).None? && commandId !in taken.commands
    ensures var d := P.Decide(render, q, session, now, authority, receiver, skip, policy);
            && d.nextItemId.Some? && NextToStart(q, d.nextItemId.value)
            && PrepareStart(q, taken, d.nextItemId.value, attemptId, commandId, at,
                            d.expectedRevision)
                 == if Blank(d.nextItemId.value) then Err(Malformed)
                    else Ok(Started(q, d.nextItemId.value, attemptId, commandId, at))
  {
    ReadyFacts(render, q, session, now, authority, receiver, skip, policy);
    hide P.Decide, Started, Blank;
  }

  /** A fresh report that the receiver has exited. */
  function ExitAt(target: PlaybackTarget, at: Monotonic): PlaybackObservation {
    PlaybackObservation(target, "c", 1, 0, at, None, None, PlayerState.Unknown, None, None, None,
      None, "receiver_status", None, None, Some(false), false, None, IdentityUpdate.Unknown, None)
  }

  /** Such an item: a queue of the one item " " is created, the item is proposed to an idle
      receiver, and every attempt to start it is malformed. */
  lemma {:induction false} BlankItemNeverStarts(render: P.Rendering, target: PlaybackTarget,
                                                content: ContentRef)
    requires WellFormedQueue(target, [QueueEntry(" ", content, QueueIntent.Pending)])
    ensures Create("q", target, [QueueEntry(" ", content, QueueIntent.Pending)], Legacy).Ok?
    ensures ExitAt(target, 1.0).WellFormed()
    ensures var q := Create("q", target, [QueueEntry(" ", content, QueueIntent.Pending)],
                            Legacy).value;
            var d := P.Decide(render, q, None, 1.0, Some(P.QueueAuthority("q", 0, "c", 0.0)),
                              Some(ExitAt(target, 1.0)), None, DEFAULT_POLICY);
            && d.disposition.Ready? && d.nextItemId == Some(" ")
            && forall taken, attemptId, commandId, at, revision ::
                 PrepareStart(q, taken, " ", attemptId, commandId, at, revision) == Err(Malformed)
  {
    assert !IsSpace('q') && "q"[0] == 'q';
    var items := [QueueEntry(" ", content, QueueIntent.Pending)];
    var q := QueueSnapshot("q", target, 0, 0, None, false, items, [], [], Legacy, false, [], []);
    assert Create("q", target, items, Legacy) == Ok(q);
    assert P.ValidQueue(q);
    var authority := P.QueueAuthority("q", 0, "c", 0.0);
    assert P.Precluded(q, None, 1.0, Some(authority), None).None?;
    assert P.ReceiverReady(q, None, authority, Some(ExitAt(target, 1.0)), 1.0, DEFAULT_POLICY);
    assert P.FirstPending(items) == Some(0) && !P.AnyUnsettled(items);
    assert Blank(" ");
  }

  /** The item is the first pending one. */
  predicate NextToStart(q: QueueSnapshot, itemId: Id) {
    && P.FirstPending(q.items).Some?
    && q.items[P.FirstPending(q.items).value].itemId == itemId
  }

  lemma {:induction false} ReadyFacts(render: P.Rendering, q: QueueSnapshot,
                                      session: Option<SessionSnapshot>, now: Monotonic,
                                      authority: Option<P.QueueAuthority>,
                                      receiver: Option<PlaybackObservation>,
                                      skip: Option<P.SkipIntent>, policy: EvidencePolicy)
    requires P.Decide(render, q, session, now, authority, receiver, skip, policy).disposition.Ready?
    ensures var d := P.Decide(render, q, session, now, authority, receiver, skip, policy);
            && d.expectedRevision == q.revision
            && !q.cancellationRequested && !q.reconciliationRequired
            && (q.mode.Native? ==> q.attempts == []) && !AnyUnsettledItem(q.items)
            && d.nextItemId.Some? && NextToStart(q, d.nextItemId.value)
            && PendingItem(q.items, d.nextItemId.value)
  {
    hide P.ValidCompletion, P.SessionMatches, P.Unacknowledged, P.ReceiverReady, P.ValidQueue,
         P.DecisionId;
  }

  // ---------------------------------------------------------------- the order of a driven queue

  /** Attempt `k` is the attempt of item `k`, and exactly the items without one are pending. */
  predicate InListOrder(items: seq<QueueEntry>, attempts: seq<QueueAttempt>) {
    && |attempts| <= |items|
    && (forall k :: 0 <= k < |attempts| ==> attempts[k].itemId == items[k].itemId)
    && (forall k :: 0 <= k < |items| ==> (items[k].intent.Pending? <==> k >= |attempts|))
  }

  predicate Decided(attempts: seq<QueueAttempt>) {
    forall k :: 0 <= k < |attempts| ==>
      (attempts[k].intent.Finished? || attempts[k].intent.Skipped? ==>
         attempts[k].decisionId.Some? && attempts[k].decisionId.value != "")
  }

  predicate Driven(s: QueueSnapshot) {
    && s.queueId != ""
    && InListOrder(s.items, s.attempts) && Decided(s.attempts)
    && (s.attempts == [] ==> s.currentItemId.None?)
  }

  /** Durable rows in this order are consistent in the eyes of the policy. */
  lemma {:induction false} DrivenIsValid(s: QueueSnapshot)
    requires Durable(s) && Driven(s)
    ensures P.ValidQueue(s)
  {
    assert P.PendingLast(s.items);
    forall k | 0 <= k < |s.attempts| ensures P.ValidAttempt(s, s.attempts[k]) {
      DrivenAttempt(s, k);
    }
    DrivenRows(s);
  }

  lemma {:induction false} DrivenRows(s: QueueSnapshot)
    requires Durable(s) && Driven(s)
    ensures s.revision >= 0 && s.generation >= 0 && s.items != []
    ensures ItemKeys(s.items) && AttemptIds(s.attempts)
    ensures P.OneCurrent(s.items, s.currentItemId)
    ensures s.attempts == [] ==> forall k :: 0 <= k < |s.items| ==> !s.items[k].intent.Current?
    ensures s.attempts != [] ==> s.currentItemId == Some(s.attempts[|s.attempts| - 1].itemId)
    ensures forall i, j :: 0 <= i < j < |s.attempts| ==> s.attempts[i].itemId != s.attempts[j].itemId
  {
    hide StartsOk, NativeOk, ReservationKeys, OperationKeys, AttemptOk;
  }

  lemma {:induction false} DrivenAttempt(s: QueueSnapshot, k: nat)
    requires Durable(s) && Driven(s) && k < |s.attempts|
    ensures P.ValidAttempt(s, s.attempts[k])
  {
    var a := s.attempts[k];
    assert AttemptOk(s.items, a);
    if a.origin.NativeObserved? {
      assert Provenance(s.reservations, a);
      var n :| 0 <= n < |s.reservations|
        && s.reservations[n].reservationId == a.origin.reservationId
        && s.reservations[n].successorAttemptId == a.attemptId
        && s.reservations[n].adoptionDecisionId.Some?;
      ObservedItem(s, k, n);
    }
  }

  lemma {:induction false} ObservedItem(s: QueueSnapshot, k: nat, n: nat)
    requires Durable(s) && s.mode.Native? && k < |s.attempts| && n < |s.reservations|
    requires s.reservations[n].successorAttemptId == s.attempts[k].attemptId
    requires s.reservations[n].adoptionDecisionId.Some?
    ensures s.reservations[n].successorItemId == s.attempts[k].itemId
    ensures !s.reservations[n].state.Reserved?
  {
    hide ItemAt, EnqueueAt, NextItem, OperationsOk, EnqueueOk, TextOk, PositionOk, AttemptsOk,
         StartsOk, CommandsOk, CommandKeys, ReservationKeys, OperationKeys, Provenance;
    assert ReservationOk(s.items, s.attempts, s.operations, s.currentItemId, s.generation,
                         s.reservations[n]);
    assert AttemptAt(s.attempts, s.attempts[k].attemptId) == Some(k);
  }

  // ---------------------------------------------------------------- every transaction keeps it

  lemma {:induction false} StartedInOrder(items: seq<QueueEntry>, attempts: seq<QueueAttempt>,
                                          a: QueueAttempt)
    requires ItemKeys(items) && InListOrder(items, attempts) && |attempts| < |items|
    requires a.itemId == items[|attempts|].itemId && a.intent.Current?
    ensures InListOrder(WithItem(items, a.itemId, Current), attempts + [a])
    ensures Decided(attempts) ==> Decided(attempts + [a])
  {
    assert forall k :: 0 <= k < |items| && k != |attempts| ==> items[k].itemId != a.itemId;
  }

  lemma {:induction false} SettledInOrder(items: seq<QueueEntry>, attempts: seq<QueueAttempt>,
                                          n: nat, outcome: QueueIntent, decision: Id)
    requires ItemKeys(items) && InListOrder(items, attempts) && Decided(attempts)
    requires n < |attempts| && AttemptIds(attempts) && Settled(outcome) && decision != ""
    ensures InListOrder(WithItem(items, attempts[n].itemId, outcome),
                        WithAttempt(attempts, attempts[n].attemptId, outcome, decision))
    ensures Decided(WithAttempt(attempts, attempts[n].attemptId, outcome, decision))
  {
    assert forall k :: 0 <= k < |items| && k != n ==> items[k].itemId != attempts[n].itemId;
    assert forall k :: 0 <= k < |attempts| && k != n ==>
      attempts[k].attemptId != attempts[n].attemptId;
  }

  /** The work that is left: two units for each item not started, one for a current attempt. */
  function Remaining(s: QueueSnapshot): int {
    2 * (|s.items| - |s.attempts|)
    + if s.attempts != [] && s.attempts[|s.attempts| - 1].intent.Current? then 1 else 0
  }

  lemma {:induction false} NextPosition(s: QueueSnapshot, itemId: Id)
    requires InListOrder(s.items, s.attempts) && NextToStart(s, itemId)
    ensures |s.attempts| < |s.items| && s.items[|s.attempts|].itemId == itemId
  {
  }

  lemma {:induction false} StartedDriven(s: QueueSnapshot, i: Id, a: Id, c: Id, at: Instant)
    requires ItemKeys(s.items) && Driven(s) && NextToStart(s, i)
    ensures Driven(Started(s, i, a, c, at))
    ensures Remaining(Started(s, i, a, c, at)) < Remaining(s)
  {
    NextPosition(s, i);
    hide InListOrder, Decided, ItemKeys, NextToStart;
    StartedInOrder(s.items, s.attempts, QueueAttempt(a, i, Current, at, None, LocalStart));
  }

  lemma {:induction false} SettlementDriven(s: QueueSnapshot, n: nat, outcome: QueueIntent,
                                            decision: Id)
    requires ItemKeys(s.items) && AttemptIds(s.attempts) && Driven(s)
    requires n < |s.attempts| && Settled(outcome) && decision != ""
    ensures Driven(Settlement(s, s.attempts[n], outcome, decision))
    ensures Remaining(Settlement(s, s.attempts[n], outcome, decision)) <= Remaining(s)
    ensures n == |s.attempts| - 1 && s.attempts[n].intent.Current? ==>
      Remaining(Settlement(s, s.attempts[n], outcome, decision)) < Remaining(s)
  {
    hide InListOrder, Decided, ItemKeys, AttemptIds;
    SettledInOrder(s.items, s.attempts, n, outcome, decision);
  }

  lemma {:induction false} RecoveredDriven(s: QueueSnapshot)
    requires Driven(s)
    ensures Driven(RecoveredLegacy(s)) && Driven(RecoveredNative(s))
    ensures Remaining(RecoveredLegacy(s)) <= Remaining(s)
    ensures Remaining(RecoveredNative(s)) == Remaining(s)
  {
  }

  /** An adoption starts the item right after the last one. */
  lemma {:induction false} AdoptedRowsDriven(u: QueueSnapshot, k: nat, at: Instant, decision: Id,
                                             hold: bool)
    requires Durable(u) && Driven(u) && u.mode.Native? && k < |u.reservations|
    requires u.reservations[k].state.Reserved?
    ensures Driven(AdoptedRows(u, k, at, decision, hold))
    ensures Remaining(AdoptedRows(u, k, at, decision, hold)) < Remaining(u)
  {
    SuccessorIsNext(u, k);
    hide Durable, InListOrder, Decided, ItemKeys;
    StartedInOrder(u.items, u.attempts, Successor(u.reservations[k], at));
  }

  lemma {:induction false} SuccessorIsNext(u: QueueSnapshot, k: nat)
    requires Durable(u) && Driven(u) && u.mode.Native? && k < |u.reservations|
    requires u.reservations[k].state.Reserved?
    ensures ItemKeys(u.items) && |u.attempts| < |u.items|
    ensures u.reservations[k].successorItemId == u.items[|u.attempts|].itemId
  {
    var r := u.reservations[k];
    hide EnqueueAt, OperationsOk, EnqueueOk, TextOk, StartsOk, CommandsOk, CommandKeys,
         ReservationKeys, OperationKeys, Provenance, SuccessorOk;
    assert ReservationOk(u.items, u.attempts, u.operations, u.currentItemId, u.generation, r);
    var n := AttemptAt(u.attempts, r.predecessorAttemptId).value;
    hide AttemptAt, AttemptOk;
    assert u.items[n].itemId == u.attempts[n].itemId;
    assert ItemAt(u.items, u.attempts[n].itemId) == Some(n);
    assert n == |u.attempts| - 1;
  }

  lemma {:induction false} SourceSettledDriven(s: QueueSnapshot, d: Id)
    requires ItemKeys(s.items) && AttemptIds(s.attempts) && Driven(s) && s.attempts != []
    requires d != ""
    ensures Driven(SourceSettled(s, d)) && Remaining(SourceSettled(s, d)) <= Remaining(s)
  {
    var n := |s.attempts| - 1;
    assert SourceDecision(s.attempts[n], d) != "" by {
      assert |"native-unobserved-" + d| > 0;
    }
    SettlementDriven(s, n, NeedsAttention, SourceDecision(s.attempts[n], d));
  }

  lemma {:induction false} AdoptionDriven(s: QueueSnapshot, taken: Taken, k: nat, at: Instant,
                                          d: Id)
    requires Durable(s) && Driven(s) && s.mode.Native? && s.attempts != []
    requires k < |s.reservations| && s.reservations[k].state.Reserved? && d != ""
    requires AdoptionFree(s, taken, s.reservations[k], s.attempts[|s.attempts| - 1], d)
    ensures var t := Adoption(s, s.reservations[k], s.attempts[|s.attempts| - 1], at, d);
            Driven(t) && Remaining(t) < Remaining(s)
  {
    var t := Adoption(s, s.reservations[k], s.attempts[|s.attempts| - 1], at, d);
    assert ItemKeys(s.items) && AttemptIds(s.attempts);
    hide Durable, ItemKeys, AttemptIds, Driven, Remaining, Adoption, AdoptionFree, Settlement;
    SourceSettledKeeps(s, taken, s.reservations[k], d);
    SourceSettledDriven(s, d);
    AdoptionInTwo(s, k, at, d);
    assert SourceSettled(s, d).mode == s.mode;
    hide SourceSettled;
    var v := AdoptedRows(SourceSettled(s, d), k, at, d, t.reconciliationRequired);
    AdoptedRowsDriven(SourceSettled(s, d), k, at, d, t.reconciliationRequired);
    DrivenAtRevision(v, t.revision);
  }

  lemma {:induction false} DrivenAtRevision(s: QueueSnapshot, revision: int)
    requires Driven(s)
    ensures Driven(s.(revision := revision))
    ensures Remaining(s.(revision := revision)) == Remaining(s)
  {
  }

  /** A start obeys the order: it is for the first pending item. */
  predicate StartsNext(s: QueueSnapshot, op: StoreOp) {
    op.OpStart? ==> NextToStart(s, op.itemId) || CommandAt(s.commands, op.commandId).Some?
  }

  lemma {:induction false} NotBlank(id: Id)
    requires !Blank(id)
    ensures id != ""
  {
  }

  /** Transactions that do not touch items and attempts. */
  lemma {:induction false} NativeKeepsRows(s: QueueSnapshot, taken: Taken, op: StoreOp)
    requires Write(s, taken, op).Ok?
    requires || op.OpReserve? || op.OpClear? || op.OpNativeDispatch? || op.OpNativeOutcome?
             || op.OpExit?
    ensures SameItemsAndAttempts(s, Write(s, taken, op).value)
  {
    hide AnyReserved, Stageable, RequestMatches, ReservationFree, ActionFree, SameOperation,
         NativeDispatchable, Blank, OperationAt, ReservationAt;
  }

  lemma {:induction false} CommandsKeepRows(s: QueueSnapshot, taken: Taken, op: StoreOp)
    requires Write(s, taken, op).Ok?
    requires || op.OpStop? || op.OpControl? || op.OpDispatch? || op.OpOutcome? || op.OpCancel?
             || op.OpHold?
    ensures SameItemsAndAttempts(s, Write(s, taken, op).value)
  {
    hide Stoppable, AnyUnresolved, AnyReserved, Has, Dispatchable, Blank, CommandAt;
  }

  predicate SameItemsAndAttempts(s: QueueSnapshot, t: QueueSnapshot) {
    && t.items == s.items && t.attempts == s.attempts && t.queueId == s.queueId
    && t.currentItemId == s.currentItemId
  }

  lemma {:induction false} OthersKeepRows(s: QueueSnapshot, taken: Taken, op: StoreOp)
    requires Write(s, taken, op).Ok?
    requires !op.OpStart? && !op.OpSettle? && !op.OpRecover? && !op.OpAdopt?
    ensures var t := Write(s, taken, op).value;
            && t.items == s.items && t.attempts == s.attempts && t.queueId == s.queueId
            && t.currentItemId == s.currentItemId
  {
    hide Write;
    if || op.OpReserve? || op.OpClear? || op.OpNativeDispatch? || op.OpNativeOutcome?
       || op.OpExit? {
      NativeKeepsRows(s, taken, op);
    } else {
      CommandsKeepRows(s, taken, op);
    }
  }

  /** Every transaction keeps the order, and none adds work. */
  lemma {:induction false} WriteDrives(s: QueueSnapshot, taken: Taken, op: StoreOp)
    requires Durable(s) && Driven(s) && StartsNext(s, op) && Write(s, taken, op).Ok?
    ensures Driven(Write(s, taken, op).value)
    ensures Remaining(Write(s, taken, op).value) <= Remaining(s)
  {
    assert ItemKeys(s.items) && AttemptIds(s.attempts);
    hide Durable, ItemKeys, AttemptIds, Driven, Remaining, PrepareStart, SettleAttempt, Recover,
         AdoptNativeSuccessor, PrepareStop, PrepareControl, Transition, CancelQueue, Hold,
         PrepareNativeSuccessor, PrepareNativeClear, TransitionNative, RecordNativeSessionExit;
    match op
    case OpStart(i, a, c, at, rev) => StartDrives(s, taken, i, a, c, at, rev);
    case OpSettle(a, intent, d, rev) => SettleDrives(s, taken, a, intent, d, rev);
    case OpRecover(rev) => RecoverDrives(s, rev);
    case OpAdopt(r, observed, now, at, d, rev, gen) =>
      AdoptDrives(s, taken, r, observed, now, at, d, rev, gen);
    case _ => OthersDrive(s, taken, op);
  }

  lemma {:induction false} StartDrives(s: QueueSnapshot, taken: Taken, i: Id, a: Id, c: Id,
                                       at: Instant, rev: int)
    requires ItemKeys(s.items) && Driven(s) && PrepareStart(s, taken, i, a, c, at, rev).Ok?
    requires NextToStart(s, i) || CommandAt(s.commands, c).Some?
    ensures var t := PrepareStart(s, taken, i, a, c, at, rev).value;
            Driven(t) && Remaining(t) <= Remaining(s)
  {
    hide Driven, Remaining, Started, ItemKeys, NextToStart, PendingItem, AnyUnsettledItem;
    if PrepareStart(s, taken, i, a, c, at, rev).value != s {
      StartedDriven(s, i, a, c, at);
    }
  }

  lemma {:induction false} SettleDrives(s: QueueSnapshot, taken: Taken, a: Id, intent: QueueIntent,
                                        d: Id, rev: int)
    requires ItemKeys(s.items) && AttemptIds(s.attempts) && Driven(s)
    requires SettleAttempt(s, taken, a, intent, d, rev).Ok?
    ensures var t := SettleAttempt(s, taken, a, intent, d, rev).value;
            Driven(t) && Remaining(t) <= Remaining(s)
  {
    hide Driven, Remaining, Settlement, ItemKeys, AttemptIds, Has, DecisionFree, Blank;
    if SettleAttempt(s, taken, a, intent, d, rev).value != s {
      NotBlank(d);
      SettlementDriven(s, AttemptAt(s.attempts, a).value, intent, d);
    }
  }

  lemma {:induction false} RecoverDrives(s: QueueSnapshot, rev: int)
    requires Driven(s) && Recover(s, rev).Ok?
    ensures Driven(Recover(s, rev).value) && Remaining(Recover(s, rev).value) <= Remaining(s)
  {
    hide Driven, Remaining, RecoveredLegacy, RecoveredNative, OwnsUnresolved;
    RecoveredDriven(s);
  }

  lemma {:induction false} AdoptDrives(s: QueueSnapshot, taken: Taken, r: Id,
                                       observed: SessionSnapshot, now: Monotonic, at: Instant,
                                       d: Id, rev: int, gen: int)
    requires Durable(s) && Driven(s)
    requires AdoptNativeSuccessor(s, taken, r, observed, now, at, d, rev, gen).Ok?
    ensures var t := AdoptNativeSuccessor(s, taken, r, observed, now, at, d, rev, gen).value;
            Driven(t) && Remaining(t) <= Remaining(s)
  {
    hide Durable, Driven, Remaining, Adoption, AdoptionFree, QualifiedProgress, ObservedMatches,
         Blank;
    if AdoptNativeSuccessor(s, taken, r, observed, now, at, d, rev, gen).value != s {
      NotBlank(d);
      AdoptionDriven(s, taken, ReservationAt(s.reservations, r).value, at, d);
    }
  }

  lemma {:induction false} OthersDrive(s: QueueSnapshot, taken: Taken, op: StoreOp)
    requires Driven(s) && Write(s, taken, op).Ok?
    requires !op.OpStart? && !op.OpSettle? && !op.OpRecover? && !op.OpAdopt?
    ensures Driven(Write(s, taken, op).value)
    ensures Remaining(Write(s, taken, op).value) <= Remaining(s)
  {
    OthersKeepRows(s, taken, op);
    hide Write;
  }

  // ---------------------------------------------------------------- every driven run

  /** Each start in the run is for the first pending item of its time. */
  predicate ObeysOrder(s: QueueSnapshot, calls: seq<Call>)
    decreases |calls|
  {
    calls != [] ==>
      StartsNext(s, calls[0].op) && ObeysOrder(After(s, calls[0]), calls[1..])
  }

  lemma {:induction false} AfterDrives(s: QueueSnapshot, call: Call)
    requires Durable(s) && Driven(s) && StartsNext(s, call.op) && call.op.WellFormed()
    ensures Durable(After(s, call)) && Driven(After(s, call))
    ensures Remaining(After(s, call)) <= Remaining(s)
  {
    hide Durable, Driven, Remaining, Write, RollsBack, StartsNext;
    ApplyKeeps(s, call.taken, call.op);
    if Apply(s, call.taken, call.op).Ok? {
      WriteDrives(s, call.taken, call.op);
    }
  }

  lemma {:induction false} RunDrives(s: QueueSnapshot, calls: seq<Call>)
    requires Durable(s) && Driven(s) && WellFormedCalls(calls) && ObeysOrder(s, calls)
    ensures Durable(Run(s, calls)) && Driven(Run(s, calls))
    ensures Remaining(Run(s, calls)) <= Remaining(s)
    decreases |calls|
  {
    hide Durable, Driven, Remaining, After, StartsNext;
    if calls != [] {
      AfterDrives(s, calls[0]);
      RunDrives(After(s, calls[0]), calls[1..]);
    }
  }

  lemma {:induction false} CreateDrives(id: Id, target: PlaybackTarget, items: seq<QueueEntry>,
                                        mode: QueueMode)
    requires WellFormedQueue(target, items) && Create(id, target, items, mode).Ok?
    ensures Durable(Create(id, target, items, mode).value)
    ensures Driven(Create(id, target, items, mode).value)
    ensures Remaining(Create(id, target, items, mode).value) == 2 * |items|
  {
    CreateKeeps(id, target, items, mode);
    hide Durable;
    NotBlank(id);
  }

  /** Over every run that starts the proposed items, with crashes, controls, cancellation and
      native adoption in between: the queue stays consistent for the policy, and its items were
      started once each and in list order. */
  lemma {:induction false} DrivenRun(id: Id, target: PlaybackTarget, items: seq<QueueEntry>,
                                     mode: QueueMode, calls: seq<Call>)
    requires WellFormedQueue(target, items) && WellFormedCalls(calls)
    requires Create(id, target, items, mode).Ok?
    requires ObeysOrder(Create(id, target, items, mode).value, calls)
    ensures var s := Run(Create(id, target, items, mode).value, calls);
            && P.ValidQueue(s) && InListOrder(s.items, s.attempts)
            && Remaining(s) <= 2 * |items|
  {
    var start := Create(id, target, items, mode).value;
    CreateDrives(id, target, items, mode);
    hide Create, ObeysOrder, Run, Durable;
    RunDrives(start, calls);
    DrivenIsValid(Run(start, calls));
  }

  /** Everything a decision looks at apart from the queue. */
  datatype View = View(
    session: Option<SessionSnapshot>, now: Monotonic, authority: Option<P.QueueAuthority>,
    receiver: Option<PlaybackObservation>, skip: Option<P.SkipIntent>, policy: EvidencePolicy)

  function DecideOn(render: P.Rendering, q: QueueSnapshot, v: View): P.QueueDecision {
    P.Decide(render, q, v.session, v.now, v.authority, v.receiver, v.skip, v.policy)
  }

  /** The call applies what a decision on these rows proposes. */
  predicate Applies(render: P.Rendering, q: QueueSnapshot, v: View, op: StoreOp) {
    var d := DecideOn(render, q, v);
    || (&& d.settlement.Some? && op.OpSettle?
        && var p := d.settlement.value;
        op.attemptId == p.attemptId && op.intent == p.outcome && op.decisionId == p.decisionId)
    || (d.disposition.Ready? && op.OpStart? && d.nextItemId == Some(op.itemId))
  }

  ghost predicate IsProposal(render: P.Rendering, q: QueueSnapshot, op: StoreOp) {
    exists v: View :: Applies(render, q, v, op)
  }

  /** Applying a proposal takes work away. */
  lemma {:induction false} ProposalTakesWork(render: P.Rendering, q: QueueSnapshot, v: View,
                                             taken: Taken, op: StoreOp)
    requires Durable(q) && Driven(q) && Applies(render, q, v, op)
    requires Write(q, taken, op).Ok? && Write(q, taken, op).value != q
    ensures Remaining(Write(q, taken, op).value) < Remaining(q)
  {
    hide Durable, P.Decide, Settlement, Started, Driven, NextToStart, ItemKeys, AttemptIds, Blank,
         Remaining, Settled, Has, DecisionFree, AnyUnsettledItem, PendingItem;
    DurableItems(q);
    var d := DecideOn(render, q, v);
    if op.OpSettle? {
      SettlementFacts(render, q, v.session, v.now, v.authority, v.receiver, v.skip, v.policy);
      LastAttemptAt(q);
      SettlesLast(q, d.settlement.value.outcome, d.settlement.value.decisionId);
    } else {
      ReadyFacts(render, q, v.session, v.now, v.authority, v.receiver, v.skip, v.policy);
      StartedDriven(q, op.itemId, op.attemptId, op.commandId, op.at);
    }
  }

  lemma {:induction false} LastAttemptAt(q: QueueSnapshot)
    requires AttemptIds(q.attempts) && q.attempts != []
    ensures AttemptAt(q.attempts, q.attempts[|q.attempts| - 1].attemptId) == Some(|q.attempts| - 1)
  {
  }

  /** How many calls of a run applied a proposal: made on the rows of its time, and committed. */
  ghost function Applied(render: P.Rendering, s: QueueSnapshot, calls: seq<Call>): nat
    decreases |calls|
  {
    if calls == [] then 0
    else
      (if IsProposal(render, s, calls[0].op) && After(s, calls[0]) != s then 1 else 0)
      + Applied(render, After(s, calls[0]), calls[1..])
  }

  lemma {:induction false} AppliedTakesWork(render: P.Rendering, s: QueueSnapshot, call: Call)
    requires Durable(s) && Driven(s) && StartsNext(s, call.op) && call.op.WellFormed()
    requires IsProposal(render, s, call.op) && After(s, call) != s
    ensures Remaining(After(s, call)) < Remaining(s)
  {
    hide Durable, Driven, Remaining, Write, RollsBack, StartsNext, Applies;
    ApplyKeeps(s, call.taken, call.op);
    var v: View :| Applies(render, s, v, call.op);
    ProposalTakesWork(render, s, v, call.taken, call.op);
  }

  lemma {:induction false} AppliedIsBounded(render: P.Rendering, s: QueueSnapshot,
                                            calls: seq<Call>)
    requires Durable(s) && Driven(s) && WellFormedCalls(calls) && ObeysOrder(s, calls)
    ensures 0 <= Applied(render, s, calls) + Remaining(Run(s, calls)) <= Remaining(s)
    ensures 0 <= Remaining(Run(s, calls))
    decreases |calls|
  {
    hide Durable, Driven, Remaining, After, StartsNext, IsProposal;
    if calls == [] {
      AttemptsFit(s);
    } else {
      AfterDrives(s, calls[0]);
      AppliedIsBounded(render, After(s, calls[0]), calls[1..]);
      if IsProposal(render, s, calls[0].op) && After(s, calls[0]) != s {
        AppliedTakesWork(render, s, calls[0]);
      }
    }
  }

  /** Over every driven run, whatever else happens in it: at most two proposals per item are ever
      applied. */
  lemma {:induction false} ProposalsEnd(render: P.Rendering, id: Id, target: PlaybackTarget,
                                        items: seq<QueueEntry>, mode: QueueMode, calls: seq<Call>)
    requires WellFormedQueue(target, items) && WellFormedCalls(calls)
    requires Create(id, target, items, mode).Ok?
    requires ObeysOrder(Create(id, target, items, mode).value, calls)
    ensures Applied(render, Create(id, target, items, mode).value, calls) <= 2 * |items|
  {
    hide Create, ObeysOrder, Run, Durable, Driven, Applied, Remaining;
    CreateDrives(id, target, items, mode);
    AppliedIsBounded(render, Create(id, target, items, mode).value, calls);
  }

  lemma {:induction false} DurableItems(q: QueueSnapshot)
    requires Durable(q)
    ensures ItemKeys(q.items) && AttemptIds(q.attempts)
  {
  }

  lemma {:induction false} SettlesLast(q: QueueSnapshot, outcome: QueueIntent, decision: Id)
    requires ItemKeys(q.items) && AttemptIds(q.attempts) && Driven(q) && q.attempts != []
    requires q.attempts[|q.attempts| - 1].intent.Current?
    requires outcome.Finished? || outcome.Skipped?
    requires |decision| >= 18 && decision[..18] == "queue-decision-v1-"
    ensures Remaining(Settlement(q, q.attempts[|q.attempts| - 1], outcome, decision))
          < Remaining(q)
  {
    hide Driven, Settlement, Remaining, ItemKeys, AttemptIds;
    SettlementDriven(q, |q.attempts| - 1, outcome, decision);
  }

  lemma {:induction false} AttemptsFit(q: QueueSnapshot)
    requires Driven(q)
    ensures Remaining(q) >= 0
  {
  }

  lemma {:induction false} AllAttempted(items: seq<QueueEntry>, attempts: seq<QueueAttempt>)
    requires InListOrder(items, attempts)
    ensures (forall k :: 0 <= k < |items| ==> !items[k].intent.Pending?) ==>
      |attempts| == |items|
  {
    if |attempts| < |items| {
      assert items[|attempts|].intent.Pending?;
    }
  }

  /** COMPLETE is reported only when every item was attempted, in order, and each attempt was
      finished or skipped under a recorded decision. */
  lemma {:induction false} CompleteMeansDone(render: P.Rendering, q: QueueSnapshot,
                                             session: Option<SessionSnapshot>, now: Monotonic,
                                             authority: Option<P.QueueAuthority>,
                                             receiver: Option<PlaybackObservation>,
                                             skip: Option<P.SkipIntent>, policy: EvidencePolicy)
    requires Durable(q) && Driven(q)
    requires P.Decide(render, q, session, now, authority, receiver, skip, policy).disposition.Complete?
    ensures |q.attempts| == |q.items|
    ensures forall k :: 0 <= k < |q.items| ==>
      && q.attempts[k].itemId == q.items[k].itemId
      && (q.items[k].intent.Finished? || q.items[k].intent.Skipped?)
      && q.attempts[k].intent == q.items[k].intent
      && q.attempts[k].decisionId.Some? && q.attempts[k].decisionId.value != ""
  {
    CompleteFacts(render, q, session, now, authority, receiver, skip, policy);
    assert ItemKeys(q.items);
    hide Durable, P.Decide;
    AllAttempted(q.items, q.attempts);
    forall k | 0 <= k < |q.attempts| ensures q.attempts[k].intent == q.items[k].intent {
      ItemOfAttempt(q, k, k);
    }
  }

  lemma {:induction false} CompleteFacts(render: P.Rendering, q: QueueSnapshot,
                                         session: Option<SessionSnapshot>, now: Monotonic,
                                         authority: Option<P.QueueAuthority>,
                                         receiver: Option<PlaybackObservation>,
                                         skip: Option<P.SkipIntent>, policy: EvidencePolicy)
    requires P.Decide(render, q, session, now, authority, receiver, skip, policy).disposition.Complete?
    ensures forall k :: 0 <= k < |q.items| ==>
      q.items[k].intent.Finished? || q.items[k].intent.Skipped?
  {
    hide P.ValidCompletion, P.SessionMatches, P.Unacknowledged, P.ReceiverReady, P.ValidQueue,
         P.DecisionId;
  }
}
