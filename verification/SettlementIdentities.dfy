/** The identity of a proposed settlement is always new: over every run of a database of queues, no
    decision recorded anywhere can be the one that is proposed next. */
module SettlementIdentities {
  import opened Values
  import opened QueueRecords
  import opened QueueJournal
  import opened JournalInvariant
  import opened QueueHistory
  import opened QueueDriving
  import opened QueueStore
  import P = QueuePolicy
  import T = DecisionTable

  // ---------------------------------------------------------------- where a decision comes from

  predicate OfPolicy(id: Id) {
    |id| >= 18 && id[..18] == "queue-decision-v1-"
  }

  /** The policy made this identity for this attempt of this queue and this outcome. */
  ghost predicate FromPolicy(render: P.Rendering, queueId: Id, attemptId: Id, intent: QueueIntent,
                             id: Id) {
    exists s: SessionSnapshot, skip: Option<P.SkipIntent>, now: Monotonic ::
      Identifies(render, queueId, attemptId, intent, id, s, skip, now)
  }

  /** A finished attempt is identified by a valid completion of its session, a skipped one by the
      skip that was asked for. */
  predicate Identifies(render: P.Rendering, queueId: Id, attemptId: Id, intent: QueueIntent,
                       id: Id, s: SessionSnapshot, skip: Option<P.SkipIntent>, now: Monotonic) {
    && (intent.Finished? || intent.Skipped?)
    && (intent.Finished? <==> skip.None?)
    && (intent.Finished? ==> P.ValidCompletion(s, now))
    && s.scope.request.attemptId == attemptId
    && id == P.DecisionId(render, queueId, s, skip)
  }

  /** An identity in the policy's form was made by the policy for this attempt and outcome. */
  ghost predicate Attributable(render: P.Rendering, queueId: Id, attemptId: Id,
                               intent: QueueIntent, id: Id) {
    OfPolicy(id) ==> FromPolicy(render, queueId, attemptId, intent, id)
  }

  predicate Done(intent: QueueIntent) {
    intent.Finished? || intent.Skipped?
  }

  /** The attempt's decision is attributable, and a finished or skipped attempt has the policy's. */
  ghost predicate Justified(render: P.Rendering, queueId: Id, a: QueueAttempt) {
    && (a.decisionId.Some? ==>
          Attributable(render, queueId, a.attemptId, a.intent, a.decisionId.value))
    && (Done(a.intent) ==> a.decisionId.Some? && OfPolicy(a.decisionId.value))
  }

  ghost predicate Attributed(render: P.Rendering, s: QueueSnapshot) {
    forall k :: 0 <= k < |s.attempts| ==> Justified(render, s.queueId, s.attempts[k])
  }

  /** The owner's own settlements: an unconfirmed start and an observed stop. */
  ghost predicate OwnSettlement(intent: QueueIntent, id: Id) {
    || (intent.NeedsAttention? && exists command: Id :: id == "unconfirmed-" + command)
    || (intent.Stopped? && exists command: Id :: id == "stopped-" + command)
  }

  /** Everything that settles an attempt: an application of a decision that was made on any rows of
      this queue, or an owner's own settlement. */
  ghost predicate SettledByKnown(render: P.Rendering, queueId: Id, op: StoreOp) {
    op.OpSettle? ==>
      || OwnSettlement(op.intent, op.decisionId)
      || exists q: QueueSnapshot, v: View :: q.queueId == queueId && Applies(render, q, v, op)
  }

  /** What the policy proposes is identified for the last attempt. */
  lemma {:induction false} ProposalIsIdentified(render: P.Rendering, q: QueueSnapshot, v: View)
    requires DecideOn(render, q, v).settlement.Some?
    ensures q.attempts != [] && v.session.Some?
    ensures var p := DecideOn(render, q, v).settlement.value;
            && p.attemptId == q.attempts[|q.attempts| - 1].attemptId
            && Identifies(render, q.queueId, p.attemptId, p.outcome, p.decisionId,
                          v.session.value, v.skip, v.now)
  {
    hide DecideOn, T.Over, P.DecisionId, P.ValidCompletion;
    T.SettlesExactly(render, q, v);
    OverIdentifies(q, v);
  }

  lemma {:induction false} OverIdentifies(q: QueueSnapshot, v: View)
    requires T.Over(q, v)
    ensures q.attempts != [] && v.session.Some?
    ensures v.skip.None? ==> P.ValidCompletion(v.session.value, v.now)
    ensures v.session.value.scope.request.attemptId == q.attempts[|q.attempts| - 1].attemptId
  {
    hide T.Consistent, T.Stopping, T.Attended,
         T.Outstanding, T.HoldsContent, T.StartAcknowledged,
         P.ValidCompletion, T.Completed;
    T.CompletedIsValid(v.session.value, v.now);
  }

  lemma {:induction false} KnownIsJustified(render: P.Rendering, queueId: Id, op: StoreOp,
                                            a: QueueAttempt)
    requires SettledByKnown(render, queueId, op) && op.OpSettle?
    requires a.attemptId == op.attemptId && a.intent == op.intent
    requires a.decisionId == Some(op.decisionId)
    ensures Justified(render, queueId, a)
  {
    hide Applies, P.DecisionId, Identifies;
    if OwnSettlement(op.intent, op.decisionId) {
      assert op.decisionId[0] == 'u' || op.decisionId[0] == 's';
      assert "queue-decision-v1-"[0] == 'q';
    } else {
      var q: QueueSnapshot, v: View :| q.queueId == queueId && Applies(render, q, v, op);
      AppliedIdentity(render, q, v, op);
      IdentityHasPrefix(render, queueId, op.attemptId, op.intent, op.decisionId);
    }
  }

  lemma {:induction false} AppliedIdentity(render: P.Rendering, q: QueueSnapshot, v: View,
                                           op: StoreOp)
    requires Applies(render, q, v, op) && op.OpSettle?
    ensures FromPolicy(render, q.queueId, op.attemptId, op.intent, op.decisionId)
  {
    hide P.Decide, Identifies;
    ProposalIsIdentified(render, q, v);
  }

  // ---------------------------------------------------------------- what a transaction records

  /** An attempt that a transaction leaves was there before with its decision and outcome, or is
      settled by it, or is neither finished nor skipped nor decided by the policy. */
  predicate Recorded(s: QueueSnapshot, t: QueueSnapshot, op: StoreOp, k: nat)
    requires k < |t.attempts|
  {
    var a := t.attempts[k];
    || (k < |s.attempts| && a.decisionId == s.attempts[k].decisionId
        && a.attemptId == s.attempts[k].attemptId && a.intent == s.attempts[k].intent)
    || (op.OpSettle? && a.decisionId == Some(op.decisionId)
        && a.attemptId == op.attemptId && a.intent == op.intent)
    || (!Done(a.intent) && (a.decisionId.Some? ==> !OfPolicy(a.decisionId.value)))
  }

  lemma {:induction false} SettleRecords(s: QueueSnapshot, taken: Taken, op: StoreOp, k: nat)
    requires op.OpSettle? && Write(s, taken, op).Ok?
    requires k < |Write(s, taken, op).value.attempts|
    ensures Recorded(s, Write(s, taken, op).value, op, k)
  {
    hide Has, DecisionFree, Blank, OfPolicy;
  }

  predicate CurrentUndecided(attempts: seq<QueueAttempt>) {
    forall k :: 0 <= k < |attempts| && attempts[k].intent.Current? ==>
      attempts[k].decisionId.None?
  }

  lemma {:induction false} AdoptionRecords(s: QueueSnapshot, taken: Taken, op: StoreOp, k: nat)
    requires op.OpAdopt? && Write(s, taken, op).Ok? && AttemptIds(s.attempts)
    requires CurrentUndecided(s.attempts)
    requires k < |Write(s, taken, op).value.attempts|
    ensures Recorded(s, Write(s, taken, op).value, op, k)
  {
    hide ObservedMatches, QualifiedProgress, AdoptionFree, Blank, WithItem, ItemAt, EnqueueAt,
         ReservationAt, Sent, WithAdoption;
    assert ("native-unobserved-" + op.decisionId)[0] == 'n' && "queue-decision-v1-"[0] == 'q';
  }

  lemma {:induction false} OthersRecord(s: QueueSnapshot, taken: Taken, op: StoreOp, k: nat)
    requires !op.OpSettle? && !op.OpAdopt? && Write(s, taken, op).Ok?
    requires CurrentUndecided(s.attempts)
    requires k < |Write(s, taken, op).value.attempts|
    ensures Recorded(s, Write(s, taken, op).value, op, k)
  {
    hide OfPolicy;
    if op.OpStart? {
      StartRecords(s, taken, op);
    } else if op.OpRecover? {
      RecoveryRecords(s, op.revision);
    } else {
      OthersKeepRows(s, taken, op);
      hide Write;
    }
  }

  lemma {:induction false} StartRecords(s: QueueSnapshot, taken: Taken, op: StoreOp)
    requires op.OpStart? && Write(s, taken, op).Ok?
    ensures var t := Write(s, taken, op).value;
            forall k :: 0 <= k < |t.attempts| ==>
              if k < |s.attempts| then t.attempts[k] == s.attempts[k]
              else t.attempts[k].decisionId.None? && t.attempts[k].intent.Current?
  {
    hide AnyUnsettledItem, PendingItem, Blank;
  }

  lemma {:induction false} RecoveryRecords(s: QueueSnapshot, revision: int)
    requires Recover(s, revision).Ok?
    ensures var t := Recover(s, revision).value;
            && |t.attempts| == |s.attempts|
            && forall k :: 0 <= k < |t.attempts| ==>
                 && t.attempts[k].decisionId == s.attempts[k].decisionId
                 && t.attempts[k].attemptId == s.attempts[k].attemptId
                 && (t.attempts[k].intent == s.attempts[k].intent
                     || (s.attempts[k].intent.Current? && t.attempts[k].intent.NeedsAttention?))
  {
    hide OwnsUnresolved;
  }

  lemma {:induction false} WriteAttributes(render: P.Rendering, s: QueueSnapshot, taken: Taken,
                                           op: StoreOp)
    requires Durable(s) && Attributed(render, s) && SettledByKnown(render, s.queueId, op)
    requires Write(s, taken, op).Ok?
    ensures var t := Write(s, taken, op).value;
            t.queueId == s.queueId && Attributed(render, t)
  {
    hide Durable, Write, Attributable, SettledByKnown, OfPolicy, RowsContinue, StopsContinue,
         AttemptIds;
    var t := Write(s, taken, op).value;
    AttemptKeysOf(s);
    WriteContinues(s, taken, op);
    CurrentIsUndecided(s);
    forall k | 0 <= k < |t.attempts| ensures Justified(render, t.queueId, t.attempts[k]) {
      if op.OpSettle? {
        SettleRecords(s, taken, op, k);
      } else if op.OpAdopt? {
        AdoptionRecords(s, taken, op, k);
      } else {
        OthersRecord(s, taken, op, k);
      }
      RecordedIsJustified(render, s, t, op, k);
    }
  }

  lemma {:induction false} RecordedIsJustified(render: P.Rendering, s: QueueSnapshot,
                                               t: QueueSnapshot, op: StoreOp, k: nat)
    requires Attributed(render, s) && SettledByKnown(render, s.queueId, op)
    requires k < |t.attempts| && t.queueId == s.queueId && Recorded(s, t, op, k)
    ensures Justified(render, t.queueId, t.attempts[k])
  {
    hide Attributable, SettledByKnown, OfPolicy;
    var a := t.attempts[k];
    if op.OpSettle? && a.decisionId == Some(op.decisionId) && a.attemptId == op.attemptId
       && a.intent == op.intent {
      KnownIsJustified(render, s.queueId, op, a);
    } else if a.decisionId.Some? {
      NotOfPolicy(render, t.queueId, a.attemptId, a.intent, a.decisionId.value);
    }
  }

  lemma {:induction false} AttemptKeysOf(s: QueueSnapshot)
    requires Durable(s)
    ensures AttemptIds(s.attempts)
  {
  }

  lemma {:induction false} CurrentIsUndecided(s: QueueSnapshot)
    requires Durable(s)
    ensures CurrentUndecided(s.attempts)
  {
  }

  lemma {:induction false} NotOfPolicy(render: P.Rendering, queueId: Id, attemptId: Id,
                                       intent: QueueIntent, id: Id)
    ensures !OfPolicy(id) ==> Attributable(render, queueId, attemptId, intent, id)
  {
  }

  // ---------------------------------------------------------------- every run of the database

  datatype DatabaseCall =
    | NewQueue(id: Id, target: PlaybackTarget, items: seq<QueueEntry>, mode: QueueMode)
    | OnQueue(id: Id, op: StoreOp)
  {
    ghost predicate Known(render: P.Rendering) {
      match this
      case NewQueue(_, target, items, _) => WellFormedQueue(target, items)
      case OnQueue(id, op) => op.WellFormed() && SettledByKnown(render, id, op)
    }
  }

  /** One call of the store; keys are unique across all queues. */
  function Called(queues: Database, c: DatabaseCall): Database {
    match c
    case NewQueue(id, target, items, mode) =>
      if id in queues then queues
      else
        (match QueueJournal.Create(id, target, items, mode)
         case Err(_) => queues
         case Ok(rows) => queues[id := rows])
    case OnQueue(id, op) =>
      if id !in queues then queues
      else queues[id := QueueHistory.After(queues[id], Call(Elsewhere(queues, id), op))]
  }

  function Calls(calls: seq<DatabaseCall>): Database {
    if calls == [] then map[] else Called(Calls(calls[..|calls| - 1]), calls[|calls| - 1])
  }

  ghost predicate AllKnown(render: P.Rendering, calls: seq<DatabaseCall>) {
    forall k :: 0 <= k < |calls| ==> calls[k].Known(render)
  }

  ghost predicate Kept(render: P.Rendering, id: Id, s: QueueSnapshot) {
    Durable(s) && s.queueId == id && Attributed(render, s)
  }

  ghost predicate AllKept(render: P.Rendering, queues: Database) {
    forall id :: id in queues ==> Kept(render, id, queues[id])
  }

  lemma {:induction false} CreatedKept(render: P.Rendering, id: Id, target: PlaybackTarget,
                                       items: seq<QueueEntry>, mode: QueueMode)
    requires WellFormedQueue(target, items) && QueueJournal.Create(id, target, items, mode).Ok?
    ensures Kept(render, id, QueueJournal.Create(id, target, items, mode).value)
  {
    CreateKeeps(id, target, items, mode);
    hide Durable, Attributable;
  }

  lemma {:induction false} CalledKeeps(render: P.Rendering, queues: Database, c: DatabaseCall)
    requires AllKept(render, queues) && c.Known(render)
    ensures AllKept(render, Called(queues, c))
  {
    hide Kept, QueueHistory.After, SettledByKnown, Elsewhere, QueueJournal.Create, WellFormedQueue;
    match c {
      case NewQueue(id, target, items, mode) =>
        if QueueJournal.Create(id, target, items, mode).Ok? {
          CreatedKept(render, id, target, items, mode);
        }
      case OnQueue(id, op) =>
        if id in queues {
          AfterKept(render, id, queues[id], Call(Elsewhere(queues, id), op));
        }
    }
  }

  lemma {:induction false} AfterKept(render: P.Rendering, id: Id, s: QueueSnapshot, call: Call)
    requires Kept(render, id, s) && call.op.WellFormed() && SettledByKnown(render, id, call.op)
    ensures Kept(render, id, QueueHistory.After(s, call))
  {
    hide Durable, Write, RollsBack, Attributed, SettledByKnown;
    ApplyKeeps(s, call.taken, call.op);
    if Apply(s, call.taken, call.op).Ok? {
      WriteAttributes(render, s, call.taken, call.op);
    }
  }

  lemma {:induction false} CallsKeep(render: P.Rendering, calls: seq<DatabaseCall>)
    requires AllKnown(render, calls)
    ensures AllKept(render, Calls(calls))
  {
    hide Kept, Called;
    if calls != [] {
      CallsKeep(render, calls[..|calls| - 1]);
      CalledKeeps(render, Calls(calls[..|calls| - 1]), calls[|calls| - 1]);
    }
  }

  // ---------------------------------------------------------------- proposals are new

  /** The policy made this identity for this attempt. */
  ghost predicate MadeFor(render: P.Rendering, queueId: Id, attemptId: Id, id: Id) {
    exists intent :: FromPolicy(render, queueId, attemptId, intent, id)
  }

  /** Two identities of the policy that are equal are for one queue and one attempt. */
  lemma {:induction false} OneOrigin(render: P.Rendering, queueId: Id, attemptId: Id,
                                     otherQueue: Id, otherAttempt: Id, id: Id)
    requires P.Faithful(render)
    requires MadeFor(render, queueId, attemptId, id)
    requires MadeFor(render, otherQueue, otherAttempt, id)
    ensures queueId == otherQueue && attemptId == otherAttempt
  {
    hide P.DecisionId, P.Faithful;
    var intent :| FromPolicy(render, queueId, attemptId, intent, id);
    var intent2 :| FromPolicy(render, otherQueue, otherAttempt, intent2, id);
    var s: SessionSnapshot, skip: Option<P.SkipIntent>, now: Monotonic :|
      Identifies(render, queueId, attemptId, intent, id, s, skip, now);
    var s2: SessionSnapshot, skip2: Option<P.SkipIntent>, now2: Monotonic :|
      Identifies(render, otherQueue, otherAttempt, intent2, id, s2, skip2, now2);
    P.DecisionsIdentifyWork(render, queueId, s, skip, otherQueue, s2, skip2);
  }

  /** What is recorded elsewhere is not what the policy makes here. */
  lemma {:induction false} OtherOrigin(render: P.Rendering, queueId: Id, attemptId: Id,
                                       otherQueue: Id, otherAttempt: Id, intent: QueueIntent,
                                       id: Id, recorded: Id)
    requires P.Faithful(render)
    requires MadeFor(render, queueId, attemptId, id)
    requires Attributable(render, otherQueue, otherAttempt, intent, recorded)
    requires queueId != otherQueue || attemptId != otherAttempt
    ensures recorded != id
  {
    hide P.Faithful, FromPolicy, OfPolicy;
    var made :| FromPolicy(render, queueId, attemptId, made, id);
    IdentityHasPrefix(render, queueId, attemptId, made, id);
    if FromPolicy(render, otherQueue, otherAttempt, intent, id) {
      OneOrigin(render, queueId, attemptId, otherQueue, otherAttempt, id);
    }
  }

  lemma {:induction false} IdentityHasPrefix(render: P.Rendering, queueId: Id, attemptId: Id,
                                             intent: QueueIntent, id: Id)
    requires FromPolicy(render, queueId, attemptId, intent, id)
    ensures OfPolicy(id)
  {
  }

  lemma {:induction false} NewInQueue(render: P.Rendering, q: QueueSnapshot, attemptId: Id, d: Id)
    requires P.Faithful(render) && Attributed(render, q) && AttemptIds(q.attempts)
    requires q.attempts != [] && attemptId == q.attempts[|q.attempts| - 1].attemptId
    requires q.attempts[|q.attempts| - 1].decisionId.None?
    requires MadeFor(render, q.queueId, attemptId, d)
    ensures DecisionFree(q.attempts, d)
  {
    hide P.Faithful, FromPolicy, Attributable;
    forall k | 0 <= k < |q.attempts| ensures q.attempts[k].decisionId != Some(d) {
      if k < |q.attempts| - 1 && q.attempts[k].decisionId.Some? {
        assert Justified(render, q.queueId, q.attempts[k]);
        OtherOrigin(render, q.queueId, attemptId, q.queueId, q.attempts[k].attemptId,
                    q.attempts[k].intent, d, q.attempts[k].decisionId.value);
      }
    }
  }

  lemma {:induction false} NewElsewhere(render: P.Rendering, queues: Database, id: Id,
                                        attemptId: Id, d: Id)
    requires P.Faithful(render) && AllKept(render, queues)
    requires MadeFor(render, id, attemptId, d)
    ensures d !in Elsewhere(queues, id).decisions
  {
    hide P.Faithful, FromPolicy, Attributable, Durable;
    forall other, k |
      other in queues && other != id && 0 <= k < |queues[other].attempts|
      && queues[other].attempts[k].decisionId.Some?
      ensures queues[other].attempts[k].decisionId.value != d
    {
      assert Kept(render, other, queues[other]);
      assert Justified(render, other, queues[other].attempts[k]);
      OtherOrigin(render, id, attemptId, other, queues[other].attempts[k].attemptId,
                  queues[other].attempts[k].intent, d,
                  queues[other].attempts[k].decisionId.value);
    }
  }

  /** The identity proposed next is recorded neither in its own queue nor in any other. */
  lemma {:induction false} ProposalIsNew(render: P.Rendering, queues: Database, id: Id, v: View)
    requires P.Faithful(render) && AllKept(render, queues) && id in queues
    requires DecideOn(render, queues[id], v).settlement.Some?
    ensures var d := DecideOn(render, queues[id], v).settlement.value.decisionId;
            && DecisionFree(queues[id].attempts, d)
            && d !in Elsewhere(queues, id).decisions
  {
    hide P.Decide, P.Faithful, Identifies, Durable, Attributed, Elsewhere, DecisionFree, AttemptIds;
    var q := queues[id];
    assert Kept(render, id, q);
    var p := DecideOn(render, q, v).settlement.value;
    SettlementFacts(render, q, v.session, v.now, v.authority, v.receiver, v.skip, v.policy);
    ProposalIsIdentified(render, q, v);
    assert FromPolicy(render, id, p.attemptId, p.outcome, p.decisionId);
    assert MadeFor(render, id, p.attemptId, p.decisionId);
    NewInQueue(render, q, p.attemptId, p.decisionId);
    NewElsewhere(render, queues, id, p.attemptId, p.decisionId);
  }

  /** Over every run of the database, every proposed settlement is accepted: it passes all guards,
      uniqueness across queues included, and is committed. */
  lemma {:induction false} SettlementIsAccepted(render: P.Rendering, calls: seq<DatabaseCall>,
                                                id: Id, v: View)
    requires P.Faithful(render) && AllKnown(render, calls) && id in Calls(calls)
    requires DecideOn(render, Calls(calls)[id], v).settlement.Some?
    ensures Calls(calls)[id].attempts != []
    ensures var q := Calls(calls)[id];
            var d := DecideOn(render, q, v);
            var p := d.settlement.value;
            var last := q.attempts[|q.attempts| - 1];
            && p.attemptId == last.attemptId && p.itemId == last.itemId
            && Apply(q, Elsewhere(Calls(calls), id),
                     OpSettle(p.attemptId, p.outcome, p.decisionId, d.expectedRevision))
                 == Ok(Settlement(q, last, p.outcome, p.decisionId))
  {
    hide P.Faithful, P.Decide, Calls, AllKnown, Kept, Elsewhere, Apply, Settlement, SettleAttempt,
         DecisionFree, ReloadAccepts;
    CallsKeep(render, calls);
    var queues := Calls(calls);
    ProposalIsNew(render, queues, id, v);
    NewSettlementIsAccepted(render, queues[id], v.session, v.now, v.authority, v.receiver, v.skip,
                            v.policy, Elsewhere(queues, id));
    assert Durable(queues[id]) by { KeptIsDurable(render, id, queues[id]); }
    hide Durable;
    var d := DecideOn(render, queues[id], v);
    var p := d.settlement.value;
    ApplyKeeps(queues[id], Elsewhere(queues, id),
               OpSettle(p.attemptId, p.outcome, p.decisionId, d.expectedRevision));
  }

  lemma {:induction false} KeptIsDurable(render: P.Rendering, id: Id, s: QueueSnapshot)
    requires Kept(render, id, s)
    ensures Durable(s)
  {
  }

  // ---------------------------------------------------------------- what an outcome records

  /** Over every run of the database: a finished attempt carries the identity of a valid completion
      of a session of that attempt, a skipped one that of a skip, and neither can be read as the
      other. */
  lemma {:induction false} OutcomesAreJustified(render: P.Rendering, calls: seq<DatabaseCall>,
                                                id: Id, k: nat)
    requires AllKnown(render, calls) && id in Calls(calls)
    requires k < |Calls(calls)[id].attempts| && Done(Calls(calls)[id].attempts[k].intent)
    ensures var a := Calls(calls)[id].attempts[k];
            && a.decisionId.Some?
            && (exists s: SessionSnapshot, skip: Option<P.SkipIntent>, now: Monotonic ::
                  Identifies(render, id, a.attemptId, a.intent, a.decisionId.value, s, skip, now))
            && (P.Faithful(render) ==>
                  forall other, s: SessionSnapshot, skip: Option<P.SkipIntent>, now: Monotonic ::
                    Identifies(render, id, a.attemptId, other, a.decisionId.value, s, skip, now)
                    ==> other == a.intent)
  {
    hide P.Faithful, Calls, AllKnown, Identifies, Durable;
    CallsKeep(render, calls);
    var q := Calls(calls)[id];
    assert Kept(render, id, q);
    var a := q.attempts[k];
    assert Justified(render, id, a);
    if P.Faithful(render) {
      forall other, s: SessionSnapshot, skip: Option<P.SkipIntent>, now: Monotonic |
        Identifies(render, id, a.attemptId, other, a.decisionId.value, s, skip, now)
        ensures other == a.intent
      {
        OneOutcome(render, id, a, other, s, skip, now);
      }
    }
  }

  lemma {:induction false} OneOutcome(render: P.Rendering, queueId: Id, a: QueueAttempt,
                                      other: QueueIntent, s: SessionSnapshot,
                                      skip: Option<P.SkipIntent>, now: Monotonic)
    requires P.Faithful(render) && a.decisionId.Some?
    requires FromPolicy(render, queueId, a.attemptId, a.intent, a.decisionId.value)
    requires Identifies(render, queueId, a.attemptId, other, a.decisionId.value, s, skip, now)
    ensures other == a.intent
  {
    hide P.Faithful, P.DecisionId;
    var s2: SessionSnapshot, skip2: Option<P.SkipIntent>, now2: Monotonic :|
      Identifies(render, queueId, a.attemptId, a.intent, a.decisionId.value, s2, skip2, now2);
    P.DecisionsIdentifyWork(render, queueId, s, skip, queueId, s2, skip2);
  }
}
