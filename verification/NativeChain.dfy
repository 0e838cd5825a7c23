/** What every run of a queue created by the store looks like: a native queue is one local start
    followed by observed successors, and no attempt is released twice. */
module NativeChain {
  import opened Values
  import opened QueueRecords
  import opened QueueJournal
  import opened JournalInvariant
  import opened QueueHistory

  /** Attempt `k` was observed after attempt `k - 1`, which its reservation names. */
  predicate Follows(s: QueueSnapshot, k: nat)
    requires 0 < k < |s.attempts|
  {
    && s.attempts[k].origin.NativeObserved?
    && exists n :: 0 <= n < |s.reservations|
         && s.reservations[n].reservationId == s.attempts[k].origin.reservationId
         && s.reservations[n].predecessorAttemptId == s.attempts[k - 1].attemptId
         && s.reservations[n].adoptionDecisionId.Some?
  }

  predicate Chained(s: QueueSnapshot) {
    s.mode.Native? ==>
      && (s.attempts != [] ==> s.attempts[0].origin.LocalStart?)
      && (forall k :: 0 < k < |s.attempts| ==> Follows(s, k))
  }

  /** Each attempt has at most one RELEASE, and only a finished attempt with a decision has one. */
  predicate ReleasedOnce(attempts: seq<QueueAttempt>, cs: seq<JournalCommand>) {
    && (forall i, j :: 0 <= i < j < |cs| && cs[i].action.Release? && cs[j].action.Release? ==>
          cs[i].attemptId != cs[j].attemptId)
    && (forall i, k :: 0 <= i < |cs| && 0 <= k < |attempts| && ReleaseOf(cs[i], attempts[k]) ==>
          FinishedFor(attempts[k]))
  }

  predicate ReleaseOf(c: JournalCommand, a: QueueAttempt) {
    c.action.Release? && c.attemptId == a.attemptId
  }

  predicate FinishedFor(a: QueueAttempt) {
    a.intent.Finished? && a.decisionId.Some? && a.decisionId.value != ""
  }

  // ---------------------------------------------------------------- what a transaction adds

  /** The action of the command a transaction journals, if it journals one. */
  function Journaled(op: StoreOp): Option<CommandAction> {
    match op
    case OpStart(_, _, _, _, _) => Some(Start)
    case OpStop(_, _, _, _) => Some(Stop)
    case OpControl(_, _, action, _, _) => Some(action)
    case _ => None
  }

  /** A transaction adds at most one attempt and at most one command. */
  lemma {:induction false} Additions(s: QueueSnapshot, taken: Taken, op: StoreOp)
    requires Write(s, taken, op).Ok?
    ensures var t := Write(s, taken, op).value;
            && (!op.OpStart? && !op.OpAdopt? ==> |t.attempts| == |s.attempts|)
            && (|t.commands| == |s.commands|
                || (|t.commands| == |s.commands| + 1 && Journaled(op).Some?
                    && t.commands[|s.commands|].action == Journaled(op).value))
  {
    hide AnyUnsettledItem, PendingItem, Stoppable, AnyUnresolved, AnyReserved, Has, Dispatchable,
         Stageable, RequestMatches, ReservationFree, ActionFree, SameOperation, QualifiedProgress,
         ObservedMatches, AdoptionFree, NativeDispatchable, OwnsUnresolved, DecisionFree, Blank;
  }

  // ---------------------------------------------------------------- the chain of a native queue

  /** Rows that continue keep every link. */
  lemma {:induction false} LinksKept(s: QueueSnapshot, t: QueueSnapshot)
    requires RowsContinue(s, t)
    ensures forall k :: 0 < k < |s.attempts| && Follows(s, k) ==> Follows(t, k)
  {
    forall k | 0 < k < |s.attempts| && Follows(s, k) ensures Follows(t, k) {
      var n :| 0 <= n < |s.reservations|
        && s.reservations[n].reservationId == s.attempts[k].origin.reservationId
        && s.reservations[n].predecessorAttemptId == s.attempts[k - 1].attemptId
        && s.reservations[n].adoptionDecisionId.Some?;
      assert ReservationContinues(s.reservations[n], t.reservations[n]);
      assert AttemptContinues(s.attempts[k], t.attempts[k]);
      assert AttemptContinues(s.attempts[k - 1], t.attempts[k - 1]);
    }
  }

  /** An adoption links the new attempt to the last one. */
  lemma {:induction false} AdoptionLinks(s: QueueSnapshot, taken: Taken, r: Id,
                                         observed: SessionSnapshot, now: Monotonic, at: Instant,
                                         d: Id, rev: int, gen: int)
    requires AdoptNativeSuccessor(s, taken, r, observed, now, at, d, rev, gen).Ok?
    ensures var t := AdoptNativeSuccessor(s, taken, r, observed, now, at, d, rev, gen).value;
            t == s || (|t.attempts| == |s.attempts| + 1 && s.attempts != []
                       && Follows(t, |s.attempts|))
  {
    hide QualifiedProgress, ObservedMatches, AdoptionFree;
    var t := AdoptNativeSuccessor(s, taken, r, observed, now, at, d, rev, gen).value;
    if t != s {
      var k := ReservationAt(s.reservations, r).value;
      assert t.reservations[k].reservationId == r;
      assert t.attempts[|s.attempts| - 1].attemptId == s.attempts[|s.attempts| - 1].attemptId;
    }
  }

  /** A native queue starts only its first attempt. */
  lemma {:induction false} StartLinks(s: QueueSnapshot, taken: Taken, i: Id, a: Id, c: Id,
                                      at: Instant, rev: int)
    requires s.mode.Native? && PrepareStart(s, taken, i, a, c, at, rev).Ok?
    ensures var t := PrepareStart(s, taken, i, a, c, at, rev).value;
            t == s || (s.attempts == [] && |t.attempts| == 1 && t.attempts[0].origin.LocalStart?)
  {
  }

  lemma {:induction false} ChainKept(s: QueueSnapshot, t: QueueSnapshot)
    requires RowsContinue(s, t) && t.mode == s.mode && Chained(s)
    requires |t.attempts| <= |s.attempts| + 1
    requires |t.attempts| == |s.attempts| + 1 && s.mode.Native? ==>
      if s.attempts == [] then t.attempts[0].origin.LocalStart? else Follows(t, |s.attempts|)
    ensures Chained(t)
  {
    LinksKept(s, t);
    if s.attempts != [] {
      assert AttemptContinues(s.attempts[0], t.attempts[0]);
    }
    hide Follows;
  }

  /** A start or an adoption adds at most the next link. */
  lemma {:induction false} WriteLinks(s: QueueSnapshot, taken: Taken, op: StoreOp)
    requires Write(s, taken, op).Ok?
    ensures var t := Write(s, taken, op).value;
            && |t.attempts| <= |s.attempts| + 1
            && (|t.attempts| == |s.attempts| + 1 && s.mode.Native? ==>
                  if s.attempts == [] then t.attempts[0].origin.LocalStart?
                  else Follows(t, |s.attempts|))
  {
    hide Follows, PrepareStart, AdoptNativeSuccessor;
    match op {
      case OpStart(i, a, c, at, rev) =>
        StartShape(s, taken, i, a, c, at, rev);
        if s.mode.Native? {
          StartLinks(s, taken, i, a, c, at, rev);
        }
      case OpAdopt(r, observed, now, at, d, rev, gen) =>
        AdoptionLinks(s, taken, r, observed, now, at, d, rev, gen);
      case _ =>
        hide Write;
        Additions(s, taken, op);
    }
  }

  lemma {:induction false} WriteChains(s: QueueSnapshot, taken: Taken, op: StoreOp)
    requires Durable(s) && Chained(s) && Write(s, taken, op).Ok?
    ensures Chained(Write(s, taken, op).value)
  {
    hide Durable, Follows, RowsContinue, StopsContinue, Chained, Write;
    WriteContinues(s, taken, op);
    WriteLinks(s, taken, op);
    ChainKept(s, Write(s, taken, op).value);
  }

  lemma {:induction false} StartShape(s: QueueSnapshot, taken: Taken, i: Id, a: Id, c: Id,
                                      at: Instant, rev: int)
    requires PrepareStart(s, taken, i, a, c, at, rev).Ok?
    ensures |PrepareStart(s, taken, i, a, c, at, rev).value.attempts| <= |s.attempts| + 1
  {
  }

  // ---------------------------------------------------------------- one release per attempt

  lemma {:induction false} ReleasesKept(s: QueueSnapshot, t: QueueSnapshot)
    requires CommandKeys(s.attempts, s.commands) && AttemptIds(t.attempts)
    requires RowsContinue(s, t) && ReleasedOnce(s.attempts, s.commands)
    requires forall i :: |s.commands| <= i < |t.commands| ==> !t.commands[i].action.Release?
    ensures ReleasedOnce(t.attempts, t.commands)
  {
    hide ItemContinues, ReservationContinues, OperationContinues;
    forall i, k | 0 <= i < |t.commands| && 0 <= k < |t.attempts|
      && ReleaseOf(t.commands[i], t.attempts[k])
      ensures FinishedFor(t.attempts[k])
    {
      assert CommandContinues(s.cancellationRequested, s.commands[i], t.commands[i]);
      var n := AttemptAt(s.attempts, s.commands[i].attemptId).value;
      assert AttemptContinues(s.attempts[n], t.attempts[n]);
      assert n == k;
      assert ReleaseOf(s.commands[i], s.attempts[k]);
    }
    forall i, j | 0 <= i < j < |t.commands| && t.commands[i].action.Release?
      && t.commands[j].action.Release?
      ensures t.commands[i].attemptId != t.commands[j].attemptId
    {
      assert CommandContinues(s.cancellationRequested, s.commands[i], t.commands[i]);
      assert CommandContinues(s.cancellationRequested, s.commands[j], t.commands[j]);
    }
  }

  lemma {:induction false} ReleasePrepared(s: QueueSnapshot, taken: Taken, a: Id, c: Id,
                                           at: Instant, rev: int)
    requires AttemptIds(s.attempts) && ReleasedOnce(s.attempts, s.commands)
    requires PrepareControl(s, taken, a, c, Release, at, rev).Ok?
    ensures var t := PrepareControl(s, taken, a, c, Release, at, rev).value;
            ReleasedOnce(t.attempts, t.commands)
  {
    var t := PrepareControl(s, taken, a, c, Release, at, rev).value;
    if t != s {
      var last := |s.attempts| - 1;
      forall k | 0 <= k < |t.attempts| && ReleaseOf(t.commands[|s.commands|], t.attempts[k])
        ensures FinishedFor(t.attempts[k])
      {
        assert k == last;
      }
      forall i, k | 0 <= i < |t.commands| && 0 <= k < |t.attempts|
        && ReleaseOf(t.commands[i], t.attempts[k])
        ensures FinishedFor(t.attempts[k])
      {
        assert i < |s.commands| ==> ReleaseOf(s.commands[i], s.attempts[k]);
      }
    }
  }

  lemma {:induction false} WriteReleasesOnce(s: QueueSnapshot, taken: Taken, op: StoreOp)
    requires Durable(s) && op.WellFormed() && ReleasedOnce(s.attempts, s.commands)
    requires Write(s, taken, op).Ok?
    ensures var t := Write(s, taken, op).value; ReleasedOnce(t.attempts, t.commands)
  {
    assert Keyed(s);
    hide Durable, Write, Keyed, ReloadAccepts, RollsBack, CommandKeys, AttemptIds, ReleasedOnce,
         PrepareControl, RowsContinue, LatchesContinue, StopsContinue;
    var t := Write(s, taken, op).value;
    WriteIsAccepted(s, taken, op);
    ReleaseKeys(s);
    ReleaseKeys(t);
    WriteContinues(s, taken, op);
    if op.OpControl? && op.action.Release? {
      WritesControl(s, taken, op);
      ReleasePrepared(s, taken, op.attemptId, op.commandId, op.at, op.revision);
    } else {
      NoReleaseAdded(s, taken, op);
      ReleasesKept(s, t);
    }
  }

  lemma {:induction false} WritesControl(s: QueueSnapshot, taken: Taken, op: StoreOp)
    requires op.OpControl?
    ensures Write(s, taken, op)
         == PrepareControl(s, taken, op.attemptId, op.commandId, op.action, op.at, op.revision)
  {
  }

  lemma {:induction false} NoReleaseAdded(s: QueueSnapshot, taken: Taken, op: StoreOp)
    requires Write(s, taken, op).Ok? && !(op.OpControl? && op.action.Release?)
    ensures var t := Write(s, taken, op).value;
            forall i :: |s.commands| <= i < |t.commands| ==> !t.commands[i].action.Release?
  {
    hide Write;
    Additions(s, taken, op);
  }

  lemma {:induction false} ReleaseKeys(s: QueueSnapshot)
    requires Keyed(s)
    ensures CommandKeys(s.attempts, s.commands) && AttemptIds(s.attempts)
  {
  }

  // ---------------------------------------------------------------- every run

  /** What the store keeps about a queue it created. */
  predicate Lawful(s: QueueSnapshot) {
    Durable(s) && Chained(s) && ReleasedOnce(s.attempts, s.commands)
  }

  lemma {:induction false} CreateIsLawful(id: Id, target: PlaybackTarget, items: seq<QueueEntry>,
                                          mode: QueueMode)
    requires WellFormedQueue(target, items) && Create(id, target, items, mode).Ok?
    ensures Lawful(Create(id, target, items, mode).value)
  {
    CreateKeeps(id, target, items, mode);
    hide Durable;
  }

  lemma {:induction false} AfterIsLawful(s: QueueSnapshot, call: Call)
    requires Lawful(s) && call.op.WellFormed()
    ensures Lawful(After(s, call))
  {
    hide Durable, Continues, Write, RollsBack, Chained, ReleasedOnce;
    AfterContinues(s, call);
    ApplyKeeps(s, call.taken, call.op);
    if Apply(s, call.taken, call.op).Ok? {
      WriteChains(s, call.taken, call.op);
      WriteReleasesOnce(s, call.taken, call.op);
    }
  }

  lemma {:induction false} RunIsLawful(s: QueueSnapshot, calls: seq<Call>)
    requires Lawful(s) && WellFormedCalls(calls)
    ensures Lawful(Run(s, calls))
    decreases |calls|
  {
    hide Lawful, After;
    if calls != [] {
      AfterIsLawful(s, calls[0]);
      RunIsLawful(After(s, calls[0]), calls[1..]);
    }
  }

  // ---------------------------------------------------------------- the shape of a native queue

  lemma {:induction false} TwoStarts(cs: seq<JournalCommand>, i: nat, j: nat)
    requires i < j < |cs| && cs[i].action.Start? && cs[j].action.Start?
    requires cs[i].attemptId == cs[j].attemptId
    ensures Starts(cs, cs[i].attemptId) >= 2
  {
    if j == |cs| - 1 {
      OneStart(cs[..j], i);
    } else {
      TwoStarts(cs[..|cs| - 1], i, j);
    }
  }

  lemma {:induction false} OneStart(cs: seq<JournalCommand>, i: nat)
    requires i < |cs| && cs[i].action.Start?
    ensures Starts(cs, cs[i].attemptId) >= 1
  {
    if i < |cs| - 1 {
      OneStart(cs[..|cs| - 1], i);
    }
  }

  /** A START command belongs to a local attempt, which in a chain is the first one. */
  lemma {:induction false} StartOfFirst(s: QueueSnapshot, i: nat)
    requires Durable(s) && Chained(s) && s.mode.Native?
    requires i < |s.commands| && s.commands[i].action.Start?
    ensures s.attempts != [] && s.commands[i].attemptId == s.attempts[0].attemptId
  {
    var k := AttemptAt(s.attempts, s.commands[i].attemptId).value;
    OneStart(s.commands, i);
    assert StartsOk(s.attempts, s.commands);
    hide Durable;
    assert k > 0 ==> Follows(s, k);
  }

  /** A native queue journals at most one START. */
  lemma {:induction false} AtMostOneStart(s: QueueSnapshot, i: nat, j: nat)
    requires Durable(s) && Chained(s) && s.mode.Native? && i < j < |s.commands|
    ensures !(s.commands[i].action.Start? && s.commands[j].action.Start?)
  {
    assert s.attempts != [] ==> Starts(s.commands, s.attempts[0].attemptId) <= 1;
    hide Durable, Chained;
    if s.commands[i].action.Start? && s.commands[j].action.Start? {
      StartOfFirst(s, i);
      StartOfFirst(s, j);
      TwoStarts(s.commands, i, j);
    }
  }

  /** The reservation that backs a link: adopted, its enqueue sent, joining adjacent items. */
  predicate Backed(s: QueueSnapshot, k: nat, n: nat)
    requires 0 < k < |s.attempts| && n < |s.reservations|
  {
    var r := s.reservations[n];
    && r.predecessorAttemptId == s.attempts[k - 1].attemptId
    && r.successorAttemptId == s.attempts[k].attemptId
    && s.attempts[k].origin == NativeObserved(r.reservationId)
    && r.adoptionDecisionId.Some?
    && NextItem(s.items, s.attempts[k - 1].itemId, s.attempts[k].itemId)
    && EnqueueAt(s.operations, r.reservationId).Some?
    && Sent(s.operations[EnqueueAt(s.operations, r.reservationId).value].state)
  }

  /** Attempt `k` and the one before it are joined by a reservation. */
  predicate Linked(s: QueueSnapshot, k: nat)
    requires 0 < k < |s.attempts|
  {
    exists n :: 0 <= n < |s.reservations| && Backed(s, k, n)
  }

  lemma {:induction false} LinkIsBacked(s: QueueSnapshot, k: nat)
    requires Durable(s) && Chained(s) && s.mode.Native? && 0 < k < |s.attempts|
    ensures Linked(s, k)
  {
    hide Durable, NextItem, ItemAt, AttemptAt, EnqueueAt, Sent, Provenance, ReservationKeys,
         AttemptIds;
    assert Follows(s, k);
    var n :| 0 <= n < |s.reservations|
      && s.reservations[n].reservationId == s.attempts[k].origin.reservationId
      && s.reservations[n].predecessorAttemptId == s.attempts[k - 1].attemptId
      && s.reservations[n].adoptionDecisionId.Some?;
    AdoptedReservationLinks(s, n);
    hide Chained, Follows;
    OnlySuccessor(s, k, n);
    assert Backed(s, k, n);
  }

  /** An adopted reservation joins two attempts of adjacent items, and its enqueue was sent. */
  lemma {:induction false} AdoptedReservationLinks(s: QueueSnapshot, n: nat)
    requires Durable(s) && s.mode.Native? && n < |s.reservations|
    requires s.reservations[n].adoptionDecisionId.Some?
    ensures var r := s.reservations[n];
            && AttemptIds(s.attempts) && ReservationKeys(s.reservations)
            && (forall k :: 0 <= k < |s.attempts| && s.attempts[k].origin.NativeObserved? ==>
                  Provenance(s.reservations, s.attempts[k]))
            && AttemptAt(s.attempts, r.predecessorAttemptId).Some?
            && AttemptAt(s.attempts, r.successorAttemptId).Some?
            && s.attempts[AttemptAt(s.attempts, r.successorAttemptId).value].itemId == r.successorItemId
            && NextItem(s.items,
                        s.attempts[AttemptAt(s.attempts, r.predecessorAttemptId).value].itemId,
                        r.successorItemId)
            && EnqueueAt(s.operations, r.reservationId).Some?
            && Sent(s.operations[EnqueueAt(s.operations, r.reservationId).value].state)
  {
    hide NextItem, OperationsOk, OutstandingOk, EnqueueOk, ItemAt, AttemptAt, EnqueueAt, TextOk,
         Provenance, AttemptOk, StartsOk, CommandKeys, CommandsOk, PositionOk, AttemptsOk;
    assert ReservationOk(s.items, s.attempts, s.operations, s.currentItemId, s.generation,
                         s.reservations[n]);
  }

  /** The reservation an observed attempt names authorized that attempt. */
  lemma {:induction false} OnlySuccessor(s: QueueSnapshot, k: nat, n: nat)
    requires ReservationKeys(s.reservations) && AttemptIds(s.attempts)
    requires 0 < k < |s.attempts| && s.attempts[k].origin.NativeObserved? && n < |s.reservations|
    requires Provenance(s.reservations, s.attempts[k])
    requires s.reservations[n].reservationId == s.attempts[k].origin.reservationId
    requires s.reservations[n].predecessorAttemptId == s.attempts[k - 1].attemptId
    ensures s.reservations[n].successorAttemptId == s.attempts[k].attemptId
    ensures AttemptAt(s.attempts, s.reservations[n].predecessorAttemptId) == Some(k - 1)
    ensures AttemptAt(s.attempts, s.reservations[n].successorAttemptId) == Some(k)
  {
  }

  /** Over every run of a native queue: at most one START was ever journaled; at most one
      reservation is outstanding; and the attempts are consecutive items, each after the first
      backed by an adopted reservation of its predecessor whose enqueue was sent. */
  lemma {:induction false} NativeQueueShape(id: Id, target: PlaybackTarget, items: seq<QueueEntry>,
                                            calls: seq<Call>)
    requires WellFormedQueue(target, items) && WellFormedCalls(calls)
    requires Create(id, target, items, Native).Ok?
    ensures var s := Run(Create(id, target, items, Native).value, calls);
            && (forall i, j :: 0 <= i < j < |s.commands| ==>
                  !(s.commands[i].action.Start? && s.commands[j].action.Start?))
            && (forall i, j :: 0 <= i < j < |s.reservations| ==>
                  !(s.reservations[i].state.Reserved? && s.reservations[j].state.Reserved?))
            && (forall k :: 0 < k < |s.attempts| ==> Linked(s, k))
  {
    var start := Create(id, target, items, Native).value;
    var s := Run(start, calls);
    CreateIsLawful(id, target, items, Native);
    RunIsLawful(start, calls);
    RunContinues(start, calls);
    assert s.mode.Native?;
    assert forall i, j :: 0 <= i < j < |s.reservations| ==>
      !(s.reservations[i].state.Reserved? && s.reservations[j].state.Reserved?);
    hide Durable, Chained, ReleasedOnce, Run, Linked, Create, Continues;
    forall i, j | 0 <= i < j < |s.commands|
      ensures !(s.commands[i].action.Start? && s.commands[j].action.Start?)
    {
      AtMostOneStart(s, i, j);
    }
    forall k | 0 < k < |s.attempts| ensures Linked(s, k) {
      LinkIsBacked(s, k);
    }
  }
}
