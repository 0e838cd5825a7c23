/** When the queue policy proposes what: each proposal is equivalent to conditions on the rows, the
    session and the receiver, stated without the guards that the policy evaluates one by one. */
module DecisionTable {
  import opened Values
  import opened QueueRecords
  import opened QueueDriving
  import P = QueuePolicy

  // ---------------------------------------------------------------- consistent rows

  predicate StartOf(q: QueueSnapshot, attemptId: Id, k: nat)
    requires k < |q.commands|
  {
    q.commands[k].attemptId == attemptId && q.commands[k].action.Start?
  }

  predicate StartedOnce(q: QueueSnapshot, attemptId: Id) {
    exists k: nat :: k < |q.commands| && StartOf(q, attemptId, k)
      && forall m: nat :: m < |q.commands| && StartOf(q, attemptId, m) ==> m == k
  }

  predicate NeverStarted(q: QueueSnapshot, attemptId: Id) {
    forall k: nat :: k < |q.commands| ==> !StartOf(q, attemptId, k)
  }

  /** The reservation that the attempt was adopted from. */
  predicate AdoptedFrom(q: QueueSnapshot, a: QueueAttempt, k: nat)
    requires k < |q.reservations| && a.origin.NativeObserved?
  {
    var r := q.reservations[k];
    && r.reservationId == a.origin.reservationId
    && r.successorAttemptId == a.attemptId && r.successorItemId == a.itemId
    && (r.state.Adopted? || r.state.SessionExitObserved?) && r.adoptionDecisionId.Some?
  }

  predicate Originates(q: QueueSnapshot, a: QueueAttempt) {
    if a.origin.LocalStart? then StartedOnce(q, a.attemptId)
    else
      && q.mode.Native? && NeverStarted(q, a.attemptId)
      && exists k: nat :: k < |q.reservations| && AdoptedFrom(q, a, k)
  }

  /** The attempt and its item tell the same story. */
  predicate OnItem(q: QueueSnapshot, a: QueueAttempt, i: nat)
    requires i < |q.items|
  {
    q.items[i].itemId == a.itemId && q.items[i].intent == a.intent
  }

  predicate Coherent(q: QueueSnapshot, a: QueueAttempt) {
    && (exists i: nat :: i < |q.items| && OnItem(q, a, i))
    && !a.intent.Pending?
    && (a.intent.Current? ==> a.decisionId.None?)
    && (a.intent.Finished? || a.intent.Skipped? ==> a.decisionId.Some? && a.decisionId.value != "")
    && Originates(q, a)
  }

  predicate Distinct(q: QueueSnapshot) {
    && (forall i, j :: 0 <= i < j < |q.items| ==> q.items[i].itemId != q.items[j].itemId)
    && (forall i, j :: 0 <= i < j < |q.attempts| ==>
          q.attempts[i].attemptId != q.attempts[j].attemptId)
    && (forall i, j :: 0 <= i < j < |q.attempts| ==> q.attempts[i].itemId != q.attempts[j].itemId)
    && (forall i, j :: 0 <= i < j < |q.commands| ==>
          q.commands[i].commandId != q.commands[j].commandId)
  }

  predicate OfAttempt(q: QueueSnapshot, k: nat, n: nat)
    requires k < |q.commands| && n < |q.attempts|
  {
    q.attempts[n].attemptId == q.commands[k].attemptId
  }

  predicate CommandsBelong(q: QueueSnapshot) {
    forall k: nat :: k < |q.commands| ==>
      && 0 <= q.commands[k].generation <= q.generation
      && exists n: nat :: n < |q.attempts| && OfAttempt(q, k, n)
  }

  /** The selected item is that of the last attempt, and only it can be current. */
  predicate Selected(q: QueueSnapshot) {
    && q.currentItemId
       == (if q.attempts == [] then None else Some(q.attempts[|q.attempts| - 1].itemId))
    && forall i :: 0 <= i < |q.items| && q.items[i].intent.Current? ==>
         q.currentItemId == Some(q.items[i].itemId)
  }

  /** The items from position `n` on are the pending ones. */
  predicate PendingFrom(q: QueueSnapshot, n: nat) {
    n <= |q.items| && forall k :: 0 <= k < |q.items| ==> (q.items[k].intent.Pending? <==> n <= k)
  }

  predicate Consistent(q: QueueSnapshot) {
    && q.queueId != "" && q.items != [] && q.revision >= 0 && q.generation >= 0
    && Distinct(q) && CommandsBelong(q) && Selected(q)
    && (exists n: nat :: n <= |q.items| && PendingFrom(q, n))
    && forall k :: 0 <= k < |q.attempts| ==> Coherent(q, q.attempts[k])
  }

  predicate NoStart(q: QueueSnapshot, attemptId: Id, n: nat)
    requires n <= |q.commands|
  {
    forall k: nat :: k < n ==> !StartOf(q, attemptId, k)
  }

  /** Among the first `n` commands, command `k` is the only START of the attempt. */
  predicate OnlyStart(q: QueueSnapshot, attemptId: Id, n: nat, k: nat)
    requires n <= |q.commands|
  {
    k < n && StartOf(q, attemptId, k)
    && forall m: nat :: m < n && StartOf(q, attemptId, m) ==> m == k
  }

  lemma {:induction false} StartsStep(q: QueueSnapshot, attemptId: Id, n: nat)
    requires 0 < n <= |q.commands|
    ensures Starts(q.commands[..n], attemptId)
         == Starts(q.commands[..n - 1], attemptId)
            + (if StartOf(q, attemptId, n - 1) then 1 else 0)
  {
    assert q.commands[..n][..n - 1] == q.commands[..n - 1];
  }

  lemma {:induction false} StartsNone(q: QueueSnapshot, attemptId: Id, n: nat)
    requires n <= |q.commands|
    ensures Starts(q.commands[..n], attemptId) == 0 <==> NoStart(q, attemptId, n)
  {
    hide StartOf;
    if n > 0 {
      StartsStep(q, attemptId, n);
      StartsNone(q, attemptId, n - 1);
    }
  }

  lemma {:induction false} OnlyLater(q: QueueSnapshot, attemptId: Id, n: nat)
    requires 0 < n <= |q.commands|
    ensures !StartOf(q, attemptId, n - 1) ==>
      forall k: nat :: OnlyStart(q, attemptId, n, k) <==> OnlyStart(q, attemptId, n - 1, k)
    ensures StartOf(q, attemptId, n - 1) ==>
      (NoStart(q, attemptId, n - 1) <==> OnlyStart(q, attemptId, n, n - 1))
    ensures StartOf(q, attemptId, n - 1) ==>
      forall k: nat :: OnlyStart(q, attemptId, n, k) ==> k == n - 1
  {
    hide StartOf;
  }

  lemma {:induction false} StartsOne(q: QueueSnapshot, attemptId: Id, n: nat)
    requires n <= |q.commands|
    ensures Starts(q.commands[..n], attemptId) == 1
        <==> exists k: nat :: k < n && OnlyStart(q, attemptId, n, k)
  {
    hide StartOf, OnlyStart, NoStart;
    if n > 0 {
      StartsStep(q, attemptId, n);
      OnlyLater(q, attemptId, n);
      if StartOf(q, attemptId, n - 1) {
        StartsNone(q, attemptId, n - 1);
        if NoStart(q, attemptId, n - 1) {
          assert OnlyStart(q, attemptId, n, n - 1);
        }
      } else {
        var before := n - 1;
        StartsOne(q, attemptId, before);
        OnlyInRange(q, attemptId, before);
        if exists k: nat :: k < n && OnlyStart(q, attemptId, n, k) {
          var k: nat :| k < n && OnlyStart(q, attemptId, n, k);
          assert OnlyStart(q, attemptId, before, k);
        }
        if exists k: nat :: k < before && OnlyStart(q, attemptId, before, k) {
          var k: nat :| k < before && OnlyStart(q, attemptId, before, k);
          assert OnlyStart(q, attemptId, n, k);
        }
      }
    }
  }

  lemma {:induction false} OnlyInRange(q: QueueSnapshot, attemptId: Id, n: nat)
    requires n <= |q.commands|
    ensures forall k: nat :: OnlyStart(q, attemptId, n, k) ==> k < n
  {
    hide StartOf;
  }

  lemma {:induction false} StartsCount(q: QueueSnapshot, attemptId: Id)
    ensures Starts(q.commands, attemptId) == 0 <==> NeverStarted(q, attemptId)
    ensures Starts(q.commands, attemptId) == 1 <==> StartedOnce(q, attemptId)
  {
    hide StartOf;
    assert q.commands[..|q.commands|] == q.commands;
    StartsNone(q, attemptId, |q.commands|);
    StartsOne(q, attemptId, |q.commands|);
    if StartedOnce(q, attemptId) {
      var k: nat :| k < |q.commands| && StartOf(q, attemptId, k)
        && forall m: nat :: m < |q.commands| && StartOf(q, attemptId, m) ==> m == k;
      assert OnlyStart(q, attemptId, |q.commands|, k);
    }
  }

  lemma {:induction false} OriginIsValid(q: QueueSnapshot, a: QueueAttempt)
    ensures P.ValidOrigin(q, a) <==> Originates(q, a)
  {
    hide Starts, StartOf, StartedOnce, NeverStarted;
    StartsCount(q, a.attemptId);
    if a.origin.NativeObserved? && P.ValidOrigin(q, a) {
      var k :| 0 <= k < |q.reservations| && q.reservations[k].reservationId == a.origin.reservationId
        && q.reservations[k].successorAttemptId == a.attemptId
        && q.reservations[k].successorItemId == a.itemId
        && !q.reservations[k].state.Reserved? && q.reservations[k].adoptionDecisionId.Some?;
      assert AdoptedFrom(q, a, k);
    }
  }

  lemma {:induction false} ItemIsFound(q: QueueSnapshot, id: Id, i: nat)
    requires forall i, j :: 0 <= i < j < |q.items| ==> q.items[i].itemId != q.items[j].itemId
    requires i < |q.items| && q.items[i].itemId == id
    ensures ItemAt(q.items, id) == Some(i)
  {
  }

  lemma {:induction false} CoherentIsValid(q: QueueSnapshot, a: QueueAttempt)
    requires forall i, j :: 0 <= i < j < |q.items| ==> q.items[i].itemId != q.items[j].itemId
    ensures P.ValidAttempt(q, a) <==> Coherent(q, a)
  {
    hide P.ValidOrigin, Originates, ItemAt;
    OriginIsValid(q, a);
    if Coherent(q, a) {
      var i: nat :| i < |q.items| && OnItem(q, a, i);
      ItemIsFound(q, a.itemId, i);
    }
    if P.ValidAttempt(q, a) {
      assert OnItem(q, a, ItemAt(q.items, a.itemId).value);
    }
  }

  lemma {:induction false} PendingAreLast(q: QueueSnapshot)
    ensures P.PendingLast(q.items) <==> exists n: nat :: n <= |q.items| && PendingFrom(q, n)
  {
    if P.PendingLast(q.items) {
      var found := P.FirstPending(q.items);
      assert PendingFrom(q, if found.Some? then found.value else |q.items|);
    }
  }

  predicate Owned(q: QueueSnapshot, k: nat)
    requires k < |q.commands|
  {
    && AttemptAt(q.attempts, q.commands[k].attemptId).Some?
    && 0 <= q.commands[k].generation <= q.generation
  }

  lemma {:induction false} CommandIsOwned(q: QueueSnapshot, k: nat)
    requires k < |q.commands|
    ensures Owned(q, k)
        <==> && 0 <= q.commands[k].generation <= q.generation
             && exists n: nat :: n < |q.attempts| && OfAttempt(q, k, n)
  {
    hide AttemptAt;
    if Owned(q, k) {
      assert OfAttempt(q, k, AttemptAt(q.attempts, q.commands[k].attemptId).value);
    }
  }

  lemma {:induction false} CommandsAreOwned(q: QueueSnapshot)
    ensures CommandsBelong(q)
        <==> forall k :: 0 <= k < |q.commands| ==>
               && AttemptAt(q.attempts, q.commands[k].attemptId).Some?
               && 0 <= q.commands[k].generation <= q.generation
  {
    hide AttemptAt, OfAttempt;
    forall k: nat | k < |q.commands|
      ensures Owned(q, k)
          <==> && 0 <= q.commands[k].generation <= q.generation
               && exists n: nat :: n < |q.attempts| && OfAttempt(q, k, n)
    {
      CommandIsOwned(q, k);
    }
  }

  lemma {:induction false} SelectionIsValid(q: QueueSnapshot)
    requires Distinct(q)
    ensures Selected(q)
        <==> && P.OneCurrent(q.items, q.currentItemId)
             && (if q.attempts != []
                 then q.currentItemId == Some(q.attempts[|q.attempts| - 1].itemId)
                 else q.currentItemId.None?
                      && forall k :: 0 <= k < |q.items| ==> !q.items[k].intent.Current?)
  {
  }

  /** The policy rejects exactly the inconsistent rows. */
  lemma {:induction false} ConsistentIsValid(q: QueueSnapshot)
    ensures P.ValidQueue(q) <==> Consistent(q)
  {
    hide P.ValidAttempt, Coherent, P.PendingLast, PendingFrom, CommandsBelong, P.OneCurrent,
         Selected, AttemptAt;
    PendingAreLast(q);
    CommandsAreOwned(q);
    if Distinct(q) {
      SelectionIsValid(q);
      forall k | 0 <= k < |q.attempts|
        ensures P.ValidAttempt(q, q.attempts[k]) <==> Coherent(q, q.attempts[k])
      {
        CoherentIsValid(q, q.attempts[k]);
      }
    }
  }

  // ---------------------------------------------------------------- what precludes a proposal

  predicate Stopping(q: QueueSnapshot, v: View) {
    || q.cancellationRequested
    || (v.session.Some? && v.session.value.stopRequested)
    || exists k :: 0 <= k < |q.commands| && q.commands[k].action.Stop?
  }

  /** The caller owns this queue in this generation. */
  predicate Authorized(q: QueueSnapshot, v: View) {
    && v.authority.Some?
    && v.authority.value.queueId == q.queueId && v.authority.value.generation == q.generation
    && v.authority.value.startedMonotonic <= v.now
  }

  predicate Attended(q: QueueSnapshot) {
    !q.mode.Native? &&
    exists k :: 0 <= k < |q.items|
      && (q.items[k].intent.NeedsAttention? || q.items[k].intent.Stopped?)
  }

  predicate Outstanding(q: QueueSnapshot) {
    exists k :: 0 <= k < |q.commands|
      && (q.commands[k].state.Pending? || q.commands[k].state.Dispatched?
          || q.commands[k].state.Uncertain?)
  }

  /** The item of this attempt holds this content. */
  predicate HoldsContent(q: QueueSnapshot, itemId: Id, content: ContentRef) {
    exists i :: 0 <= i < |q.items| && q.items[i].itemId == itemId && q.items[i].content == content
  }

  /** The session plays the last attempt, under the caller's connection. */
  predicate PlaysLast(q: QueueSnapshot, scope: PlaybackScope, authority: P.QueueAuthority,
                      now: Monotonic)
    requires q.attempts != []
  {
    var a := q.attempts[|q.attempts| - 1];
    && scope.request.target == q.target
    && scope.request.attemptId == a.attemptId && scope.request.queueItemId == a.itemId
    && HoldsContent(q, a.itemId, scope.request.content)
    && scope.connectionGeneration == authority.connectionGeneration
    && authority.startedMonotonic <= scope.startedMonotonic <= now
    && (!q.mode.Native? ==>
          forall k :: 0 <= k < |q.commands| && q.commands[k].attemptId == a.attemptId ==>
            q.commands[k].generation == q.generation)
  }

  /** Before the first attempt there is no session and everything is pending; later the session of
      the last attempt is there. */
  predicate SessionFits(q: QueueSnapshot, v: View)
    requires v.authority.Some?
  {
    if q.attempts == [] then
      v.session.None? && forall k :: 0 <= k < |q.items| ==> q.items[k].intent.Pending?
    else
      v.session.Some? && PlaysLast(q, v.session.value.scope, v.authority.value, v.now)
  }

  predicate SkipFits(q: QueueSnapshot, v: View) {
    v.skip.Some? ==>
      && q.attempts != []
      && v.skip.value.attemptId == q.attempts[|q.attempts| - 1].attemptId
      && v.skip.value.itemId == q.attempts[|q.attempts| - 1].itemId
  }

  predicate Unprecluded(q: QueueSnapshot, v: View) {
    && !Stopping(q, v) && Consistent(q) && Authorized(q, v) && !Attended(q) && !Outstanding(q)
    && SessionFits(q, v) && SkipFits(q, v)
  }

  lemma {:induction false} ContentIsHeld(q: QueueSnapshot, itemId: Id, content: ContentRef)
    requires Distinct(q)
    ensures HoldsContent(q, itemId, content)
        <==> && ItemAt(q.items, itemId).Some?
             && q.items[ItemAt(q.items, itemId).value].content == content
  {
    hide ItemAt;
    if HoldsContent(q, itemId, content) {
      var i :| 0 <= i < |q.items| && q.items[i].itemId == itemId && q.items[i].content == content;
      ItemIsFound(q, itemId, i);
    }
  }

  lemma {:induction false} PlayingMatches(q: QueueSnapshot, session: SessionSnapshot,
                                          authority: P.QueueAuthority, now: Monotonic)
    requires Distinct(q)
    ensures P.SessionMatches(q, session, authority, now)
        <==> q.attempts != [] && PlaysLast(q, session.scope, authority, now)
  {
    hide ItemAt, HoldsContent;
    if q.attempts != [] {
      ContentIsHeld(q, q.attempts[|q.attempts| - 1].itemId, session.scope.request.content);
    }
  }

  lemma {:induction false} ConsistentIsDistinct(q: QueueSnapshot)
    ensures Consistent(q) ==> Distinct(q)
  {
  }

  /** Nothing precludes a proposal exactly when all of this holds. */
  lemma {:induction false} PrecludedExactly(q: QueueSnapshot, v: View)
    ensures P.Precluded(q, v.session, v.now, v.authority, v.skip).None? <==> Unprecluded(q, v)
  {
    hide Consistent, P.ValidQueue, PlaysLast, P.SessionMatches, Distinct;
    ConsistentIsValid(q);
    ConsistentIsDistinct(q);
    if Consistent(q) && v.session.Some? && v.authority.Some? {
      PlayingMatches(q, v.session.value, v.authority.value, v.now);
    }
  }

  // ---------------------------------------------------------------- the end of an attempt

  predicate LastIs(q: QueueSnapshot, intent: QueueIntent) {
    q.attempts != [] && q.attempts[|q.attempts| - 1].intent == intent
  }

  /** Every START of the attempt is acknowledged. */
  predicate StartAcknowledged(q: QueueSnapshot, attemptId: Id) {
    forall k: nat :: k < |q.commands| && StartOf(q, attemptId, k) ==>
      q.commands[k].state.Acknowledged?
  }

  /** The session records and still claims a natural end within what it has accepted. */
  predicate Completed(s: SessionSnapshot, now: Monotonic) {
    && s.completion.Some? && s.evidence.naturalCompletionConfirmed
    && s.lastMonotonic.Some? && s.lastMonotonic.value <= now
    && var c := s.completion.value;
    && c.source != ""
    && 0 <= c.identitySequence && c.sequence <= s.lastSequence
    && s.scope.startedMonotonic < c.monotonic && c.monotonic <= s.lastMonotonic.value
    && match c.attribution
       case Explicit => c.identitySequence == c.sequence
       case OrderedHistory => c.identitySequence < c.sequence
  }

  /** A current attempt is over: it was skipped, or its session completed. */
  predicate Over(q: QueueSnapshot, v: View) {
    && Unprecluded(q, v) && LastIs(q, Current)
    && StartAcknowledged(q, q.attempts[|q.attempts| - 1].attemptId)
    && (v.skip.Some? || (v.session.Some? && Completed(v.session.value, v.now)))
  }

  /** What is recorded of it. */
  function Outcome(render: P.Rendering, q: QueueSnapshot, v: View): P.AttemptSettlement
    requires q.attempts != [] && v.session.Some?
    requires v.skip.None? ==> v.session.value.completion.Some?
  {
    var a := q.attempts[|q.attempts| - 1];
    P.AttemptSettlement(
      a.attemptId, a.itemId, if v.skip.None? then QueueIntent.Finished else Skipped,
      P.DecisionId(render, q.queueId, v.session.value, v.skip))
  }

  lemma {:induction false} CompletedIsValid(s: SessionSnapshot, now: Monotonic)
    ensures P.ValidCompletion(s, now) <==> Completed(s, now)
  {
  }

  lemma {:induction false} AcknowledgedStart(q: QueueSnapshot, attemptId: Id)
    ensures P.Unacknowledged(q, attemptId) <==> !StartAcknowledged(q, attemptId)
  {
    if P.Unacknowledged(q, attemptId) {
      var k :| 0 <= k < |q.commands| && q.commands[k].attemptId == attemptId
        && q.commands[k].action.Start? && !q.commands[k].state.Acknowledged?;
      assert StartOf(q, attemptId, k);
    }
  }

  lemma {:induction false} UnprecludedSession(q: QueueSnapshot, v: View)
    requires Unprecluded(q, v)
    ensures q.attempts != [] <==> v.session.Some?
    ensures v.authority.Some?
  {
    hide Consistent, PlaysLast, Stopping, Attended, Outstanding, SkipFits;
  }

  /** A settlement is proposed exactly when the current attempt is over; it is SKIPPED exactly when
      a skip was asked for and FINISHED otherwise, and nothing else is proposed with it. */
  lemma {:induction false} SettlesExactly(render: P.Rendering, q: QueueSnapshot, v: View)
    ensures var d := DecideOn(render, q, v);
            && (d.settlement.Some? <==> Over(q, v))
            && (Over(q, v) ==>
                  && d.settlement == Some(Outcome(render, q, v))
                  && d.disposition.Hold? && d.nextItemId.None?
                  && d.reason == (if v.session.value.ownershipLost then P.ReceiverReplaced
                                  else if v.skip.Some? then P.SkipRequested
                                  else P.CompletionObserved))
  {
    hide P.Precluded, P.ValidCompletion, P.Unacknowledged, P.DecisionId, P.ReceiverReady,
         P.AnyUnsettled, P.FirstPending, Unprecluded, Completed, StartAcknowledged;
    PrecludedExactly(q, v);
    if Unprecluded(q, v) {
      UnprecludedSession(q, v);
      if q.attempts != [] {
        CompletedIsValid(v.session.value, v.now);
        AcknowledgedStart(q, q.attempts[|q.attempts| - 1].attemptId);
      }
    }
  }

  // ---------------------------------------------------------------- the next item

  /** The sample is not older than anything the session has accepted; a sample that is not the
      session's own is newer. */
  predicate NotOlder(o: PlaybackObservation, s: SessionSnapshot) {
    if s.latest == Some(o) then
      s.lastSequence <= o.sequence
      && (s.lastMonotonic.Some? ==> s.lastMonotonic.value <= o.monotonic)
    else
      s.lastSequence < o.sequence
      && (s.lastMonotonic.Some? ==> s.lastMonotonic.value < o.monotonic)
  }

  /** The sample is the very one at which the session completed. */
  predicate OfTheEnd(s: SessionSnapshot, o: PlaybackObservation, now: Monotonic) {
    && Completed(s, now) && s.latest == Some(o)
    && o.sequence == s.lastSequence && s.completion.value.sequence == s.lastSequence
    && s.lastMonotonic == Some(o.monotonic) && s.completion.value.monotonic == o.monotonic
    && o.sessionId == Some(s.scope.sessionId) && o.applicationId == s.scope.applicationId
    && o.content in {None, Some(s.scope.request.content)}
    && o.state.Idle? && o.idleReason == Some(IdleReason.Finished) && o.adActive == Some(false)
    && o.providerEvidence == Some(ProviderEvidence(s.completion.value.source,
                                                   ContentPhase.Finished))
  }

  /** This sample shows that the receiver is free. */
  predicate ShowsFree(q: QueueSnapshot, v: View, o: PlaybackObservation)
    requires v.authority.Some?
  {
    && o.target == q.target && o.connectionGeneration == v.authority.value.connectionGeneration
    && v.authority.value.startedMonotonic < o.monotonic
    && o.monotonic <= v.now <= o.monotonic + v.policy.maxAge
    && !o.connectionReset
    && (o.sessionActive == Some(false)
        || (v.session.Some? && OfTheEnd(v.session.value, o, v.now)))
  }

  /** The receiver is free, by a newer sample of its own or by the session's last one. */
  predicate ReceiverFree(q: QueueSnapshot, v: View)
    requires v.authority.Some?
  {
    match v.receiver
    case Some(o) => ShowsFree(q, v, o) && (v.session.Some? ==> NotOlder(o, v.session.value))
    case None =>
      && v.session.Some? && v.session.value.latest.Some?
      && ShowsFree(q, v, v.session.value.latest.value)
      && NotOlder(v.session.value.latest.value, v.session.value)
  }

  lemma {:induction false} EndIsOfTheEnd(s: SessionSnapshot, o: PlaybackObservation,
                                         now: Monotonic)
    ensures P.EndsSession(s, o, now) <==> OfTheEnd(s, o, now)
  {
    hide P.ValidCompletion, Completed;
    CompletedIsValid(s, now);
    CompletedHasEnd(s, now);
  }

  lemma {:induction false} CompletedHasEnd(s: SessionSnapshot, now: Monotonic)
    ensures Completed(s, now) ==> s.completion.Some?
  {
  }

  lemma {:induction false} FreeIsReady(q: QueueSnapshot, v: View)
    requires v.authority.Some?
    ensures P.ReceiverReady(q, v.session, v.authority.value, v.receiver, v.now, v.policy)
        <==> ReceiverFree(q, v)
  {
    hide P.EndsSession, OfTheEnd;
    if v.session.Some? {
      if v.receiver.Some? {
        EndIsOfTheEnd(v.session.value, v.receiver.value, v.now);
      }
      if v.session.value.latest.Some? {
        EndIsOfTheEnd(v.session.value, v.session.value.latest.value, v.now);
      }
    }
  }

  /** A finished last attempt is still justified by the completion of its session. */
  predicate StillJustified(render: P.Rendering, q: QueueSnapshot, v: View) {
    LastIs(q, QueueIntent.Finished) ==>
      && v.session.Some? && Completed(v.session.value, v.now)
      && q.attempts[|q.attempts| - 1].decisionId
         == Some(P.DecisionId(render, q.queueId, v.session.value, None))
  }

  /** The queue may move on: its last attempt is over and recorded, nothing awaits reconciliation,
      no native successor is due, and the session was not lost. */
  predicate MayAdvance(render: P.Rendering, q: QueueSnapshot, v: View) {
    && Unprecluded(q, v) && !LastIs(q, Current)
    && !q.reconciliationRequired
    && (q.mode.Native? ==> q.attempts == [])
    && (v.session.Some? ==> !v.session.value.ownershipLost)
    && StillJustified(render, q, v)
    && forall k :: 0 <= k < |q.items| ==>
         q.items[k].intent.Pending? || q.items[k].intent.Finished? || q.items[k].intent.Skipped?
  }

  /** Item `n` is the first pending one. */
  predicate FirstOpen(q: QueueSnapshot, n: nat) {
    && n < |q.items| && q.items[n].intent.Pending?
    && forall k :: 0 <= k < n ==> !q.items[k].intent.Pending?
  }

  predicate AllSettled(q: QueueSnapshot) {
    forall k :: 0 <= k < |q.items| ==> q.items[k].intent.Finished? || q.items[k].intent.Skipped?
  }

  lemma {:induction false} CompletedForDecision(render: P.Rendering, q: QueueSnapshot, v: View)
    requires q.attempts != [] ==> v.session.Some?
    ensures StillJustified(render, q, v)
        <==> !(LastIs(q, QueueIntent.Finished)
               && (!P.ValidCompletion(v.session.value, v.now)
                   || q.attempts[|q.attempts| - 1].decisionId
                      != Some(P.DecisionId(render, q.queueId, v.session.value, None))))
  {
    hide P.ValidCompletion, Completed, P.DecisionId;
    if LastIs(q, QueueIntent.Finished) {
      CompletedIsValid(v.session.value, v.now);
      CompletedHasEnd(v.session.value, v.now);
    }
  }

  lemma {:induction false} FirstOpenIsFound(q: QueueSnapshot)
    ensures P.FirstPending(q.items).Some? ==> FirstOpen(q, P.FirstPending(q.items).value)
    ensures P.AnyUnsettled(q.items)
        <==> exists k :: 0 <= k < |q.items|
               && !(q.items[k].intent.Pending? || q.items[k].intent.Finished?
                    || q.items[k].intent.Skipped?)
    ensures P.FirstPending(q.items).None? && !P.AnyUnsettled(q.items) <==> AllSettled(q)
  {
  }

  /** The guards after that of the current attempt. */
  lemma {:induction false} AdvancesExactly(render: P.Rendering, q: QueueSnapshot, v: View)
    ensures var d := DecideOn(render, q, v);
            && (!MayAdvance(render, q, v) ==> d.disposition.Hold? && d.nextItemId.None?)
            && (MayAdvance(render, q, v) ==>
                  && d.settlement.None? && v.authority.Some?
                  && d == match P.FirstPending(q.items)
                          case None =>
                            P.Holding(q, P.Exhausted).(disposition := P.Complete)
                          case Some(k) =>
                            if !P.ReceiverReady(q, v.session, v.authority.value, v.receiver,
                                                v.now, v.policy)
                            then P.Holding(q, P.ReceiverUnconfirmed)
                            else P.Holding(q, P.NextItem).(
                              disposition := P.Ready, nextItemId := Some(q.items[k].itemId)))
  {
    hide P.Precluded, P.ValidCompletion, P.Unacknowledged, P.DecisionId, P.ReceiverReady,
         P.AnyUnsettled, P.FirstPending, Unprecluded, Completed, StillJustified;
    PrecludedExactly(q, v);
    FirstOpenIsFound(q);
    if Unprecluded(q, v) {
      UnprecludedSession(q, v);
      CompletedForDecision(render, q, v);
    }
  }

  /** An item is proposed exactly when the queue may move on, an item is pending and the receiver is
      free; it is the first pending item. */
  lemma {:induction false} ReadyExactly(render: P.Rendering, q: QueueSnapshot, v: View)
    ensures var d := DecideOn(render, q, v);
            && (d.disposition.Ready?
                <==> MayAdvance(render, q, v) && !AllSettled(q) && ReceiverFree(q, v))
            && (d.disposition.Ready? <==> d.nextItemId.Some?)
            && (d.disposition.Ready? ==>
                  && d.reason.NextItem? && d.settlement.None?
                  && exists n: nat :: n < |q.items| && FirstOpen(q, n)
                       && d.nextItemId == Some(q.items[n].itemId))
  {
    hide P.Decide, P.FirstPending, P.AnyUnsettled, P.ReceiverReady, MayAdvance, ReceiverFree,
         AllSettled, FirstOpen;
    AdvancesExactly(render, q, v);
    FirstOpenIsFound(q);
    if MayAdvance(render, q, v) {
      MayAdvanceIsSettled(render, q, v);
      FreeIsReady(q, v);
      var found := P.FirstPending(q.items);
      if found.Some? {
        assert FirstOpen(q, found.value);
      }
    }
  }

  lemma {:induction false} MayAdvanceIsSettled(render: P.Rendering, q: QueueSnapshot, v: View)
    requires MayAdvance(render, q, v)
    ensures !P.AnyUnsettled(q.items) && v.authority.Some?
  {
    hide Unprecluded, StillJustified;
    UnprecludedSession(q, v);
  }

  /** A queue is complete exactly when it may move on and every item is finished or skipped. */
  lemma {:induction false} CompleteExactly(render: P.Rendering, q: QueueSnapshot, v: View)
    ensures var d := DecideOn(render, q, v);
            && (d.disposition.Complete? <==> MayAdvance(render, q, v) && AllSettled(q))
            && (d.disposition.Complete? ==>
                  d.reason.Exhausted? && d.settlement.None? && d.nextItemId.None?)
  {
    hide P.Decide, P.FirstPending, P.AnyUnsettled, P.ReceiverReady, MayAdvance, AllSettled,
         FirstOpen;
    AdvancesExactly(render, q, v);
    FirstOpenIsFound(q);
    if MayAdvance(render, q, v) {
      MayAdvanceIsSettled(render, q, v);
    }
  }

  // ---------------------------------------------------------------- why a proposal is held

  /** The first of these that applies: what precludes every proposal. */
  function Preclusion(q: QueueSnapshot, v: View): Option<P.Reason> {
    if q.cancellationRequested || (v.session.Some? && v.session.value.stopRequested)
    then Some(P.Canceled)
    else if !Consistent(q) then Some(P.InvalidQueue)
    else if Stopping(q, v) then Some(P.Canceled)
    else if v.authority.None? then Some(P.AuthorityRequired)
    else if !Authorized(q, v) then Some(P.ScopeMismatch)
    else if Attended(q) then Some(P.NeedsAttention)
    else if Outstanding(q) then Some(P.CommandUnresolved)
    else if q.attempts != [] && v.session.None? then Some(P.SessionRequired)
    else if q.attempts == [] && v.session.Some? then Some(P.ScopeMismatch)
    else if !SessionFits(q, v) then
      Some(if q.attempts == [] then P.NeedsAttention else P.ScopeMismatch)
    else if !SkipFits(q, v) then Some(P.ScopeMismatch)
    else None
  }

  lemma {:induction false} PrecludedFor(q: QueueSnapshot, v: View)
    ensures P.Precluded(q, v.session, v.now, v.authority, v.skip) == Preclusion(q, v)
  {
    hide Consistent, P.ValidQueue, PlaysLast, P.SessionMatches, Distinct;
    ConsistentIsValid(q);
    ConsistentIsDistinct(q);
    if Consistent(q) && v.session.Some? && v.authority.Some? {
      PlayingMatches(q, v.session.value, v.authority.value, v.now);
    }
  }

  /** Why nothing is proposed: what precludes it; for a current attempt that is not over, the
      missing end or the unacknowledged start; otherwise what keeps the queue from moving on. */
  predicate HeldFor(render: P.Rendering, q: QueueSnapshot, v: View, reason: P.Reason) {
    if !Unprecluded(q, v) then Preclusion(q, v) == Some(reason)
    else if LastIs(q, Current) then
      if v.skip.None? && !(v.session.Some? && Completed(v.session.value, v.now)) then
        reason == (if v.session.Some? && v.session.value.completion.Some? then P.InvalidCompletion
                   else P.AwaitingCompletion)
      else reason == P.CommandUnresolved
    else if MayAdvance(render, q, v) then reason == P.ReceiverUnconfirmed
    else
      reason == (
        if q.reconciliationRequired then P.ReconciliationRequired
        else if q.mode.Native? && q.attempts != [] then P.NativeSuccessorRequired
        else if v.session.Some? && v.session.value.ownershipLost then P.ReceiverReplaced
        else if !StillJustified(render, q, v) then P.InvalidCompletion
        else P.NeedsAttention)
  }

  /** A decision that proposes nothing holds the queue, for this reason. */
  lemma {:induction false} HoldsExactly(render: P.Rendering, q: QueueSnapshot, v: View)
    requires !Over(q, v)
    requires !(MayAdvance(render, q, v) && (AllSettled(q) || ReceiverFree(q, v)))
    ensures var d := DecideOn(render, q, v);
            && d.disposition.Hold? && d.settlement.None? && d.nextItemId.None?
            && d.queueId == q.queueId && d.expectedRevision == q.revision
            && d.generation == q.generation
            && HeldFor(render, q, v, d.reason)
  {
    hide P.Decide, MayAdvance, AllSettled, ReceiverFree, Over, HeldFor;
    SettlesExactly(render, q, v);
    ReadyExactly(render, q, v);
    CompleteExactly(render, q, v);
    HeldForReason(render, q, v);
    DecisionIsFor(render, q, v);
  }

  lemma {:induction false} DecisionIsFor(render: P.Rendering, q: QueueSnapshot, v: View)
    ensures var d := DecideOn(render, q, v);
            && d.queueId == q.queueId && d.expectedRevision == q.revision
            && d.generation == q.generation
  {
    hide P.Precluded, P.ValidCompletion, P.Unacknowledged, P.DecisionId, P.ReceiverReady,
         P.AnyUnsettled, P.FirstPending;
  }

  lemma {:induction false} HeldForReason(render: P.Rendering, q: QueueSnapshot, v: View)
    requires !Over(q, v)
    requires !(MayAdvance(render, q, v) && (AllSettled(q) || ReceiverFree(q, v)))
    ensures HeldFor(render, q, v, DecideOn(render, q, v).reason)
  {
    hide P.Precluded, P.ValidCompletion, P.Unacknowledged, P.DecisionId, P.ReceiverReady,
         P.AnyUnsettled, P.FirstPending, Unprecluded, Completed, StillJustified, ReceiverFree,
         StartAcknowledged, AllSettled;
    PrecludedExactly(q, v);
    PrecludedFor(q, v);
    FirstOpenIsFound(q);
    if Unprecluded(q, v) {
      UnprecludedSession(q, v);
      FreeIsReady(q, v);
      CompletedForDecision(render, q, v);
      if q.attempts != [] {
        CompletedIsValid(v.session.value, v.now);
        CompletedHasEnd(v.session.value, v.now);
        AcknowledgedStart(q, q.attempts[|q.attempts| - 1].attemptId);
      }
    }
  }
}
