/** What the owner of a native queue makes of a window of events before it trusts any of them: which
    of them count, when a connection is given up, and whom it watches from then on. */
module NativeAttention {
  import opened Values
  import opened QueueRecords
  import opened QueueJournal
  import opened JournalInvariant
  import opened NativeTask
  import E = QueueExecution
  import N = NativeTracking
  import S = NativeSends
  import T = TransactionEffects

  // ---------------------------------------------------------------- the events that count

  /** An event of the target, after the owner's boundary and at most five seconds old. */
  predicate Counts(t: Task, now: Monotonic, o: PlaybackObservation) {
    && o.target == t.rows.target && t.boundary < o.monotonic
    && o.monotonic <= now <= o.monotonic + 5.0
  }

  predicate AnyCounts(t: Task, now: Monotonic, events: seq<PlaybackObservation>) {
    exists k :: 0 <= k < |events| && Counts(t, now, events[k])
  }

  /** Event `k` is the newest one that counts. */
  predicate NewestThatCounts(t: Task, now: Monotonic, events: seq<PlaybackObservation>, k: nat) {
    && k < |events| && Counts(t, now, events[k])
    && forall n :: k < n < |events| ==> !Counts(t, now, events[n])
  }

  /** The connection was reset within the events that count. */
  predicate ResetSeen(t: Task, now: Monotonic, events: seq<PlaybackObservation>) {
    exists k :: 0 <= k < |events| && Counts(t, now, events[k]) && events[k].connectionReset
  }

  lemma {:induction false} FreshAreCounted(t: Task, now: Monotonic,
                                           events: seq<PlaybackObservation>)
    ensures var seen := FreshEvents(t.rows.target, t.boundary, now, events);
            && (seen == [] <==> !AnyCounts(t, now, events))
            && (AnyReset(seen) <==> ResetSeen(t, now, events))
            && (forall k: nat :: NewestThatCounts(t, now, events, k) ==>
                  k < |events| && seen != [] && seen[|seen| - 1] == events[k])
    decreases |events|
  {
    hide AnyCounts, AnyReset, ResetSeen, NewestThatCounts, Counts, Fresh;
    if events == [] {
      NothingCounts(t, now);
    } else {
      var front, last := events[..|events| - 1], events[|events| - 1];
      FreshAreCounted(t, now, front);
      var before := FreshEvents(t.rows.target, t.boundary, now, front);
      FreshExtends(t, now, front, last, before);
      assert front + [last] == events;
      CountsIsFresh(t, now, last);
    }
  }

  lemma {:induction false} NothingCounts(t: Task, now: Monotonic)
    ensures !AnyCounts(t, now, []) && !ResetSeen(t, now, []) && !AnyReset([])
    ensures forall k: nat :: !NewestThatCounts(t, now, [], k)
  {
  }

  lemma {:induction false} CountsIsFresh(t: Task, now: Monotonic, o: PlaybackObservation)
    ensures Counts(t, now, o)
        <==> o.target == t.rows.target && o.monotonic > t.boundary && Fresh(now, o.monotonic, 5.0)
  {
  }

  /** One more event at the end. */
  lemma {:induction false} CountExtends(t: Task, now: Monotonic, front: seq<PlaybackObservation>,
                                        last: PlaybackObservation)
    ensures AnyCounts(t, now, front + [last]) <==> AnyCounts(t, now, front) || Counts(t, now, last)
  {
    hide Counts;
    var events := front + [last];
    assert events[|front|] == last;
    assert forall k :: 0 <= k < |front| ==> events[k] == front[k];
  }

  lemma {:induction false} ResetExtends(t: Task, now: Monotonic, front: seq<PlaybackObservation>,
                                        last: PlaybackObservation)
    ensures ResetSeen(t, now, front + [last])
        <==> ResetSeen(t, now, front) || (Counts(t, now, last) && last.connectionReset)
  {
    hide Counts;
    var events := front + [last];
    assert events[|front|] == last;
    assert forall k :: 0 <= k < |front| ==> events[k] == front[k];
  }

  lemma {:induction false} NewestExtends(t: Task, now: Monotonic, front: seq<PlaybackObservation>,
                                         last: PlaybackObservation, k: nat)
    requires NewestThatCounts(t, now, front + [last], k)
    ensures if Counts(t, now, last) then k == |front| && (front + [last])[k] == last
            else k < |front| && NewestThatCounts(t, now, front, k)
                 && (front + [last])[k] == front[k]
  {
    hide Counts;
    var events := front + [last];
    assert events[|front|] == last;
    assert forall n :: 0 <= n < |front| ==> events[n] == front[n];
  }

  lemma {:induction false} AnyResetExtends(before: seq<PlaybackObservation>,
                                           last: PlaybackObservation)
    ensures AnyReset(before + [last]) <==> AnyReset(before) || last.connectionReset
  {
    assert (before + [last])[|before|] == last;
    assert forall n :: 0 <= n < |before| ==> (before + [last])[n] == before[n];
  }

  lemma {:induction false} FreshExtends(t: Task, now: Monotonic, front: seq<PlaybackObservation>,
                                        last: PlaybackObservation,
                                        before: seq<PlaybackObservation>)
    requires before == [] <==> !AnyCounts(t, now, front)
    requires AnyReset(before) <==> ResetSeen(t, now, front)
    requires forall k: nat :: NewestThatCounts(t, now, front, k) ==>
      k < |front| && before != [] && before[|before| - 1] == front[k]
    ensures var seen := if Counts(t, now, last) then before + [last] else before;
            var events := front + [last];
            && (seen == [] <==> !AnyCounts(t, now, events))
            && (AnyReset(seen) <==> ResetSeen(t, now, events))
            && (forall k: nat :: NewestThatCounts(t, now, events, k) ==>
                  k < |events| && seen != [] && seen[|seen| - 1] == events[k])
  {
    hide Counts, AnyCounts, ResetSeen, NewestThatCounts, AnyReset;
    CountExtends(t, now, front, last);
    ResetExtends(t, now, front, last);
    AnyResetExtends(before, last);
    forall k: nat | NewestThatCounts(t, now, front + [last], k)
      ensures var seen := if Counts(t, now, last) then before + [last] else before;
              && k < |front + [last]|
              && seen != [] && seen[|seen| - 1] == (front + [last])[k]
    {
      NewestExtends(t, now, front, last, k);
    }
  }

  // ---------------------------------------------------------------- the connection

  /** The queue is held for reconciliation, by this call if it was not before. */
  predicate HoldsQueue(rows: QueueSnapshot, taken: Taken, revision: int, t: QueueSnapshot) {
    t.reconciliationRequired
    && (if rows.reconciliationRequired then t == rows
        else rows.revision == revision
             && t == rows.(revision := rows.revision + 1, reconciliationRequired := true))
  }

  /** Nothing of the old connection is trusted any more. */
  predicate ForgetsConnection(t: Task, after: Monotonic, u: Task) {
    && u.recovering && u.boundary == after && u.observed.None? && u.playback.None?
    && u.current.None? && u.following.None? && u.pending.None?
    && u.owner == t.owner && u.canceled == t.canceled && u.stopping == t.stopping
    && u.step == t.step && u.sends == t.sends && u.stops == t.stops
  }

  lemma {:induction false} HeldExactly(rows: QueueSnapshot, taken: Taken, revision: int)
    requires Durable(rows) && rows.mode.Native?
    ensures Held(rows, taken, revision).Ok?
        <==> rows.reconciliationRequired || rows.revision == revision
    ensures Held(rows, taken, revision).Ok? ==>
      HoldsQueue(rows, taken, revision, Held(rows, taken, revision).value)
  {
    hide Durable, Write, RollsBack, Apply, T.Permits, T.Changes, T.Repeats;
    var op := OpHold(revision);
    T.TransactionDoes(rows, taken, op);
    ApplyKeeps(rows, taken, op);
    HoldIsKept(rows, op);
    if !rows.reconciliationRequired {
      HoldMeans(rows, taken, revision);
    }
  }

  lemma {:induction false} HoldIsKept(rows: QueueSnapshot, op: StoreOp)
    ensures op.OpHold? ==> !RollsBack(rows, op)
  {
  }

  lemma {:induction false} HoldMeans(rows: QueueSnapshot, taken: Taken, revision: int)
    requires rows.mode.Native? && !rows.reconciliationRequired
    ensures var op := OpHold(revision);
            && (T.Permits(rows, taken, op) <==> rows.revision == revision)
            && !T.Repeats(rows, op)
            && forall t :: T.Changes(rows, op, t) ==>
                 t == rows.(revision := rows.revision + 1, reconciliationRequired := true)
  {
  }

  /** The window shows another connection than the one that was observed, or its reset. */
  predicate ConnectionChanged(t: Task, now: Monotonic, events: seq<PlaybackObservation>, k: nat)
    requires k < |events|
  {
    t.observed.Some?
    && (events[k].connectionGeneration != t.observed.value || ResetSeen(t, now, events))
  }

  /** A window without an event that counts does nothing.  A changed connection holds the queue and
      forgets everything observed, unless the hold is refused; a reset of a connection that was not
      observed yet moves the boundary; and otherwise the connection is observed and the missing
      trackers join. */
  lemma {:induction false} AttendsExactly(t: Task, taken: Taken, events: seq<PlaybackObservation>,
                                          now: Monotonic, after: Monotonic,
                                          saved: Option<SessionSnapshot>, revision: int, k: nat)
    requires Durable(t.rows) && t.rows.mode.Native?
    requires AnyCounts(t, now, events) ==> NewestThatCounts(t, now, events, k)
    ensures var u := Attended(t, taken, events, now, after, saved, revision);
            if !AnyCounts(t, now, events) then u == t
            else
              && k < |events|
              && var generation := events[k].connectionGeneration;
              if ConnectionChanged(t, now, events, k) then
                if t.rows.reconciliationRequired || t.rows.revision == revision then
                  ForgetsConnection(t, after, u) && HoldsQueue(t.rows, taken, revision, u.rows)
                else u == t
              else if ResetSeen(t, now, events) then u == t.(boundary := after)
              else u == Joined(t.(observed := Some(generation)), generation, saved)
  {
    hide Durable, Held, Joined, FreshEvents, AnyReset, ResetSeen, AnyCounts, HoldsQueue, Counts;
    FreshAreCounted(t, now, events);
    HeldExactly(t.rows, taken, revision);
  }

  // ---------------------------------------------------------------- who is watched

  /** The session that an attempt is known to play in: that of the reservation it was adopted from,
      or the saved one. */
  predicate KnownAs(q: QueueSnapshot, attemptId: Id, saved: Option<SessionSnapshot>,
                    application: Option<Id>, session: Option<Id>) {
    if forall k :: 0 <= k < |q.reservations| ==> q.reservations[k].successorAttemptId != attemptId
    then
      match saved
      case Some(s) => application == s.scope.applicationId && session == Some(s.scope.sessionId)
      case None => application.None? && session.None?
    else
      exists k :: 0 <= k < |q.reservations| && q.reservations[k].successorAttemptId == attemptId
        && application == Some(q.reservations[k].applicationId)
        && session == Some(q.reservations[k].sessionId)
  }

  lemma {:induction false} FirstIsThere(rs: seq<NativeReservation>, attemptId: Id)
    requires exists k :: 0 <= k < |rs| && rs[k].successorAttemptId == attemptId
    ensures exists k :: 0 <= k < |rs| && rs[k].successorAttemptId == attemptId
              && FirstFor(rs, attemptId) == rs[k]
  {
    if rs[0].successorAttemptId != attemptId {
      var k :| 0 <= k < |rs| && rs[k].successorAttemptId == attemptId;
      assert rs[1..][k - 1].successorAttemptId == attemptId;
      FirstIsThere(rs[1..], attemptId);
      var n :| 0 <= n < |rs[1..]| && rs[1..][n].successorAttemptId == attemptId
        && FirstFor(rs[1..], attemptId) == rs[1..][n];
      assert rs[n + 1] == rs[1..][n];
    }
  }

  lemma {:induction false} SessionIsKnown(q: QueueSnapshot, attemptId: Id,
                                          saved: Option<SessionSnapshot>)
    ensures var (application, session) := KnownSession(q, attemptId, saved);
            KnownAs(q, attemptId, saved, application, session)
  {
    if exists k :: 0 <= k < |q.reservations| && q.reservations[k].successorAttemptId == attemptId {
      FirstIsThere(q.reservations, attemptId);
    }
  }

  /** A new owner that recovers a started queue and observes nothing yet. */
  predicate MustReopen(t: Task) {
    && t.recovering && t.playback.None? && t.current.None? && t.rows.attempts != []
  }

  /** The watch of the last attempt in this session, from the owner's boundary on. */
  predicate WatchesLast(t: Task, generation: Id, application: Id, session: Id, c: Watching) {
    && t.rows.attempts != []
    && var last := t.rows.attempts[|t.rows.attempts| - 1];
    && var request := c.watch.request;
    && request.attemptId == last.attemptId && request.queueItemId == last.itemId
    && request.target == t.rows.target && request.requestId == "observe-" + last.attemptId
    && (exists n :: 0 <= n < |t.rows.items|
          && t.rows.items[n].itemId == last.itemId && t.rows.items[n].content == request.content)
    && c.watch.applicationId == application && c.watch.sessionId == session
    && c.watch.connectionGeneration == generation && c.watch.startedMonotonic == t.boundary
    && c.watch.policy == DEFAULT_POLICY
    && c.tracker == N.Tracker(None, None, None, -1, t.boundary, t.boundary)
  }

  /** A Cast target plays YouTube content in a named session of that application. */
  predicate Watchable(target: PlaybackTarget, content: ContentRef, application: Id, session: Id) {
    && target.route == "cast" && content.provider == "youtube"
    && application == YOUTUBE_APPLICATION_ID && session != ""
  }

  /** Reopening watches the last attempt in its known session; with no known session it watches
      nothing, and what cannot be watched is refused. */
  lemma {:induction false} ReopensExactly(t: Task, generation: Id, saved: Option<SessionSnapshot>,
                                          application: Option<Id>, session: Option<Id>, n: nat)
    requires Durable(t.rows)
    requires MustReopen(t) ==>
      && (application, session)
         == KnownSession(t.rows, t.rows.attempts[|t.rows.attempts| - 1].attemptId, saved)
      && n < |t.rows.items|
      && t.rows.items[n].itemId == t.rows.attempts[|t.rows.attempts| - 1].itemId
    ensures var r := Reopened(t, generation, saved);
            if !MustReopen(t) then r == Ok(t.current)
            else
              && KnownAs(t.rows, t.rows.attempts[|t.rows.attempts| - 1].attemptId, saved,
                         application, session)
              && (if application in {None, Some("")} || session in {None, Some("")}
                  then r == Ok(None)
                  else if || generation == ""
                          || !Watchable(t.rows.target, t.rows.items[n].content, application.value,
                                        session.value)
                  then r.Err?
                  else r.Ok? && r.value.Some?
                       && WatchesLast(t, generation, application.value, session.value,
                                      r.value.value))
  {
    hide Durable, KnownSession, KnownAs, ItemAt;
    if MustReopen(t) {
      var last := t.rows.attempts[|t.rows.attempts| - 1];
      SessionIsKnown(t.rows, last.attemptId, saved);
      ItemOf(t.rows, last.itemId, n);
    }
  }

  lemma {:induction false} ItemOf(q: QueueSnapshot, id: Id, n: nat)
    requires Durable(q) && n < |q.items| && q.items[n].itemId == id
    ensures ItemAt(q.items, id) == Some(n)
  {
  }

  // ---------------------------------------------------------------- who is followed

  /** The request asks to observe this attempt of this item of the queue. */
  predicate AsksFor(q: QueueSnapshot, attemptId: Id, itemId: Id, request: PlaybackRequest) {
    && request.attemptId == attemptId && request.queueItemId == itemId
    && request.target == q.target && request.requestId == "observe-" + attemptId
    && exists n :: 0 <= n < |q.items|
         && q.items[n].itemId == itemId && q.items[n].content == request.content
  }

  lemma {:induction false} RequestAsks(q: QueueSnapshot, attemptId: Id, itemId: Id)
    ensures match Requested(q, attemptId, itemId)
            case None => forall n :: 0 <= n < |q.items| ==> q.items[n].itemId != itemId
            case Some(request) => AsksFor(q, attemptId, itemId, request)
  {
    hide ItemAt;
  }

  /** The outstanding reservation `n` was sent, and is not the one that is followed. */
  predicate MustRejoin(t: Task, n: nat) {
    && n < |t.rows.reservations| && t.rows.reservations[n].state.Reserved?
    && (exists e :: 0 <= e < |t.rows.operations|
          && t.rows.operations[e].reservationId == t.rows.reservations[n].reservationId
          && t.rows.operations[e].action.PlayNext?
          && !t.rows.operations[e].state.Pending? && !t.rows.operations[e].state.Rejected?)
    && !(t.following.Some?
         && t.following.value.reservationId == t.rows.reservations[n].reservationId)
  }

  /** The declared successor of this reservation, behind this predecessor. */
  predicate Declares(q: QueueSnapshot, r: NativeReservation, a: N.Authorization,
                     predecessor: PlaybackRequest) {
    && a.operationId == r.reservationId && a.predecessor == predecessor
    && AsksFor(q, r.successorAttemptId, r.successorItemId, a.successor)
    && a.applicationId == r.applicationId && a.sessionId == r.sessionId
  }

  /** A new pair of trackers, from this instant and number on, with this predecessor. */
  predicate StartsPair(f: Following, generation: Id, since: Monotonic, after: int,
                       predecessor: SessionSnapshot) {
    && f.watch == N.Watch(f.authorization.successor, f.authorization.applicationId,
                          f.authorization.sessionId, generation, since, DEFAULT_POLICY)
    && f.pair == N.Succession(N.Tracker(None, None, None, after, since, since), predecessor)
  }

  /** A session of the predecessor of which nothing was seen. */
  function NothingSeen(f: Following): SessionSnapshot {
    FreshSession(PlaybackScope(f.authorization.predecessor, f.authorization.sessionId,
                               f.watch.connectionGeneration, f.watch.startedMonotonic,
                               Some(f.authorization.applicationId)))
  }

  /** The predecessor's request: that of the session that plays it, or one to observe it. */
  predicate Precedes(t: Task, p: nat, request: PlaybackRequest)
    requires p < |t.rows.attempts|
  {
    var source := t.rows.attempts[p];
    if t.playback.Some? && t.playback.value.scope.request.attemptId == source.attemptId
    then request == t.playback.value.scope.request
    else AsksFor(t.rows, source.attemptId, source.itemId, request)
  }

  lemma {:induction false} EnqueueIs(q: QueueSnapshot, id: Id, e: nat)
    requires Durable(q) && e < |q.operations|
    requires q.operations[e].reservationId == id && q.operations[e].action.PlayNext?
    ensures EnqueueAt(q.operations, id) == Some(e)
  {
    hide ReloadAccepts, AttemptKeys, CommandKeys, ReservationKeys, EnqueueAt;
  }

  lemma {:induction false} RejoinChecks(t: Task, n: nat)
    requires Durable(t.rows) && t.rows.mode.Native?
    requires n < |t.rows.reservations| && t.rows.reservations[n].state.Reserved?
    ensures var r := t.rows.reservations[n];
            var o := EnqueueAt(t.rows.operations, r.reservationId);
            MustRejoin(t, n)
            <==> && o.Some? && Sent(t.rows.operations[o.value].state)
                 && !(t.following.Some? && t.following.value.reservationId == r.reservationId)
  {
    hide Durable, EnqueueAt;
    if MustRejoin(t, n) {
      var e :| 0 <= e < |t.rows.operations|
        && t.rows.operations[e].reservationId == t.rows.reservations[n].reservationId
        && t.rows.operations[e].action.PlayNext?
        && !t.rows.operations[e].state.Pending? && !t.rows.operations[e].state.Rejected?;
      EnqueueIs(t.rows, t.rows.reservations[n].reservationId, e);
    }
  }

  /** Rejoining follows the sent outstanding reservation afresh, in the new connection and without
      evidence of its predecessor, or is refused; a reservation that was not sent or is followed
      already changes nothing. */
  lemma {:induction false} RejoinsExactly(t: Task, generation: Id, n: nat)
    requires Durable(t.rows) && t.rows.mode.Native?
    requires n < |t.rows.reservations| && t.rows.reservations[n].state.Reserved?
    ensures var r := t.rows.reservations[n];
            var j := Rejoined(t, generation);
            if !MustRejoin(t, n) then j == Ok(t.following)
            else
              j.Ok? ==>
                && j.value.Some?
                && var f := j.value.value;
                && f.reservationId == r.reservationId
                && (exists p :: 0 <= p < |t.rows.attempts|
                      && t.rows.attempts[p].attemptId == r.predecessorAttemptId
                      && Precedes(t, p, f.authorization.predecessor))
                && Declares(t.rows, r, f.authorization, f.authorization.predecessor)
                && f.authorization.WellFormed() && generation != ""
                && StartsPair(f, generation, t.boundary, -1, NothingSeen(f))
  {
    hide Durable, EnqueueAt, AttemptAt, Requested, AsksFor, MustRejoin, Sent, OutstandingAt;
    var r := t.rows.reservations[n];
    S.OutstandingIs(t.rows, n);
    RejoinChecks(t, n);
    RequestAsks(t.rows, r.successorAttemptId, r.successorItemId);
    var p := AttemptAt(t.rows.attempts, r.predecessorAttemptId);
    if p.Some? {
      var source := t.rows.attempts[p.value];
      RequestAsks(t.rows, source.attemptId, source.itemId);
    }
  }

  /** The instant of the last sample that the session has accepted, or of its start; an instant of
      zero counts as none. */
  function LastSeen(s: SessionSnapshot): Monotonic {
    match s.lastMonotonic
    case None => s.scope.startedMonotonic
    case Some(at) => if at == 0.0 then s.scope.startedMonotonic else at
  }

  /** An enqueue that reached the journal's end is followed live, from the last thing that its
      predecessor's session has seen. */
  lemma {:induction false} FollowsExactly(q: QueueSnapshot, work: Work)
    ensures var f := Followed(q, work);
            f.Some? ==>
              && f.value.reservationId == work.reservationId
              && (exists n :: 0 <= n < |q.reservations|
                    && q.reservations[n].reservationId == work.reservationId
                    && f.value.authorization.applicationId == q.reservations[n].applicationId
                    && f.value.authorization.sessionId == q.reservations[n].sessionId)
              && f.value.authorization.operationId == work.reservationId
              && f.value.authorization.predecessor == work.owned.scope.request
              && AsksFor(q, work.attemptId, work.itemId, f.value.authorization.successor)
              && N.LivePredecessor(f.value.authorization, f.value.watch, work.owned)
              && StartsPair(f.value, work.owned.scope.connectionGeneration, LastSeen(work.owned),
                            work.owned.lastSequence, work.owned)
  {
    hide ReservationAt, Requested, AsksFor, N.LivePredecessor;
    RequestAsks(q, work.attemptId, work.itemId);
  }

  /** What a request asks for, it asks for once. */
  lemma {:induction false} AsksOnce(q: QueueSnapshot, attemptId: Id, itemId: Id,
                                    request: PlaybackRequest)
    requires Durable(q) && AsksFor(q, attemptId, itemId, request)
    ensures Requested(q, attemptId, itemId) == Some(request)
  {
    hide Durable, ItemAt;
    var n :| 0 <= n < |q.items| && q.items[n].itemId == itemId
      && q.items[n].content == request.content;
    ItemOf(q, itemId, n);
  }

  lemma {:induction false} AttemptOf(q: QueueSnapshot, id: Id, p: nat)
    requires Durable(q) && p < |q.attempts| && q.attempts[p].attemptId == id
    ensures AttemptAt(q.attempts, id) == Some(p)
  {
  }

  lemma {:induction false} ReservationOf(q: QueueSnapshot, id: Id, k: nat)
    requires Durable(q) && k < |q.reservations| && q.reservations[k].reservationId == id
    ensures ReservationAt(q.reservations, id) == Some(k)
  {
    hide ReloadAccepts, AttemptKeys, CommandKeys, OperationKeys;
  }

  /** Rejoining is refused exactly without a connection or for a pair that cannot be watched. */
  lemma {:induction false} RejoinsWhen(t: Task, generation: Id, n: nat, p: nat, a: N.Authorization)
    requires Durable(t.rows) && t.rows.mode.Native? && MustRejoin(t, n)
    requires n < |t.rows.reservations| && t.rows.reservations[n].state.Reserved?
    requires p < |t.rows.attempts|
    requires t.rows.attempts[p].attemptId == t.rows.reservations[n].predecessorAttemptId
    requires Precedes(t, p, a.predecessor)
    requires Declares(t.rows, t.rows.reservations[n], a, a.predecessor)
    ensures Rejoined(t, generation).Ok? <==> a.WellFormed() && generation != ""
    ensures var j := Rejoined(t, generation);
            j.Ok? ==> j.value.Some? && j.value.value.authorization == a
  {
    hide Durable, EnqueueAt, AttemptAt, Requested, AsksFor, MustRejoin, Sent, OutstandingAt,
         N.Authorization.WellFormed;
    var r := t.rows.reservations[n];
    S.OutstandingIs(t.rows, n);
    RejoinChecks(t, n);
    AttemptOf(t.rows, r.predecessorAttemptId, p);
    AsksOnce(t.rows, r.successorAttemptId, r.successorItemId, a.successor);
    var source := t.rows.attempts[p];
    if !(t.playback.Some? && t.playback.value.scope.request.attemptId == source.attemptId) {
      AsksOnce(t.rows, source.attemptId, source.itemId, a.predecessor);
    }
  }

  /** A sent enqueue is followed exactly when its pair can be watched and its predecessor is live. */
  lemma {:induction false} FollowsWhen(q: QueueSnapshot, work: Work, k: nat, a: N.Authorization)
    requires Durable(q) && k < |q.reservations|
    requires q.reservations[k].reservationId == work.reservationId
    requires a.operationId == work.reservationId && a.predecessor == work.owned.scope.request
    requires a.applicationId == q.reservations[k].applicationId
    requires a.sessionId == q.reservations[k].sessionId
    requires AsksFor(q, work.attemptId, work.itemId, a.successor)
    ensures Followed(q, work).Some?
        <==> && a.WellFormed() && work.owned.scope.connectionGeneration != ""
             && N.LivePredecessor(
                  a, N.SuccessorWatch(a, work.owned.scope.connectionGeneration,
                                      LastSeen(work.owned), DEFAULT_POLICY), work.owned)
    ensures Followed(q, work).Some? ==> Followed(q, work).value.authorization == a
  {
    hide Durable, ReservationAt, Requested, AsksFor, N.LivePredecessor,
         N.Authorization.WellFormed;
    ReservationOf(q, work.reservationId, k);
    AsksOnce(q, work.attemptId, work.itemId, a.successor);
  }

  // ---------------------------------------------------------------- what follows an execution

  /** After an enqueue: one that the journal shows as sent is followed, where it can be; any other
      holds the queue, unless the hold is refused.  After a clear nothing follows. */
  lemma {:induction false} ConcludesExactly(t: Task, taken: Taken, revision: int)
    requires Durable(t.rows) && t.rows.mode.Native? && t.step.Executing?
    ensures var work, state := t.step.work, E.StateOf(t.step.dispatch, t.step.work.Effect());
            var u := Concluded(t, taken, revision);
            var sent := state.Some? && !state.value.Pending? && !state.value.Rejected?;
            && u.step.Waiting? && u == t.(rows := u.rows, following := u.following, step := Waiting)
            && u.following
               == (if work.request.action.PlayNext? && sent
                      && Followed(t.step.dispatch, work).Some?
                   then Followed(t.step.dispatch, work) else t.following)
            && (if work.request.action.PlayNext? && !sent
                   && (t.rows.reconciliationRequired || t.rows.revision == revision)
                then HoldsQueue(t.rows, taken, revision, u.rows) else u.rows == t.rows)
  {
    hide Durable, Held, E.StateOf, Followed, HoldsQueue;
    HeldExactly(t.rows, taken, revision);
  }

  /** A recovering owner resumes the session that its own tracker is ready for. */
  lemma {:induction false} ResumesExactly(t: Task)
    requires TrackersSound(t)
    ensures var u := Next(t, Event.Resume);
            if t.current.Some? && t.playback.None?
               && N.Ready(t.current.value.watch, t.current.value.tracker)
            then u == t.(playback := t.current.value.tracker.snapshot, current := None)
            else u == t
  {
    hide N.Ready, TrackersSound;
  }

  // ---------------------------------------------------------------- who sees the events

  /** The trackers of a declared successor and its predecessor see the events that the owner hands
      them, unless time runs backwards, and nothing else changes. */
  lemma {:induction false} FollowedSee(t: Task, events: seq<PlaybackObservation>, now: Monotonic)
    requires TrackersSound(t)
    ensures var u := Next(t, Follow(events, now));
            u == t.(following := u.following)
            && (t.following.None? ==> u == t)
            && (t.following.Some? ==>
                  var f := t.following.value;
                  if now < f.pair.tracker.now then u == t
                  else
                    && u.following.Some?
                    && u.following == Some(f.(pair := u.following.value.pair))
                    && Ok(u.following.value.pair)
                       == N.PairObserved(f.authorization, f.watch, f.pair, events, now))
  {
    hide N.NotedAll, N.Renewed, N.PairNotedAll, N.PairFinish, N.PairRenewed, N.NotStale, Durable;
  }

  /** So does the tracker of the attempt that a recovering owner watches. */
  lemma {:induction false} WatchedSee(t: Task, events: seq<PlaybackObservation>, now: Monotonic)
    requires TrackersSound(t)
    ensures var u := Next(t, Watch(events, now));
            u == t.(current := u.current)
            && (t.current.None? ==> u == t)
            && (t.current.Some? ==>
                  var c := t.current.value;
                  if now < c.tracker.now then u == t
                  else
                    && u.current.Some? && u.current == Some(c.(tracker := u.current.value.tracker))
                    && Ok(u.current.value.tracker) == N.Observed(c.watch, c.tracker, events, now))
  {
    hide N.NotedAll, N.Renewed, N.PairNotedAll, N.PairFinish, N.PairRenewed, N.NotStale, Durable;
  }

  // ---------------------------------------------------------------- adopting and replacing

  /** An adoption that the journal takes makes the successor's session the owned one, and ends what
      was followed and watched. */
  lemma {:induction false} AdoptsExactly(t: Task, taken: Taken, at: Instant, now: Monotonic)
    requires TrackersSound(t) && t.step.Loaded?
    ensures var u := Next(t, Adopt(taken, at, now));
            var call := AdoptionCall(t, taken, at, now);
            if call.Some? && Apply(t.rows, call.value.taken, call.value.op).Ok? then
              && t.following.Some?
              && u == t.(rows := Apply(t.rows, call.value.taken, call.value.op).value,
                         step := Waiting, following := None, current := None,
                         playback := t.following.value.pair.tracker.snapshot)
            else u == t.(step := Waiting)
  {
    hide Apply, N.Ready, TrackersSound;
  }

  /** What is adopted: the outstanding reservation `n`, once the successor's tracker is ready. */
  lemma {:induction false} AdoptionIsFor(t: Task, taken: Taken, n: nat, at: Instant, now: Monotonic)
    requires Durable(t.rows) && t.rows.mode.Native? && t.step == Loaded(t.rows)
    requires n < |t.rows.reservations| && t.rows.reservations[n].state.Reserved?
    ensures var call := AdoptionCall(t, taken, at, now);
            var ready := t.following.Some?
                         && N.Ready(t.following.value.watch, t.following.value.pair.tracker);
            var id := t.rows.reservations[n].reservationId;
            && (call.Some? <==> ready)
            && (ready ==>
                  && t.following.value.pair.tracker.snapshot.Some?
                  && call.value.taken == taken
                  && call.value.op == OpAdopt(id, t.following.value.pair.tracker.snapshot.value,
                                              now, at, "adopt-" + id, t.rows.revision,
                                              t.rows.generation))
  {
    hide Durable, OutstandingAt;
    S.OutstandingIs(t.rows, n);
  }

  /** A queue that is not canceled yet is canceled at its own revision. */
  lemma {:induction false} CancelApplied(rows: QueueSnapshot, taken: Taken, revision: int)
    requires Durable(rows) && !rows.cancellationRequested
    ensures var r := Apply(rows, taken, OpCancel(revision));
            && (r.Ok? <==> rows.revision == revision)
            && (r.Ok? ==>
                  r.value == rows.(cancellationRequested := true, revision := revision + 1))
  {
    hide Durable, Write, RollsBack, Apply, T.Permits, T.Changes, T.Repeats;
    var op := OpCancel(revision);
    T.TransactionDoes(rows, taken, op);
    ApplyKeeps(rows, taken, op);
    CancelMeans(rows, taken, revision);
  }

  lemma {:induction false} CancelMeans(rows: QueueSnapshot, taken: Taken, revision: int)
    requires !rows.cancellationRequested
    ensures var op := OpCancel(revision);
            && (T.Permits(rows, taken, op) <==> rows.revision == revision)
            && !T.Repeats(rows, op) && !RollsBack(rows, op)
            && forall t :: rows.revision == revision && T.Changes(rows, op, t) ==>
                 t == rows.(cancellationRequested := true, revision := revision + 1)
  {
  }

  /** A stop begins by canceling the queue, which is refused exactly at another revision. */
  lemma {:induction false} StopCancels(t: Task, commandId: Id, taken: Taken, revision: int)
    requires TrackersSound(t) && Durable(t.rows)
    ensures var u := Next(t, BeginStop(commandId, taken, revision));
            if t.rows.cancellationRequested then u == t.(stopping := Some(commandId), step := Waiting)
            else if t.rows.revision == revision then
              u == t.(rows := t.rows.(cancellationRequested := true, revision := revision + 1),
                      stopping := Some(commandId), step := Waiting)
            else u == t.(step := Waiting)
  {
    hide Durable, Apply, TrackersSound;
    if !t.rows.cancellationRequested {
      CancelApplied(t.rows, taken, revision);
    }
  }
}
