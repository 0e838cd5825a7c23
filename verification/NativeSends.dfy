/** When an undisturbed owner of a native queue does send: the next item behind confirmed playback,
    and when a stop is carried out, waits, and is resumed. */
module NativeSends {
  import opened Values
  import opened QueueRecords
  import opened QueueJournal
  import opened JournalInvariant
  import opened NativeTask
  import E = QueueExecution
  import F = FreshCalls
  import P = QueuePolicy
  import T = TransactionEffects

  // ---------------------------------------------------------------- what is staged

  /** Item `n` is the first pending one. */
  predicate NextPending(q: QueueSnapshot, n: nat) {
    && n < |q.items| && q.items[n].intent.Pending?
    && forall k :: 0 <= k < n ==> !q.items[k].intent.Pending?
  }

  /** The session is owned, not stopped, plays confirmed, and its playback has a name. */
  predicate PlaysOn(playback: Option<SessionSnapshot>) {
    && playback.Some?
    && !playback.value.ownershipLost && !playback.value.stopRequested
    && playback.value.evidence.receiverPlaybackConfirmed
    && playback.value.latest.Some? && playback.value.latest.value.playbackId.Some?
  }

  /** An item may be staged behind the current one. */
  predicate MayStage(t: Task) {
    && !t.recovering && !t.canceled
    && !t.rows.cancellationRequested && !t.rows.reconciliationRequired
    && PlaysOn(t.playback)
    && (forall k :: 0 <= k < |t.rows.reservations| ==> !t.rows.reservations[k].state.Reserved?)
    && t.rows.attempts != [] && t.rows.attempts[|t.rows.attempts| - 1].intent.Current?
  }

  /** The enqueue of item `n` through the playing session. */
  function Staging(t: Task, n: nat, reservationId: Id, attemptId: Id): Work
    requires PlaysOn(t.playback) && n < |t.rows.items|
  {
    var s := t.playback.value;
    Work(reservationId, t.rows.items[n].itemId, attemptId,
         NativeQueueRequest("enqueue-" + reservationId, PlayNext, s.scope,
                            s.latest.value.playbackId.value, Some(t.rows.items[n].content)),
         t.rows.revision, t.rows.generation, s)
  }

  lemma {:induction false} NothingOutstanding(rs: seq<NativeReservation>)
    ensures OutstandingAt(rs).None? <==> forall k :: 0 <= k < |rs| ==> !rs[k].state.Reserved?
  {
  }

  lemma {:induction false} StagesExactly(t: Task, reservationId: Id, attemptId: Id)
    ensures var work := StageWork(t.(step := Loaded(t.rows)), reservationId, attemptId);
            && (work.Some? <==>
                  MayStage(t) && exists n: nat :: n < |t.rows.items| && NextPending(t.rows, n))
            && (forall n: nat :: work.Some? && NextPending(t.rows, n) ==>
                  PlaysOn(t.playback) && work.value == Staging(t, n, reservationId, attemptId))
  {
    hide OutstandingAt;
    NothingOutstanding(t.rows.reservations);
    var found := P.FirstPending(t.rows.items);
    if found.Some? {
      assert NextPending(t.rows, found.value);
    }
  }

  // ---------------------------------------------------------------- the undisturbed enqueue

  /** What comes from outside while the operation is journaled, claimed and sent. */
  datatype Given = Given(taken: Taken, preparedAt: Instant, claimedAt: Instant, reply: E.Reply)

  function Choosing(g: Given, at: Instant): E.Choice {
    E.Choice(g.taken, at, true, g.reply)
  }

  function AdvanceOnce(t: Task, c: E.Choice): Task {
    if t.step.Executing? then Advance(t, c) else t
  }

  /** Read, journal, claim, read again, send: nobody else writes in between. */
  function Sending(t: Task, g: Given): Task {
    var loaded := AdvanceOnce(t, Choosing(g, g.preparedAt));
    var prepared := AdvanceOnce(loaded, Choosing(g, g.preparedAt));
    var claimed := AdvanceOnce(prepared, Choosing(g, g.claimedAt));
    var reread := AdvanceOnce(claimed, Choosing(g, g.claimedAt));
    AdvanceOnce(reread, Choosing(g, g.claimedAt))
  }

  /** The journal takes the operation (`TransactionEffects.MayReserve`, `MayClear`) and keeps it. */
  predicate CanBeJournaled(rows: QueueSnapshot, work: Work, g: Given) {
    && T.Permits(rows, g.taken, work.Request().Prepare(g.preparedAt))
    && !RollsBack(rows, work.Request().Prepare(g.preparedAt))
  }

  /** It takes the claim, too. */
  predicate CanBeSent(rows: QueueSnapshot, work: Work, g: Given) {
    CanBeJournaled(rows, work, g) && g.preparedAt <= g.claimedAt
  }

  /** Only the rows and the step change. */
  predicate Otherwise(t: Task, u: Task) {
    u == t.(rows := u.rows, step := u.step)
  }

  lemma {:induction false} ReadStep(t: Task, work: Work, c: E.Choice)
    requires t.step.Executing? && t.step.pc == E.Begun && t.step.work == work
    requires work.generation == t.rows.generation
    ensures Advance(t, c)
         == t.(step := Executing(work,
                 E.Loaded(E.StateOf(t.rows, work.Effect()).Some?), t.step.dispatch))
  {
  }

  lemma {:induction false} JournalStep(t: Task, c: E.Choice)
    requires t.step.Executing? && t.step.pc.Loaded?
    ensures var Executing(work, pc, dispatch) := t.step;
            var r := Apply(t.rows, c.taken, work.Request().Prepare(c.at));
            var u := Advance(t, c);
            && Otherwise(t, u)
            && (r.Err? ==> u.step.Waiting?)
            && (r.Ok? ==>
                  u.rows == r.value
                  && u.step == Executing(work,
                                         E.AfterPrepare(r.value, work.Request(), pc.existing),
                                         r.value))
  {
    hide Apply, E.AfterPrepare;
  }

  lemma {:induction false} ClaimStep(t: Task, c: E.Choice)
    requires t.step.Executing? && t.step.pc.Prepared?
    ensures var Executing(work, pc, dispatch) := t.step;
            var r := Apply(t.rows, c.taken, work.Request().Claim(c.at, pc.revision));
            var u := Advance(t, c);
            && Otherwise(t, u)
            && (r.Err? ==> u.step.Waiting?)
            && (r.Ok? ==>
                  u.rows == r.value
                  && u.step == Executing(work, E.Claimed(r.value.revision), r.value))
  {
    hide Apply;
  }

  lemma {:induction false} RereadStep(t: Task, c: E.Choice)
    requires t.step.Executing? && t.step.pc.Claimed?
    ensures var Executing(work, pc, dispatch) := t.step;
            var next := E.AfterReread(t.rows, work.Request(), pc.revision);
            Advance(t, c)
            == t.(step := if next.Done? then Waiting else Executing(work, next, dispatch))
  {
    hide E.AfterReread;
  }

  /** The last check passes when nothing has changed since the claim. */
  lemma {:induction false} SendStep(t: Task, c: E.Choice)
    requires t.step.Executing? && t.step.pc.Permitted? && t.step.dispatch == t.rows
    ensures var work := t.step.work;
            Advance(t, c).sends
            == if && t.playback.Some? && !t.playback.value.ownershipLost
                  && work.request.scope == t.playback.value.scope
                  && (work.request.action.PlayNext? ==>
                        && !t.canceled && !t.rows.cancellationRequested
                        && !t.rows.reconciliationRequired && !t.recovering)
               then t.sends + [Send(t.owner, t.recovering, t.rows, work, t.playback.value)]
               else t.sends
  {
  }

  lemma {:induction false} DoneStays(t: Task, c: E.Choice)
    requires t.step.Executing? ==> t.step.pc.Done?
    ensures AdvanceOnce(t, c) == t
  {
  }

  lemma {:induction false} EnqueueJournaled(rows: QueueSnapshot, work: Work, g: Given)
    requires Durable(rows) && work.request.WellFormed()
    requires work.revision == rows.revision && work.generation == rows.generation
    ensures var op := work.Request().Prepare(g.preparedAt);
            var r := Apply(rows, g.taken, op);
            var isNew := E.StateOf(rows, work.Effect()).None?;
            && (CanBeJournaled(rows, work, g) ==>
                  r.Ok? && isNew && T.Changes(rows, op, r.value) && Durable(r.value)
                  && T.Permits(rows, g.taken, op))
            && (r.Ok? && isNew ==> CanBeJournaled(rows, work, g))
  {
    hide Durable, Write, T.Changes, T.Permits, E.StateOf, T.Repeats, RollsBack;
    var request, op := work.Request(), work.Request().Prepare(g.preparedAt);
    F.NewIsNotRepeated(rows, g.taken, request, g.preparedAt);
    T.TransactionDoes(rows, g.taken, op);
    F.ClaimsAreKept(rows, request, g.preparedAt, 0);
    ApplyKeeps(rows, g.taken, op);
  }

  lemma {:induction false} PreparedEnqueue(rows: QueueSnapshot, work: Work, g: Given,
                                           t: QueueSnapshot)
    requires Durable(rows) && Durable(t) && work.request.WellFormed()
    requires work.generation == rows.generation && work.revision == rows.revision
    requires T.Permits(rows, g.taken, work.Request().Prepare(g.preparedAt))
    requires T.Changes(rows, work.Request().Prepare(g.preparedAt), t)
    ensures E.AfterPrepare(t, work.Request(), false) == E.Prepared(t.revision)
    ensures var r := Apply(t, g.taken, work.Request().Claim(g.claimedAt, t.revision));
            && (r.Ok? <==> g.preparedAt <= g.claimedAt)
            && (r.Ok? ==>
                  E.AfterReread(r.value, work.Request(), r.value.revision)
                  == E.Permitted(r.value.revision))
  {
    hide Durable, Apply, E.AfterReread, T.Permits, T.Changes, E.StateOf, E.OfGeneration;
    F.PreparedState(rows, t, g.taken, work.Request(), g.preparedAt);
    F.PreparedIsPermitted(rows, t, g.taken, work.Request(), g.preparedAt, g.claimedAt);
  }

  lemma {:induction false} EnqueueKeepsLatches(rows: QueueSnapshot, work: Work, g: Given,
                                               t: QueueSnapshot)
    requires work.request.action.PlayNext?
    requires T.Permits(rows, g.taken, work.Request().Prepare(g.preparedAt))
    requires T.Changes(rows, work.Request().Prepare(g.preparedAt), t)
    ensures !t.cancellationRequested && !t.reconciliationRequired
  {
    hide ItemAt, OperationAt, Blank, T.Addresses, T.NoAttempt;
  }

  lemma {:induction false} ClaimKeepsLatches(s: QueueSnapshot, taken: Taken, work: Work,
                                             at: Instant, revision: int)
    requires Apply(s, taken, work.Request().Claim(at, revision)).Ok?
    ensures var t := Apply(s, taken, work.Request().Claim(at, revision)).value;
            && t.cancellationRequested == s.cancellationRequested
            && t.reconciliationRequired == s.reconciliationRequired
  {
    hide OperationAt, ReservationAt, NativeDispatchable, ReloadAccepts;
  }

  /** The last check of the owner's own state. */
  predicate MaySend(t: Task, work: Work) {
    && t.playback.Some? && !t.playback.value.ownershipLost
    && work.request.scope == t.playback.value.scope
    && (work.request.action.PlayNext? ==> !t.canceled && !t.recovering)
  }

  /** From the intent on, the operation reaches the receiver exactly when the journal takes it and its
      claim and the owner's last check passes. */
  lemma {:induction false} SendingExactly(t: Task, work: Work, g: Given)
    requires Durable(t.rows) && t.step == Executing(work, E.Begun, t.rows)
    requires work.request.WellFormed()
    requires work.revision == t.rows.revision && work.generation == t.rows.generation
    ensures var u := Sending(t, g);
            u.sends == if CanBeSent(t.rows, work, g) && MaySend(t, work)
                       then t.sends + [Send(t.owner, t.recovering, u.rows, work, t.playback.value)]
                       else t.sends
  {
    hide Durable, Apply, Advance, E.AfterPrepare, E.AfterReread, E.StateOf, CanBeJournaled,
         T.Permits, T.Changes, E.Request.Prepare, E.Request.Claim;
    var early, late := Choosing(g, g.preparedAt), Choosing(g, g.claimedAt);
    var op := work.Request().Prepare(g.preparedAt);
    var loaded := AdvanceOnce(t, early);
    ReadStep(t, work, early);
    EnqueueJournaled(t.rows, work, g);
    JournalStep(loaded, early);
    var prepared := AdvanceOnce(loaded, early);
    var r := Apply(t.rows, g.taken, op);
    if CanBeJournaled(t.rows, work, g) {
      PreparedEnqueue(t.rows, work, g, r.value);
      if work.request.action.PlayNext? {
        EnqueueKeepsLatches(t.rows, work, g, r.value);
      }
      ClaimStep(prepared, late);
      var claimed := AdvanceOnce(prepared, late);
      if g.preparedAt <= g.claimedAt {
        ClaimKeepsLatches(r.value, g.taken, work, g.claimedAt, r.value.revision);
        RereadStep(claimed, late);
        SendStep(AdvanceOnce(claimed, late), late);
        SendKeepsRows(AdvanceOnce(claimed, late), late);
      } else {
        StaysDone(claimed, late);
      }
    } else {
      NotJournaled(t.rows, work, g);
      StaysDone(prepared, late);
    }
  }

  lemma {:induction false} StaysDone(t: Task, c: E.Choice)
    requires t.step.Executing? ==> t.step.pc.Done?
    ensures AdvanceOnce(t, c) == t && AdvanceOnce(AdvanceOnce(t, c), c) == t
    ensures AdvanceOnce(AdvanceOnce(AdvanceOnce(t, c), c), c) == t
  {
    DoneStays(t, c);
    hide AdvanceOnce;
  }

  lemma {:induction false} NotJournaled(rows: QueueSnapshot, work: Work, g: Given)
    requires Apply(rows, g.taken, work.Request().Prepare(g.preparedAt)).Ok?
         ==> E.StateOf(rows, work.Effect()).Some?
    ensures var r := Apply(rows, g.taken, work.Request().Prepare(g.preparedAt));
            r.Ok? ==> E.AfterPrepare(r.value, work.Request(),
                                     E.StateOf(rows, work.Effect()).Some?).Done?
  {
    hide Apply, E.StateOf;
  }

  lemma {:induction false} SendKeepsRows(t: Task, c: E.Choice)
    requires t.step.Executing? && t.step.pc.Permitted?
    ensures Advance(t, c).rows == t.rows
  {
    hide NativeAllowed;
  }

  /** Load, stage, and send. */
  function Staged(t: Task, reservationId: Id, attemptId: Id, g: Given): Task {
    var loaded := t.(step := Loaded(t.rows));
    Sending(Intended(loaded, StageWork(loaded, reservationId, attemptId)), g)
  }

  /** The request can be built. */
  predicate Addressed(work: Work) {
    && work.request.playbackId != "" && work.request.scope.sessionId != ""
    && work.request.scope.connectionGeneration != ""
    && work.request.scope.request.attemptId != ""
  }

  lemma {:induction false} NothingSent(t: Task, g: Given)
    requires t.step.Waiting?
    ensures Sending(t, g).sends == t.sends
  {
    hide Advance;
  }

  lemma {:induction false} StagedIsAddressed(t: Task, n: nat, reservationId: Id, attemptId: Id)
    requires PlaysOn(t.playback) && n < |t.rows.items|
    ensures var work := Staging(t, n, reservationId, attemptId);
            && (work.request.WellFormed() <==> Addressed(work))
            && work.request.action.PlayNext? && work.owned == t.playback.value
            && work.revision == t.rows.revision && work.generation == t.rows.generation
            && work.request.scope == t.playback.value.scope
  {
  }

  /** An undisturbed owner stages item `n`: the next pending one is enqueued at the receiver exactly
      when it may be staged, can be addressed, and the journal takes the enqueue and its claim. */
  lemma {:induction false} StagingSends(t: Task, n: nat, reservationId: Id, attemptId: Id, g: Given)
    requires Sound(t) && NextPending(t.rows, n)
    ensures var u := Staged(t, reservationId, attemptId, g);
            if && MayStage(t) && Addressed(Staging(t, n, reservationId, attemptId))
               && CanBeSent(t.rows, Staging(t, n, reservationId, attemptId), g)
            then u.sends == t.sends + [Send(t.owner, false, u.rows,
                                            Staging(t, n, reservationId, attemptId),
                                            t.playback.value)]
            else u.sends == t.sends
  {
    hide StageWork, Staging, Addressed, CanBeSent, Sending, Durable, NextPending;
    StagesExactly(t, reservationId, attemptId);
    SoundIsDurable(t);
    NextIsInRange(t.rows, n);
    var loaded := t.(step := Loaded(t.rows));
    var work := StageWork(loaded, reservationId, attemptId);
    if MayStage(t) {
      StagedIsAddressed(t, n, reservationId, attemptId);
      if work.value.request.WellFormed() {
        SendingExactly(Intended(loaded, work), work.value, g);
      } else {
        NothingSent(Intended(loaded, work), g);
      }
    } else {
      NothingSent(Intended(loaded, work), g);
    }
  }

  lemma {:induction false} SoundIsDurable(t: Task)
    ensures Sound(t) ==> Durable(t.rows) && t.rows.mode.Native?
  {
    hide Durable, TrackersSound, SendsSound, OwnerSound, StepSound, StopsSound, Declared;
  }

  lemma {:induction false} NextIsInRange(q: QueueSnapshot, n: nat)
    ensures NextPending(q, n) ==> n < |q.items|
  {
  }

  // ---------------------------------------------------------------- clearing

  /** The owned session has a named playback, through which the receiver's queue can be cleared. */
  predicate Reaches(playback: Option<SessionSnapshot>) {
    && playback.Some? && !playback.value.ownershipLost
    && playback.value.latest.Some? && playback.value.latest.value.playbackId.Some?
  }

  /** The clear of a reservation through that session. */
  function Clearing(t: Task, n: nat): Work
    requires Reaches(t.playback) && n < |t.rows.reservations|
  {
    var id, s := t.rows.reservations[n].reservationId, t.playback.value;
    Work(id, "", "",
         NativeQueueRequest("clear-" + id, Clear, s.scope, s.latest.value.playbackId.value, None),
         t.rows.revision, t.rows.generation, s)
  }

  lemma {:induction false} ClearsExactly(t: Task, n: nat)
    requires Durable(t.rows) && t.rows.mode.Native?
    requires n < |t.rows.reservations| && t.rows.reservations[n].state.Reserved?
    ensures ClearWork(t.(step := Loaded(t.rows)))
         == if Reaches(t.playback) then Some(Clearing(t, n)) else None
  {
    hide OutstandingAt, Durable;
    OutstandingIs(t.rows, n);
  }

  lemma {:induction false} OutstandingIs(q: QueueSnapshot, n: nat)
    requires Durable(q) && q.mode.Native?
    requires n < |q.reservations| && q.reservations[n].state.Reserved?
    ensures OutstandingAt(q.reservations) == Some(n)
  {
    hide ReservationOk, OutstandingAt, TextOk, AttemptsOk, StartsOk, CommandsOk, PositionOk;
    var found := OutstandingAt(q.reservations);
    assert found.Some?;
  }

  function Cleared(t: Task, g: Given): Task {
    var loaded := t.(step := Loaded(t.rows));
    Sending(Intended(loaded, ClearWork(loaded)), g)
  }

  lemma {:induction false} ClearIsAddressed(t: Task, n: nat)
    requires Reaches(t.playback) && n < |t.rows.reservations|
    ensures var work := Clearing(t, n);
            && (work.request.WellFormed() <==> Addressed(work))
            && work.request.action.Clear?
            && work.revision == t.rows.revision && work.generation == t.rows.generation
            && work.request.scope == t.playback.value.scope
  {
  }

  /** An undisturbed owner clears the outstanding reservation `n` at the receiver exactly when its
      session can be reached and addressed and the journal takes the clear and its claim: also when
      it recovers, and also after a cancellation. */
  lemma {:induction false} ClearingSends(t: Task, n: nat, g: Given)
    requires Sound(t) && n < |t.rows.reservations| && t.rows.reservations[n].state.Reserved?
    ensures var u := Cleared(t, g);
            if && Reaches(t.playback) && Addressed(Clearing(t, n))
               && CanBeSent(t.rows, Clearing(t, n), g)
            then u.sends == t.sends + [Send(t.owner, t.recovering, u.rows, Clearing(t, n),
                                            t.playback.value)]
            else u.sends == t.sends
  {
    hide ClearWork, Clearing, Addressed, CanBeSent, Sending, Durable;
    SoundIsDurable(t);
    ClearsExactly(t, n);
    var loaded := t.(step := Loaded(t.rows));
    var work := ClearWork(loaded);
    if Reaches(t.playback) {
      ClearIsAddressed(t, n);
      if work.value.request.WellFormed() {
        SendingExactly(Intended(loaded, work), work.value, g);
      } else {
        NothingSent(Intended(loaded, work), g);
      }
    } else {
      NothingSent(Intended(loaded, work), g);
    }
  }

  // ---------------------------------------------------------------- stopping

  /** The owner's own session: not lost. */
  predicate Owns(playback: Option<SessionSnapshot>) {
    playback.Some? && !playback.value.ownershipLost
  }

  predicate Outstanding(q: QueueSnapshot) {
    exists k :: 0 <= k < |q.reservations| && q.reservations[k].state.Reserved?
  }

  predicate Journaled(q: QueueSnapshot, commandId: Id) {
    exists k :: 0 <= k < |q.commands| && q.commands[k].commandId == commandId
  }

  /** The hand-over that a stop has to wait for: followed without a contradiction, between two
      sessions of which neither is owned. */
  predicate BetweenSessions(t: Task) {
    && Outstanding(t.rows) && !Owns(t.playback)
    && t.following.Some? && t.following.value.pair.tracker.refusal.None?
  }

  /** A stop that was asked for is carried out at once through an owned session that is not
      released; it waits ten seconds at most between two sessions, unless it is journaled already
      or another one waits. */
  lemma {:induction false} StopExactly(t: Task, now: Monotonic)
    requires t.stopping.Some?
    ensures var id := t.stopping.value;
            var waits := BetweenSessions(t) && !Journaled(t.rows, id);
            var u := StopDecided(t.(step := Loaded(t.rows)), now);
            && u.stopping.None? && u.rows == t.rows && u.sends == t.sends
            && u.stops == (if !waits && Owns(t.playback) && !t.playback.value.releaseConfirmed
                           then t.stops + [StopRun(None, t.rows, t.playback.value, now)]
                           else t.stops)
            && (if !waits then u.pending.None?
                else if t.pending.Some? then u.pending == t.pending
                else && u.pending.Some? && u.pending.value.commandId == id
                     && u.pending.value.deadline == now + 10.0
                     && exists k :: 0 <= k < |t.rows.reservations|
                          && t.rows.reservations[k].state.Reserved?
                          && t.rows.reservations[k].reservationId == u.pending.value.reservationId)
  {
    hide OutstandingAt, CommandAt;
    NothingOutstanding(t.rows.reservations);
    T.NoCommandAt(t.rows, t.stopping.value);
  }

  /** The session that waited for: confirmed and owned, of the adopted successor, or still of the
      predecessor. */
  predicate AnswersStop(playback: Option<SessionSnapshot>, r: NativeReservation) {
    && Owns(playback) && playback.value.evidence.receiverPlaybackConfirmed
    && playback.value.scope.request.attemptId
       == (match r.state
           case Adopted => r.successorAttemptId
           case _ => r.predecessorAttemptId)
    && !r.state.SessionExitObserved?
  }

  /** A stop that waits for reservation `k` lapses in time, by being journaled otherwise, or by a
      contradiction; it is carried out through the session that it waited for, and else goes on
      waiting. */
  lemma {:induction false} WaitingStopExactly(t: Task, k: nat, now: Monotonic)
    requires t.pending.Some?
    requires ReservationAt(t.rows.reservations, t.pending.value.reservationId) == Some(k)
    ensures var p := t.pending.value;
            var lapses := || p.deadline < now || Journaled(t.rows, p.commandId)
                          || (t.following.Some?
                              && t.following.value.pair.tracker.refusal.Some?);
            var answered := !lapses && AnswersStop(t.playback, t.rows.reservations[k]);
            var u := StopResumed(t.(step := Loaded(t.rows)), now);
            && u.rows == t.rows && u.sends == t.sends
            && u.pending == (if lapses || answered then None else t.pending)
            && u.stops == (if answered && !t.playback.value.releaseConfirmed
                           then t.stops + [StopRun(Some(p), t.rows, t.playback.value, now)]
                           else t.stops)
  {
    hide CommandAt, ReservationAt;
    T.NoCommandAt(t.rows, t.pending.value.commandId);
  }
}
