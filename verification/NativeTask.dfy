/** The owner task of a native queue around its journal: what it may send to the receiver, what it
    adopts, and when a stop that had to wait is carried out.  The receiver, the application's use
    cases and everything else that writes to the journal are arbitrary; the owner may die at any
    point and be replaced. */
module NativeTask {
  import opened Values
  import opened QueueRecords
  import opened QueueJournal
  import opened JournalInvariant
  import opened QueueHistory
  import Policy
  import N = NativeTracking
  import P = QueuePolicy
  import E = QueueExecution

  /** One native operation that the owner means to send, decided on rows it had read. */
  datatype Work = Work(
    reservationId: Id, itemId: Id, attemptId: Id, request: NativeQueueRequest, revision: int,
    generation: int, owned: SessionSnapshot)
  {
    function Request(): E.Request {
      E.NativeRequest(reservationId, itemId, attemptId, request, revision, generation)
    }

    function Effect(): E.Effect {
      E.NativeEffect(request.operationId)
    }
  }

  /** What the owner was doing when its last journal access returned.  `dispatch` is what the
      executor's last transaction returned. */
  datatype Step =
    | Waiting
    | Loaded(queue: QueueSnapshot)
    | Executing(work: Work, pc: E.Pc, dispatch: QueueSnapshot)

  /** A passive tracker of the current item, and one of a declared successor. */
  datatype Watching = Watching(watch: N.Watch, tracker: N.Tracker)

  datatype Following = Following(
    reservationId: Id, authorization: N.Authorization, watch: N.Watch, pair: N.Succession)

  /** A stop that waits for an observation of the hand-over. */
  datatype PendingStop = PendingStop(commandId: Id, reservationId: Id, deadline: Monotonic)

  /** A native operation that reached the receiver, with everything its last check saw. */
  datatype Send = Send(
    owner: nat, recovering: bool, rows: QueueSnapshot, work: Work, playback: SessionSnapshot)

  /** A stop that was carried out, with the rows and the session it was decided on. */
  datatype StopRun = StopRun(
    deferred: Option<PendingStop>, rows: QueueSnapshot, playback: SessionSnapshot, now: Monotonic)

  datatype Task = Task(
    rows: QueueSnapshot, owner: nat, boundary: Monotonic, canceled: bool, recovering: bool,
    observed: Option<Id>, playback: Option<SessionSnapshot>, current: Option<Watching>,
    following: Option<Following>, stopping: Option<Id>, pending: Option<PendingStop>, step: Step,
    sends: seq<Send>, stops: seq<StopRun>)

  // ---------------------------------------------------------------- what the owner reads

  /** The outstanding reservation. */
  function OutstandingAt(rs: seq<NativeReservation>): (found: Option<nat>)
    ensures found.Some? ==> found.value < |rs| && rs[found.value].state.Reserved?
    ensures found.None? ==> forall k :: 0 <= k < |rs| ==> !rs[k].state.Reserved?
  {
    if rs == [] then None else
    match OutstandingAt(rs[..|rs| - 1])
    case Some(k) => Some(k)
    case None => if rs[|rs| - 1].state.Reserved? then Some(|rs| - 1) else None
  }

  /** What observing an attempt of an item asks for. */
  function Requested(s: QueueSnapshot, attemptId: Id, itemId: Id): Option<PlaybackRequest> {
    match ItemAt(s.items, itemId)
    case None => None
    case Some(k) =>
      Some(PlaybackRequest("observe-" + attemptId, attemptId, itemId, s.items[k].content, s.target))
  }

  predicate IsOwned(playback: Option<SessionSnapshot>) {
    playback.Some? && !playback.value.ownershipLost
  }

  // ---------------------------------------------------------------- staging and clearing

  /** `_stage`: the next item behind confirmed playback of the current one. */
  function StageWork(t: Task, reservationId: Id, attemptId: Id): Option<Work> {
    if !t.step.Loaded? then None else
    var q := t.step.queue;
    if || t.recovering || q.reconciliationRequired || t.canceled || t.rows.cancellationRequested
       || !IsOwned(t.playback) || t.playback.value.stopRequested
       || !t.playback.value.evidence.receiverPlaybackConfirmed
       || t.playback.value.latest.None? || t.playback.value.latest.value.playbackId.None?
       || OutstandingAt(q.reservations).Some?
       || q.attempts == [] || !q.attempts[|q.attempts| - 1].intent.Current?
       || P.FirstPending(q.items).None?
    then None
    else
      var item := q.items[P.FirstPending(q.items).value];
      var owned := t.playback.value;
      Some(Work(reservationId, item.itemId, attemptId,
                NativeQueueRequest("enqueue-" + reservationId, PlayNext, owned.scope,
                                   owned.latest.value.playbackId.value, Some(item.content)),
                q.revision, q.generation, owned))
  }

  /** `_clear`: the outstanding reservation, through the session that is owned now. */
  function ClearWork(t: Task): Option<Work> {
    if !t.step.Loaded? then None else
    var q := t.step.queue;
    if || OutstandingAt(q.reservations).None? || !IsOwned(t.playback)
       || t.playback.value.latest.None? || t.playback.value.latest.value.playbackId.None?
    then None
    else
      var id := q.reservations[OutstandingAt(q.reservations).value].reservationId;
      var owned := t.playback.value;
      Some(Work(id, "", "",
                NativeQueueRequest("clear-" + id, Clear, owned.scope,
                                   owned.latest.value.playbackId.value, None),
                q.revision, q.generation, owned))
  }

  /** `_native_allowed`: the journal is as it was when the operation was claimed, the session is
      still the owned one, and nothing stands against an enqueue. */
  predicate NativeAllowed(t: Task, work: Work, dispatch: QueueSnapshot) {
    && t.rows.revision == dispatch.revision && t.rows.generation == dispatch.generation
    && IsOwned(t.playback) && work.request.scope == t.playback.value.scope
    && (work.request.action.PlayNext? ==>
          !(t.canceled || t.rows.cancellationRequested || t.rows.reconciliationRequired
            || t.recovering))
  }

  /** The executor's call, one store boundary at a time. */
  function Advance(t: Task, c: E.Choice): Task
    requires t.step.Executing?
  {
    var Executing(work, pc, dispatch) := t.step;
    var request := work.Request();
    match pc
    case Begun =>
      var next := E.AfterLoad(t.rows, request);
      t.(step := if next.Done? then Waiting else Executing(work, next, dispatch))
    case Loaded(existing) =>
      (match Apply(t.rows, c.taken, request.Prepare(c.at))
       case Err(_) => t.(step := Waiting)
       case Ok(rows) =>
         t.(rows := rows, step := Executing(work, E.AfterPrepare(rows, request, existing), rows)))
    case Prepared(revision) =>
      (match Apply(t.rows, c.taken, request.Claim(c.at, revision))
       case Err(_) => t.(step := Waiting)
       case Ok(rows) => t.(rows := rows, step := Executing(work, E.Claimed(rows.revision), rows)))
    case Claimed(revision) =>
      var next := E.AfterReread(t.rows, request, revision);
      t.(step := if next.Done? then Waiting else Executing(work, next, dispatch))
    case Permitted(revision) =>
      if !(work.request.action.PlayNext? && t.canceled) && NativeAllowed(t, work, dispatch) then
        t.(step := Executing(work, E.Returned(revision, E.Outcome(c.reply)), dispatch),
           sends := t.sends + [Send(t.owner, t.recovering, t.rows, work, t.playback.value)])
      else t.(step := Executing(work, E.Returned(revision, ExecutionState.Uncertain), dispatch))
    case Returned(revision, outcome) =>
      (match Apply(t.rows, c.taken, request.Record(outcome, c.at, revision))
       case Err(_) => t.(step := Waiting)
       case Ok(rows) => t.(rows := rows, step := Executing(work, E.Done, rows)))
    case Done => t
  }

  /** `_hold`; a revision that moved on raises. */
  function Held(rows: QueueSnapshot, taken: Taken, revision: int): Result<QueueSnapshot> {
    if rows.reconciliationRequired then Ok(rows) else Apply(rows, taken, OpHold(revision))
  }

  /** The instant after which the successor is followed: no callback since then is lost. */
  function Since(owned: SessionSnapshot): Monotonic {
    if owned.lastMonotonic.Some? && owned.lastMonotonic.value != 0.0 then owned.lastMonotonic.value
    else owned.scope.startedMonotonic
  }

  /** The tracker that a sent enqueue gets: a live one behind the session that was playing. */
  function Followed(s: QueueSnapshot, work: Work): Option<Following> {
    var k := ReservationAt(s.reservations, work.reservationId);
    var successor := Requested(s, work.attemptId, work.itemId);
    if k.None? || successor.None? then None else
    var r := s.reservations[k.value];
    var a := N.Authorization(work.reservationId, work.owned.scope.request, successor.value,
                             r.applicationId, r.sessionId);
    var w := N.SuccessorWatch(a, work.owned.scope.connectionGeneration, Since(work.owned),
                              DEFAULT_POLICY);
    if a.WellFormed() && w.connectionGeneration != "" && N.LivePredecessor(a, w, work.owned) then
      Some(Following(work.reservationId, a, w,
                     N.Succession(N.Opened(w, work.owned.lastSequence), work.owned)))
    else None
  }

  /** What the owner does with the executor's result: follow a sent enqueue, hold otherwise. */
  function Concluded(t: Task, taken: Taken, revision: int): Task
    requires t.step.Executing?
  {
    var Executing(work, _, dispatch) := t.step;
    var state := E.StateOf(dispatch, work.Effect());
    if work.request.action.Clear? then t.(step := Waiting)
    else if state.Some? && Sent(state.value) then
      var f := Followed(dispatch, work);
      t.(step := Waiting, following := if f.Some? then f else t.following)
    else
      match Held(t.rows, taken, revision)
      case Ok(rows) => t.(rows := rows, step := Waiting)
      case Err(_) => t.(step := Waiting)
  }

  // ---------------------------------------------------------------- observing

  function FreshEvents(target: PlaybackTarget, boundary: Monotonic, now: Monotonic,
                       events: seq<PlaybackObservation>): seq<PlaybackObservation>
  {
    if events == [] then []
    else
      var rest := FreshEvents(target, boundary, now, events[..|events| - 1]);
      var last := events[|events| - 1];
      if last.target == target && last.monotonic > boundary && Fresh(now, last.monotonic, 5.0)
      then rest + [last] else rest
  }

  predicate AnyReset(events: seq<PlaybackObservation>) {
    exists k :: 0 <= k < |events| && events[k].connectionReset
  }

  /** The session that the last attempt is known to play in. */
  function KnownSession(s: QueueSnapshot, attemptId: Id, saved: Option<SessionSnapshot>)
    : (Option<Id>, Option<Id>)
  {
    if exists k :: 0 <= k < |s.reservations| && s.reservations[k].successorAttemptId == attemptId
    then
      var r := FirstFor(s.reservations, attemptId);
      (Some(r.applicationId), Some(r.sessionId))
    else if saved.Some? then (saved.value.scope.applicationId, Some(saved.value.scope.sessionId))
    else (None, None)
  }

  function FirstFor(rs: seq<NativeReservation>, attemptId: Id): NativeReservation
    requires exists k :: 0 <= k < |rs| && rs[k].successorAttemptId == attemptId
  {
    if rs[0].successorAttemptId == attemptId then rs[0] else FirstFor(rs[1..], attemptId)
  }

  /** A reopened owner watches the last attempt; an identity it cannot watch raises. */
  function Reopened(t: Task, generation: Id, saved: Option<SessionSnapshot>)
    : Result<Option<Watching>>
  {
    if !t.recovering || t.playback.Some? || t.current.Some? || t.rows.attempts == []
    then Ok(t.current) else
    var last := t.rows.attempts[|t.rows.attempts| - 1];
    var (application, session) := KnownSession(t.rows, last.attemptId, saved);
    var request := Requested(t.rows, last.attemptId, last.itemId);
    if application.None? || session.None? || application == Some("") || session == Some("")
    then Ok(None)
    else if request.None? || !N.ValidIdentity(request.value, application.value, session.value)
            || generation == ""
    then Err(Malformed)
    else
      var w := N.Watch(request.value, application.value, session.value, generation, t.boundary,
                       DEFAULT_POLICY);
      Ok(Some(Watching(w, N.Opened(w, -1))))
  }

  /** A sent reservation that is not followed yet is followed afresh, without any evidence of its
      predecessor. */
  function Rejoined(t: Task, generation: Id): Result<Option<Following>> {
    var k := OutstandingAt(t.rows.reservations);
    if k.None? then Ok(t.following) else
    var r := t.rows.reservations[k.value];
    var o := EnqueueAt(t.rows.operations, r.reservationId);
    if || o.None? || !Sent(t.rows.operations[o.value].state)
       || (t.following.Some? && t.following.value.reservationId == r.reservationId)
    then Ok(t.following) else
    var p := AttemptAt(t.rows.attempts, r.predecessorAttemptId);
    if p.None? then Err(Malformed) else
    var source := t.rows.attempts[p.value];
    var predecessor :=
      if t.playback.Some? && t.playback.value.scope.request.attemptId == source.attemptId
      then Some(t.playback.value.scope.request)
      else Requested(t.rows, source.attemptId, source.itemId);
    var successor := Requested(t.rows, r.successorAttemptId, r.successorItemId);
    if predecessor.None? || successor.None? then Err(Malformed) else
    var a := N.Authorization(r.reservationId, predecessor.value, successor.value, r.applicationId,
                             r.sessionId);
    var w := N.SuccessorWatch(a, generation, t.boundary, DEFAULT_POLICY);
    if !a.WellFormed() || w.connectionGeneration == "" then Err(Malformed)
    else Ok(Some(Following(r.reservationId, a, w, N.Succession(N.Opened(w, -1), N.Unseen(a, w)))))
  }

  /** The trackers that are missing are made; one that cannot be made raises. */
  function Joined(t: Task, generation: Id, saved: Option<SessionSnapshot>): Task {
    match Reopened(t, generation, saved)
    case Err(_) => t
    case Ok(current) =>
      var u := t.(current := current);
      match Rejoined(u, generation)
      case Err(_) => u
      case Ok(following) => u.(following := following)
  }

  function Disconnected(t: Task, after: Monotonic): Task {
    t.(recovering := true, boundary := after, current := None, following := None, observed := None,
       playback := None, pending := None)
  }

  /** `_trackers`: a connection that changed is never trusted again by this owner; otherwise the
      missing trackers join. */
  function Attended(t: Task, taken: Taken, events: seq<PlaybackObservation>, now: Monotonic,
                    after: Monotonic, saved: Option<SessionSnapshot>, revision: int): Task
  {
    var seen := FreshEvents(t.rows.target, t.boundary, now, events);
    if seen == [] then t else
    var generation := seen[|seen| - 1].connectionGeneration;
    if t.observed.Some? && (generation != t.observed.value || AnyReset(seen)) then
      match Held(t.rows, taken, revision)
      case Err(_) => t
      case Ok(rows) => Disconnected(t.(rows := rows), after)
    else if AnyReset(seen) then t.(boundary := after)
    else Joined(t.(observed := Some(generation)), generation, saved)
  }

  // ---------------------------------------------------------------- reconciling and stopping

  /** `_reconcile_native`: an observed successor is adopted for the outstanding reservation. */
  function AdoptionCall(t: Task, taken: Taken, at: Instant, now: Monotonic): Option<Call>
  {
    if || !t.step.Loaded? || t.following.None?
       || !N.Ready(t.following.value.watch, t.following.value.pair.tracker)
       || OutstandingAt(t.step.queue.reservations).None?
    then None
    else
      var q := t.step.queue;
      var id := q.reservations[OutstandingAt(q.reservations).value].reservationId;
      Some(Call(taken, OpAdopt(id, t.following.value.pair.tracker.snapshot.value, now, at,
                               "adopt-" + id, q.revision, q.generation)))
  }

  /** A stop waits while the owner follows a hand-over and owns neither session. */
  predicate MustWait(t: Task, q: QueueSnapshot, commandId: Id) {
    && OutstandingAt(q.reservations).Some?
    && t.following.Some? && t.following.value.pair.tracker.refusal.None?
    && !IsOwned(t.playback)
    && CommandAt(q.commands, commandId).None?
  }

  /** The inherited stop: it is carried out through a session that is owned and not released. */
  function Carried(t: Task, q: QueueSnapshot, deferred: Option<PendingStop>, now: Monotonic): Task {
    if IsOwned(t.playback) && !t.playback.value.releaseConfirmed
    then t.(stops := t.stops + [StopRun(deferred, q, t.playback.value, now)])
    else t
  }

  function StopDecided(t: Task, now: Monotonic): Task {
    if t.stopping.None? || !t.step.Loaded? then t else
    var q := t.step.queue;
    var u := t.(stopping := None, step := Waiting);
    if MustWait(t, q, t.stopping.value) then
      var id := q.reservations[OutstandingAt(q.reservations).value].reservationId;
      if t.pending.Some? then u
      else u.(pending := Some(PendingStop(t.stopping.value, id, now + 10.0)))
    else Carried(u.(pending := None), q, None, now)
  }

  /** The session that a waiting stop waited for. */
  predicate Awaited(playback: Option<SessionSnapshot>, r: NativeReservation) {
    && IsOwned(playback) && playback.value.evidence.receiverPlaybackConfirmed
    && var id := playback.value.scope.request.attemptId;
    || (r.state.Adopted? && id == r.successorAttemptId)
    || (r.state.Reserved? && id == r.predecessorAttemptId)
  }

  /** A waiting stop lapses in time, when it was journaled otherwise, or on a contradiction. */
  predicate Lapsed(t: Task, q: QueueSnapshot, p: PendingStop, now: Monotonic) {
    || now > p.deadline || CommandAt(q.commands, p.commandId).Some?
    || (t.following.Some? && t.following.value.pair.tracker.refusal.Some?)
  }

  /** `_finish_pending_stop`. */
  function StopResumed(t: Task, now: Monotonic): Task {
    if t.pending.None? || !t.step.Loaded? then t else
    var q := t.step.queue;
    var p := t.pending.value;
    var k := ReservationAt(q.reservations, p.reservationId);
    var u := t.(step := Waiting);
    if k.None? then u
    else if Lapsed(t, q, p, now) then u.(pending := None)
    else if Awaited(t.playback, q.reservations[k.value]) then
      Carried(u.(pending := None), q, Some(p), now)
    else u
  }

  // ---------------------------------------------------------------- what can happen

  /** The owner's methods between two accesses to the journal, in any order; a new owner; and every
      other call on the journal.  Replies, clocks and other rows are parameters. */
  datatype Event =
    | Load
    | Attend(taken: Taken, events: seq<PlaybackObservation>, now: Monotonic, after: Monotonic,
             saved: Option<SessionSnapshot>, revision: int)
    | Follow(events: seq<PlaybackObservation>, now: Monotonic)
    | Watch(events: seq<PlaybackObservation>, now: Monotonic)
    | AcceptEvents(events: seq<PlaybackObservation>, now: Monotonic)
    | AcceptSnapshot(snapshot: SessionSnapshot)
    | Latch
    | Resume
    | Adopt(taken: Taken, at: Instant, now: Monotonic)
    | Stage(reservationId: Id, attemptId: Id)
    | ClearQueue
    | Execute(choice: E.Choice)
    | Finish(taken: Taken, revision: int)
    | BeginStop(commandId: Id, taken: Taken, revision: int)
    | DecideStop(now: Monotonic)
    | ResumeStop(now: Monotonic)
    | GiveUp
    | Replace(taken: Taken, boundary: Monotonic)
    | Journal(call: Call)
  {
    /** Snapshots are those that the policy builds, and calls are those that requests can make. */
    predicate WellFormed() {
      match this
      case AcceptSnapshot(snapshot) => N.Ordinary(snapshot)
      case Journal(call) => call.op.WellFormed()
      case _ => true
    }
  }

  function Intended(t: Task, work: Option<Work>): Task {
    if work.Some? && work.value.request.WellFormed() && t.step.Loaded?
    then t.(step := Executing(work.value, E.Begun, t.step.queue))
    else t.(step := Waiting)
  }

  function Next(t: Task, e: Event): Task
    requires TrackersSound(t)
  {
    match e
    case Load => t.(step := Loaded(t.rows))
    case Attend(taken, events, now, after, saved, revision) =>
      Attended(t, taken, events, now, after, saved, revision)
    case Follow(events, now) =>
      if t.following.None? then t
      else
        var f := t.following.value;
        (match N.PairObserved(f.authorization, f.watch, f.pair, events, now)
         case Err(_) => t
         case Ok(pair) => t.(following := Some(f.(pair := pair))))
    case Watch(events, now) =>
      if t.current.None? then t
      else
        (match N.Observed(t.current.value.watch, t.current.value.tracker, events, now)
         case Err(_) => t
         case Ok(tracker) => t.(current := Some(t.current.value.(tracker := tracker))))
    case AcceptEvents(events, now) =>
      if t.playback.None? then t
      else
        (match Policy.ObserveAll(t.playback.value, events, now, DEFAULT_POLICY)
         case Err(_) => t
         case Ok(s) => t.(playback := Some(s)))
    case AcceptSnapshot(snapshot) => t.(playback := Some(snapshot))
    case Latch => t.(canceled := true)
    case Resume =>
      if && t.current.Some? && t.playback.None?
         && N.Ready(t.current.value.watch, t.current.value.tracker)
      then t.(playback := t.current.value.tracker.snapshot, current := None)
      else t
    case Adopt(taken, at, now) =>
      (match AdoptionCall(t, taken, at, now)
       case None => t.(step := Waiting)
       case Some(call) =>
         match Apply(t.rows, call.taken, call.op)
         case Err(_) => t.(step := Waiting)
         case Ok(rows) =>
           t.(rows := rows, step := Waiting, following := None, current := None,
              playback := t.following.value.pair.tracker.snapshot))
    case Stage(reservationId, attemptId) => Intended(t, StageWork(t, reservationId, attemptId))
    case ClearQueue => Intended(t, ClearWork(t))
    case Execute(choice) => if t.step.Executing? then Advance(t, choice) else t
    case Finish(taken, revision) =>
      if t.step.Executing? && t.step.pc.Done? then Concluded(t, taken, revision) else t
    case BeginStop(commandId, taken, revision) =>
      if t.rows.cancellationRequested then t.(stopping := Some(commandId), step := Waiting)
      else
        (match Apply(t.rows, taken, OpCancel(revision))
         case Err(_) => t.(step := Waiting)
         case Ok(rows) => t.(rows := rows, stopping := Some(commandId), step := Waiting))
    case DecideStop(now) => StopDecided(t, now)
    case ResumeStop(now) => StopResumed(t, now)
    case GiveUp => t.(step := Waiting)
    case Replace(taken, boundary) =>
      Task(QueueHistory.After(t.rows, Call(taken, OpRecover(t.rows.revision))), t.owner + 1,
           boundary, false, t.rows.attempts != [], None, None, None, None, None, None, Waiting,
           t.sends, t.stops)
    case Journal(call) => t.(rows := QueueHistory.After(t.rows, call))
  }

  function Run(t: Task, events: seq<Event>): Task
    requires Sound(t) && WellFormedEvents(events)
    decreases |events|
  {
    if events == [] then t
    else
      NextKeeps(t, events[0]);
      Run(Next(t, events[0]), events[1..])
  }

  predicate WellFormedEvents(events: seq<Event>) {
    forall k :: 0 <= k < |events| ==> events[k].WellFormed()
  }

  // ---------------------------------------------------------------- what every run keeps

  predicate OrdinaryIfAny(s: Option<SessionSnapshot>) {
    s.Some? ==> N.Ordinary(s.value)
  }

  predicate WatchingSound(c: Watching) {
    && N.Valid(c.watch, c.tracker) && N.NotStale(c.watch, c.tracker)
    && OrdinaryIfAny(c.tracker.snapshot)
  }

  predicate FollowingSound(f: Following) {
    && N.ValidPair(f.watch, f.pair) && N.NotStale(f.watch, f.pair.tracker)
    && OrdinaryIfAny(f.pair.tracker.snapshot)
    && f.watch == N.SuccessorWatch(f.authorization, f.watch.connectionGeneration,
                                   f.watch.startedMonotonic, DEFAULT_POLICY)
  }

  predicate TrackersSound(t: Task) {
    && (t.current.Some? ==> WatchingSound(t.current.value))
    && (t.following.Some? ==> FollowingSound(t.following.value))
    && OrdinaryIfAny(t.playback)
  }

  /** What is followed was declared by a reservation of the journal. */
  predicate Declared(s: QueueSnapshot, f: Following) {
    && ReservationAt(s.reservations, f.reservationId).Some?
    && N.Authorizes(s, s.reservations[ReservationAt(s.reservations, f.reservationId).value],
                    f.authorization)
  }

  /** The operation of some work is journaled under its reservation, which it matches. */
  predicate Journaled(s: QueueSnapshot, work: Work) {
    && ReservationAt(s.reservations, work.reservationId).Some?
    && OperationAt(s.operations, work.request.operationId).Some?
    && var r := s.reservations[ReservationAt(s.reservations, work.reservationId).value];
    && var o := s.operations[OperationAt(s.operations, work.request.operationId).value];
    && o.reservationId == work.reservationId && o.action == work.request.action
    && RequestMatches(s, r, work.request)
    && (work.request.action.PlayNext? ==>
          r.successorItemId == work.itemId && r.successorAttemptId == work.attemptId)
  }

  /** The operation is claimed, and nothing stood against it when it was. */
  predicate Claimed(s: QueueSnapshot, work: Work) {
    && Journaled(s, work)
    && var r := s.reservations[ReservationAt(s.reservations, work.reservationId).value];
    && var o := s.operations[OperationAt(s.operations, work.request.operationId).value];
    && o.state.Dispatched? && NativeDispatchable(s, r, o)
  }

  /** What is sent was claimed on exactly these rows, through a session that is owned.  An enqueue
      is sent only while nothing is canceled or held, by an owner that is not recovering. */
  predicate SendSafe(e: Send) {
    && Durable(e.rows) && e.rows.mode.Native? && Claimed(e.rows, e.work)
    && !e.playback.ownershipLost && e.playback.scope == e.work.request.scope
    && (e.work.request.action.PlayNext? ==> !e.recovering)
  }

  /** Sent operations are different and used up, and all enqueues came from one owner. */
  predicate SendsSound(s: QueueSnapshot, sends: seq<Send>) {
    && (forall k :: 0 <= k < |sends| ==>
          && SendSafe(sends[k]) && E.Spent(s, sends[k].work.Effect())
          && (Enqueues(sends[k]) ==> s.attempts != []))
    && (forall i, j :: 0 <= i < j < |sends| ==>
          sends[i].work.request.operationId != sends[j].work.request.operationId)
  }

  predicate Enqueues(e: Send) {
    e.work.request.action.PlayNext?
  }

  predicate OneOwner(sends: seq<Send>) {
    forall i, j ::
      0 <= i < j < |sends| && Enqueues(sends[i]) && Enqueues(sends[j]) ==>
        sends[i].owner == sends[j].owner
  }

  /** An owner that may still enqueue is the only one that ever did. */
  predicate OwnerSound(sends: seq<Send>, owner: nat, recovering: bool) {
    && OneOwner(sends)
    && (!recovering ==>
          forall k :: 0 <= k < |sends| && Enqueues(sends[k]) ==> sends[k].owner == owner)
  }

  /** In a canceled queue a reservation that was outstanding stays the last word: the last attempt
      is its successor once that exists, and its predecessor until then. */
  predicate Latched(s: QueueSnapshot, reservationId: Id) {
    && s.cancellationRequested && s.attempts != []
    && ReservationAt(s.reservations, reservationId).Some?
    && var n := ReservationAt(s.reservations, reservationId).value;
    && var r := s.reservations[n];
    && (forall k :: 0 <= k < |s.reservations| && s.reservations[k].state.Reserved? ==> k == n)
    && s.attempts[|s.attempts| - 1].attemptId
         == if AttemptAt(s.attempts, r.successorAttemptId).Some? then r.successorAttemptId
            else r.predecessorAttemptId
  }

  /** A stop that waited is carried out in time, in a canceled queue, through confirmed playback of
      exactly the attempt that the queue has selected. */
  predicate StopSafe(e: StopRun) {
    && !e.playback.ownershipLost
    && e.rows.cancellationRequested
    && (e.deferred.Some? ==>
          && e.now <= e.deferred.value.deadline
          && e.playback.evidence.receiverPlaybackConfirmed
          && CommandAt(e.rows.commands, e.deferred.value.commandId).None?
          && e.rows.attempts != []
          && e.playback.scope.request.attemptId
               == e.rows.attempts[|e.rows.attempts| - 1].attemptId)
  }

  predicate LoadedSound(q: QueueSnapshot, s: QueueSnapshot) {
    && Durable(q) && Continues(q, s)
    && (q.cancellationRequested && OutstandingAt(q.reservations).Some? ==>
          Latched(s, q.reservations[OutstandingAt(q.reservations).value].reservationId))
  }

  predicate StepSound(s: QueueSnapshot, step: Step, sends: seq<Send>) {
    match step
    case Waiting => true
    case Loaded(q) => LoadedSound(q, s)
    case Executing(work, pc, dispatch) =>
      && Durable(dispatch) && Continues(dispatch, s)
      && work.request.WellFormed() && N.Ordinary(work.owned)
      && (match pc
          case Begun => true
          case Loaded(_) => true
          case Prepared(revision) => revision == dispatch.revision && Journaled(dispatch, work)
          case Claimed(revision) => revision == dispatch.revision && Unsent(dispatch, work, sends)
          case Permitted(revision) => revision == dispatch.revision && Unsent(dispatch, work, sends)
          case Returned(revision, _) => revision == dispatch.revision && Journaled(dispatch, work)
          case Done => Journaled(dispatch, work))
  }

  predicate Unsent(dispatch: QueueSnapshot, work: Work, sends: seq<Send>) {
    && Claimed(dispatch, work)
    && forall k :: 0 <= k < |sends| ==>
         sends[k].work.request.operationId != work.request.operationId
  }

  predicate StopsSound(t: Task) {
    && (forall k :: 0 <= k < |t.stops| ==> StopSafe(t.stops[k]))
    && (t.stopping.Some? ==>
          t.rows.cancellationRequested
          && (t.step.Loaded? ==> t.step.queue.cancellationRequested))
    && (t.pending.Some? ==> Latched(t.rows, t.pending.value.reservationId))
    && (t.pending.Some? && t.step.Loaded? ==>
          Latched(t.step.queue, t.pending.value.reservationId))
  }

  predicate Sound(t: Task) {
    && Durable(t.rows) && t.rows.mode.Native?
    && TrackersSound(t)
    && (t.following.Some? ==> Declared(t.rows, t.following.value))
    && SendsSound(t.rows, t.sends) && OwnerSound(t.sends, t.owner, t.recovering)
    && StepSound(t.rows, t.step, t.sends)
    && StopsSound(t)
  }

  // ---------------------------------------------------------------- ordinary snapshots

  lemma {:induction false} OrdinarySample(s: SessionSnapshot, o: PlaybackObservation,
                                          now: Monotonic, policy: EvidencePolicy)
    requires N.Ordinary(s)
    ensures N.Ordinary(Policy.Sample(s, o, now, policy))
  {
    hide Policy.Consume;
    Policy.ConsumeSteps(Policy.Ordered(s, o), o, now, policy);
  }

  lemma {:induction false} OrdinaryRefresh(s: SessionSnapshot, now: Monotonic,
                                           policy: EvidencePolicy)
    requires N.Ordinary(s) && Policy.Refresh(s, now, policy).Ok?
    ensures N.Ordinary(Policy.Refresh(s, now, policy).value)
  {
  }

  lemma {:induction false} OrdinaryBatch(s: SessionSnapshot, batch: seq<PlaybackObservation>,
                                         now: Monotonic, policy: EvidencePolicy)
    requires N.Ordinary(s) && Policy.ObserveAll(s, batch, now, policy).Ok?
    ensures N.Ordinary(Policy.ObserveAll(s, batch, now, policy).value)
    decreases |batch|
  {
    hide N.Ordinary, Policy.Sample, Policy.Refresh;
    if batch != [] {
      OrdinaryRefresh(s, now, policy);
      OrdinarySample(Policy.Refresh(s, now, policy).value, batch[0], now, policy);
      OrdinaryBatch(Policy.Observe(s, batch[0], now, policy).value, batch[1..], now, policy);
    }
  }

  lemma {:induction false} OrdinaryFollowed(w: N.Watch, s: SessionSnapshot, o: PlaybackObservation,
                                            now: Monotonic)
    requires N.Ordinary(s) && Policy.Refresh(s, now, w.policy).Ok?
    ensures N.Ordinary(N.Followed(w, s, o, now))
  {
    hide N.Ordinary, Policy.Sample, Policy.Refresh;
    OrdinaryRefresh(s, now, w.policy);
    OrdinarySample(Policy.Refresh(s, now, w.policy).value, o, now, w.policy);
  }

  lemma {:induction false} OrdinaryInvalid(s: SessionSnapshot)
    requires N.Ordinary(s)
    ensures N.Ordinary(Policy.InvalidateHistory(s))
  {
  }

  lemma {:induction false} OrdinaryJudged(w: N.Watch, t: N.Tracker, o: PlaybackObservation,
                                          now: Monotonic, boundary: Monotonic,
                                          waiting: Option<ContentRef>)
    requires N.Current(t.snapshot, now) && OrdinaryIfAny(t.snapshot)
    ensures OrdinaryIfAny(N.Judged(w, t, o, now, boundary, waiting).snapshot)
  {
    hide N.Contradiction, N.ExactSession, N.Witnessed, N.Followed;
    if t.snapshot.Some? {
      OrdinaryFollowed(w, t.snapshot.value, o, now);
      OrdinaryInvalid(t.snapshot.value);
    } else {
      OrdinaryFollowed(w, N.Scoped(w, boundary), o, now);
    }
  }

  lemma {:induction false} AdvancedIsCurrent(t: N.Tracker, o: PlaybackObservation)
    requires N.Current(t.snapshot, t.now)
    ensures N.Current(N.Advanced(t, o).snapshot, t.now)
  {
  }

  lemma {:induction false} OrdinaryNoted(w: N.Watch, t: N.Tracker, o: PlaybackObservation,
                                         waiting: Option<ContentRef>)
    requires N.Valid(w, t) && OrdinaryIfAny(t.snapshot)
    ensures N.Current(t.snapshot, t.now)
    ensures OrdinaryIfAny(N.Noted(w, t, o, t.now, waiting).snapshot)
  {
    hide N.Judged, N.InWindow, N.Ordinary, N.Valid, Policy.InvalidateHistory;
    N.ValidIsCurrent(w, t);
    if t.snapshot.Some? {
      OrdinaryInvalid(t.snapshot.value);
    }
    AdvancedIsCurrent(t, o);
    OrdinaryJudged(w, N.Advanced(t, o), o, t.now, t.lastMonotonic, waiting);
  }

  lemma {:induction false} OrdinaryNotedAll(w: N.Watch, t: N.Tracker,
                                            events: seq<PlaybackObservation>,
                                            waiting: Option<ContentRef>)
    requires N.Valid(w, t) && N.NotStale(w, t) && OrdinaryIfAny(t.snapshot)
    ensures OrdinaryIfAny(N.NotedAll(w, t, events, waiting).snapshot)
    decreases |events|
  {
    hide N.Valid, N.NotStale, N.Noted, OrdinaryIfAny;
    if events != [] {
      OrdinaryNotedAll(w, t, events[..|events| - 1], waiting);
      OrdinaryNoted(w, N.NotedAll(w, t, events[..|events| - 1], waiting), events[|events| - 1],
                    waiting);
    }
  }

  lemma {:induction false} OrdinaryRenewed(w: N.Watch, t: N.Tracker, now: Monotonic)
    requires N.Valid(w, t) && t.now <= now && OrdinaryIfAny(t.snapshot)
    ensures OrdinaryIfAny(N.Renewed(w, t, now).snapshot)
  {
    hide N.Valid, N.Ordinary, Policy.Refresh;
    if t.snapshot.Some? {
      N.RenewableSnapshot(w, t, now);
      OrdinaryRefresh(t.snapshot.value, now, w.policy);
    }
  }

  lemma {:induction false} WatchingObserved(c: Watching, events: seq<PlaybackObservation>,
                                            now: Monotonic)
    requires WatchingSound(c) && N.Observed(c.watch, c.tracker, events, now).Ok?
    ensures WatchingSound(c.(tracker := N.Observed(c.watch, c.tracker, events, now).value))
  {
    hide N.Valid, N.NotStale, OrdinaryIfAny, N.Renewed, N.NotedAll;
    N.RenewedKeeps(c.watch, c.tracker, now);
    OrdinaryRenewed(c.watch, c.tracker, now);
    var t := N.Renewed(c.watch, c.tracker, now);
    OrdinaryNotedAll(c.watch, t, events, None);
    OrdinaryRenewed(c.watch, N.NotedAll(c.watch, t, events, None), now);
  }

  lemma {:induction false} FollowingObserved(f: Following, events: seq<PlaybackObservation>,
                                             now: Monotonic)
    requires FollowingSound(f)
    requires N.PairObserved(f.authorization, f.watch, f.pair, events, now).Ok?
    ensures FollowingSound(
      f.(pair := N.PairObserved(f.authorization, f.watch, f.pair, events, now).value))
  {
    hide N.Valid, N.NotStale, OrdinaryIfAny, N.Renewed, N.PairNotedAll;
    N.RenewedKeeps(f.watch, f.pair.tracker, now);
    OrdinaryRenewed(f.watch, f.pair.tracker, now);
    var p := N.PairRenewed(f.watch, f.pair, now);
    OrdinaryPair(f.authorization, f.watch, p, events);
    OrdinaryRenewed(f.watch, N.PairNotedAll(f.authorization, f.watch, p, events).tracker, now);
  }

  lemma {:induction false} OrdinaryPair(a: N.Authorization, w: N.Watch, p: N.Succession,
                                        events: seq<PlaybackObservation>)
    requires N.ValidPair(w, p) && N.NotStale(w, p.tracker) && OrdinaryIfAny(p.tracker.snapshot)
    ensures OrdinaryIfAny(N.PairNotedAll(a, w, p, events).tracker.snapshot)
    decreases |events|
  {
    hide N.ValidPair, N.NotStale, N.PairNoted, OrdinaryIfAny;
    if events != [] {
      OrdinaryPair(a, w, p, events[..|events| - 1]);
      OrdinaryPairNoted(a, w, N.PairNotedAll(a, w, p, events[..|events| - 1]),
                        events[|events| - 1]);
    }
  }

  lemma {:induction false} OrdinaryPairNoted(a: N.Authorization, w: N.Watch, p: N.Succession,
                                             o: PlaybackObservation)
    requires N.ValidPair(w, p) && N.NotStale(w, p.tracker) && OrdinaryIfAny(p.tracker.snapshot)
    ensures OrdinaryIfAny(N.PairNoted(a, w, p, o).tracker.snapshot)
  {
    hide N.Valid, N.NotStale, N.Noted, OrdinaryIfAny, N.InWindow, N.Followed, N.Bereft;
    OrdinaryNoted(w, p.tracker, o, Some(a.predecessor.content));
  }

  // ---------------------------------------------------------------- the journal moves on

  /** Keys make lookups stable: what was found is found at the same place. */
  lemma {:induction false} LookupsStay(s: QueueSnapshot, t: QueueSnapshot)
    requires Keyed(s) && Keyed(t) && RowsContinue(s, t)
    ensures forall id :: ReservationAt(s.reservations, id).Some? ==>
      ReservationAt(t.reservations, id) == ReservationAt(s.reservations, id)
    ensures forall id :: ItemAt(t.items, id) == ItemAt(s.items, id)
  {
    hide AttemptContinues, CommandContinues, OperationContinues;
    forall id | ReservationAt(s.reservations, id).Some?
      ensures ReservationAt(t.reservations, id) == ReservationAt(s.reservations, id)
    {
      var k := ReservationAt(s.reservations, id).value;
      assert ReservationContinues(s.reservations[k], t.reservations[k]);
    }
    forall k | 0 <= k < |s.items| ensures t.items[k].itemId == s.items[k].itemId {
      assert ItemContinues(s.items[k], t.items[k]);
    }
    hide ItemContinues, ReservationContinues;
  }

  lemma {:induction false} DeclaredStays(s: QueueSnapshot, t: QueueSnapshot, f: Following)
    requires Durable(s) && Durable(t) && Continues(s, t) && Declared(s, f)
    ensures Declared(t, f)
  {
    assert Keyed(s) && Keyed(t) && RowsContinue(s, t) && t.target == s.target;
    hide Durable, Continues, Keyed;
    LookupsStay(s, t);
    var k := ReservationAt(s.reservations, f.reservationId).value;
    assert ReservationContinues(s.reservations[k], t.reservations[k]);
    var i := ItemAt(s.items, s.reservations[k].successorItemId).value;
    assert ItemContinues(s.items[i], t.items[i]);
  }

  lemma {:induction false} SendsStay(s: QueueSnapshot, t: QueueSnapshot, sends: seq<Send>)
    requires Durable(t) && Continues(s, t) && SendsSound(s, sends)
    ensures SendsSound(t, sends)
  {
    assert Keyed(t) && RowsContinue(s, t);
    hide Durable, Continues, Keyed, E.Spent, SendSafe;
    forall k | 0 <= k < |sends| ensures E.Spent(t, sends[k].work.Effect()) {
      E.StateContinues(s, t, sends[k].work.Effect());
    }
  }

  /** In a canceled native queue nothing is reserved or started any more, and only the outstanding
      reservation can still add its successor. */
  lemma {:induction false} CanceledWrites(s: QueueSnapshot, taken: Taken, op: StoreOp)
    requires s.mode.Native? && s.cancellationRequested && s.attempts != []
    requires Write(s, taken, op).Ok?
    ensures var t := Write(s, taken, op).value;
            && |t.reservations| == |s.reservations|
            && (|t.attempts| == |s.attempts| || AdoptsReserved(s, t, op))
  {
    hide Write;
    match op {
      case OpReserve(_, _, _, _, _, _, _) => CanceledStages(s, taken, op);
      case OpAdopt(_, _, _, _, _, _, _) => CanceledAdopts(s, taken, op);
      case _ => CanceledOthers(s, taken, op);
    }
  }

  lemma {:induction false} CanceledStages(s: QueueSnapshot, taken: Taken, op: StoreOp)
    requires s.cancellationRequested && op.OpReserve? && Write(s, taken, op).Ok?
    ensures Write(s, taken, op).value == s
  {
    hide AnyReserved, Stageable, RequestMatches, ReservationFree, Blank, OperationAt, ReservationAt;
  }

  lemma {:induction false} CanceledAdopts(s: QueueSnapshot, taken: Taken, op: StoreOp)
    requires op.OpAdopt? && Write(s, taken, op).Ok?
    ensures var t := Write(s, taken, op).value;
            && |t.reservations| == |s.reservations|
            && (|t.attempts| == |s.attempts| || AdoptsReserved(s, t, op))
  {
    hide QualifiedProgress, ObservedMatches, AdoptionFree, Blank, ItemAt, EnqueueAt, Sent;
  }

  lemma {:induction false} CanceledOthers(s: QueueSnapshot, taken: Taken, op: StoreOp)
    requires s.mode.Native? && s.cancellationRequested && s.attempts != []
    requires Write(s, taken, op).Ok? && !op.OpReserve? && !op.OpAdopt?
    ensures var t := Write(s, taken, op).value;
            |t.reservations| == |s.reservations| && |t.attempts| == |s.attempts|
  {
    hide AnyUnsettledItem, PendingItem, Stoppable, AnyUnresolved, AnyReserved, Has, Dispatchable,
         RequestMatches, ActionFree, SameOperation, NativeDispatchable, OwnsUnresolved,
         DecisionFree, Blank;
  }

  predicate AdoptsReserved(s: QueueSnapshot, t: QueueSnapshot, op: StoreOp) {
    && op.OpAdopt? && ReservationAt(s.reservations, op.reservationId).Some?
    && var r := s.reservations[ReservationAt(s.reservations, op.reservationId).value];
    && r.state.Reserved?
    && |t.attempts| == |s.attempts| + 1
    && t.attempts[|s.attempts|].attemptId == r.successorAttemptId
  }

  lemma {:induction false} LatchedStays(s: QueueSnapshot, taken: Taken, op: StoreOp, id: Id)
    requires Durable(s) && s.mode.Native? && Latched(s, id)
    requires Write(s, taken, op).Ok?
    requires var t := Write(s, taken, op).value; Durable(t) && Continues(s, t)
    ensures Latched(Write(s, taken, op).value, id)
  {
    hide Durable, Continues, Write;
    CanceledWrites(s, taken, op);
    LatchedRows(s, Write(s, taken, op).value, op, id);
  }

  lemma {:induction false} LatchedRows(s: QueueSnapshot, t: QueueSnapshot, op: StoreOp, id: Id)
    requires Durable(s) && Durable(t) && Continues(s, t) && Latched(s, id)
    requires |t.reservations| == |s.reservations|
    requires |t.attempts| == |s.attempts| || AdoptsReserved(s, t, op)
    ensures Latched(t, id)
  {
    hide Durable, Continues, RowsContinue, AttemptIds, ReservationAt, AttemptAt, Keyed;
    KeysOf(s);
    KeysOf(t);
    LatchesOf(s, t);
    LookupsStay(s, t);
    AttemptsStay(s, t);
    LastStays(s, t);
    OutstandingStays(s.reservations, t.reservations, ReservationAt(s.reservations, id).value);
    if |t.attempts| != |s.attempts| {
      AppendedIsFound(t);
    }
  }

  lemma {:induction false} KeysOf(s: QueueSnapshot)
    requires Durable(s)
    ensures Keyed(s) && AttemptIds(s.attempts)
  {
  }

  lemma {:induction false} LatchesOf(s: QueueSnapshot, t: QueueSnapshot)
    requires Continues(s, t)
    ensures RowsContinue(s, t)
    ensures s.cancellationRequested ==> t.cancellationRequested
    ensures forall k :: 0 <= k < |s.reservations| ==>
      ReservationContinues(s.reservations[k], t.reservations[k])
  {
  }

  lemma {:induction false} OutstandingStays(rs: seq<NativeReservation>, ts: seq<NativeReservation>,
                                            n: nat)
    requires n < |rs| == |ts|
    requires forall k :: 0 <= k < |rs| ==> ReservationContinues(rs[k], ts[k])
    requires forall k :: 0 <= k < |rs| && rs[k].state.Reserved? ==> k == n
    ensures forall k :: 0 <= k < |ts| && ts[k].state.Reserved? ==> k == n
    ensures ts[n].successorAttemptId == rs[n].successorAttemptId
    ensures ts[n].predecessorAttemptId == rs[n].predecessorAttemptId
  {
  }

  lemma {:induction false} LastStays(s: QueueSnapshot, t: QueueSnapshot)
    requires RowsContinue(s, t) && s.attempts != []
    ensures t.attempts[|s.attempts| - 1].attemptId == s.attempts[|s.attempts| - 1].attemptId
  {
    assert AttemptContinues(s.attempts[|s.attempts| - 1], t.attempts[|s.attempts| - 1]);
  }

  lemma {:induction false} AppendedIsFound(t: QueueSnapshot)
    requires t.attempts != []
    ensures AttemptAt(t.attempts, t.attempts[|t.attempts| - 1].attemptId).Some?
  {
  }

  lemma {:induction false} AttemptsStay(s: QueueSnapshot, t: QueueSnapshot)
    requires RowsContinue(s, t) && AttemptIds(t.attempts)
    ensures forall id :: AttemptAt(s.attempts, id).Some? ==>
      AttemptAt(t.attempts, id) == AttemptAt(s.attempts, id)
    ensures |t.attempts| == |s.attempts| ==>
      forall id :: AttemptAt(t.attempts, id) == AttemptAt(s.attempts, id)
  {
    forall id | AttemptAt(s.attempts, id).Some?
      ensures AttemptAt(t.attempts, id) == AttemptAt(s.attempts, id)
    {
      var k := AttemptAt(s.attempts, id).value;
      assert AttemptContinues(s.attempts[k], t.attempts[k]);
    }
    forall id | |t.attempts| == |s.attempts| && AttemptAt(t.attempts, id).Some?
      ensures AttemptAt(s.attempts, id).Some?
    {
      var k := AttemptAt(t.attempts, id).value;
      assert AttemptContinues(s.attempts[k], t.attempts[k]);
    }
  }

  lemma {:induction false} LatchedAfter(s: QueueSnapshot, call: Call, id: Id)
    requires Durable(s) && s.mode.Native? && call.op.WellFormed() && Latched(s, id)
    ensures Latched(QueueHistory.After(s, call), id)
  {
    hide Durable, Write, Latched, Continues, RollsBack;
    AfterContinues(s, call);
    ApplyKeeps(s, call.taken, call.op);
    if Apply(s, call.taken, call.op).Ok? {
      LatchedStays(s, call.taken, call.op, id);
    }
  }

  lemma {:induction false} StepAfter(s: QueueSnapshot, call: Call, step: Step, sends: seq<Send>)
    requires Durable(s) && s.mode.Native? && call.op.WellFormed() && StepSound(s, step, sends)
    ensures StepSound(QueueHistory.After(s, call), step, sends)
  {
    hide Durable, Latched, Continues, QueueHistory.After, Unsent, Journaled, N.Ordinary;
    AfterContinues(s, call);
    match step {
      case Loaded(q) =>
        ContinuesTransitively(q, s, QueueHistory.After(s, call));
        if q.cancellationRequested && OutstandingAt(q.reservations).Some? {
          LatchedAfter(s, call,
                       q.reservations[OutstandingAt(q.reservations).value].reservationId);
        }
      case Executing(work, pc, dispatch) =>
        ContinuesTransitively(dispatch, s, QueueHistory.After(s, call));
      case _ =>
    }
  }

  /** Whatever a transaction does to the journal, the owner stays sound. */
  lemma {:induction false} RowsKeep(t: Task, call: Call)
    requires Sound(t) && call.op.WellFormed()
    ensures Sound(t.(rows := QueueHistory.After(t.rows, call)))
    ensures Continues(t.rows, QueueHistory.After(t.rows, call))
  {
    hide Durable, Latched, Continues, QueueHistory.After, StepSound, SendsSound, OwnerSound,
         WatchingSound, FollowingSound, OrdinaryIfAny, Declared, StopSafe;
    var rows := QueueHistory.After(t.rows, call);
    AfterContinues(t.rows, call);
    ModeStays(t.rows, rows);
    StepAfter(t.rows, call, t.step, t.sends);
    SendsStay(t.rows, rows, t.sends);
    if t.following.Some? {
      DeclaredStays(t.rows, rows, t.following.value);
    }
    if t.pending.Some? {
      LatchedAfter(t.rows, call, t.pending.value.reservationId);
    }
  }

  lemma {:induction false} ModeStays(s: QueueSnapshot, t: QueueSnapshot)
    requires Continues(s, t)
    ensures t.mode == s.mode
    ensures s.cancellationRequested ==> t.cancellationRequested
    ensures s.attempts != [] ==> t.attempts != []
    ensures s.revision == t.revision ==> s == t
  {
  }

  // ---------------------------------------------------------------- the executor's steps

  lemma {:induction false} AppendedReservation(rs: seq<NativeReservation>, r: NativeReservation)
    requires forall k :: 0 <= k < |rs| ==> rs[k].reservationId != r.reservationId
    ensures ReservationAt(rs + [r], r.reservationId) == Some(|rs|)
  {
    assert (rs + [r])[..|rs|] == rs;
  }

  lemma {:induction false} AppendedOperation(ops: seq<NativeOperation>, o: NativeOperation)
    requires OperationAt(ops, o.operationId).None?
    ensures OperationAt(ops + [o], o.operationId) == Some(|ops|)
  {
    assert (ops + [o])[..|ops|] == ops;
  }

  lemma {:induction false} StageJournals(s: QueueSnapshot, taken: Taken, work: Work, at: Instant)
    requires work.request.action.PlayNext?
    requires PrepareNativeSuccessor(s, taken, work.itemId, work.reservationId, work.attemptId,
                                    work.request, at, work.revision, work.generation).Ok?
    ensures Journaled(PrepareNativeSuccessor(s, taken, work.itemId, work.reservationId,
                                             work.attemptId, work.request, at, work.revision,
                                             work.generation).value, work)
  {
    hide Stageable, AnyReserved, ItemAt, AttemptAt, Blank, OperationAt, ReservationAt;
    if OperationAt(s.operations, work.request.operationId).None? {
      var r := NewReservation(s, s.attempts[|s.attempts| - 1], work.itemId, work.reservationId,
                              work.attemptId, work.request, at);
      AppendedReservation(s.reservations, r);
      AppendedOperation(s.operations, NewOperation(s, work.reservationId, work.request, at));
    }
  }

  lemma {:induction false} ClearJournals(s: QueueSnapshot, taken: Taken, work: Work, at: Instant)
    requires work.request.action.Clear?
    requires PrepareNativeClear(s, taken, work.reservationId, work.request, at, work.revision,
                                work.generation).Ok?
    ensures Journaled(PrepareNativeClear(s, taken, work.reservationId, work.request, at,
                                         work.revision, work.generation).value, work)
  {
    hide ActionFree, ItemAt, AttemptAt, OperationAt, ReservationAt;
    if OperationAt(s.operations, work.request.operationId).None? {
      AppendedOperation(s.operations, NewOperation(s, work.reservationId, work.request, at));
    }
  }

  lemma {:induction false} PrepareJournals(s: QueueSnapshot, taken: Taken, work: Work, at: Instant)
    requires Write(s, taken, work.Request().Prepare(at)).Ok?
    ensures Journaled(Write(s, taken, work.Request().Prepare(at)).value, work)
  {
    hide PrepareNativeSuccessor, PrepareNativeClear, Journaled;
    if work.request.action.PlayNext? {
      StageJournals(s, taken, work, at);
    } else {
      ClearJournals(s, taken, work, at);
    }
  }

  /** An operation's transition happens on exactly the rows it was fenced to. */
  lemma {:induction false} MoveIsFenced(s: QueueSnapshot, id: Id, state: ExecutionState,
                                        at: Instant, revision: int, generation: int)
    requires TransitionNative(s, id, state, at, revision, generation).Ok?
    ensures s.revision == revision && s.generation == generation
  {
  }

  lemma {:induction false} MoveJournals(s: QueueSnapshot, work: Work, state: ExecutionState,
                                        at: Instant)
    requires Keyed(s) && Journaled(s, work)
    requires TransitionNative(s, work.request.operationId, state, at, s.revision,
                              work.generation).Ok?
    ensures var t := TransitionNative(s, work.request.operationId, state, at, s.revision,
                                      work.generation).value;
            Journaled(t, work) && (state.Dispatched? ==> Claimed(t, work))
  {
    hide ItemAt, AttemptAt, ReservationAt, AttemptKeys, CommandKeys, ReservationKeys;
    var id := work.request.operationId;
    var k := OperationAt(s.operations, id).value;
    MovedIsFound(s, k, state, at);
  }

  lemma {:induction false} MovedIsFound(s: QueueSnapshot, k: nat, state: ExecutionState,
                                        at: Instant)
    requires OperationKeys(s.reservations, s.operations) && k < |s.operations|
    ensures var ops := WithOperation(s.operations, s.operations[k].operationId, state, at);
            OperationAt(ops, s.operations[k].operationId) == Some(k)
  {
    var ops := WithOperation(s.operations, s.operations[k].operationId, state, at);
    assert ops[k].operationId == s.operations[k].operationId;
    var n := OperationAt(ops, s.operations[k].operationId);
    assert s.operations[n.value].operationId == s.operations[k].operationId;
  }

  /** A step other than a fresh read. */
  lemma {:induction false} Restep(t: Task, step: Step)
    requires Sound(t) && StepSound(t.rows, step, t.sends) && !step.Loaded?
    ensures Sound(t.(step := step))
  {
    hide Durable, Latched, StepSound, SendsSound, OwnerSound, WatchingSound, FollowingSound,
         OrdinaryIfAny, Declared, StopSafe;
  }

  /** A committed transaction followed by another step of the same owner. */
  lemma {:induction false} Commits(t: Task, taken: Taken, op: StoreOp)
    requires Sound(t) && op.WellFormed() && Apply(t.rows, taken, op).Ok?
    ensures var rows := Apply(t.rows, taken, op).value;
            && Sound(t.(rows := rows)) && Write(t.rows, taken, op) == Ok(rows)
            && Durable(t.rows) && Durable(rows) && Continues(t.rows, rows) && Continues(rows, rows)
  {
    hide Sound, Durable, Continues, Write, RollsBack;
    var call := Call(taken, op);
    RowsKeep(t, call);
    SoundIsDurable(t);
    AfterContinues(t.rows, call);
    ApplyKeeps(t.rows, taken, op);
    ContinuesReflexively(Apply(t.rows, taken, op).value);
  }

  lemma {:induction false} SoundIsDurable(t: Task)
    requires Sound(t)
    ensures Durable(t.rows) && StepSound(t.rows, t.step, t.sends) && t.rows.mode.Native?
  {
    hide Durable;
  }

  lemma {:induction false} PrepareKeeps(t: Task, c: E.Choice)
    requires Sound(t) && t.step.Executing? && t.step.pc.Loaded?
    ensures Sound(Advance(t, c))
  {
    hide Sound, Durable, Continues, Write, Apply, Journaled, E.OfGeneration, E.StateOf;
    var Executing(work, pc, dispatch) := t.step;
    SoundIsDurable(t);
    var op := work.Request().Prepare(c.at);
    if Apply(t.rows, c.taken, op).Ok? {
      Commits(t, c.taken, op);
      PrepareJournals(t.rows, c.taken, work, c.at);
    }
    Restep(if Apply(t.rows, c.taken, op).Ok? then t.(rows := Apply(t.rows, c.taken, op).value)
           else t, Advance(t, c).step);
  }

  lemma {:induction false} ClaimKeeps(t: Task, c: E.Choice)
    requires Sound(t) && t.step.Executing? && t.step.pc.Prepared?
    ensures Sound(Advance(t, c))
  {
    hide Sound, Durable, Continues, Write, Apply, Journaled, Claimed;
    var Executing(work, pc, dispatch) := t.step;
    SoundIsDurable(t);
    var op := work.Request().Claim(c.at, pc.revision);
    if Apply(t.rows, c.taken, op).Ok? {
      Commits(t, c.taken, op);
      ClaimIsUnsent(t, work, dispatch, c);
    }
    Restep(if Apply(t.rows, c.taken, op).Ok? then t.(rows := Apply(t.rows, c.taken, op).value)
           else t, Advance(t, c).step);
  }

  lemma {:induction false} ClaimIsUnsent(t: Task, work: Work, dispatch: QueueSnapshot, c: E.Choice)
    requires Sound(t) && Continues(dispatch, t.rows) && Journaled(dispatch, work)
    requires Write(t.rows, c.taken, work.Request().Claim(c.at, dispatch.revision)).Ok?
    ensures Unsent(Write(t.rows, c.taken, work.Request().Claim(c.at, dispatch.revision)).value,
                   work, t.sends)
  {
    hide Durable, Continues, Journaled, Claimed, Keyed, TransitionNative, StepSound, TrackersSound,
         Declared, OwnerSound, StopsSound, SendSafe, E.StateOf;
    KeysOf(t.rows);
    ModeStays(dispatch, t.rows);
    MoveIsFenced(t.rows, work.request.operationId, ExecutionState.Dispatched, c.at,
                 dispatch.revision, work.generation);
    MoveJournals(t.rows, work, ExecutionState.Dispatched, c.at);
    E.ClaimSpends(t.rows, c.taken, work.Request(), c.at, dispatch.revision);
  }

  lemma {:induction false} RecordKeeps(t: Task, c: E.Choice)
    requires Sound(t) && t.step.Executing? && t.step.pc.Returned?
    ensures Sound(Advance(t, c))
  {
    hide Sound, Durable, Continues, Write, Apply, Journaled;
    var Executing(work, pc, dispatch) := t.step;
    SoundIsDurable(t);
    var op := work.Request().Record(pc.outcome, c.at, pc.revision);
    if Apply(t.rows, c.taken, op).Ok? {
      Commits(t, c.taken, op);
      RecordJournals(t.rows, c.taken, work, pc.outcome, dispatch, c.at);
    }
    Restep(if Apply(t.rows, c.taken, op).Ok? then t.(rows := Apply(t.rows, c.taken, op).value)
           else t, Advance(t, c).step);
  }

  lemma {:induction false} RecordJournals(s: QueueSnapshot, taken: Taken, work: Work,
                                          outcome: ExecutionState, dispatch: QueueSnapshot,
                                          at: Instant)
    requires Durable(s) && Continues(dispatch, s) && Journaled(dispatch, work)
    requires Write(s, taken, work.Request().Record(outcome, at, dispatch.revision)).Ok?
    ensures Journaled(Write(s, taken,
                            work.Request().Record(outcome, at, dispatch.revision)).value, work)
  {
    hide Durable, Continues, Journaled, Claimed, Keyed, TransitionNative;
    KeysOf(s);
    ModeStays(dispatch, s);
    MoveIsFenced(s, work.request.operationId, outcome, at, dispatch.revision, work.generation);
    MoveJournals(s, work, outcome, at);
  }

  /** What the last check lets through is safe to send, once. */
  lemma {:induction false} SendKeeps(t: Task, c: E.Choice)
    requires Sound(t) && t.step.Executing? && t.step.pc.Permitted?
    ensures Sound(Advance(t, c))
  {
    hide Sound, Durable, Continues, Journaled, Claimed, SendSafe, SendsSound, OwnerSound,
         TrackersSound, Declared, StopsSound, E.Outcome;
    var Executing(work, pc, dispatch) := t.step;
    SoundIsDurable(t);
    var u := Advance(t, c);
    ModeStays(dispatch, t.rows);
    ClaimIsSpent(dispatch, work);
    if u.sends != t.sends {
      var e := Send(t.owner, t.recovering, t.rows, work, t.playback.value);
      assert SendSafe(e) by { SafeSend(e); }
      SendAdds(t, e);
    }
    Restep(t, Waiting);
    Restep(t.(step := Waiting, sends := u.sends), u.step);
  }

  lemma {:induction false} SafeSend(e: Send)
    requires Durable(e.rows) && e.rows.mode.Native? && Claimed(e.rows, e.work)
    requires !e.playback.ownershipLost && e.playback.scope == e.work.request.scope
    requires e.work.request.action.PlayNext? ==> !e.recovering
    ensures SendSafe(e)
  {
    hide Claimed, Durable;
  }

  /** One more send of an operation that is used up and was not sent before. */
  lemma {:induction false} SendAdds(t: Task, e: Send)
    requires Sound(t) && SendSafe(e) && E.Spent(t.rows, e.work.Effect())
    requires Enqueues(e) ==> t.rows.attempts != [] && !t.recovering && e.owner == t.owner
    requires forall k :: 0 <= k < |t.sends| ==>
      t.sends[k].work.request.operationId != e.work.request.operationId
    requires !t.step.Loaded? && StepSound(t.rows, t.step, t.sends)
    ensures Sound(t.(step := Waiting, sends := t.sends + [e]))
  {
    hide Durable, SendSafe, E.Spent, WatchingSound, FollowingSound, OrdinaryIfAny, Declared,
         StopSafe, Latched;
    var sends := t.sends + [e];
    assert SendsSound(t.rows, sends);
    assert OwnerSound(sends, t.owner, t.recovering);
    hide SendsSound, OwnerSound;
  }

  lemma {:induction false} ClaimIsSpent(s: QueueSnapshot, work: Work)
    requires Claimed(s, work)
    ensures Journaled(s, work) && E.Spent(s, work.Effect())
    ensures work.request.action.PlayNext? ==>
      s.attempts != [] && !s.cancellationRequested && !s.reconciliationRequired
  {
    hide RequestMatches;
  }

  lemma {:induction false} AdvanceKeeps(t: Task, c: E.Choice)
    requires Sound(t) && t.step.Executing?
    ensures Sound(Advance(t, c))
  {
    hide Sound, Durable, Continues, Journaled, Claimed, Apply, E.StateOf;
    SoundIsDurable(t);
    match t.step.pc {
      case Begun => Restep(t, Advance(t, c).step);
      case Loaded(_) => PrepareKeeps(t, c);
      case Prepared(_) => ClaimKeeps(t, c);
      case Claimed(_) => Restep(t, Advance(t, c).step);
      case Permitted(_) => SendKeeps(t, c);
      case Returned(_, _) => RecordKeeps(t, c);
      case Done =>
    }
  }

  // ---------------------------------------------------------------- the owner's other steps

  /** What is followed after a sent enqueue was declared by its reservation. */
  lemma {:induction false} FollowedSound(s: QueueSnapshot, work: Work)
    requires work.request.action.PlayNext? && N.Ordinary(work.owned) && Journaled(s, work)
    requires Followed(s, work).Some?
    ensures FollowingSound(Followed(s, work).value) && Declared(s, Followed(s, work).value)
  {
    hide ReservationAt, OperationAt, RequestMatches;
  }

  lemma {:induction false} RejoinedSound(t: Task, generation: Id)
    requires t.following.Some? ==> FollowingSound(t.following.value)
    requires t.following.Some? ==> Declared(t.rows, t.following.value)
    requires ReservationKeys(t.rows.reservations)
    requires Rejoined(t, generation).Ok? && Rejoined(t, generation).value.Some?
    ensures FollowingSound(Rejoined(t, generation).value.value)
    ensures Declared(t.rows, Rejoined(t, generation).value.value)
  {
    hide ItemAt, EnqueueAt, AttemptAt, N.Valid, N.NotStale;
    var f := Rejoined(t, generation).value.value;
    if Rejoined(t, generation).value != t.following {
      OpenedSound(f.watch);
      var k := OutstandingAt(t.rows.reservations).value;
      FoundAt(t.rows.reservations, k);
    }
  }

  lemma {:induction false} OpenedSound(w: N.Watch)
    ensures N.Valid(w, N.Opened(w, -1)) && N.NotStale(w, N.Opened(w, -1))
  {
  }

  lemma {:induction false} FoundAt(rs: seq<NativeReservation>, k: nat)
    requires ReservationKeys(rs) && k < |rs|
    ensures ReservationAt(rs, rs[k].reservationId) == Some(k)
  {
    var n := ReservationAt(rs, rs[k].reservationId);
    assert n.Some? ==> rs[n.value].reservationId == rs[k].reservationId;
  }

  lemma {:induction false} ReopenedSound(t: Task, generation: Id, saved: Option<SessionSnapshot>)
    requires t.current.Some? ==> WatchingSound(t.current.value)
    requires Reopened(t, generation, saved).Ok? && Reopened(t, generation, saved).value.Some?
    ensures WatchingSound(Reopened(t, generation, saved).value.value)
  {
    hide KnownSession, Requested;
    OpenedSound(Reopened(t, generation, saved).value.value.watch);
  }

  /** Other trackers, another session, a loss of trust, or a stop that is given up. */
  lemma {:induction false} Retrack(t: Task, u: Task)
    requires Sound(t) && TrackersSound(u)
    requires u == t.(boundary := u.boundary, canceled := u.canceled, recovering := u.recovering,
                     observed := u.observed, playback := u.playback, current := u.current,
                     following := u.following, pending := u.pending)
    requires t.recovering ==> u.recovering
    requires u.pending.Some? ==> u.pending == t.pending
    requires u.following.Some? ==> Declared(u.rows, u.following.value)
    ensures Sound(u)
  {
    hide Durable, Latched, StepSound, SendsSound, TrackersSound, Declared, StopSafe, OneOwner;
  }

  lemma {:induction false} SoundTrackers(t: Task)
    requires Sound(t)
    ensures TrackersSound(t)
    ensures t.following.Some? ==> Declared(t.rows, t.following.value)
    ensures Keyed(t.rows) && ReservationKeys(t.rows.reservations)
  {
  }

  lemma {:induction false} HoldKeeps(t: Task, taken: Taken, revision: int)
    requires Sound(t) && Held(t.rows, taken, revision).Ok?
    ensures Sound(t.(rows := Held(t.rows, taken, revision).value))
  {
    hide Sound, Apply, Durable, Continues, Write;
    if !t.rows.reconciliationRequired {
      Commits(t, taken, OpHold(revision));
    }
  }

  lemma {:induction false} JoinKeeps(t: Task, generation: Id, saved: Option<SessionSnapshot>)
    requires Sound(t)
    ensures Sound(Joined(t, generation, saved))
  {
    hide Sound, Reopened, Rejoined, WatchingSound, FollowingSound, Declared, OrdinaryIfAny, Keyed,
         ReservationKeys;
    SoundTrackers(t);
    if Reopened(t, generation, saved).Ok? {
      var u := t.(current := Reopened(t, generation, saved).value);
      if u.current.Some? {
        ReopenedSound(t, generation, saved);
      }
      Retrack(t, u);
      if Rejoined(u, generation).Ok? && Rejoined(u, generation).value.Some? {
        RejoinedSound(u, generation);
      }
      Retrack(u, Joined(t, generation, saved));
    }
  }

  lemma {:induction false} DisconnectKeeps(t: Task, after: Monotonic)
    requires Sound(t)
    ensures Sound(Disconnected(t, after))
  {
    hide Sound, WatchingSound, FollowingSound, Declared;
    Retrack(t, Disconnected(t, after));
  }

  lemma {:induction false} AttendKeeps(t: Task, taken: Taken, events: seq<PlaybackObservation>,
                                       now: Monotonic, after: Monotonic,
                                       saved: Option<SessionSnapshot>, revision: int)
    requires Sound(t)
    ensures Sound(Attended(t, taken, events, now, after, saved, revision))
  {
    hide Sound, FreshEvents, Joined, Held, TrackersSound, Declared, AnyReset, Keyed,
         ReservationKeys;
    SoundTrackers(t);
    var seen := FreshEvents(t.rows.target, t.boundary, now, events);
    if seen != [] {
      var generation := seen[|seen| - 1].connectionGeneration;
      if t.observed.Some? && (generation != t.observed.value || AnyReset(seen)) {
        if Held(t.rows, taken, revision).Ok? {
          HoldKeeps(t, taken, revision);
          DisconnectKeeps(t.(rows := Held(t.rows, taken, revision).value), after);
        }
      } else {
        ObservedKeeps(t, after, Some(generation));
        JoinKeeps(t.(observed := Some(generation)), generation, saved);
      }
    }
  }

  lemma {:induction false} ObservedKeeps(t: Task, after: Monotonic, generation: Option<Id>)
    requires Sound(t)
    ensures Sound(t.(boundary := after)) && Sound(t.(observed := generation))
  {
    hide Sound, WatchingSound, FollowingSound, Declared, OrdinaryIfAny, Keyed, ReservationKeys;
    SoundTrackers(t);
    Retrack(t, t.(boundary := after));
    Retrack(t, t.(observed := generation));
  }

  lemma {:induction false} ConcludeKeeps(t: Task, taken: Taken, revision: int)
    requires Sound(t) && t.step.Executing? && t.step.pc.Done?
    ensures Sound(Concluded(t, taken, revision))
  {
    hide Sound, Held, Followed, WatchingSound, FollowingSound, Declared, OrdinaryIfAny, Keyed,
         ReservationKeys, Durable, Continues, Journaled, E.StateOf, Sent;
    SoundIsDurable(t);
    SoundTrackers(t);
    var Executing(work, _, dispatch) := t.step;
    var u := Concluded(t, taken, revision);
    if u.rows != t.rows {
      HoldKeeps(t, taken, revision);
      Restep(t.(rows := u.rows), Waiting);
    } else {
      if u.following != t.following {
        FollowedSound(dispatch, work);
        DeclaredStays(dispatch, t.rows, u.following.value);
      }
      Retrack(t, t.(following := u.following));
      Restep(t.(following := u.following), Waiting);
    }
  }

  // ---------------------------------------------------------------- reading and stopping

  /** An outstanding reservation of a canceled queue: its predecessor is the last attempt. */
  lemma {:induction false} OutstandingIsLatched(s: QueueSnapshot)
    requires Durable(s) && s.mode.Native? && s.cancellationRequested
    requires OutstandingAt(s.reservations).Some?
    ensures Latched(s, s.reservations[OutstandingAt(s.reservations).value].reservationId)
  {
    var k := OutstandingAt(s.reservations).value;
    OutstandingFollowsLast(s, k);
    KeysOfReservations(s);
    FoundAt(s.reservations, k);
    OnlyOutstanding(s);
    hide Durable;
  }

  lemma {:induction false} KeysOfReservations(s: QueueSnapshot)
    requires Durable(s)
    ensures ReservationKeys(s.reservations)
  {
  }

  lemma {:induction false} OnlyOutstanding(s: QueueSnapshot)
    requires Durable(s) && s.mode.Native?
    ensures forall i, j ::
      (&& 0 <= i < |s.reservations| && 0 <= j < |s.reservations|
       && s.reservations[i].state.Reserved? && s.reservations[j].state.Reserved?) ==> i == j
  {
    assert forall i, j :: 0 <= i < j < |s.reservations| ==>
      !(s.reservations[i].state.Reserved? && s.reservations[j].state.Reserved?);
    hide Durable;
  }

  lemma {:induction false} OutstandingFollowsLast(s: QueueSnapshot, k: nat)
    requires Durable(s) && s.mode.Native? && k < |s.reservations|
    requires s.reservations[k].state.Reserved?
    ensures s.attempts != []
    ensures s.attempts[|s.attempts| - 1].attemptId == s.reservations[k].predecessorAttemptId
    ensures AttemptAt(s.attempts, s.reservations[k].successorAttemptId).None?
    ensures s.reservations[k].adoptionDecisionId.None?
  {
    hide ItemAt, EnqueueAt, NextItem, EnqueueOk, OperationsOk, TextOk, PositionOk, StartsOk,
         CommandsOk, Keyed;
    var r := s.reservations[k];
    assert ReservationOk(s.items, s.attempts, s.operations, s.currentItemId, s.generation, r);
    var n := AttemptAt(s.attempts, r.predecessorAttemptId).value;
    assert s.attempts[n].itemId == s.attempts[|s.attempts| - 1].itemId;
  }

  lemma {:induction false} AdoptedHasAttempt(s: QueueSnapshot, k: nat)
    requires Durable(s) && s.mode.Native? && k < |s.reservations|
    requires s.reservations[k].state.Adopted?
    ensures AttemptAt(s.attempts, s.reservations[k].successorAttemptId).Some?
  {
    hide ItemAt, EnqueueAt, NextItem, EnqueueOk, OperationsOk, TextOk, PositionOk, StartsOk,
         CommandsOk, Keyed, AttemptsOk;
    assert ReservationOk(s.items, s.attempts, s.operations, s.currentItemId, s.generation,
                         s.reservations[k]);
  }

  lemma {:induction false} LoadKeeps(t: Task)
    requires Sound(t)
    ensures Sound(t.(step := Loaded(t.rows)))
  {
    hide Durable, Latched, SendsSound, OwnerSound, WatchingSound, FollowingSound, OrdinaryIfAny,
         Declared, StopSafe, Continues, StepSound;
    ContinuesReflexively(t.rows);
    if t.rows.cancellationRequested && OutstandingAt(t.rows.reservations).Some? {
      OutstandingIsLatched(t.rows);
    }
    assert StepSound(t.rows, Loaded(t.rows), t.sends) by { LoadedIsSound(t.rows, t.sends); }
  }

  lemma {:induction false} LoadedIsSound(s: QueueSnapshot, sends: seq<Send>)
    requires LoadedSound(s, s)
    ensures StepSound(s, Loaded(s), sends)
  {
  }

  /** What a waiting stop awaited is the selected attempt. */
  lemma {:induction false} AwaitedIsSelected(q: QueueSnapshot, id: Id,
                                             playback: Option<SessionSnapshot>)
    requires Durable(q) && q.mode.Native? && Latched(q, id)
    requires Awaited(playback, q.reservations[ReservationAt(q.reservations, id).value])
    ensures playback.value.scope.request.attemptId == q.attempts[|q.attempts| - 1].attemptId
  {
    hide Durable;
    var k := ReservationAt(q.reservations, id).value;
    if q.reservations[k].state.Adopted? {
      AdoptedHasAttempt(q, k);
    } else {
      OutstandingFollowsLast(q, k);
    }
  }

  lemma {:induction false} CarryKeeps(t: Task, q: QueueSnapshot, deferred: Option<PendingStop>,
                                      now: Monotonic)
    requires Sound(t) && t.step.Waiting?
    requires IsOwned(t.playback) ==> StopSafe(StopRun(deferred, q, t.playback.value, now))
    ensures Sound(Carried(t, q, deferred, now))
  {
    hide Durable, Latched, SendsSound, OwnerSound, WatchingSound, FollowingSound, OrdinaryIfAny,
         Declared, StopSafe, StepSound;
  }

  lemma {:induction false} StopKeeps(t: Task, now: Monotonic)
    requires Sound(t)
    ensures Sound(StopDecided(t, now))
  {
    hide Durable, Latched, SendsSound, OwnerSound, WatchingSound, FollowingSound, OrdinaryIfAny,
         Declared, MustWait, Carried, Continues;
    if t.stopping.Some? && t.step.Loaded? {
      var q := t.step.queue;
      var u := t.(stopping := None, step := Waiting);
      assert Sound(u);
      if !MustWait(t, q, t.stopping.value) {
        Retrack(u, u.(pending := None));
        CarryKeeps(u.(pending := None), q, None, now);
      } else {
        MustWaitHasReservation(t, q, t.stopping.value);
      }
    }
  }

  lemma {:induction false} MustWaitHasReservation(t: Task, q: QueueSnapshot, commandId: Id)
    requires MustWait(t, q, commandId)
    ensures OutstandingAt(q.reservations).Some?
  {
  }

  lemma {:induction false} ResumeStopKeeps(t: Task, now: Monotonic)
    requires Sound(t)
    ensures Sound(StopResumed(t, now))
  {
    hide Sound, Durable, Latched, StopSafe, Awaited, Carried, WatchingSound, FollowingSound,
         OrdinaryIfAny, Declared, Keyed, ReservationKeys, Lapsed;
    SoundTrackers(t);
    Restep(t, Waiting);
    if t.pending.Some? && t.step.Loaded? {
      var q := t.step.queue;
      var p := t.pending.value;
      var u := t.(step := Waiting, pending := None);
      Retrack(t.(step := Waiting), u);
      PendingIsLatched(t);
      var k := ReservationAt(q.reservations, p.reservationId).value;
      if !Lapsed(t, q, p, now) && Awaited(t.playback, q.reservations[k]) {
        AwaitedIsSelected(q, p.reservationId, t.playback);
        ResumedIsSafe(t, q, p, now);
        CarryKeeps(u, q, Some(p), now);
      }
    }
  }

  lemma {:induction false} PendingIsLatched(t: Task)
    requires Sound(t) && t.pending.Some? && t.step.Loaded?
    ensures var q := t.step.queue;
            && Latched(q, t.pending.value.reservationId)
            && ReservationAt(q.reservations, t.pending.value.reservationId).Some?
            && Durable(q) && q.mode.Native?
  {
    hide Durable, TrackersSound, Declared, SendsSound, OwnerSound, StopSafe, RowsContinue,
         StopsContinue;
  }

  lemma {:induction false} ResumedIsSafe(t: Task, q: QueueSnapshot, p: PendingStop, now: Monotonic)
    requires Latched(q, p.reservationId) && !Lapsed(t, q, p, now)
    requires var k := ReservationAt(q.reservations, p.reservationId).value;
             Awaited(t.playback, q.reservations[k])
    requires t.playback.value.scope.request.attemptId == q.attempts[|q.attempts| - 1].attemptId
    ensures StopSafe(StopRun(Some(p), q, t.playback.value, now))
  {
  }

  // ---------------------------------------------------------------- every step keeps it

  lemma {:induction false} FollowKeeps(t: Task, events: seq<PlaybackObservation>, now: Monotonic)
    requires Sound(t) && t.following.Some? && FollowingSound(t.following.value)
    requires var f := t.following.value;
             N.PairObserved(f.authorization, f.watch, f.pair, events, now).Ok?
    ensures var f := t.following.value;
            Sound(t.(following := Some(f.(
              pair := N.PairObserved(f.authorization, f.watch, f.pair, events, now).value))))
  {
    hide Sound, Declared, WatchingSound, OrdinaryIfAny, Keyed, ReservationKeys, N.PairObserved,
         N.ValidPair, N.NotStale;
    SoundTrackers(t);
    var f := t.following.value;
    var pair := N.PairObserved(f.authorization, f.watch, f.pair, events, now).value;
    FollowingObserved(f, events, now);
    DeclaredPair(t.rows, f, pair);
    Retrack(t, t.(following := Some(f.(pair := pair))));
  }

  lemma {:induction false} WatchKeeps(t: Task, events: seq<PlaybackObservation>, now: Monotonic)
    requires Sound(t) && t.current.Some? && WatchingSound(t.current.value)
    requires var c := t.current.value; N.Observed(c.watch, c.tracker, events, now).Ok?
    ensures var c := t.current.value;
            Sound(t.(current := Some(c.(
              tracker := N.Observed(c.watch, c.tracker, events, now).value))))
  {
    hide Sound, Declared, FollowingSound, OrdinaryIfAny, Keyed, ReservationKeys, N.Observed,
         N.Valid, N.NotStale;
    SoundTrackers(t);
    var c := t.current.value;
    WatchingObserved(c, events, now);
    Retrack(t, t.(current := Some(c.(
      tracker := N.Observed(c.watch, c.tracker, events, now).value))));
  }

  lemma {:induction false} PlaybackKeeps(t: Task, playback: Option<SessionSnapshot>)
    requires Sound(t) && OrdinaryIfAny(playback)
    ensures Sound(t.(playback := playback)) && Sound(t.(playback := playback, current := None))
    ensures Sound(t.(canceled := true))
  {
    hide Sound, Declared, WatchingSound, FollowingSound, OrdinaryIfAny, Keyed, ReservationKeys;
    SoundTrackers(t);
    Retrack(t, t.(playback := playback));
    Retrack(t, t.(playback := playback, current := None));
    Retrack(t, t.(canceled := true));
  }

  lemma {:induction false} TracksKeep(t: Task, e: Event)
    requires Sound(t) && e.WellFormed() && TrackersSound(t)
    requires e.Follow? || e.Watch? || e.AcceptEvents? || e.AcceptSnapshot? || e.Latch? || e.Resume?
    ensures Sound(Next(t, e))
  {
    hide Sound, Declared, N.ValidPair, N.Valid, N.NotStale, N.Ordinary, N.Ready, N.Observed,
         N.PairObserved, Policy.ObserveAll;
    match e {
      case Follow(events, now) =>
        if t.following.Some? {
          var f := t.following.value;
          if N.PairObserved(f.authorization, f.watch, f.pair, events, now).Ok? {
            FollowKeeps(t, events, now);
          }
        }
      case Watch(events, now) =>
        if t.current.Some?
           && N.Observed(t.current.value.watch, t.current.value.tracker, events, now).Ok? {
          WatchKeeps(t, events, now);
        }
      case AcceptEvents(events, now) =>
        if t.playback.Some?
           && Policy.ObserveAll(t.playback.value, events, now, DEFAULT_POLICY).Ok? {
          OrdinaryBatch(t.playback.value, events, now, DEFAULT_POLICY);
          PlaybackKeeps(t, Some(Policy.ObserveAll(t.playback.value, events, now,
                                                  DEFAULT_POLICY).value));
        }
      case AcceptSnapshot(snapshot) => PlaybackKeeps(t, Some(snapshot));
      case Latch => PlaybackKeeps(t, t.playback);
      case Resume =>
        if t.current.Some? {
          PlaybackKeeps(t, t.current.value.tracker.snapshot);
        }
      case _ =>
    }
  }

  lemma {:induction false} DeclaredPair(s: QueueSnapshot, f: Following, pair: N.Succession)
    requires Declared(s, f)
    ensures Declared(s, f.(pair := pair))
  {
  }

  lemma {:induction false} IntendKeeps(t: Task, work: Option<Work>)
    requires Sound(t)
    requires work.Some? ==> N.Ordinary(work.value.owned)
    ensures Sound(Intended(t, work))
  {
    hide Sound, Durable, Continues, Latched, N.Ordinary;
    SoundIsDurable(t);
    Restep(t, Intended(t, work).step);
  }

  lemma {:induction false} OwnedIsOrdinary(t: Task, reservationId: Id, attemptId: Id)
    requires TrackersSound(t)
    ensures var work := StageWork(t, reservationId, attemptId);
            work.Some? ==> N.Ordinary(work.value.owned)
    ensures ClearWork(t).Some? ==> N.Ordinary(ClearWork(t).value.owned)
  {
    hide WatchingSound, FollowingSound, N.Ordinary;
  }

  lemma {:induction false} AdoptKeeps(t: Task, taken: Taken, at: Instant, now: Monotonic)
    requires Sound(t) && TrackersSound(t)
    ensures Sound(Next(t, Adopt(taken, at, now)))
  {
    hide Sound, Durable, Continues, Write, Apply, N.Ready, WatchingSound, FollowingSound,
         OrdinaryIfAny, Keyed, ReservationKeys;
    Restep(t, Waiting);
    var call := AdoptionCall(t, taken, at, now);
    if call.Some? && Apply(t.rows, taken, call.value.op).Ok? {
      Commits(t, taken, call.value.op);
      var u := t.(rows := Apply(t.rows, taken, call.value.op).value);
      Restep(u, Waiting);
      TrackedIsOrdinary(t.following.value);
      Retrack(u.(step := Waiting), Next(t, Adopt(taken, at, now)));
    }
  }

  lemma {:induction false} TrackedIsOrdinary(f: Following)
    requires FollowingSound(f)
    ensures OrdinaryIfAny(f.pair.tracker.snapshot)
  {
  }

  lemma {:induction false} StopBegins(t: Task, commandId: Id, taken: Taken, revision: int)
    requires Sound(t) && TrackersSound(t)
    ensures Sound(Next(t, BeginStop(commandId, taken, revision)))
  {
    hide Sound, Durable, Continues, Apply, TrackersSound, Write;
    Restep(t, Waiting);
    if t.rows.cancellationRequested {
      StoppingKeeps(t.(step := Waiting), commandId);
    } else if Apply(t.rows, taken, OpCancel(revision)).Ok? {
      var rows := Apply(t.rows, taken, OpCancel(revision)).value;
      Commits(t, taken, OpCancel(revision));
      CancelCancels(t.rows, taken, revision);
      Restep(t.(rows := rows), Waiting);
      StoppingKeeps(t.(rows := rows, step := Waiting), commandId);
    }
  }

  lemma {:induction false} CancelCancels(s: QueueSnapshot, taken: Taken, revision: int)
    requires Write(s, taken, OpCancel(revision)).Ok?
    ensures Write(s, taken, OpCancel(revision)).value.cancellationRequested
  {
  }

  lemma {:induction false} StoppingKeeps(t: Task, commandId: Id)
    requires Sound(t) && t.rows.cancellationRequested && t.step.Waiting?
    ensures Sound(t.(stopping := Some(commandId)))
  {
    hide Durable, Latched, SendsSound, OwnerSound, WatchingSound, FollowingSound, OrdinaryIfAny,
         Declared, StopSafe;
  }

  /** A new owner finds the journal as the old one left it, and recovers if anything was started. */
  lemma {:induction false} ReplaceKeeps(t: Task, taken: Taken, boundary: Monotonic)
    requires Sound(t) && TrackersSound(t)
    ensures Sound(Next(t, Replace(taken, boundary)))
  {
    hide Sound, QueueHistory.After, TrackersSound;
    var call := Call(taken, OpRecover(t.rows.revision));
    RowsKeep(t, call);
    Reowned(t.(rows := QueueHistory.After(t.rows, call)), boundary, t.rows.attempts != []) by {
      NothingSent(t);
    }
  }

  lemma {:induction false} NothingSent(t: Task)
    requires Sound(t)
    ensures OneOwner(t.sends)
    ensures t.rows.attempts == [] ==>
      forall k :: 0 <= k < |t.sends| ==> !Enqueues(t.sends[k])
  {
    hide Durable, SendSafe, E.Spent, TrackersSound, StepSound, StopsSound, Declared;
  }

  lemma {:induction false} Reowned(t: Task, boundary: Monotonic, recovering: bool)
    requires Sound(t) && OneOwner(t.sends)
    requires !recovering ==> forall k :: 0 <= k < |t.sends| ==> !Enqueues(t.sends[k])
    ensures Sound(Task(t.rows, t.owner + 1, boundary, false, recovering, None, None, None, None,
                       None, None, Waiting, t.sends, t.stops))
  {
    hide Durable, SendsSound, StopSafe, Latched, Declared, WatchingSound, FollowingSound, OneOwner;
  }

  lemma {:induction false} NextKeeps(t: Task, e: Event)
    requires Sound(t) && e.WellFormed()
    ensures TrackersSound(t)
    ensures Sound(Next(t, e))
  {
    hide Sound, TrackersSound, Advance, Attended, Concluded, StopDecided, StopResumed, StageWork,
         ClearWork, QueueHistory.After, N.Ordinary, Apply, AdoptionCall, Keyed, ReservationKeys,
         Declared;
    SoundTrackers(t);
    match e {
      case Load => LoadKeeps(t);
      case Attend(taken, events, now, after, saved, revision) =>
        AttendKeeps(t, taken, events, now, after, saved, revision);
      case Adopt(taken, at, now) => AdoptKeeps(t, taken, at, now);
      case Stage(reservationId, attemptId) =>
        OwnedIsOrdinary(t, reservationId, attemptId);
        IntendKeeps(t, StageWork(t, reservationId, attemptId));
      case ClearQueue =>
        OwnedIsOrdinary(t, "", "");
        IntendKeeps(t, ClearWork(t));
      case Execute(choice) =>
        if t.step.Executing? {
          AdvanceKeeps(t, choice);
        }
      case Finish(taken, revision) =>
        if t.step.Executing? && t.step.pc.Done? {
          ConcludeKeeps(t, taken, revision);
        }
      case BeginStop(commandId, taken, revision) => StopBegins(t, commandId, taken, revision);
      case DecideStop(now) => StopKeeps(t, now);
      case ResumeStop(now) => ResumeStopKeeps(t, now);
      case GiveUp => Restep(t, Waiting);
      case Replace(taken, boundary) => ReplaceKeeps(t, taken, boundary);
      case Journal(call) => RowsKeep(t, call);
      case _ => TracksKeep(t, e);
    }
  }

  // ---------------------------------------------------------------- every run

  /** An owner of a native queue when it has just been opened. */
  function Opened(rows: QueueSnapshot, boundary: Monotonic): Task {
    Task(rows, 0, boundary, false, rows.attempts != [], None, None, None, None, None, None, Waiting,
         [], [])
  }

  lemma {:induction false} OpenedIsSound(rows: QueueSnapshot, boundary: Monotonic)
    requires Durable(rows) && rows.mode.Native?
    ensures Sound(Opened(rows, boundary))
  {
    hide Durable;
  }

  lemma {:induction false} RunKeeps(t: Task, events: seq<Event>)
    requires Sound(t) && WellFormedEvents(events)
    ensures Sound(Run(t, events))
    decreases |events|
  {
    hide Sound, Next, TrackersSound;
    if events != [] {
      NextKeeps(t, events[0]);
      RunKeeps(Next(t, events[0]), events[1..]);
    }
  }

  /** Over every run of an owner and its replacements, with arbitrary receivers, use cases, crashes
      and other journal writes: what was sent was claimed on exactly the rows of its last check and
      is never sent again; every enqueue came from one and the same owner; and a stop that waited
      was carried out in time for exactly the selected attempt. */
  lemma {:induction false} OwnersSendSafely(rows: QueueSnapshot, boundary: Monotonic,
                                            events: seq<Event>)
    requires Durable(rows) && rows.mode.Native? && WellFormedEvents(events)
    ensures Sound(Opened(rows, boundary))
    ensures var t := Run(Opened(rows, boundary), events);
            && (forall k :: 0 <= k < |t.sends| ==> SendSafe(t.sends[k]))
            && (forall i, j :: 0 <= i < j < |t.sends| ==>
                  t.sends[i].work.request.operationId != t.sends[j].work.request.operationId)
            && OneOwner(t.sends)
            && (forall k :: 0 <= k < |t.stops| ==> StopSafe(t.stops[k]))
  {
    hide Sound, Opened, Run, SendSafe, StopSafe, OneOwner;
    OpenedIsSound(rows, boundary);
    RunKeeps(Opened(rows, boundary), events);
    SoundRecords(Run(Opened(rows, boundary), events));
  }

  lemma {:induction false} SoundRecords(t: Task)
    requires Sound(t)
    ensures SendsSound(t.rows, t.sends) && OneOwner(t.sends)
    ensures forall k :: 0 <= k < |t.stops| ==> StopSafe(t.stops[k])
  {
    hide Durable, SendsSound, OneOwner, StopSafe, TrackersSound, Declared, StepSound;
  }

  /** What the claim of an enqueue was checked against. */
  lemma {:induction false} EnqueueFacts(e: Send)
    requires SendSafe(e) && Enqueues(e)
    ensures Durable(e.rows) && e.rows.mode.Native? && e.rows.attempts != []
    ensures ReservationAt(e.rows.reservations, e.work.reservationId).Some?
    ensures var r := e.rows.reservations[ReservationAt(e.rows.reservations,
                                                       e.work.reservationId).value];
            var last := e.rows.attempts[|e.rows.attempts| - 1];
            && r.state.Reserved? && last.intent.Current?
            && last.attemptId == r.predecessorAttemptId
            && RequestMatches(e.rows, r, e.work.request)
    ensures e.playback.scope == e.work.request.scope && e.work.request.action.PlayNext?
  {
    hide Durable, RequestMatches, OperationAt, ReservationAt;
  }

  /** An enqueue reaches the receiver behind the current attempt, through the session that plays
      it, and names the content of the item right after it. */
  lemma {:induction false} EnqueueIsNext(e: Send)
    requires SendSafe(e) && Enqueues(e)
    ensures e.rows.attempts != []
    ensures var last := e.rows.attempts[|e.rows.attempts| - 1];
            && last.intent.Current?
            && e.playback.scope.request.attemptId == last.attemptId
            && e.playback.scope.request.queueItemId == last.itemId
            && ItemAt(e.rows.items, last.itemId).Some?
            && var k := ItemAt(e.rows.items, last.itemId).value + 1;
            && k < |e.rows.items| && e.rows.items[k].intent.Pending?
            && e.work.request.successor == Some(e.rows.items[k].content)
            && e.rows.items[k - 1].content != e.rows.items[k].content
  {
    hide SendSafe, Enqueues, Durable, OperationAt, ReservationAt, ItemAt, AttemptAt;
    EnqueueFacts(e);
    ReservedNext(e.rows, ReservationAt(e.rows.reservations, e.work.reservationId).value);
  }

  /** An outstanding reservation joins the last attempt's item to the next one, still pending. */
  lemma {:induction false} ReservedNext(s: QueueSnapshot, n: nat)
    requires Durable(s) && s.mode.Native? && n < |s.reservations|
    requires s.reservations[n].state.Reserved?
    ensures s.attempts != []
    ensures var r := s.reservations[n];
            var last := s.attempts[|s.attempts| - 1];
            && AttemptAt(s.attempts, r.predecessorAttemptId).Some?
            && s.attempts[AttemptAt(s.attempts, r.predecessorAttemptId).value].itemId == last.itemId
            && NextItem(s.items, last.itemId, r.successorItemId)
            && s.items[ItemAt(s.items, r.successorItemId).value].intent.Pending?
  {
    hide ItemAt, EnqueueAt, NextItem, EnqueueOk, OperationsOk, TextOk, PositionOk, StartsOk,
         CommandsOk, Keyed;
    assert ReservationOk(s.items, s.attempts, s.operations, s.currentItemId, s.generation,
                         s.reservations[n]);
  }

  /** Once an owner recovers on a queue that was started, neither it nor any later owner sends an
      enqueue. */
  lemma {:induction false} RecoveryNeverEnqueues(t: Task, events: seq<Event>)
    requires Sound(t) && WellFormedEvents(events)
    requires t.recovering && t.rows.attempts != []
    ensures var u := Run(t, events);
            && t.sends <= u.sends
            && forall k :: |t.sends| <= k < |u.sends| ==> !Enqueues(u.sends[k])
    decreases |events|
  {
    hide Sound, Next, TrackersSound, Enqueues;
    if events != [] {
      NextKeeps(t, events[0]);
      RecoveringStep(t, events[0]);
      RecoveryNeverEnqueues(Next(t, events[0]), events[1..]);
    }
  }

  /** Neither recovery nor started attempts are undone, and no enqueue is sent. */
  predicate StaysRecovering(t: Task, u: Task) {
    && u.recovering && u.rows.attempts != []
    && t.sends <= u.sends
    && forall k :: |t.sends| <= k < |u.sends| ==> !Enqueues(u.sends[k])
  }

  lemma {:induction false} StaysStarted(t: Task, taken: Taken, op: StoreOp)
    requires Sound(t) && op.WellFormed() && t.rows.attempts != []
    ensures Apply(t.rows, taken, op).Ok? ==> Apply(t.rows, taken, op).value.attempts != []
  {
    hide Sound, Apply, Write, Durable, Continues;
    if Apply(t.rows, taken, op).Ok? {
      Commits(t, taken, op);
      ModeStays(t.rows, Apply(t.rows, taken, op).value);
    }
  }

  lemma {:induction false} RecoveringAdvance(t: Task, c: E.Choice)
    requires Sound(t) && t.step.Executing? && t.recovering && t.rows.attempts != []
    ensures StaysRecovering(t, Advance(t, c))
  {
    hide Sound, Apply, Durable, Continues, Journaled, Unsent, E.AfterLoad, E.AfterPrepare,
         E.AfterReread, E.Outcome;
    SoundIsDurable(t);
    var request := t.step.work.Request();
    match t.step.pc {
      case Loaded(_) => StaysStarted(t, c.taken, request.Prepare(c.at));
      case Prepared(revision) => StaysStarted(t, c.taken, request.Claim(c.at, revision));
      case Returned(revision, outcome) =>
        StaysStarted(t, c.taken, request.Record(outcome, c.at, revision));
      case _ =>
    }
  }

  lemma {:induction false} RecoveringAttend(t: Task, taken: Taken, events: seq<PlaybackObservation>,
                                            now: Monotonic, after: Monotonic,
                                            saved: Option<SessionSnapshot>, revision: int)
    requires Sound(t) && t.recovering && t.rows.attempts != []
    ensures StaysRecovering(t, Attended(t, taken, events, now, after, saved, revision))
  {
    hide Sound, Apply, Reopened, Rejoined, FreshEvents, AnyReset;
    StaysStarted(t, taken, OpHold(revision));
  }

  /** Stops touch neither the journal nor what was sent. */
  lemma {:induction false} StopsSendNothing(t: Task, now: Monotonic)
    ensures var u := StopDecided(t, now);
            u.recovering == t.recovering && u.rows == t.rows && u.sends == t.sends
    ensures var u := StopResumed(t, now);
            u.recovering == t.recovering && u.rows == t.rows && u.sends == t.sends
  {
    hide MustWait, Awaited, Lapsed;
  }

  lemma {:induction false} AdoptsOnly(t: Task, taken: Taken, at: Instant, now: Monotonic)
    ensures var call := AdoptionCall(t, taken, at, now);
            call.Some? ==> call.value.op.OpAdopt? && call.value.taken == taken
  {
    hide N.Ready;
  }

  lemma {:induction false} RecoveringStep(t: Task, e: Event)
    requires Sound(t) && TrackersSound(t) && e.WellFormed()
    requires t.recovering && t.rows.attempts != []
    ensures StaysRecovering(t, Next(t, e))
  {
    hide Sound, TrackersSound, Apply, Advance, Attended, StageWork, ClearWork, StopDecided,
         StopResumed, AdoptionCall, Followed, E.StateOf, Enqueues, N.Ready;
    match e {
      case Attend(taken, events, now, after, saved, revision) =>
        RecoveringAttend(t, taken, events, now, after, saved, revision);
      case Adopt(taken, at, now) =>
        var call := AdoptionCall(t, taken, at, now);
        AdoptsOnly(t, taken, at, now);
        if call.Some? {
          StaysStarted(t, taken, call.value.op);
        }
      case Execute(choice) =>
        if t.step.Executing? {
          RecoveringAdvance(t, choice);
        }
      case Finish(taken, revision) => StaysStarted(t, taken, OpHold(revision));
      case BeginStop(_, taken, revision) => StaysStarted(t, taken, OpCancel(revision));
      case DecideStop(now) => StopsSendNothing(t, now);
      case ResumeStop(now) => StopsSendNothing(t, now);
      case Replace(taken, _) => StaysStarted(t, taken, OpRecover(t.rows.revision));
      case Journal(call) => StaysStarted(t, call.taken, call.op);
      case _ =>
    }
  }

  // ---------------------------------------------------------------- adopting what was observed

  /** What an adoption still depends on when the tracker of the successor is ready: the right
      reservation, a sent enqueue, clocks that did not move on, and unused identities. */
  predicate Adoptable(t: Task, taken: Taken, n: nat, at: Instant, now: Monotonic)
    requires n < |t.rows.reservations| && t.following.Some? && t.rows.attempts != []
    requires t.following.value.pair.tracker.snapshot.Some?
    requires t.following.value.pair.tracker.snapshot.value.latest.Some?
  {
    var r := t.rows.reservations[n];
    && r.reservationId == t.following.value.reservationId
    && EnqueueAt(t.rows.operations, r.reservationId).Some?
    && Sent(t.rows.operations[EnqueueAt(t.rows.operations, r.reservationId).value].state)
    && r.createdAt <= at
    && Fresh(now, t.following.value.pair.tracker.snapshot.value.latest.value.monotonic, 5.0)
    && AdoptionFree(t.rows, taken, r, t.rows.attempts[|t.rows.attempts| - 1],
                    "adopt-" + r.reservationId)
  }

  /** The guards of an adoption for an outstanding reservation. */
  lemma {:induction false} AdoptionGuards(s: QueueSnapshot, taken: Taken, n: nat,
                                          observed: SessionSnapshot, now: Monotonic, at: Instant,
                                          decision: Id)
    requires n < |s.reservations| && s.mode.Native? && s.attempts != [] && !Blank(decision)
    requires var r := s.reservations[n];
             && ReservationAt(s.reservations, r.reservationId) == Some(n)
             && r.state.Reserved? && r.adoptionDecisionId.None?
             && ItemAt(s.items, r.successorItemId).Some?
             && s.attempts[|s.attempts| - 1].attemptId == r.predecessorAttemptId
    ensures var r := s.reservations[n];
            var item := s.items[ItemAt(s.items, r.successorItemId).value];
            var o := EnqueueAt(s.operations, r.reservationId);
            AdoptNativeSuccessor(s, taken, r.reservationId, observed, now, at, decision,
                                 s.revision, s.generation).Ok?
              == (&& ObservedMatches(s, r, item, observed)
                  && o.Some? && Sent(s.operations[o.value].state)
                  && QualifiedProgress(observed, s.target, item.content, now)
                  && r.createdAt <= at
                  && AdoptionFree(s, taken, r, s.attempts[|s.attempts| - 1], decision))
  {
    hide ReservationAt, ItemAt, EnqueueAt, ObservedMatches, QualifiedProgress, AdoptionFree, Sent,
         Blank, Adoption;
  }

  /** Evidence that qualifies at one instant qualifies as long as it is fresh. */
  lemma {:induction false} QualifiesWhileFresh(observed: SessionSnapshot, target: PlaybackTarget,
                                               content: ContentRef, before: Monotonic,
                                               now: Monotonic)
    requires QualifiedProgress(observed, target, content, before)
    ensures QualifiedProgress(observed, target, content, now)
         == Fresh(now, observed.latest.value.monotonic, 5.0)
  {
  }

  /** What a ready tracker observed matches the reservation that is followed, and no other. */
  lemma {:induction false} ReadyMatches(s: QueueSnapshot, n: nat, f: Following)
    requires Durable(s) && n < |s.reservations| && Declared(s, f)
    requires f.watch.request == f.authorization.successor
    requires f.watch.applicationId == f.authorization.applicationId
    requires f.watch.sessionId == f.authorization.sessionId
    requires N.QualifiedForAdoption(f.watch, f.pair.tracker)
    requires ItemAt(s.items, s.reservations[n].successorItemId).Some?
    ensures var r := s.reservations[n];
            var item := s.items[ItemAt(s.items, r.successorItemId).value];
            && ObservedMatches(s, r, item, f.pair.tracker.snapshot.value)
                 == (r.reservationId == f.reservationId)
            && (r.reservationId == f.reservationId ==>
                  s.target == f.watch.request.target && item.content == f.watch.request.content)
  {
    hide Durable, ItemAt, ReservationAt, QualifiedProgress, ReservationKeys;
    KeysOfReservations(s);
    FoundAt(s.reservations, n);
    var k := ReservationAt(s.reservations, f.reservationId).value;
    SuccessorsDiffer(s.reservations, k, n);
  }

  lemma {:induction false} SuccessorsDiffer(rs: seq<NativeReservation>, i: nat, j: nat)
    requires ReservationKeys(rs) && i < |rs| && j < |rs|
    ensures rs[i].successorAttemptId == rs[j].successorAttemptId ==> i == j
    ensures rs[i].reservationId == rs[j].reservationId ==> i == j
  {
  }

  lemma {:induction false} FollowedQualifies(f: Following)
    requires FollowingSound(f) && N.Ready(f.watch, f.pair.tracker)
    ensures N.QualifiedForAdoption(f.watch, f.pair.tracker)
    ensures f.pair.tracker.snapshot.Some? && f.pair.tracker.snapshot.value.latest.Some?
    ensures QualifiedProgress(f.pair.tracker.snapshot.value, f.watch.request.target,
                              f.watch.request.content, f.pair.tracker.now)
    ensures f.watch.request == f.authorization.successor
    ensures f.watch.applicationId == f.authorization.applicationId
    ensures f.watch.sessionId == f.authorization.sessionId
  {
    hide N.Valid, N.NotStale, N.Ready, N.InWatch;
    N.ReadyQualifies(f.watch, f.pair.tracker);
  }

  /** An adoption never fails for its reload. */
  lemma {:induction false} AdoptsAsWritten(s: QueueSnapshot, taken: Taken, id: Id,
                                           observed: SessionSnapshot, now: Monotonic, at: Instant,
                                           decision: Id)
    requires Durable(s)
    ensures Apply(s, taken, OpAdopt(id, observed, now, at, decision, s.revision, s.generation))
         == AdoptNativeSuccessor(s, taken, id, observed, now, at, decision, s.revision,
                                 s.generation)
  {
    hide Durable, Apply, AdoptNativeSuccessor, ReloadAccepts;
    ApplyKeeps(s, taken, OpAdopt(id, observed, now, at, decision, s.revision, s.generation));
  }

  lemma {:induction false} Prefixed(id: Id)
    ensures !Blank("adopt-" + id)
  {
    assert ("adopt-" + id)[0] == 'a';
  }

  /** In every state of every run: when the successor's tracker is ready, the journal adopts what it
      observed for the outstanding reservation if and only if that is the reservation followed and
      its enqueue, the clocks and the new identities allow it.  No guard on identity, content,
      session or playback can refuse. */
  lemma {:induction false} AdoptionIsExact(t: Task, taken: Taken, n: nat, at: Instant,
                                           now: Monotonic)
    requires Sound(t) && t.following.Some?
    requires N.Ready(t.following.value.watch, t.following.value.pair.tracker)
    requires n < |t.rows.reservations| && t.rows.reservations[n].state.Reserved?
    ensures t.rows.attempts != []
    ensures t.following.value.pair.tracker.snapshot.value.latest.Some?
    ensures var id := t.rows.reservations[n].reservationId;
            Apply(t.rows, taken, OpAdopt(id, t.following.value.pair.tracker.snapshot.value, now, at,
                                         "adopt-" + id, t.rows.revision, t.rows.generation)).Ok?
              == Adoptable(t, taken, n, at, now)
  {
    hide Sound, Durable, Declared, ObservedMatches, QualifiedProgress, AdoptionFree, Sent, ItemAt,
         EnqueueAt, ReservationAt, ReloadAccepts, AdoptNativeSuccessor, Blank, N.Ready,
         N.ValidPair, N.Valid, N.NotStale, AttemptAt, Keyed, ReservationKeys;
    var s, r, f := t.rows, t.rows.reservations[n], t.following.value;
    SoundIsDurable(t);
    SoundTrackers(t);
    OutstandingFollowsLast(s, n);
    ReservedNext(s, n);
    FoundAt(s.reservations, n);
    Prefixed(r.reservationId);
    FollowedQualifies(f);
    var observed := f.pair.tracker.snapshot.value;
    ReadyMatches(s, n, f);
    AdoptionGuards(s, taken, n, observed, now, at, "adopt-" + r.reservationId);
    if r.reservationId == f.reservationId {
      QualifiesWhileFresh(observed, f.watch.request.target, f.watch.request.content,
                          f.pair.tracker.now, now);
    }
    AdoptsAsWritten(s, taken, r.reservationId, observed, now, at, "adopt-" + r.reservationId);
  }

}
