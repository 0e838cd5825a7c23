/** The legacy owner task around its journal: when a START may be prepared, and when it may reach
    the receiver.  The application's use cases, the receiver and everything else that writes to the
    journal are arbitrary; the owner may also die and be replaced at any point. */
module PlaybackTask {
  import opened Values
  import opened QueueRecords
  import opened QueueJournal
  import opened JournalInvariant
  import opened QueueHistory
  import opened QueueDriving
  import Policy
  import P = QueuePolicy
  import H = Handoff

  /** What the owner was doing when its last journal read or write returned.  `position` is the place
      of the attempt that the START belongs to. */
  datatype Step =
    | Waiting
    | Loaded(queue: QueueSnapshot)
    | Decided(itemId: Id, handoff: bool)
    | Prepared(commandId: Id, handoff: bool, position: nat)
    | Claimed(revision: int, generation: int, handoff: bool, position: nat)

  /** A START that reached the receiver, with everything its last check saw. */
  datatype StartEffect = StartEffect(
    position: nat, handoff: bool, playback: Option<SessionSnapshot>,
    release: Option<H.ReleaseAuthority>, events: seq<PlaybackObservation>,
    authority: Option<P.QueueAuthority>, boundary: Monotonic, now: Monotonic)

  datatype Task = Task(
    rows: QueueSnapshot, boundary: Monotonic, canceled: bool, started: bool,
    authority: Option<P.QueueAuthority>, playback: Option<SessionSnapshot>,
    release: Option<H.ReleaseAuthority>, events: seq<PlaybackObservation>, step: Step,
    effects: seq<StartEffect>)

  // ---------------------------------------------------------------- the owner's own checks

  /** The receiver's newest event is a fresh exit in this connection, after the owner began, and no
      event of that window was a reset. */
  predicate IsIdle(target: PlaybackTarget, events: seq<PlaybackObservation>,
                   authority: Option<P.QueueAuthority>, boundary: Monotonic, now: Monotonic) {
    && events != [] && authority.Some?
    && var last := events[|events| - 1];
    && last.sessionActive == Some(false) && last.target == target
    && last.connectionGeneration == authority.value.connectionGeneration
    && last.monotonic > boundary && Fresh(now, last.monotonic, 5.0)
    && forall k :: 0 <= k < |events| ==> !events[k].connectionReset
  }

  /** The journal is exactly as it was when the START was claimed, and nothing was canceled. */
  predicate MayStart(t: Task) {
    && t.step.Claimed?
    && t.rows.revision == t.step.revision && t.rows.generation == t.step.generation
    && !t.rows.cancellationRequested && !t.canceled
  }

  /** A hand-over start needs an unblocked authority and a confirmed release. */
  predicate HandoverAllowed(playback: Option<SessionSnapshot>, release: Option<H.ReleaseAuthority>) {
    && release.Some? && !release.value.blocked
    && playback.Some? && !playback.value.ownershipLost && playback.value.releaseConfirmed
  }

  /** The newest RELEASE of an attempt. */
  function LastRelease(commands: seq<JournalCommand>, attemptId: Id): (found: Option<nat>)
    ensures found.Some? ==>
      && found.value < |commands| && commands[found.value].attemptId == attemptId
      && commands[found.value].action.Release?
  {
    if commands == [] then None
    else
      var last := commands[|commands| - 1];
      if last.attemptId == attemptId && last.action.Release? then Some(|commands| - 1)
      else LastRelease(commands[..|commands| - 1], attemptId)
  }

  predicate ReleaseAcknowledged(commands: seq<JournalCommand>, attemptId: Id) {
    && LastRelease(commands, attemptId).Some?
    && commands[LastRelease(commands, attemptId).value].state.Acknowledged?
  }

  /** `_start`: the explicit first START, on a queue that was never started. */
  predicate FirstStartAllowed(render: P.Rendering, t: Task, request: PlaybackRequest,
                              now: Monotonic) {
    && t.step.Loaded? && t.events != []
    && !t.canceled && !t.rows.cancellationRequested && !t.started
    && request.target == t.step.queue.target
    && var q := t.step.queue;
    && var d := P.Decide(render, q, None, now, Some(Authority(t, q)), Some(t.events[|t.events| - 1]),
                         None, DEFAULT_POLICY);
    && d.disposition.Ready? && d.nextItemId == Some(request.queueItemId)
  }

  function Authority(t: Task, q: QueueSnapshot): P.QueueAuthority
    requires t.events != []
  {
    P.QueueAuthority(q.queueId, q.generation, t.events[|t.events| - 1].connectionGeneration,
                     t.boundary)
  }

  /** `step`: the hand-over to the next item, after the finished session was released. */
  predicate SuccessorAllowed(render: P.Rendering, t: Task, itemId: Id, now: Monotonic) {
    && t.step.Loaded? && t.started && t.playback.Some? && t.events != []
    && var q := t.step.queue;
    && q.attempts != []
    && var last := q.attempts[|q.attempts| - 1];
    && last.intent.Finished?
    && ReleaseAcknowledged(q.commands, last.attemptId)
    && !t.canceled && !t.rows.cancellationRequested
    && t.release.Some? && !t.release.value.blocked
    && IsIdle(q.target, t.events, t.authority, t.boundary, now)
    && var d := P.Decide(render, t.rows, t.playback, now, t.authority,
                         Some(t.events[|t.events| - 1]), None, DEFAULT_POLICY);
    && d.disposition.Ready? && d.nextItemId == Some(itemId)
  }

  // ---------------------------------------------------------------- what can happen

  datatype Event =
    | Load
    | Observe(events: seq<PlaybackObservation>)
    | AcceptSnapshot(snapshot: SessionSnapshot, observations: seq<PlaybackObservation>)
    | AcceptEvents(observations: seq<PlaybackObservation>, now: Monotonic)
    | Latch
    | DecideFirst(request: PlaybackRequest, now: Monotonic)
    | DecideSuccessor(itemId: Id, now: Monotonic)
    | Prepare(taken: Taken, attemptId: Id, commandId: Id, at: Instant, revision: int)
    | Claim(taken: Taken, at: Instant, revision: int)
    | Effect(now: Monotonic)
    | GiveUp
    | Replace(boundary: Monotonic)
    | Journal(call: Call)
  {
    /** Everything else may do anything to the journal but start items. */
    predicate WellFormed() {
      Journal? ==> call.op.WellFormed() && !call.op.OpStart? && !call.op.OpAdopt?
    }
  }

  function Tracked(playback: Option<SessionSnapshot>, events: seq<PlaybackObservation>,
                   release: Option<H.ReleaseAuthority>): Option<H.ReleaseAuthority> {
    if playback.Some? then H.Release(playback.value, events, release) else release
  }

  function Next(render: P.Rendering, t: Task, e: Event): Task {
    match e
    case Load => t.(step := Loaded(t.rows))
    case Observe(events) =>
      t.(events := events,
         release := if t.playback.Some? && t.playback.value.completion.Some?
                    then Tracked(t.playback, events, t.release) else t.release)
    case AcceptSnapshot(snapshot, observations) =>
      var kept := if && t.playback.Some?
                     && t.playback.value.scope.request.attemptId
                          != snapshot.scope.request.attemptId then None else t.release;
      t.(playback := Some(snapshot), release := Tracked(Some(snapshot), observations, kept))
    case AcceptEvents(observations, now) =>
      if t.playback.None? then t
      else
        (match Policy.ObserveAll(t.playback.value, observations, now, DEFAULT_POLICY)
         case Err(_) => t
         case Ok(s) => t.(playback := Some(s), release := Tracked(Some(s), observations, t.release)))
    case Latch => t.(canceled := true)
    case DecideFirst(request, now) =>
      if FirstStartAllowed(render, t, request, now)
      then t.(started := true, authority := Some(Authority(t, t.step.queue)),
              step := Decided(request.queueItemId, false))
      else t.(step := Waiting)
    case DecideSuccessor(itemId, now) =>
      if SuccessorAllowed(render, t, itemId, now) then t.(step := Decided(itemId, true))
      else t.(step := Waiting)
    case Prepare(taken, attemptId, commandId, at, revision) =>
      if !t.step.Decided? then t
      else
        (match Apply(t.rows, taken, OpStart(t.step.itemId, attemptId, commandId, at, revision))
         case Err(_) => t.(step := Waiting)
         case Ok(rows) =>
           if rows == t.rows then t.(step := Waiting)
           else t.(rows := rows,
                   step := Prepared(commandId, t.step.handoff, |t.rows.attempts|)))
    case Claim(taken, at, revision) =>
      if !t.step.Prepared? then t
      else
        (match Apply(t.rows, taken, OpDispatch(t.step.commandId, at, revision))
         case Err(_) => t.(step := Waiting)
         case Ok(rows) =>
           t.(rows := rows,
              step := Claimed(rows.revision, rows.generation, t.step.handoff, t.step.position)))
    case Effect(now) =>
      if && MayStart(t) && IsIdle(t.rows.target, t.events, t.authority, t.boundary, now)
         && (t.step.handoff ==> HandoverAllowed(t.playback, t.release))
      then
        t.(step := Waiting,
           effects := t.effects + [StartEffect(t.step.position, t.step.handoff, t.playback,
             t.release, t.events, t.authority, t.boundary, now)])
      else t.(step := Waiting)
    case GiveUp => t.(step := Waiting)
    case Replace(boundary) =>
      Task(t.rows, boundary, false, false, None, None, None, [], Waiting, t.effects)
    case Journal(call) => t.(rows := QueueHistory.After(t.rows, call))
  }

  function Run(render: P.Rendering, t: Task, events: seq<Event>): Task
    decreases |events|
  {
    if events == [] then t else Run(render, Next(render, t, events[0]), events[1..])
  }

  // ---------------------------------------------------------------- what the journal must show

  /** Attempt `k` may follow: the one before it is finished and its release was acknowledged. */
  predicate Released(rows: QueueSnapshot, k: nat)
    requires k < |rows.attempts|
  {
    && rows.attempts[k].intent.Finished?
    && exists n :: 0 <= n < |rows.commands|
         && rows.commands[n].attemptId == rows.attempts[k].attemptId
         && rows.commands[n].action.Release? && rows.commands[n].state.Acknowledged?
  }

  predicate SuccessorsReleased(rows: QueueSnapshot) {
    forall k :: 0 <= k < |rows.attempts| - 1 ==> Released(rows, k)
  }

  /** What a decision made sure of, as long as nothing is started meanwhile. */
  predicate StillDecided(rows: QueueSnapshot, itemId: Id, handoff: bool) {
    && |rows.attempts| < |rows.items| && rows.items[|rows.attempts|].itemId == itemId
    && (if handoff then rows.attempts != [] && Released(rows, |rows.attempts| - 1)
        else rows.attempts == [])
  }

  /** A later START reached the receiver only as a hand-over: with an unblocked authority, a
      confirmed release of an owned session, and a fresh idle receiver. */
  predicate EffectSafe(target: PlaybackTarget, e: StartEffect) {
    && IsIdle(target, e.events, e.authority, e.boundary, e.now)
    && (e.position > 0 ==> e.handoff && HandoverAllowed(e.playback, e.release))
  }

  predicate StepSound(t: Task) {
    match t.step
    case Waiting => true
    case Loaded(q) =>
      && Continues(q, t.rows) && |q.attempts| == |t.rows.attempts| && Driven(q)
    case Decided(itemId, handoff) => StillDecided(t.rows, itemId, handoff)
    case Prepared(_, handoff, position) => position > 0 ==> handoff
    case Claimed(_, _, handoff, position) => position > 0 ==> handoff
  }

  predicate Sound(t: Task) {
    && Durable(t.rows) && Driven(t.rows) && SuccessorsReleased(t.rows) && StepSound(t)
    && forall k :: 0 <= k < |t.effects| ==> EffectSafe(t.rows.target, t.effects[k])
  }

  // ---------------------------------------------------------------- each step keeps it

  /** A release and a finish are permanent. */
  lemma {:induction false} ReleasedStays(s: QueueSnapshot, t: QueueSnapshot, k: nat)
    requires Continues(s, t) && k < |s.attempts| && Released(s, k)
    ensures k < |t.attempts| && Released(t, k)
  {
    assert AttemptContinues(s.attempts[k], t.attempts[k]);
    var n :| 0 <= n < |s.commands| && s.commands[n].attemptId == s.attempts[k].attemptId
      && s.commands[n].action.Release? && s.commands[n].state.Acknowledged?;
    assert CommandContinues(s.cancellationRequested, s.commands[n], t.commands[n]);
  }

  lemma {:induction false} AcknowledgedIsReleased(q: QueueSnapshot)
    requires q.attempts != [] && q.attempts[|q.attempts| - 1].intent.Finished?
    requires ReleaseAcknowledged(q.commands, q.attempts[|q.attempts| - 1].attemptId)
    ensures Released(q, |q.attempts| - 1)
  {
  }

  /** A transaction that starts nothing adds no attempt. */
  lemma {:induction false} AddsNoAttempt(s: QueueSnapshot, taken: Taken, op: StoreOp)
    requires Write(s, taken, op).Ok? && !op.OpStart? && !op.OpAdopt?
    ensures |Write(s, taken, op).value.attempts| == |s.attempts|
  {
    hide Stoppable, AnyUnresolved, AnyReserved, Has, Dispatchable, Stageable, RequestMatches,
         ReservationFree, ActionFree, SameOperation, NativeDispatchable, Blank, OwnsUnresolved,
         DecisionFree;
  }

  /** What was finished and released stays so, as long as nothing is started. */
  lemma {:induction false} SuccessorsStay(s: QueueSnapshot, t: QueueSnapshot)
    requires Continues(s, t) && |t.attempts| == |s.attempts| && SuccessorsReleased(s)
    ensures SuccessorsReleased(t)
  {
    hide Continues, Released;
    forall k | 0 <= k < |t.attempts| - 1 ensures Released(t, k) {
      ReleasedStays(s, t, k);
    }
  }

  lemma {:induction false} StepStays(t: Task, rows: QueueSnapshot)
    requires StepSound(t) && Continues(t.rows, rows) && |rows.attempts| == |t.rows.attempts|
    ensures StepSound(t.(rows := rows))
  {
    hide Continues, Driven, Released;
    match t.step {
      case Loaded(q) => ContinuesTransitively(q, t.rows, rows);
      case Decided(itemId, handoff) =>
        ItemsStay(t.rows, rows, |rows.attempts|);
        if handoff {
          ReleasedStays(t.rows, rows, |rows.attempts| - 1);
        }
      case _ =>
    }
  }

  lemma {:induction false} JournalKeeps(t: Task, call: Call)
    requires Sound(t) && call.op.WellFormed() && !call.op.OpStart? && !call.op.OpAdopt?
    ensures Sound(t.(rows := QueueHistory.After(t.rows, call)))
  {
    hide Durable, Driven, Continues, SuccessorsReleased, StepSound, EffectSafe, StartsNext,
         QueueHistory.After;
    var rows := QueueHistory.After(t.rows, call);
    AfterContinues(t.rows, call);
    assert StartsNext(t.rows, call.op) by { StartsNothing(t.rows, call.op); }
    AfterDrives(t.rows, call);
    AfterAddsNoAttempt(t.rows, call);
    TargetStays(t.rows, rows);
    SuccessorsStay(t.rows, rows);
    StepStays(t, rows);
  }

  lemma {:induction false} StartsNothing(s: QueueSnapshot, op: StoreOp)
    requires !op.OpStart?
    ensures StartsNext(s, op)
  {
  }

  lemma {:induction false} TargetStays(s: QueueSnapshot, t: QueueSnapshot)
    requires Continues(s, t)
    ensures t.target == s.target
  {
  }

  lemma {:induction false} ItemsStay(s: QueueSnapshot, t: QueueSnapshot, k: nat)
    requires Continues(s, t)
    ensures |t.items| == |s.items|
    ensures k < |s.items| ==> t.items[k].itemId == s.items[k].itemId
  {
    assert k < |s.items| ==> ItemContinues(s.items[k], t.items[k]);
  }

  lemma {:induction false} AfterAddsNoAttempt(s: QueueSnapshot, call: Call)
    requires Durable(s) && call.op.WellFormed() && !call.op.OpStart? && !call.op.OpAdopt?
    ensures |QueueHistory.After(s, call).attempts| == |s.attempts|
  {
    hide Durable, Write, RollsBack;
    ApplyKeeps(s, call.taken, call.op);
    if Apply(s, call.taken, call.op).Ok? {
      AddsNoAttempt(s, call.taken, call.op);
    }
  }

  /** Without a session, an item is proposed only for a queue that was never started. */
  lemma {:induction false} FirstIsFirst(render: P.Rendering, q: QueueSnapshot, now: Monotonic,
                                        authority: Option<P.QueueAuthority>,
                                        receiver: Option<PlaybackObservation>)
    requires P.Decide(render, q, None, now, authority, receiver, None,
                      DEFAULT_POLICY).disposition.Ready?
    ensures q.attempts == []
  {
    hide P.ValidQueue, P.ReceiverReady, P.FirstPending, P.AnyUnsettled, P.AnyStop;
  }

  lemma {:induction false} NextFromPosition(s: QueueSnapshot, itemId: Id)
    requires InListOrder(s.items, s.attempts) && |s.attempts| < |s.items|
    requires s.items[|s.attempts|].itemId == itemId
    ensures NextToStart(s, itemId)
  {
    var found := P.FirstPending(s.items);
    assert s.items[|s.attempts|].intent.Pending?;
    hide P.FirstPending;
  }

  lemma {:induction false} DrivenOrder(s: QueueSnapshot)
    requires Driven(s)
    ensures InListOrder(s.items, s.attempts)
  {
  }

  lemma {:induction false} FirstKeeps(render: P.Rendering, t: Task, request: PlaybackRequest,
                                      now: Monotonic)
    requires Sound(t) && FirstStartAllowed(render, t, request, now)
    ensures StillDecided(t.rows, request.queueItemId, false)
  {
    var q := t.step.queue;
    hide Durable, Driven, Continues, P.Decide, SuccessorsReleased;
    ReadyFacts(render, q, None, now, Some(Authority(t, q)), Some(t.events[|t.events| - 1]), None,
               DEFAULT_POLICY);
    FirstIsFirst(render, q, now, Some(Authority(t, q)), Some(t.events[|t.events| - 1]));
    DrivenOrder(q);
    NextPosition(q, request.queueItemId);
    ItemsStay(q, t.rows, |q.attempts|);
  }

  lemma {:induction false} SuccessorKeeps(render: P.Rendering, t: Task, itemId: Id, now: Monotonic)
    requires Sound(t) && SuccessorAllowed(render, t, itemId, now)
    ensures StillDecided(t.rows, itemId, true)
  {
    hide Sound, SuccessorAllowed, Durable, Driven, Continues, P.Decide,
         ReleaseAcknowledged, Released, InListOrder, NextToStart, PendingItem, AnyUnsettledItem;
    LoadedFacts(render, t, itemId, now);
    var q := t.step.queue;
    AcknowledgedIsReleased(q);
    ReleasedStays(q, t.rows, |q.attempts| - 1);
    ReadyFacts(render, t.rows, t.playback, now, t.authority, Some(t.events[|t.events| - 1]), None,
               DEFAULT_POLICY);
    DrivenOrder(t.rows);
    NextPosition(t.rows, itemId);
  }

  /** What a hand-over was decided on. */
  lemma {:induction false} LoadedFacts(render: P.Rendering, t: Task, itemId: Id, now: Monotonic)
    requires Sound(t) && SuccessorAllowed(render, t, itemId, now)
    ensures t.step.Loaded? && t.events != [] && Durable(t.rows) && Driven(t.rows)
    ensures var q := t.step.queue;
            && Continues(q, t.rows) && |q.attempts| == |t.rows.attempts| && q.attempts != []
            && q.attempts[|q.attempts| - 1].intent.Finished?
            && ReleaseAcknowledged(q.commands, q.attempts[|q.attempts| - 1].attemptId)
    ensures var d := P.Decide(render, t.rows, t.playback, now, t.authority,
                              Some(t.events[|t.events| - 1]), None, DEFAULT_POLICY);
            d.disposition.Ready? && d.nextItemId == Some(itemId)
  {
    hide Durable, Driven, Continues, P.Decide, SuccessorsReleased, IsIdle, HandoverAllowed,
         ReleaseAcknowledged, EffectSafe;
  }

  lemma {:induction false} StartAdds(s: QueueSnapshot, taken: Taken, i: Id, a: Id, c: Id,
                                     at: Instant, rev: int)
    requires PrepareStart(s, taken, i, a, c, at, rev).Ok?
    ensures var t := PrepareStart(s, taken, i, a, c, at, rev).value;
            t == s || |t.attempts| == |s.attempts| + 1
  {
  }

  lemma {:induction false} PrepareKeeps(t: Task, call: Call, itemId: Id, handoff: bool)
    requires Sound(t) && StillDecided(t.rows, itemId, handoff)
    requires call.op.OpStart? && call.op.itemId == itemId
    ensures var rows := QueueHistory.After(t.rows, call);
            && Durable(rows) && Driven(rows) && SuccessorsReleased(rows)
            && rows.target == t.rows.target
            && (t.rows.attempts != [] ==> handoff)
  {
    hide Durable, Driven, Continues, Released, InListOrder, NextToStart, EffectSafe, StepSound,
         Remaining, QueueHistory.After;
    var rows := QueueHistory.After(t.rows, call);
    DrivenOrder(t.rows);
    NextFromPosition(t.rows, itemId);
    AfterContinues(t.rows, call);
    AfterDrives(t.rows, call);
    AfterAddsOne(t.rows, call);
    TargetStays(t.rows, rows);
    forall k | 0 <= k < |rows.attempts| - 1 ensures Released(rows, k) {
      ReleasedStays(t.rows, rows, k);
    }
  }

  lemma {:induction false} AfterAddsOne(s: QueueSnapshot, call: Call)
    requires Durable(s) && call.op.OpStart?
    ensures |QueueHistory.After(s, call).attempts| <= |s.attempts| + 1
  {
    hide Durable, PrepareStart, RollsBack;
    ApplyKeeps(s, call.taken, call.op);
    if Apply(s, call.taken, call.op).Ok? {
      StartAdds(s, call.taken, call.op.itemId, call.op.attemptId, call.op.commandId, call.op.at,
                call.op.revision);
    }
  }

  /** The events that write to the journal. */
  lemma {:induction false} CommitKeeps(render: P.Rendering, t: Task, e: Event)
    requires Sound(t) && e.WellFormed() && (e.Prepare? || e.Claim? || e.Journal?)
    ensures Sound(Next(render, t, e))
    ensures Next(render, t, e).rows.target == t.rows.target
  {
    hide Durable, Driven, Continues, SuccessorsReleased, StillDecided, EffectSafe, Apply;
    match e {
      case Prepare(taken, attemptId, commandId, at, revision) =>
        if t.step.Decided? {
          PrepareKeeps(t, Call(taken, OpStart(t.step.itemId, attemptId, commandId, at, revision)),
                       t.step.itemId, t.step.handoff);
        }
      case Claim(taken, at, revision) =>
        if t.step.Prepared? {
          JournalKeeps(t, Call(taken, OpDispatch(t.step.commandId, at, revision)));
          JournalTarget(t, Call(taken, OpDispatch(t.step.commandId, at, revision)));
        }
      case Journal(call) =>
        JournalKeeps(t, call);
        JournalTarget(t, call);
    }
  }

  lemma {:induction false} NextKeeps(render: P.Rendering, t: Task, e: Event)
    requires Sound(t) && e.WellFormed()
    ensures Sound(Next(render, t, e))
    ensures Next(render, t, e).rows.target == t.rows.target
  {
    hide Sound, Next;
    if e.Prepare? || e.Claim? || e.Journal? {
      CommitKeeps(render, t, e);
    } else {
      OwnerKeeps(render, t, e);
    }
  }

  /** The events that do not. */
  lemma {:induction false} OwnerKeeps(render: P.Rendering, t: Task, e: Event)
    requires Sound(t) && !e.Prepare? && !e.Claim? && !e.Journal?
    ensures Sound(Next(render, t, e))
    ensures Next(render, t, e).rows.target == t.rows.target
  {
    hide Durable, Driven, Continues, SuccessorsReleased, StillDecided, EffectSafe, Apply,
         FirstStartAllowed, SuccessorAllowed;
    match e {
      case Load => ContinuesReflexively(t.rows);
      case DecideFirst(request, now) =>
        if FirstStartAllowed(render, t, request, now) {
          FirstKeeps(render, t, request, now);
        }
      case DecideSuccessor(itemId, now) =>
        if SuccessorAllowed(render, t, itemId, now) {
          SuccessorKeeps(render, t, itemId, now);
        }
      case Effect(now) =>
        if && MayStart(t) && IsIdle(t.rows.target, t.events, t.authority, t.boundary, now)
           && (t.step.handoff ==> HandoverAllowed(t.playback, t.release)) {
          EffectKeeps(t, now);
        }
      case _ =>
    }
  }

  lemma {:induction false} JournalTarget(t: Task, call: Call)
    requires Sound(t) && call.op.WellFormed()
    ensures QueueHistory.After(t.rows, call).target == t.rows.target
  {
    hide Durable, Continues;
    AfterContinues(t.rows, call);
    TargetStays(t.rows, QueueHistory.After(t.rows, call));
  }

  lemma {:induction false} EffectKeeps(t: Task, now: Monotonic)
    requires StepSound(t) && MayStart(t)
    requires IsIdle(t.rows.target, t.events, t.authority, t.boundary, now)
    requires t.step.handoff ==> HandoverAllowed(t.playback, t.release)
    ensures EffectSafe(t.rows.target,
      StartEffect(t.step.position, t.step.handoff, t.playback, t.release, t.events, t.authority,
                  t.boundary, now))
  {
    hide IsIdle, HandoverAllowed;
  }

  // ---------------------------------------------------------------- every run

  predicate WellFormedEvents(events: seq<Event>) {
    forall k :: 0 <= k < |events| ==> events[k].WellFormed()
  }

  lemma {:induction false} RunKeeps(render: P.Rendering, t: Task, events: seq<Event>)
    requires Sound(t) && WellFormedEvents(events)
    ensures Sound(Run(render, t, events))
    ensures Run(render, t, events).rows.target == t.rows.target
    decreases |events|
  {
    hide Sound, Next;
    if events != [] {
      NextKeeps(render, t, events[0]);
      RunKeeps(render, Next(render, t, events[0]), events[1..]);
    }
  }

  function Opened(rows: QueueSnapshot, boundary: Monotonic): Task {
    Task(rows, boundary, false, false, None, None, None, [], Waiting, [])
  }

  /** Over every run of the owner and its replacements, with arbitrary receivers, use cases, crashes
      and other journal writes: items are started once each and in list order; each later START was
      prepared only after the attempt before it had finished and its RELEASE was acknowledged; and a
      later START reached the receiver only as an unblocked, confirmed hand-over to a fresh idle
      receiver. */
  lemma {:induction false} SuccessorsStartSafely(render: P.Rendering, id: Id,
                                                 target: PlaybackTarget, items: seq<QueueEntry>,
                                                 mode: QueueMode, boundary: Monotonic,
                                                 events: seq<Event>)
    requires WellFormedQueue(target, items) && WellFormedEvents(events)
    requires Create(id, target, items, mode).Ok?
    ensures var t := Run(render, Opened(Create(id, target, items, mode).value, boundary), events);
            && InListOrder(t.rows.items, t.rows.attempts)
            && SuccessorsReleased(t.rows)
            && forall k :: 0 <= k < |t.effects| ==> EffectSafe(target, t.effects[k])
  {
    hide Create, Durable, Driven, EffectSafe, Released, Run, Sound, InListOrder, SuccessorsReleased;
    var rows := Create(id, target, items, mode).value;
    OpenedIsSound(id, target, items, mode, boundary);
    RunKeeps(render, Opened(rows, boundary), events);
    SoundRecords(Run(render, Opened(rows, boundary), events));
  }

  lemma {:induction false} OpenedIsSound(id: Id, target: PlaybackTarget, items: seq<QueueEntry>,
                                         mode: QueueMode, boundary: Monotonic)
    requires WellFormedQueue(target, items) && Create(id, target, items, mode).Ok?
    ensures Sound(Opened(Create(id, target, items, mode).value, boundary))
    ensures Create(id, target, items, mode).value.target == target
  {
    CreateDrives(id, target, items, mode);
    hide Durable, Driven, EffectSafe, Released;
  }

  lemma {:induction false} SoundRecords(t: Task)
    requires Sound(t)
    ensures InListOrder(t.rows.items, t.rows.attempts) && SuccessorsReleased(t.rows)
    ensures forall k :: 0 <= k < |t.effects| ==> EffectSafe(t.rows.target, t.effects[k])
  {
    hide Durable, InListOrder, SuccessorsReleased, EffectSafe, StepSound;
    DrivenOrder(t.rows);
  }
}
