/** When an undisturbed owner does start an item: the first one of a queue, or the next one after a
    hand-over.  The conditions are those of the rows, the session, the release and the receiver. */
module OwnerStarts {
  import opened Values
  import opened QueueRecords
  import opened QueueJournal
  import opened JournalInvariant
  import opened QueueDriving
  import opened PlaybackTask
  import Policy
  import D = DecisionTable
  import E = TransactionEffects
  import F = FreshCalls
  import X = QueueExecution
  import P = QueuePolicy
  import H = Handoff
  import L = ReleaseReadiness

  // ---------------------------------------------------------------- the checks of the owner

  /** The newest event says that nothing runs on the target, in this connection, at most five
      seconds ago and after the owner began; and the connection was not reset in this window. */
  predicate ShowsIdle(target: PlaybackTarget, events: seq<PlaybackObservation>,
                      authority: Option<P.QueueAuthority>, boundary: Monotonic, now: Monotonic) {
    && events != [] && authority.Some?
    && (forall k :: 0 <= k < |events| ==> !events[k].connectionReset)
    && var o := events[|events| - 1];
    && o.target == target && o.connectionGeneration == authority.value.connectionGeneration
    && o.sessionActive == Some(false)
    && boundary < o.monotonic <= now <= o.monotonic + 5.0
  }

  /** Command `k` is the newest RELEASE of the attempt. */
  predicate NewestRelease(commands: seq<JournalCommand>, attemptId: Id, k: nat) {
    && k < |commands| && commands[k].attemptId == attemptId && commands[k].action.Release?
    && forall n :: k < n < |commands| ==>
         !(commands[n].attemptId == attemptId && commands[n].action.Release?)
  }

  /** The session was released, is still owned, and nothing vetoed its hand-over. */
  predicate HandedOver(playback: Option<SessionSnapshot>, release: Option<H.ReleaseAuthority>) {
    && playback.Some? && playback.value.releaseConfirmed && !playback.value.ownershipLost
    && release.Some? && !release.value.blocked
  }

  lemma {:induction false} IdleIsShown(target: PlaybackTarget, events: seq<PlaybackObservation>,
                                       authority: Option<P.QueueAuthority>, boundary: Monotonic,
                                       now: Monotonic)
    ensures IsIdle(target, events, authority, boundary, now)
        <==> ShowsIdle(target, events, authority, boundary, now)
  {
  }

  lemma {:induction false} ReleaseIsNewest(commands: seq<JournalCommand>, attemptId: Id)
    ensures match LastRelease(commands, attemptId)
            case None => forall k: nat :: !NewestRelease(commands, attemptId, k)
            case Some(k) => NewestRelease(commands, attemptId, k)
  {
    if commands != [] {
      var n := |commands| - 1;
      var front := commands[..n];
      ReleaseIsNewest(front, attemptId);
      forall k: nat | NewestRelease(commands, attemptId, k) && k < n
        ensures NewestRelease(front, attemptId, k)
      {
      }
    }
  }

  lemma {:induction false} AcknowledgedRelease(commands: seq<JournalCommand>, attemptId: Id)
    ensures ReleaseAcknowledged(commands, attemptId)
        <==> exists k :: 0 <= k < |commands| && NewestRelease(commands, attemptId, k)
               && commands[k].state.Acknowledged?
  {
    hide LastRelease;
    ReleaseIsNewest(commands, attemptId);
  }

  /** The effects of every run (`SuccessorsStartSafely`) are safe in these terms. */
  lemma {:induction false} SafeExactly(target: PlaybackTarget, e: StartEffect)
    ensures EffectSafe(target, e)
        <==> && ShowsIdle(target, e.events, e.authority, e.boundary, e.now)
             && (e.position > 0 ==> e.handoff && HandedOver(e.playback, e.release))
  {
    hide IsIdle, ShowsIdle;
    IdleIsShown(target, e.events, e.authority, e.boundary, e.now);
  }

  // ---------------------------------------------------------------- the decisions

  /** Everything that the decision about the next item looks at. */
  function HandoverView(t: Task, now: Monotonic): View
    requires t.events != []
  {
    View(t.playback, now, t.authority, Some(t.events[|t.events| - 1]), None, DEFAULT_POLICY)
  }

  /** The item is the next one, and the decision table makes it ready. */
  predicate NextIsReady(render: P.Rendering, q: QueueSnapshot, v: View, itemId: Id)
  {
    && D.MayAdvance(render, q, v) && !D.AllSettled(q) && v.authority.Some? && D.ReceiverFree(q, v)
    && exists n :: 0 <= n < |q.items| && D.FirstOpen(q, n) && q.items[n].itemId == itemId
  }

  lemma {:induction false} ReadyItem(render: P.Rendering, q: QueueSnapshot, v: View, itemId: Id)
    ensures var d := DecideOn(render, q, v);
            (d.disposition.Ready? && d.nextItemId == Some(itemId))
            <==> NextIsReady(render, q, v, itemId)
  {
    hide DecideOn, D.MayAdvance, D.AllSettled, D.ReceiverFree;
    D.ReadyExactly(render, q, v);
    if D.MayAdvance(render, q, v) {
      D.MayAdvanceIsSettled(render, q, v);
    }
  }

  /** The owner hands over to this item: its last attempt finished and the newest RELEASE of it is
      acknowledged, nothing is canceled, nothing vetoed the hand-over, and the receiver is idle. */
  predicate HandsOver(render: P.Rendering, t: Task, itemId: Id, now: Monotonic) {
    && t.started && t.playback.Some? && !t.canceled && !t.rows.cancellationRequested
    && t.rows.attempts != []
    && var last := t.rows.attempts[|t.rows.attempts| - 1];
    && last.intent.Finished?
    && (exists k :: 0 <= k < |t.rows.commands|
          && NewestRelease(t.rows.commands, last.attemptId, k)
          && t.rows.commands[k].state.Acknowledged?)
    && t.release.Some? && !t.release.value.blocked
    && ShowsIdle(t.rows.target, t.events, t.authority, t.boundary, now)
    && NextIsReady(render, t.rows, HandoverView(t, now), itemId)
  }

  lemma {:induction false} SuccessorIsHandedOver(render: P.Rendering, t: Task, itemId: Id,
                                                 now: Monotonic)
    ensures SuccessorAllowed(render, t.(step := Loaded(t.rows)), itemId, now)
        <==> HandsOver(render, t, itemId, now)
  {
    hide P.Decide, NextIsReady, ReleaseAcknowledged, NewestRelease, IsIdle;
    IdleIsShown(t.rows.target, t.events, t.authority, t.boundary, now);
    if t.rows.attempts != [] {
      AcknowledgedRelease(t.rows.commands, t.rows.attempts[|t.rows.attempts| - 1].attemptId);
    }
    if t.events != [] {
      ReadyItem(render, t.rows, HandoverView(t, now), itemId);
    }
  }

  /** What the owner looks at before its first start. */
  function FirstView(t: Task, now: Monotonic): View
    requires t.events != []
  {
    var o := t.events[|t.events| - 1];
    View(None, now,
         Some(P.QueueAuthority(t.rows.queueId, t.rows.generation, o.connectionGeneration,
                               t.boundary)),
         Some(o), None, DEFAULT_POLICY)
  }

  /** The owner starts its first item, on a queue that was never started. */
  predicate Begins(render: P.Rendering, t: Task, request: PlaybackRequest, now: Monotonic) {
    && !t.started && !t.canceled && !t.rows.cancellationRequested && t.events != []
    && request.target == t.rows.target
    && NextIsReady(render, t.rows, FirstView(t, now), request.queueItemId)
  }

  lemma {:induction false} FirstBegins(render: P.Rendering, t: Task, request: PlaybackRequest,
                                       now: Monotonic)
    ensures FirstStartAllowed(render, t.(step := Loaded(t.rows)), request, now)
        <==> Begins(render, t, request, now)
  {
    hide P.Decide, NextIsReady;
    if t.events != [] {
      ReadyItem(render, t.rows, FirstView(t, now), request.queueItemId);
    }
  }

  // ---------------------------------------------------------------- the undisturbed start

  /** The identities and times that come from outside. */
  datatype Given = Given(taken: Taken, attemptId: Id, commandId: Id, preparedAt: Instant,
                         claimedAt: Instant, effectAt: Monotonic)

  /** Journal the START, claim it, and let it reach the receiver. */
  function Carrying(g: Given, revision: int): seq<Event> {
    [Prepare(g.taken, g.attemptId, g.commandId, g.preparedAt, revision),
     Claim(g.taken, g.claimedAt, revision + 1), Effect(g.effectAt)]
  }

  /** The journal takes the START and its claim. */
  predicate CanBeCarried(rows: QueueSnapshot, itemId: Id, g: Given) {
    && E.MayStart(rows, g.taken, itemId, g.attemptId, g.commandId, rows.revision)
    && g.preparedAt <= g.claimedAt
  }

  function Reached(t: Task, handoff: bool, g: Given): StartEffect {
    StartEffect(|t.rows.attempts|, handoff, t.playback, t.release, t.events, t.authority,
                t.boundary, g.effectAt)
  }

  function StartRequest(rows: QueueSnapshot, itemId: Id, g: Given): X.Request {
    X.CommandRequest(itemId, g.attemptId, g.commandId, Start, rows.revision, rows.generation)
  }

  lemma {:induction false} StartJournaled(rows: QueueSnapshot, itemId: Id, g: Given)
    requires Durable(rows)
    ensures var op := OpStart(itemId, g.attemptId, g.commandId, g.preparedAt, rows.revision);
            var r := Apply(rows, g.taken, op);
            && (E.MayStart(rows, g.taken, itemId, g.attemptId, g.commandId, rows.revision)
                <==> r.Ok? && r.value != rows)
            && (r.Ok? && r.value != rows ==> E.Changes(rows, op, r.value) && Durable(r.value))
  {
    hide Durable, Write, E.Changes, RollsBack, E.MayStart;
    var op := OpStart(itemId, g.attemptId, g.commandId, g.preparedAt, rows.revision);
    E.TransactionDoes(rows, g.taken, op);
    ApplyKeeps(rows, g.taken, op);
    assert !RollsBack(rows, op) by { StartsAreKept(rows, op); }
    if E.Permits(rows, g.taken, op) {
      StartChanges(rows, op, Write(rows, g.taken, op).value);
    }
  }

  lemma {:induction false} StartsAreKept(rows: QueueSnapshot, op: StoreOp)
    ensures op.OpStart? || op.OpDispatch? ==> !RollsBack(rows, op)
  {
  }

  lemma {:induction false} StartChanges(s: QueueSnapshot, op: StoreOp, t: QueueSnapshot)
    requires op.OpStart? && E.Changes(s, op, t)
    ensures t != s && t.revision == s.revision + 1 && t.generation == s.generation
    ensures t.cancellationRequested == s.cancellationRequested && t.target == s.target
  {
  }

  lemma {:induction false} ClaimChanges(s: QueueSnapshot, taken: Taken, op: StoreOp)
    requires op.OpDispatch? && Apply(s, taken, op).Ok?
    ensures var t := Apply(s, taken, op).value;
            && t.cancellationRequested == s.cancellationRequested && t.target == s.target
  {
  }

  lemma {:induction false} MayStartIsUncanceled(s: QueueSnapshot, taken: Taken, i: Id, a: Id,
                                                c: Id, revision: int)
    ensures E.MayStart(s, taken, i, a, c, revision) ==> !s.cancellationRequested
  {
    hide Blank, E.NoCommand, E.NoAttempt;
  }

  /** From the decision on, the START reaches the receiver exactly when the journal takes it and its
      claim, nothing is canceled, the receiver is idle then, and a hand-over is still allowed. */
  lemma {:induction false} DecidedReaches(render: P.Rendering, t: Task, itemId: Id, handoff: bool,
                                          g: Given)
    requires Durable(t.rows) && t.step == Decided(itemId, handoff)
    ensures Run(render, t, Carrying(g, t.rows.revision)).effects
         == if && CanBeCarried(t.rows, itemId, g) && !t.canceled
               && ShowsIdle(t.rows.target, t.events, t.authority, t.boundary, g.effectAt)
               && (handoff ==> HandedOver(t.playback, t.release))
            then t.effects + [Reached(t, handoff, g)] else t.effects
  {
    hide Durable, Apply, E.MayStart, E.Changes, IsIdle, ShowsIdle, X.Request.Claim,
         X.Request.Prepare, Next;
    var events := Carrying(g, t.rows.revision);
    var prepared := Next(render, t, events[0]);
    var claimed := Next(render, prepared, events[1]);
    ThreeEvents(render, t, events);
    PrepareReaches(render, t, itemId, handoff, g);
    MayStartIsUncanceled(t.rows, g.taken, itemId, g.attemptId, g.commandId, t.rows.revision);
    EffectReaches(render, claimed, g);
  }

  lemma {:induction false} ThreeEvents(render: P.Rendering, t: Task, events: seq<Event>)
    requires |events| == 3
    ensures Run(render, t, events)
         == Next(render, Next(render, Next(render, t, events[0]), events[1]), events[2])
  {
    hide Next;
    var t1 := Next(render, t, events[0]);
    var t2 := Next(render, t1, events[1]);
    assert Run(render, Next(render, t2, events[2]), []) == Next(render, t2, events[2]);
    assert events[1..][1..] == [events[2]] && events[1..][1..][1..] == [];
    assert Run(render, t2, [events[2]]) == Next(render, t2, events[2]);
    assert Run(render, t1, events[1..]) == Run(render, t2, [events[2]]);
  }

  /** Everything but the rows and the step stays. */
  predicate Elsewise(t: Task, u: Task) {
    && u.effects == t.effects && u.events == t.events && u.authority == t.authority
    && u.boundary == t.boundary && u.playback == t.playback && u.release == t.release
    && u.canceled == t.canceled
  }

  lemma {:induction false} PrepareStep(render: P.Rendering, t: Task, itemId: Id, handoff: bool,
                                       g: Given)
    requires t.step == Decided(itemId, handoff)
    ensures var op := OpStart(itemId, g.attemptId, g.commandId, g.preparedAt, t.rows.revision);
            var r := Apply(t.rows, g.taken, op);
            var u := Next(render, t, Carrying(g, t.rows.revision)[0]);
            && Elsewise(t, u)
            && (if r.Ok? && r.value != t.rows then
                  u.rows == r.value && u.step == Prepared(g.commandId, handoff, |t.rows.attempts|)
                else u.rows == t.rows && u.step.Waiting?)
  {
    hide Apply;
  }

  lemma {:induction false} ClaimStep(render: P.Rendering, t: Task, g: Given, revision: int)
    ensures var u := Next(render, t, Carrying(g, revision)[1]);
            && Elsewise(t, u)
            && (t.step.Waiting? ==> u == t)
            && (t.step.Prepared? ==>
                  var r := Apply(t.rows, g.taken,
                                 OpDispatch(t.step.commandId, g.claimedAt, revision + 1));
                  if r.Ok? then
                    && u.rows == r.value
                    && u.step == Claimed(r.value.revision, r.value.generation, t.step.handoff,
                                         t.step.position)
                  else u.rows == t.rows && u.step.Waiting?)
  {
    hide Apply;
  }

  /** What journaling and claiming leave. */
  lemma {:induction false} PrepareReaches(render: P.Rendering, t: Task, itemId: Id, handoff: bool,
                                          g: Given)
    requires Durable(t.rows) && t.step == Decided(itemId, handoff)
    ensures var events := Carrying(g, t.rows.revision);
            var u := Next(render, Next(render, t, events[0]), events[1]);
            && Elsewise(t, u) && u.rows.target == t.rows.target
            && (u.step.Claimed? <==> CanBeCarried(t.rows, itemId, g))
            && (u.step.Claimed? ==>
                  && u.step == Claimed(u.rows.revision, u.rows.generation, handoff,
                                       |t.rows.attempts|)
                  && u.rows.cancellationRequested == t.rows.cancellationRequested)
  {
    hide Durable, Apply, E.MayStart, E.Changes, X.AfterReread, Next;
    var start := OpStart(itemId, g.attemptId, g.commandId, g.preparedAt, t.rows.revision);
    var dispatch := OpDispatch(g.commandId, g.claimedAt, t.rows.revision + 1);
    PrepareStep(render, t, itemId, handoff, g);
    ClaimStep(render, Next(render, t, Carrying(g, t.rows.revision)[0]), g, t.rows.revision);
    StartJournaled(t.rows, itemId, g);
    var r := Apply(t.rows, g.taken, start);
    if r.Ok? && r.value != t.rows {
      StartChanges(t.rows, start, r.value);
      F.PreparedIsPermitted(t.rows, r.value, g.taken, StartRequest(t.rows, itemId, g),
                            g.preparedAt, g.claimedAt);
      if Apply(r.value, g.taken, dispatch).Ok? {
        ClaimChanges(r.value, g.taken, dispatch);
      }
    }
  }

  lemma {:induction false} EffectReaches(render: P.Rendering, t: Task, g: Given)
    ensures var u := Next(render, t, Effect(g.effectAt));
            u.effects
            == if && t.step.Claimed? && t.rows.revision == t.step.revision
                  && t.rows.generation == t.step.generation && !t.rows.cancellationRequested
                  && !t.canceled
                  && ShowsIdle(t.rows.target, t.events, t.authority, t.boundary, g.effectAt)
                  && (t.step.handoff ==> HandedOver(t.playback, t.release))
               then t.effects + [StartEffect(t.step.position, t.step.handoff, t.playback,
                                             t.release, t.events, t.authority, t.boundary,
                                             g.effectAt)]
               else t.effects
  {
    hide IsIdle, ShowsIdle;
    IdleIsShown(t.rows.target, t.events, t.authority, t.boundary, g.effectAt);
  }

  // ---------------------------------------------------------------- the whole start

  lemma {:induction false} TwoMore(render: P.Rendering, t: Task, a: Event, b: Event,
                                   rest: seq<Event>)
    ensures Run(render, t, [a, b] + rest) == Run(render, Next(render, Next(render, t, a), b), rest)
  {
    hide Next;
    assert ([a, b] + rest)[1..] == [b] + rest && ([b] + rest)[1..] == rest;
  }

  lemma {:induction false} LoadAndHandOver(render: P.Rendering, t: Task, itemId: Id,
                                           now: Monotonic)
    ensures var u := Next(render, Next(render, t, Load), DecideSuccessor(itemId, now));
            && u == t.(step := u.step)
            && (if HandsOver(render, t, itemId, now) then u.step == Decided(itemId, true)
                else u.step.Waiting?)
  {
    hide SuccessorAllowed, HandsOver;
    SuccessorIsHandedOver(render, t, itemId, now);
  }

  lemma {:induction false} LoadAndBegin(render: P.Rendering, t: Task, request: PlaybackRequest,
                                        now: Monotonic)
    ensures var u := Next(render, Next(render, t, Load), DecideFirst(request, now));
            && (if Begins(render, t, request, now) then
                  u == t.(started := true, authority := FirstView(t, now).authority,
                          step := Decided(request.queueItemId, false))
                else u == t.(step := Waiting))
  {
    hide FirstStartAllowed, Begins, P.Decide;
    FirstBegins(render, t, request, now);
    if Begins(render, t, request, now) {
      BeginsHasEvents(render, t, request, now);
    }
  }

  lemma {:induction false} BeginsHasEvents(render: P.Rendering, t: Task, request: PlaybackRequest,
                                           now: Monotonic)
    ensures Begins(render, t, request, now) ==> t.events != []
  {
    hide NextIsReady;
  }

  lemma {:induction false} WaitingStays(render: P.Rendering, t: Task, g: Given, revision: int)
    requires t.step.Waiting?
    ensures Run(render, t, Carrying(g, revision)).effects == t.effects
  {
    hide Next;
    ThreeEvents(render, t, Carrying(g, revision));
    PrepareWaits(render, t, Carrying(g, revision)[0]);
    ClaimStep(render, t, g, revision);
    EffectReaches(render, t, g);
  }

  lemma {:induction false} PrepareWaits(render: P.Rendering, t: Task, e: Event)
    requires t.step.Waiting? && e.Prepare?
    ensures Next(render, t, e) == t
  {
  }

  /** An undisturbed owner hands over to the next item exactly when its rows, its session and the
      receiver allow it, the journal takes the START, and the receiver is still idle at the effect.
      Then the START reaches the receiver once, with what the last check saw. */
  lemma {:induction false} HandoverExactly(render: P.Rendering, t: Task, itemId: Id,
                                           now: Monotonic, g: Given)
    requires Sound(t)
    ensures Run(render, t,
                [Load, DecideSuccessor(itemId, now)] + Carrying(g, t.rows.revision)).effects
         == if && HandsOver(render, t, itemId, now) && CanBeCarried(t.rows, itemId, g)
               && ShowsIdle(t.rows.target, t.events, t.authority, t.boundary, g.effectAt)
               && HandedOver(t.playback, t.release)
            then t.effects + [Reached(t, true, g)] else t.effects
  {
    hide Next, HandsOver, CanBeCarried, ShowsIdle, Durable, Run, Carrying;
    var rest := Carrying(g, t.rows.revision);
    TwoMore(render, t, Load, DecideSuccessor(itemId, now), rest);
    LoadAndHandOver(render, t, itemId, now);
    var u := Next(render, Next(render, t, Load), DecideSuccessor(itemId, now));
    HandsOverUncanceled(render, t, itemId, now);
    SoundIsDurable(t);
    if u.step.Decided? {
      DecidedReaches(render, u, itemId, true, g);
    } else {
      WaitingStays(render, u, g, t.rows.revision);
    }
  }

  lemma {:induction false} HandsOverUncanceled(render: P.Rendering, t: Task, itemId: Id,
                                               now: Monotonic)
    ensures HandsOver(render, t, itemId, now) ==> !t.canceled
  {
    hide NextIsReady, ShowsIdle, NewestRelease;
  }

  lemma {:induction false} SoundIsDurable(t: Task)
    ensures Sound(t) ==> Durable(t.rows)
  {
    hide Durable, Driven, SuccessorsReleased, StepSound, EffectSafe;
  }

  /** The same for the first item of a queue that was never started. */
  lemma {:induction false} FirstStartExactly(render: P.Rendering, t: Task,
                                             request: PlaybackRequest, now: Monotonic, g: Given)
    requires Sound(t)
    ensures Run(render, t,
                [Load, DecideFirst(request, now)] + Carrying(g, t.rows.revision)).effects
         == if && Begins(render, t, request, now) && CanBeCarried(t.rows, request.queueItemId, g)
               && t.events != []
               && ShowsIdle(t.rows.target, t.events, FirstView(t, now).authority, t.boundary,
                            g.effectAt)
            then t.effects
                 + [Reached(t.(authority := FirstView(t, now).authority), false, g)]
            else t.effects
  {
    hide Next, Begins, CanBeCarried, ShowsIdle, Durable, Run, Carrying;
    var rest := Carrying(g, t.rows.revision);
    TwoMore(render, t, Load, DecideFirst(request, now), rest);
    LoadAndBegin(render, t, request, now);
    var u := Next(render, Next(render, t, Load), DecideFirst(request, now));
    BeginsUncanceled(render, t, request, now);
    SoundIsDurable(t);
    if Begins(render, t, request, now) {
      DecidedReaches(render, u, request.queueItemId, false, g);
    } else {
      WaitingStays(render, u, g, t.rows.revision);
    }
  }

  lemma {:induction false} BeginsUncanceled(render: P.Rendering, t: Task,
                                            request: PlaybackRequest, now: Monotonic)
    ensures Begins(render, t, request, now) ==> !t.canceled && t.events != []
  {
    hide NextIsReady;
  }

  // ---------------------------------------------------------------- tracking the release

  /** A window that brings the end of the owned session grants its release: the authority is that of
      the end, unblocked exactly if every later event of the window was quiet. */
  predicate GrantsRelease(s: SessionSnapshot, events: seq<PlaybackObservation>, k: nat,
                          a: Option<H.ReleaseAuthority>) {
    && k < |events| && a.Some? && a.value.terminal == events[k]
    && (!a.value.blocked
        <==> H.QuietSince(s, events[k], H.Counted(events, events[k].sequence)))
  }

  lemma {:induction false} ReleaseGranted(s: SessionSnapshot, events: seq<PlaybackObservation>,
                                          k: nat)
    requires L.FirstEnd(H.Delivery(s, events), k)
    ensures GrantsRelease(s, events, k, H.Release(s, events, None))
  {
    hide H.TrackedAll, H.Counted, H.QuietSince;
    var d := H.Delivery(s, events);
    L.EndOfBatch(d);
    L.QuietExactly(s, events[k], events);
    H.TrackingKeepsEnd(s, events, H.Granted(events[k]));
  }

  /** The events that the owner accepts reach its session, and through it the release. */
  lemma {:induction false} AcceptedEventsGrant(render: P.Rendering, t: Task,
                                               events: seq<PlaybackObservation>, now: Monotonic,
                                               k: nat)
    requires t.playback.Some? && t.release.None?
    requires var r := Policy.ObserveAll(t.playback.value, events, now, DEFAULT_POLICY);
             r.Ok? && L.FirstEnd(H.Delivery(r.value, events), k)
    ensures var u := Next(render, t, AcceptEvents(events, now));
            && u.playback.Some?
            && Ok(u.playback.value)
               == Policy.ObserveAll(t.playback.value, events, now, DEFAULT_POLICY)
            && GrantsRelease(u.playback.value, events, k, u.release)
            && u == t.(playback := u.playback, release := u.release)
  {
    hide H.Release, Policy.ObserveAll, GrantsRelease, L.FirstEnd;
    ReleaseGranted(Policy.ObserveAll(t.playback.value, events, now, DEFAULT_POLICY).value, events, k);
  }

  /** So do the observations of a use case, whose snapshot replaces the session; a release of another
      attempt is forgotten first. */
  lemma {:induction false} AcceptedSnapshotGrants(render: P.Rendering, t: Task,
                                                  snapshot: SessionSnapshot,
                                                  events: seq<PlaybackObservation>, k: nat)
    requires L.FirstEnd(H.Delivery(snapshot, events), k)
    requires t.release.None?
          || (t.playback.Some? && t.playback.value.scope.request.attemptId
                                  != snapshot.scope.request.attemptId)
    ensures var u := Next(render, t, AcceptSnapshot(snapshot, events));
            && u.playback == Some(snapshot)
            && GrantsRelease(snapshot, events, k, u.release)
            && u == t.(playback := u.playback, release := u.release)
  {
    hide H.Release, GrantsRelease, L.FirstEnd;
    ReleaseGranted(snapshot, events, k);
  }

  /** A tracked release goes on with every window of a completed session, and is blocked exactly by
      its first violation (`Handoff.TrackingIsItsTrace`). */
  lemma {:induction false} ObservedWindowTracks(render: P.Rendering, t: Task,
                                                events: seq<PlaybackObservation>)
    requires t.playback.Some? && t.playback.value.completion.Some? && t.release.Some?
    requires H.Lawful(t.release.value)
    ensures var u := Next(render, t, Observe(events));
            && u.events == events && u.release.Some? && H.Lawful(u.release.value)
            && H.Traces(t.playback.value, t.release.value,
                        H.Counted(events, t.release.value.lastSequence), u.release.value)
            && u == t.(events := events, release := u.release)
  {
    hide H.TrackedAll, H.Counted, H.Traces, H.Lawful;
    H.TrackingIsItsTrace(t.playback.value, events, t.release.value);
  }
}
