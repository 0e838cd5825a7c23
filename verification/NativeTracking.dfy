/** Passive observation of native playback, as functions on a tracker's state: a second,
    stricter ordering window around the evidence policy. */
module NativeTracking {
  import opened Values
  import opened Policy
  import opened QueueRecords
  import opened QueueJournal

  datatype Refusal = ConnectionChanged | SessionChanged | SessionExited | UnexpectedContent

  /** What a tracker watches; fixed when it is made. */
  datatype Watch = Watch(
    request: PlaybackRequest, applicationId: Id, sessionId: Id, connectionGeneration: Id,
    startedMonotonic: Monotonic, policy: EvidencePolicy)

  datatype Tracker = Tracker(
    snapshot: Option<SessionSnapshot>, refusal: Option<Refusal>,
    receiver: Option<PlaybackObservation>, lastSequence: int, lastMonotonic: Monotonic,
    now: Monotonic)

  /** Only an exact YouTube session on a Cast target is watched. */
  predicate ValidIdentity(request: PlaybackRequest, applicationId: Id, sessionId: Id) {
    && request.target.route == "cast" && request.content.provider == "youtube"
    && applicationId == YOUTUBE_APPLICATION_ID && sessionId != ""
  }

  function Opened(w: Watch, lastSequence: int): Tracker {
    Tracker(None, None, None, lastSequence, w.startedMonotonic, w.startedMonotonic)
  }

  predicate Ready(w: Watch, t: Tracker) {
    && t.refusal.None? && t.receiver.Some?
    && Fresh(t.now, t.receiver.value.monotonic, w.policy.maxAge)
    && t.snapshot.Some? && !t.snapshot.value.ownershipLost
    && t.snapshot.value.evidence.receiverPlaybackConfirmed
  }

  // ---------------------------------------------------------------- one event

  function Refreshed(w: Watch, s: Option<SessionSnapshot>, now: Monotonic): Option<SessionSnapshot>
    requires s.Some? ==> Refresh(s.value, now, w.policy).Ok?
  {
    if s.Some? then Some(Refresh(s.value, now, w.policy).value) else None
  }

  function Invalidated(s: Option<SessionSnapshot>): Option<SessionSnapshot> {
    if s.Some? then Some(InvalidateHistory(s.value)) else None
  }

  /** A contradiction is remembered: nothing after it can make the tracker ready again. */
  function Contradicted(t: Tracker, reason: Refusal, o: PlaybackObservation): Tracker {
    t.(refusal := Some(reason), receiver := None,
       snapshot := if t.snapshot.None? then None else
         Some(InvalidateHistory(t.snapshot.value).(
           ownershipLost := true, latest := Some(o),
           evidence := Retired(t.snapshot.value, SessionReplaced))))
  }

  /** The event is new, fresh and addressed to the watched target. */
  predicate InWindow(w: Watch, t: Tracker, o: PlaybackObservation, now: Monotonic) {
    && t.refusal.None?
    && o.target == w.request.target
    && o.monotonic > w.startedMonotonic
    && Fresh(now, o.monotonic, w.policy.maxAge)
    && o.sequence > t.lastSequence && o.monotonic > t.lastMonotonic
  }

  function Advanced(t: Tracker, o: PlaybackObservation): Tracker {
    var u := if t.lastSequence >= 0 && o.sequence > t.lastSequence + 1
             then t.(receiver := None, snapshot := Invalidated(t.snapshot)) else t;
    u.(lastSequence := o.sequence, lastMonotonic := o.monotonic)
  }

  /** Why an event contradicts the watch, if it does. */
  function Contradiction(w: Watch, t: Tracker, o: PlaybackObservation,
                         waiting: Option<ContentRef>): Option<Refusal> {
    if o.connectionReset || o.connectionGeneration != w.connectionGeneration
    then Some(ConnectionChanged)
    else if o.sessionActive == Some(false) then Some(SessionExited)
    else if || (o.applicationId.Some? && o.applicationId.value != w.applicationId)
            || (o.sessionId.Some? && o.sessionId.value != w.sessionId)
    then Some(SessionChanged)
    else if && o.content.Some? && o.content.value != w.request.content
            && !(t.snapshot.None? && o.content == waiting)
    then Some(UnexpectedContent)
    else None
  }

  predicate ExactSession(w: Watch, o: PlaybackObservation) {
    o.applicationId == Some(w.applicationId) && o.sessionId == Some(w.sessionId)
  }

  /** Handing an event to the policy; it can only raise on a snapshot from the future. */
  function Followed(w: Watch, s: SessionSnapshot, o: PlaybackObservation, now: Monotonic)
    : SessionSnapshot
    requires Refresh(s, now, w.policy).Ok?
  {
    Sample(Refresh(s, now, w.policy).value, o, now, w.policy)
  }

  /** The snapshot that an exact media event starts. */
  function Scoped(w: Watch, boundary: Monotonic): SessionSnapshot {
    FreshSession(PlaybackScope(w.request, w.sessionId, w.connectionGeneration, boundary,
                               Some(w.applicationId)))
  }

  /** A media event follows a fresh receiver witness of the same session. */
  predicate Witnessed(w: Watch, t: Tracker, o: PlaybackObservation) {
    && ExactSession(w, o)
    && o.playbackId.Some? && o.playbackId.value != ""
    && t.receiver.Some?
    && Fresh(o.monotonic, t.receiver.value.monotonic, w.policy.maxAge)
  }

  predicate Current(s: Option<SessionSnapshot>, now: Monotonic) {
    s.Some? && s.value.latest.Some? ==> s.value.latest.value.monotonic <= now
  }

  /** The event after the ordering window: a contradiction, a receiver witness, or media. */
  function Judged(w: Watch, t: Tracker, o: PlaybackObservation, now: Monotonic,
                  boundary: Monotonic, waiting: Option<ContentRef>): Tracker
    requires Current(t.snapshot, now)
  {
    var refusal := Contradiction(w, t, o, waiting);
    if refusal.Some? then Contradicted(t, refusal.value, o)
    else if o.sessionActive == Some(true) then
      if ExactSession(w, o) then
        t.(receiver := Some(o),
           snapshot := if t.snapshot.None? then None
                       else Some(Followed(w, t.snapshot.value, o, now)))
      else t.(receiver := None, snapshot := Invalidated(t.snapshot))
    else if !Witnessed(w, t, o) then
      t.(receiver := if ExactSession(w, o) then t.receiver else None,
         snapshot := Invalidated(t.snapshot))
    else if o.content.Some? && !o.identityUpdate.Explicit? then
      t.(snapshot := Invalidated(t.snapshot))
    else if t.snapshot.None? && o.content != Some(w.request.content) then t
    else
      var s := if t.snapshot.Some? then t.snapshot.value else Scoped(w, boundary);
      t.(snapshot := Some(Followed(w, s, o, now)))
  }

  function Noted(w: Watch, t: Tracker, o: PlaybackObservation, now: Monotonic,
                 waiting: Option<ContentRef>): Tracker
    requires Current(t.snapshot, now)
  {
    if InWindow(w, t, o, now) then Judged(w, Advanced(t, o), o, now, t.lastMonotonic, waiting)
    else t
  }

  // ---------------------------------------------------------------- the auxiliary invariant

  /** The last media event of a confirmed snapshot: fresh scope, exact, explicit, ad-free
      progress. */
  predicate Proof(w: Watch, scope: PlaybackScope, o: PlaybackObservation) {
    && o.target == w.request.target && o.content == Some(w.request.content)
    && ExactSession(w, o) && o.connectionGeneration == w.connectionGeneration
    && o.playbackId.Some? && o.playbackId.value != "" && o.position.Some?
    && !o.connectionReset && o.sessionActive.None? && o.identityUpdate.Explicit?
    && o.state.Playing? && o.adActive == Some(false)
    && o.monotonic > scope.startedMonotonic
  }

  predicate InWatch(w: Watch, scope: PlaybackScope) {
    && scope.request == w.request && scope.sessionId == w.sessionId
    && scope.connectionGeneration == w.connectionGeneration
    && scope.applicationId == Some(w.applicationId)
    && w.startedMonotonic <= scope.startedMonotonic
  }

  /** The two trackers in step.  While playback is confirmed, the policy has consumed every event
      of the window: its last number is the tracker's, so no heartbeat can open a gap unseen. */
  predicate InStep(w: Watch, s: SessionSnapshot, refused: bool, lastSequence: int,
                   lastMonotonic: Monotonic, now: Monotonic) {
    && InWatch(w, s.scope)
    && s.scope.startedMonotonic <= lastMonotonic <= now
    && s.lastSequence <= lastSequence
    && (s.lastMonotonic.Some? ==> s.lastMonotonic.value <= lastMonotonic)
    && (s.latest.Some? ==> s.latest.value.monotonic <= lastMonotonic)
    && !s.stopRequested
    && (s.ownershipLost ==> refused)
    && (s.evidence.receiverPlaybackConfirmed ==>
          && s.hasConfirmedPlayback && !s.ownershipLost && s.evidence.reason.ProgressConfirmed?
          && s.lastSequence == lastSequence
          && s.latest.Some? && Proof(w, s.scope, s.latest.value))
  }

  predicate Valid(w: Watch, t: Tracker) {
    && w.startedMonotonic <= t.lastMonotonic <= t.now
    && t.lastSequence >= -1
    && (t.snapshot.Some? ==>
          InStep(w, t.snapshot.value, t.refusal.Some?, t.lastSequence, t.lastMonotonic, t.now))
  }

  /** A snapshot whose confirmation, if any, is fresh. */
  predicate NotStale(w: Watch, t: Tracker) {
    t.snapshot.Some? && t.snapshot.value.evidence.receiverPlaybackConfirmed ==>
      && t.snapshot.value.latest.Some?
      && Fresh(t.now, t.snapshot.value.latest.value.monotonic, w.policy.maxAge)
  }

  // ---------------------------------------------------------------- what the policy does

  /** The sample itself confirms: exact content, playing without ads, at a position. */
  predicate Confirming(s: SessionSnapshot, o: PlaybackObservation, t: SessionSnapshot) {
    && t.latest == Some(o) && t.hasConfirmedPlayback && t.ownershipLost == s.ownershipLost
    && t.evidence.reason.ProgressConfirmed?
    && o.content == Some(s.scope.request.content)
    && o.position.Some? && o.state.Playing? && o.adActive == Some(false)
  }

  lemma {:induction false} AttributedConfirmation(s: SessionSnapshot, o: PlaybackObservation,
                                                  history: bool, now: Monotonic,
                                                  policy: EvidencePolicy)
    requires !Foreign(s.scope, o) && (o.content.None? ==> history)
    requires o.adActive == Some(false)
    ensures var t := Attributed(s, o, history, now, policy);
            t.evidence.receiverPlaybackConfirmed ==> Confirming(s, o, t)
  {
    hide Confirms;
  }

  lemma {:induction false} MediaConfirmation(s: SessionSnapshot, o: PlaybackObservation,
                                             now: Monotonic, policy: EvidencePolicy)
    requires !Foreign(s.scope, o)
    ensures var t := Media(s, o, now, policy);
            t.evidence.receiverPlaybackConfirmed ==> Confirming(s, o, t)
  {
    hide Qualified, SamePlayback, Attributed, IncrementalIdentity, Foreign;
    var history := IncrementalIdentity(s, o, policy);
    if (o.content.Some? || history) && o.adActive == Some(false) {
      AttributedConfirmation(s, o, history, now, policy);
      AttributedConfirmation(Unwitnessed(s), o, history, now, policy);
    }
  }

  /** A confirmation after a sample comes from that sample, or was there and the sample is a
      matching heartbeat. */
  lemma {:induction false} ConfirmationSource(s: SessionSnapshot, o: PlaybackObservation,
                                              now: Monotonic, policy: EvidencePolicy)
    ensures var t := Consume(s, o, now, policy);
            t.evidence.receiverPlaybackConfirmed ==>
              || (&& Heartbeat(s.scope, o) && t.latest == s.latest && t.evidence == s.evidence
                  && t.hasConfirmedPlayback == s.hasConfirmedPlayback
                  && t.ownershipLost == s.ownershipLost)
              || (Confirming(s, o, t) && !o.connectionReset && !Heartbeat(s.scope, o)
                  && o.sessionActive != Some(false))
  {
    hide Media;
    var t := if Reopens(s, o) then AbandonRelease(s) else s;
    if !Foreign(t.scope, o) {
      MediaConfirmation(t, o, now, policy);
    }
  }

  /** Within the watch, the policy neither loses the receiver nor stops on its own. */
  lemma {:induction false} ConsumeOwns(w: Watch, s: SessionSnapshot, o: PlaybackObservation,
                                       now: Monotonic, policy: EvidencePolicy)
    requires InWatch(w, s.scope) && !s.ownershipLost && !o.connectionReset
    requires o.sessionActive != Some(false) && ExactSession(w, o)
    requires o.content.Some? ==> o.content.value == w.request.content
    ensures !Consume(s, o, now, policy).ownershipLost
  {
    hide Media, Lost, Exit, Heartbeat, Reopens;
    var t := if Reopens(s, o) then AbandonRelease(s) else s;
    MediaOwns(t, o, now, policy);
  }

  /** Media never lose the receiver. */
  lemma {:induction false} MediaOwns(s: SessionSnapshot, o: PlaybackObservation, now: Monotonic,
                                     policy: EvidencePolicy)
    ensures Media(s, o, now, policy).ownershipLost == s.ownershipLost
  {
    hide Qualified, SamePlayback, IncrementalIdentity, Confirms;
  }

  lemma {:induction false} RefreshInStep(w: Watch, s: SessionSnapshot, refused: bool,
                                         lastSequence: int, lastMonotonic: Monotonic,
                                         before: Monotonic, now: Monotonic)
    requires InStep(w, s, refused, lastSequence, lastMonotonic, before) && before <= now
    ensures Refresh(s, now, w.policy).Ok?
    ensures var r := Refresh(s, now, w.policy).value;
            && InStep(w, r, refused, lastSequence, lastMonotonic, now)
            && r.ownershipLost == s.ownershipLost
            && (r.evidence.receiverPlaybackConfirmed ==>
                  s.evidence.receiverPlaybackConfirmed && r.latest.Some?
                  && Fresh(now, r.latest.value.monotonic, w.policy.maxAge))
  {
    hide InWatch;
  }

  /** An event that the tracker hands on. */
  predicate Handed(w: Watch, o: PlaybackObservation) {
    && o.target == w.request.target && o.connectionGeneration == w.connectionGeneration
    && ExactSession(w, o) && !o.connectionReset && o.sessionActive != Some(false)
    && (o.content.Some? ==> o.content.value == w.request.content)
    && (o.sessionActive.None? ==>
          && o.playbackId.Some? && o.playbackId.value != ""
          && (o.content.Some? ==> o.identityUpdate.Explicit?))
  }

  /** A handed event is accepted by the policy, and keeps the two in step. */
  lemma {:induction false} FollowedInStep(w: Watch, s: SessionSnapshot, o: PlaybackObservation,
                                          lastSequence: int, lastMonotonic: Monotonic,
                                          now: Monotonic)
    requires InStep(w, s, false, lastSequence, lastMonotonic, now) && lastSequence >= -1
    requires Handed(w, o) && Fresh(now, o.monotonic, w.policy.maxAge)
    requires o.sequence > lastSequence && o.monotonic > lastMonotonic
    requires lastSequence >= 0 && o.sequence > lastSequence + 1 ==>
      !s.evidence.receiverPlaybackConfirmed
    ensures Refresh(s, now, w.policy).Ok?
    ensures var t := Followed(w, s, o, now);
            && InStep(w, t, false, o.sequence, o.monotonic, now)
            && (t.evidence.receiverPlaybackConfirmed ==>
                  Fresh(now, t.latest.value.monotonic, w.policy.maxAge))
  {
    RefreshInStep(w, s, false, lastSequence, lastMonotonic, now, now);
    var r := Refresh(s, now, w.policy).value;
    assert Accepts(r, o, now, w.policy);
    var u := Ordered(r, o);
    var t := Consume(u, o, now, w.policy);
    hide Consume, Refresh;
    ConsumeSteps(u, o, now, w.policy);
    ConsumeOwns(w, u, o, now, w.policy);
    ConfirmationSource(u, o, now, w.policy);
    assert t == Followed(w, s, o, now);
    assert InWatch(w, t.scope) && t.scope == s.scope;
    if t.evidence.receiverPlaybackConfirmed {
      assert o.sessionActive.Some? ==> o.sessionActive.value;
      if Heartbeat(u.scope, o) {
        assert r.evidence.receiverPlaybackConfirmed;
        assert u.hasConfirmedPlayback;
      } else {
        assert Proof(w, t.scope, o);
      }
    }
  }

  lemma {:induction false} InvalidInStep(w: Watch, s: SessionSnapshot, refused: bool,
                                         lastSequence: int, lastMonotonic: Monotonic,
                                         now: Monotonic, o: PlaybackObservation)
    requires InStep(w, s, refused, lastSequence, lastMonotonic, now)
    requires o.sequence > lastSequence && lastMonotonic < o.monotonic <= now
    ensures InStep(w, InvalidateHistory(s), refused, o.sequence, o.monotonic, now)
    ensures InStep(w, InvalidateHistory(s), refused, lastSequence, lastMonotonic, now)
  {
    hide InWatch;
  }

  lemma {:induction false} RefusedInStep(w: Watch, t: Tracker, reason: Refusal,
                                         o: PlaybackObservation, lastSequence: int,
                                         lastMonotonic: Monotonic)
    requires t.snapshot.Some? ==>
      InStep(w, t.snapshot.value, t.refusal.Some?, lastSequence, lastMonotonic, t.now)
    requires lastSequence < o.sequence && lastMonotonic < o.monotonic <= t.now
    requires t.lastSequence == o.sequence >= 0 && t.lastMonotonic == o.monotonic
    requires w.startedMonotonic <= o.monotonic
    ensures Valid(w, Contradicted(t, reason, o)) && NotStale(w, Contradicted(t, reason, o))
    ensures Contradicted(t, reason, o).now == t.now
  {
    hide InWatch;
  }

  lemma {:induction false} ScopedInStep(w: Watch, boundary: Monotonic, lastSequence: int,
                                        now: Monotonic)
    requires w.startedMonotonic <= boundary <= now && lastSequence >= -1
    ensures InStep(w, Scoped(w, boundary), false, lastSequence, boundary, now)
    ensures !Scoped(w, boundary).evidence.receiverPlaybackConfirmed
  {
  }

  /** What the tracker knows after the ordering window, before it judges the event. */
  predicate Pending(w: Watch, t: Tracker, o: PlaybackObservation, lastSequence: int,
                    lastMonotonic: Monotonic) {
    && -1 <= lastSequence < o.sequence == t.lastSequence
    && w.startedMonotonic <= lastMonotonic < o.monotonic == t.lastMonotonic
    && o.monotonic <= t.now && Fresh(t.now, o.monotonic, w.policy.maxAge)
    && o.target == w.request.target && t.refusal.None?
    && (t.snapshot.Some? ==>
          && InStep(w, t.snapshot.value, false, lastSequence, lastMonotonic, t.now)
          && (lastSequence >= 0 && o.sequence > lastSequence + 1 ==>
                !t.snapshot.value.evidence.receiverPlaybackConfirmed))
  }

  lemma {:induction false} JudgedKeeps(w: Watch, t: Tracker, o: PlaybackObservation,
                                       lastSequence: int, lastMonotonic: Monotonic,
                                       waiting: Option<ContentRef>)
    requires Pending(w, t, o, lastSequence, lastMonotonic)
    ensures Current(t.snapshot, t.now)
    ensures var u := Judged(w, t, o, t.now, lastMonotonic, waiting);
            Valid(w, u) && NotStale(w, u) && u.now == t.now
  {
    hide InvalidateHistory, Followed, Contradicted, Scoped, InWatch, Proof;
    var refusal := Contradiction(w, t, o, waiting);
    if refusal.Some? {
      RefusedInStep(w, t, refusal.value, o, lastSequence, lastMonotonic);
    } else if t.snapshot.Some? {
      InvalidInStep(w, t.snapshot.value, false, lastSequence, lastMonotonic, t.now, o);
      InvalidIsUnconfirmed(t.snapshot.value);
      if Handed(w, o) {
        FollowedInStep(w, t.snapshot.value, o, lastSequence, lastMonotonic, t.now);
      }
    } else if Handed(w, o) {
      ScopedInStep(w, lastMonotonic, lastSequence, t.now);
      FollowedInStep(w, Scoped(w, lastMonotonic), o, lastSequence, lastMonotonic, t.now);
    }
  }

  lemma {:induction false} InvalidIsUnconfirmed(s: SessionSnapshot)
    ensures !InvalidateHistory(s).evidence.receiverPlaybackConfirmed
  {
  }

  /** One event keeps the trackers in step, and a confirmation that survives it is fresh. */
  lemma {:induction false} NotedKeeps(w: Watch, t: Tracker, o: PlaybackObservation,
                                      waiting: Option<ContentRef>)
    requires Valid(w, t) && NotStale(w, t)
    ensures Current(t.snapshot, t.now)
    ensures var u := Noted(w, t, o, t.now, waiting);
            Valid(w, u) && NotStale(w, u) && u.now == t.now
  {
    hide InStep, Judged;
    assert Current(t.snapshot, t.now) by { ValidIsCurrent(w, t); }
    if InWindow(w, t, o, t.now) {
      AdvancedIsPending(w, t, o);
      JudgedKeeps(w, Advanced(t, o), o, t.lastSequence, t.lastMonotonic, waiting);
    }
  }

  lemma {:induction false} ValidIsCurrent(w: Watch, t: Tracker)
    requires Valid(w, t)
    ensures Current(t.snapshot, t.now)
  {
  }

  lemma {:induction false} AdvancedIsPending(w: Watch, t: Tracker, o: PlaybackObservation)
    requires Valid(w, t) && InWindow(w, t, o, t.now)
    ensures Pending(w, Advanced(t, o), o, t.lastSequence, t.lastMonotonic)
    ensures Advanced(t, o).now == t.now
  {
    hide InvalidateHistory, InWatch, Proof;
    if t.snapshot.Some? {
      InvalidInStep(w, t.snapshot.value, false, t.lastSequence, t.lastMonotonic, t.now, o);
      InvalidIsUnconfirmed(t.snapshot.value);
    }
  }

  lemma {:induction false} RenewableSnapshot(w: Watch, t: Tracker, now: Monotonic)
    requires Valid(w, t) && t.now <= now && t.snapshot.Some?
    ensures Refresh(t.snapshot.value, now, w.policy).Ok?
  {
  }

  // ---------------------------------------------------------------- batches and runs

  /** `_refresh`: time advances, and the confirmation may expire. */
  function Renewed(w: Watch, t: Tracker, now: Monotonic): Tracker
    requires Valid(w, t) && t.now <= now
  {
    assert t.snapshot.Some? ==> Refresh(t.snapshot.value, now, w.policy).Ok?;
    t.(now := now, snapshot := Refreshed(w, t.snapshot, now))
  }

  lemma {:induction false} RenewedKeeps(w: Watch, t: Tracker, now: Monotonic)
    requires Valid(w, t) && t.now <= now
    ensures Valid(w, Renewed(w, t, now)) && NotStale(w, Renewed(w, t, now))
    ensures Renewed(w, t, now).now == now
  {
    hide InStep, Refresh;
    if t.snapshot.Some? {
      RefreshInStep(w, t.snapshot.value, t.refusal.Some?, t.lastSequence, t.lastMonotonic, t.now,
                    now);
    }
  }

  /** All events of a batch, at the instant of the tracker. */
  function NotedAll(w: Watch, t: Tracker, events: seq<PlaybackObservation>,
                    waiting: Option<ContentRef>): (u: Tracker)
    requires Valid(w, t) && NotStale(w, t)
    ensures Valid(w, u) && NotStale(w, u) && u.now == t.now
    decreases |events|
  {
    if events == [] then t
    else
      var before := NotedAll(w, t, events[..|events| - 1], waiting);
      var o := events[|events| - 1];
      NotedKeeps(w, before, o, waiting);
      Noted(w, before, o, before.now, waiting)
  }

  /** `observe`: time must not run backwards. */
  function Observed(w: Watch, t: Tracker, events: seq<PlaybackObservation>, now: Monotonic)
    : (u: Result<Tracker>)
    requires Valid(w, t)
    ensures u.Ok? <==> t.now <= now
    ensures u.Ok? ==> Valid(w, u.value) && NotStale(w, u.value) && u.value.now == now
  {
    if now < t.now then Err(Malformed)
    else
      RenewedKeeps(w, t, now);
      var seen := NotedAll(w, Renewed(w, t, now), events, None);
      RenewedKeeps(w, seen, now);
      Ok(Renewed(w, seen, now))
  }

  datatype Batch = Batch(events: seq<PlaybackObservation>, now: Monotonic)

  /** A run of observation calls; a refused one changes nothing. */
  function Watched(w: Watch, batches: seq<Batch>): (t: Tracker)
    ensures Valid(w, t) && NotStale(w, t)
    decreases |batches|
  {
    if batches == [] then Opened(w, -1)
    else
      var before := Watched(w, batches[..|batches| - 1]);
      var batch := batches[|batches| - 1];
      match Observed(w, before, batch.events, batch.now)
      case Ok(t) => t
      case Err(_) => before
  }

  /** Readiness is exactly the playback evidence that an adoption demands at that instant. */
  lemma {:induction false} ReadyQualifies(w: Watch, t: Tracker)
    requires Valid(w, t) && NotStale(w, t) && Ready(w, t) && w.policy == DEFAULT_POLICY
    ensures QualifiedForAdoption(w, t)
  {
  }

  predicate QualifiedForAdoption(w: Watch, t: Tracker) {
    && t.snapshot.Some?
    && QualifiedProgress(t.snapshot.value, w.request.target, w.request.content, t.now)
    && InWatch(w, t.snapshot.value.scope)
  }

  /** Over every run, a ready tracker can be adopted. */
  lemma {:induction false} ReadyRunQualifies(w: Watch, batches: seq<Batch>)
    requires w.policy == DEFAULT_POLICY && Ready(w, Watched(w, batches))
    ensures QualifiedForAdoption(w, Watched(w, batches))
  {
    hide Ready, Valid, NotStale, QualifiedForAdoption;
    ReadyQualifies(w, Watched(w, batches));
  }

  /** A contradiction is final: no later batch makes the tracker ready or accepts an event. */
  lemma {:induction false} RefusalIsFinal(w: Watch, batches: seq<Batch>, n: nat)
    requires n <= |batches| && Watched(w, batches[..n]).refusal.Some?
    ensures Watched(w, batches).refusal == Watched(w, batches[..n]).refusal
    ensures !Ready(w, Watched(w, batches))
    decreases |batches|
  {
    hide Valid, NotStale, Noted, Judged, InWindow;
    if n == |batches| {
      assert batches[..n] == batches;
    } else {
      var before := batches[..|batches| - 1];
      assert before[..n] == batches[..n];
      RefusalIsFinal(w, before, n);
      var t, batch := Watched(w, before), batches[|batches| - 1];
      if t.now <= batch.now {
        RenewedKeeps(w, t, batch.now);
        RefusedIgnores(w, Renewed(w, t, batch.now), batch.events, None);
      }
    }
  }

  lemma {:induction false} RefusedIgnores(w: Watch, t: Tracker, events: seq<PlaybackObservation>,
                                          waiting: Option<ContentRef>)
    requires Valid(w, t) && NotStale(w, t) && t.refusal.Some?
    ensures NotedAll(w, t, events, waiting) == t
    decreases |events|
  {
    hide Valid, NotStale, Judged;
    if events != [] {
      RefusedIgnores(w, t, events[..|events| - 1], waiting);
    }
  }

  // ---------------------------------------------------------------- a declared successor

  /** Declared durable intent: exactly this successor may follow exactly this predecessor. */
  datatype Authorization = Authorization(
    operationId: Id, predecessor: PlaybackRequest, successor: PlaybackRequest, applicationId: Id,
    sessionId: Id)
  {
    predicate WellFormed() {
      && ValidIdentity(predecessor, applicationId, sessionId)
      && ValidIdentity(successor, applicationId, sessionId)
      && operationId != "" && predecessor.target == successor.target
      && predecessor.attemptId != successor.attemptId
      && predecessor.queueItemId != successor.queueItemId
      && predecessor.content.contentId != successor.content.contentId
    }
  }

  /** The successor's tracker beside the predecessor's own session. */
  datatype Succession = Succession(tracker: Tracker, predecessor: SessionSnapshot)

  function SuccessorWatch(a: Authorization, connectionGeneration: Id, started: Monotonic,
                          policy: EvidencePolicy): Watch
  {
    Watch(a.successor, a.applicationId, a.sessionId, connectionGeneration, started, policy)
  }

  /** A predecessor of which nothing was observed yet. */
  function Unseen(a: Authorization, w: Watch): SessionSnapshot {
    FreshSession(PlaybackScope(a.predecessor, a.sessionId, w.connectionGeneration,
                               w.startedMonotonic, Some(a.applicationId)))
  }

  /** A live predecessor is owned, not stopped, in the authorized scope, and from before. */
  predicate LivePredecessor(a: Authorization, w: Watch, s: SessionSnapshot) {
    && s.scope.request == a.predecessor && s.scope.applicationId == Some(a.applicationId)
    && s.scope.sessionId == a.sessionId
    && s.scope.connectionGeneration == w.connectionGeneration
    && s.scope.startedMonotonic <= w.startedMonotonic
    && (s.lastMonotonic.Some? ==> s.lastMonotonic.value <= w.startedMonotonic)
    && !s.ownershipLost && !s.stopRequested
  }

  /** In a snapshot that the policy built, the latest sample is not newer than the last one. */
  predicate Ordinary(s: SessionSnapshot) {
    && s.lastSequence >= -1
    && (s.latest.Some? && !s.ownershipLost ==>
          s.lastMonotonic.Some? && s.latest.value.monotonic <= s.lastMonotonic.value)
  }

  predicate ValidPair(w: Watch, p: Succession) {
    && Valid(w, p.tracker)
    && (!p.predecessor.ownershipLost ==> Current(Some(p.predecessor), p.tracker.now))
  }

  /** A refusal also ends the predecessor's ownership, but not its recorded completion. */
  function Bereft(s: SessionSnapshot): SessionSnapshot {
    InvalidateHistory(s).(ownershipLost := true, evidence := Retired(s, SessionReplaced))
  }

  function PairNoted(a: Authorization, w: Watch, p: Succession, o: PlaybackObservation)
    : Succession
    requires ValidPair(w, p) && NotStale(w, p.tracker)
  {
    NotedKeeps(w, p.tracker, o, Some(a.predecessor.content));
    var tracker := Noted(w, p.tracker, o, p.tracker.now, Some(a.predecessor.content));
    if !InWindow(w, p.tracker, o, p.tracker.now) then p
    else
      var s := Followed(w, p.predecessor, o, p.tracker.now);
      Succession(tracker, if tracker.refusal.Some? && !s.ownershipLost then Bereft(s) else s)
  }

  lemma {:induction false} PairNotedKeeps(a: Authorization, w: Watch, p: Succession,
                                          o: PlaybackObservation)
    requires ValidPair(w, p) && NotStale(w, p.tracker)
    ensures var q := PairNoted(a, w, p, o);
            && ValidPair(w, q) && NotStale(w, q.tracker) && q.tracker.now == p.tracker.now
            && Grows(p.predecessor, q.predecessor)
  {
    hide Valid, NotStale, Noted, Consume;
    NotedKeeps(w, p.tracker, o, Some(a.predecessor.content));
    if InWindow(w, p.tracker, o, p.tracker.now) {
      var s := p.predecessor;
      ChangesRaiseRevision(s, o, p.tracker.now, w.policy);
      var r := Refresh(s, p.tracker.now, w.policy).value;
      ConsumeSteps(Ordered(r, o), o, p.tracker.now, w.policy);
    }
  }

  function PairNotedAll(a: Authorization, w: Watch, p: Succession,
                        events: seq<PlaybackObservation>): (q: Succession)
    requires ValidPair(w, p) && NotStale(w, p.tracker)
    ensures ValidPair(w, q) && NotStale(w, q.tracker) && q.tracker.now == p.tracker.now
    ensures Grows(p.predecessor, q.predecessor)
    decreases |events|
  {
    if events == [] then p
    else
      var before := PairNotedAll(a, w, p, events[..|events| - 1]);
      var o := events[|events| - 1];
      PairNotedKeeps(a, w, before, o);
      var q := PairNoted(a, w, before, o);
      GrowsTransitively(p.predecessor, before.predecessor, q.predecessor);
      q
  }

  function PairRenewed(w: Watch, p: Succession, now: Monotonic): Succession
    requires ValidPair(w, p) && p.tracker.now <= now
  {
    p.(tracker := Renewed(w, p.tracker, now))
  }

  /** A live predecessor is refreshed after the batch, before the successor is. */
  function PairObserved(a: Authorization, w: Watch, p: Succession,
                        events: seq<PlaybackObservation>, now: Monotonic): (q: Result<Succession>)
    requires ValidPair(w, p)
    ensures q.Ok? <==> p.tracker.now <= now
    ensures q.Ok? ==> ValidPair(w, q.value) && NotStale(w, q.value.tracker)
    ensures q.Ok? ==> q.value.tracker.now == now && Grows(p.predecessor, q.value.predecessor)
  {
    if now < p.tracker.now then Err(Malformed)
    else
      RenewedKeeps(w, p.tracker, now);
      var seen := PairNotedAll(a, w, PairRenewed(w, p, now), events);
      PairFinishKeeps(w, seen, now);
      Ok(PairFinish(w, seen, now))
  }

  function PairFinish(w: Watch, p: Succession, now: Monotonic): Succession
    requires ValidPair(w, p) && p.tracker.now == now
  {
    Succession(Renewed(w, p.tracker, now), Refresh(p.predecessor, now, w.policy).value)
  }

  lemma {:induction false} PairFinishKeeps(w: Watch, p: Succession, now: Monotonic)
    requires ValidPair(w, p) && p.tracker.now == now
    ensures var q := PairFinish(w, p, now);
            && ValidPair(w, q) && NotStale(w, q.tracker) && q.tracker.now == now
            && Grows(p.predecessor, q.predecessor)
  {
    hide Valid, NotStale;
    RenewedKeeps(w, p.tracker, now);
  }

  // ---------------------------------------------------------------- the journal accepts it

  /** The authorization was mapped from this reservation of this queue. */
  predicate Authorizes(s: QueueSnapshot, r: NativeReservation, a: Authorization) {
    && a.successor.target == s.target
    && a.successor.queueItemId == r.successorItemId
    && a.successor.attemptId == r.successorAttemptId
    && a.applicationId == r.applicationId && a.sessionId == r.sessionId
    && ItemAt(s.items, r.successorItemId).Some?
    && a.successor.content == s.items[ItemAt(s.items, r.successorItemId).value].content
  }

  /** What an adoption demands of the journal itself, apart from what was observed. */
  predicate AwaitsAdoption(s: QueueSnapshot, taken: Taken, r: NativeReservation, at: Instant,
                           decision: Id) {
    && s.mode.Native? && r.state.Reserved? && r.adoptionDecisionId.None? && at >= r.createdAt
    && EnqueueAt(s.operations, r.reservationId).Some?
    && Sent(s.operations[EnqueueAt(s.operations, r.reservationId).value].state)
    && s.attempts != [] && s.attempts[|s.attempts| - 1].attemptId == r.predecessorAttemptId
    && !Blank(decision)
    && AdoptionFree(s, taken, r, s.attempts[|s.attempts| - 1], decision)
  }

  /** Whenever the successor's tracker is ready, the journal adopts what it observed: no guard on
      the observation can fail at that instant. */
  lemma {:induction false} ReadySuccessorIsAdopted(s: QueueSnapshot, taken: Taken, k: nat,
                                                   a: Authorization, w: Watch, t: Tracker,
                                                   at: Instant, decision: Id)
    requires k < |s.reservations|
    requires ReservationAt(s.reservations, s.reservations[k].reservationId) == Some(k)
    requires Authorizes(s, s.reservations[k], a)
    requires AwaitsAdoption(s, taken, s.reservations[k], at, decision)
    requires w == SuccessorWatch(a, w.connectionGeneration, w.startedMonotonic, DEFAULT_POLICY)
    requires Valid(w, t) && NotStale(w, t) && Ready(w, t)
    ensures AdoptNativeSuccessor(s, taken, s.reservations[k].reservationId, t.snapshot.value,
                                 t.now, at, decision, s.revision, s.generation)
         == Ok(Adoption(s, s.reservations[k], s.attempts[|s.attempts| - 1], at, decision))
  {
    ReadyQualifies(w, t);
    hide Ready, Valid, NotStale, QualifiedProgress, Adoption, AdoptionFree, Sent, ItemAt, EnqueueAt,
         ReservationAt, Blank;
  }
}
