/** The evidence policy: an ordered stream of untrusted samples is folded into claims such as
    "playing", "finished naturally" and "stopped".  Every event and time is supplied by callers. */
module Policy {
  import opened Values

  // ---------------------------------------------------------------- operations without samples

  /** Evidence after which only a recorded completion is still claimed. */
  function Retired(s: SessionSnapshot, reason: EvidenceReason): PlaybackEvidence {
    PlaybackEvidence(false, false, s.completion.Some?, reason)
  }

  /** The player state when nothing current is known. */
  function Unobserved(s: SessionSnapshot): PlayerState {
    if s.completion.Some? then PlayerState.Ended else PlayerState.Unknown
  }

  /** The witnesses of progress and of an approaching end are given up. */
  function Unwitnessed(s: SessionSnapshot): SessionSnapshot {
    s.(progressAnchor := None, completionAnchor := None, hasConfirmedPlayback := false)
  }

  function RequestStop(s: SessionSnapshot, boundary: Option<Monotonic>): SessionSnapshot {
    s.(revision := s.revision + 1,
       stopRequested := true,
       stopBoundary := if boundary.Some? then boundary else s.stopBoundary,
       completionAnchor := None,
       hasConfirmedPlayback := false,
       evidence := Retired(s, AwaitingObservation))
  }

  function RecordReceipt(s: SessionSnapshot, receipt: CommandReceipt): Result<SessionSnapshot> {
    if || receipt.requestId != s.scope.request.requestId
       || receipt.attemptId != s.scope.request.attemptId
    then Err(Malformed) else
    var t := if receipt.action.Stop? then RequestStop(s, None) else s;
    Ok(t.(revision := t.revision + 1, receipt := Some(receipt)))
  }

  function Refresh(s: SessionSnapshot, now: Monotonic, policy: EvidencePolicy)
    : Result<SessionSnapshot>
  {
    if s.latest.None? || s.ownershipLost then Ok(s)
    else if now < s.latest.value.monotonic then Err(Malformed)
    else if now - s.latest.value.monotonic <= policy.maxAge || s.evidence.reason.Stale? then Ok(s)
    else Ok(Unwitnessed(s).(
      revision := s.revision + 1, state := Unobserved(s), evidence := Retired(s, Stale)))
  }

  /** An explicit missing-observation boundary retires the attribution chain. */
  function InvalidateHistory(s: SessionSnapshot): SessionSnapshot {
    Unwitnessed(s).(
      revision := s.revision + 1, releaseBoundary := None, releaseConfirmed := false,
      state := Unobserved(s), evidence := Retired(s, IdentityUnknown))
  }

  /** A release of a completed session starts at a boundary and may be given up again. */
  function BeginRelease(s: SessionSnapshot, boundary: Monotonic): SessionSnapshot {
    s.(releaseBoundary := Some(boundary), releaseConfirmed := false)
  }

  function AbandonRelease(s: SessionSnapshot): SessionSnapshot {
    s.(releaseBoundary := None, releaseConfirmed := false)
  }

  // ---------------------------------------------------------------- one sample

  /** The receiver is lost to another session, to an exit or to a reset. */
  function Lost(s: SessionSnapshot, o: PlaybackObservation): SessionSnapshot {
    Unwitnessed(s).(
      revision := s.revision + 1, latest := Some(o), state := PlayerState.Unknown,
      ownershipLost := true, releaseBoundary := None, releaseConfirmed := false,
      evidence := Retired(s, SessionReplaced))
  }

  function Unconfirmed(s: SessionSnapshot, o: PlaybackObservation, reason: EvidenceReason,
                       identity: bool, retain: bool): SessionSnapshot {
    s.(revision := s.revision + 1,
       latest := Some(o),
       state := if identity then o.state else PlayerState.Unknown,
       progressAnchor := None,
       completionAnchor := if retain then s.completionAnchor else None,
       hasConfirmedPlayback := retain && s.hasConfirmedPlayback,
       evidence := PlaybackEvidence(identity, false, false, reason))
  }

  /** The phase that a provider claims for a player state. */
  function Phase(state: PlayerState): Option<ContentPhase> {
    match state
    case Playing => Some(ContentPhase.Playing)
    case Paused => Some(ContentPhase.Paused)
    case Buffering => Some(ContentPhase.Buffering)
    case Idle => Some(ContentPhase.Finished)
    case _ => None
  }

  /** The provider's claim agrees with the sample itself. */
  predicate Qualified(o: PlaybackObservation) {
    && o.providerEvidence.Some?
    && Phase(o.state) == Some(o.providerEvidence.value.phase)
    && o.adActive == Some(false)
    && (o.state.Idle? ==> o.idleReason == Some(IdleReason.Finished))
  }

  predicate HistoryMatches(s: SessionSnapshot, o: PlaybackObservation, policy: EvidencePolicy) {
    && s.completionAnchor.Some?
    && var anchor := s.completionAnchor.value;
    && s.hasConfirmedPlayback
    && anchor.playbackId.Some? && anchor.playbackId == o.playbackId
    && anchor.sessionId == o.sessionId == Some(s.scope.sessionId)
    && anchor.applicationId == o.applicationId == s.scope.applicationId
    && 0.0 < o.monotonic - anchor.monotonic <= policy.maxAge
    && anchor.sequence < o.sequence
  }

  /** A sample without identity that a recent exact witness still identifies. */
  predicate IncrementalIdentity(s: SessionSnapshot, o: PlaybackObservation, policy: EvidencePolicy)
  {
    && o.content.None? && o.identityUpdate.Omitted? && Qualified(o)
    && HistoryMatches(s, o, policy)
    && var anchor := s.completionAnchor.value;
    && anchor.content == Some(s.scope.request.content)
    && anchor.identityUpdate.Explicit?
    && anchor.providerEvidence.Some?
    && anchor.providerEvidence.value.source == o.providerEvidence.value.source
  }

  function Completion(anchor: PlaybackObservation, o: PlaybackObservation, history: bool)
    : CompletionEvidence
  {
    CompletionEvidence(
      o.observedAt, o.monotonic, o.sequence,
      if history then anchor.sequence else o.sequence,
      if history then OrderedHistory else CompletionAttribution.Explicit,
      if o.providerEvidence.Some? then o.providerEvidence.value.source else o.source)
  }

  function Finish(s: SessionSnapshot, o: PlaybackObservation, history: bool): SessionSnapshot
    requires s.completionAnchor.Some?
  {
    Unwitnessed(s).(
      revision := s.revision + 1, latest := Some(o), state := PlayerState.Ended,
      completion := Some(Completion(s.completionAnchor.value, o, history)),
      evidence := PlaybackEvidence(!history, false, true, NaturalCompletion))
  }

  /** The guard on a sample: it belongs to the scope, is fresh, and is newer than every other. */
  predicate Accepts(s: SessionSnapshot, o: PlaybackObservation, now: Monotonic,
                    policy: EvidencePolicy) {
    && !s.ownershipLost
    && o.target == s.scope.request.target
    && o.connectionGeneration == s.scope.connectionGeneration
    && o.monotonic > s.scope.startedMonotonic
    && Fresh(now, o.monotonic, policy.maxAge)
    && o.sequence > s.lastSequence
    && (s.lastMonotonic.Some? ==> o.monotonic > s.lastMonotonic.value)
  }

  /** A skipped sequence number gives up every witness. */
  function Ordered(s: SessionSnapshot, o: PlaybackObservation): SessionSnapshot {
    var t := if s.lastSequence >= 0 && o.sequence > s.lastSequence + 1
             then AbandonRelease(Unwitnessed(s)) else s;
    t.(lastSequence := o.sequence, lastMonotonic := Some(o.monotonic))
  }

  predicate Reopens(s: SessionSnapshot, o: PlaybackObservation) {
    s.releaseBoundary.Some? && (o.adActive == Some(true) || o.state.Playing? || o.state.Paused?)
  }

  /** An explicit exit of the session: the release or the stop that was asked for, or a loss. */
  function Exit(s: SessionSnapshot, o: PlaybackObservation): SessionSnapshot {
    if && s.releaseBoundary.Some? && o.monotonic > s.releaseBoundary.value
       && s.completion.Some? && !s.stopRequested
       && s.receipt.Some? && s.receipt.value.action.Release? && s.receipt.value.outcome.Accepted?
    then
      s.(revision := s.revision + 1, latest := Some(o), state := PlayerState.Ended,
         releaseConfirmed := true,
         evidence := PlaybackEvidence(false, false, true, NaturalCompletion))
    else if s.stopRequested && s.stopBoundary.Some? && o.monotonic > s.stopBoundary.value then
      s.(revision := s.revision + 1, latest := Some(o), state := PlayerState.Stopped,
         progressAnchor := None, completionAnchor := None, evidence := Retired(s, StopObserved))
    else Lost(s, o)
  }

  /** The sample names another application, session or content. */
  predicate Foreign(scope: PlaybackScope, o: PlaybackObservation) {
    || (o.applicationId.Some? && scope.applicationId.Some? && o.applicationId != scope.applicationId)
    || (o.sessionId.Some? && o.sessionId != Some(scope.sessionId))
    || (o.content.Some? && o.content != Some(scope.request.content))
  }

  predicate Heartbeat(scope: PlaybackScope, o: PlaybackObservation) {
    o.sessionActive == Some(true) && o.sessionId == Some(scope.sessionId)
  }

  /** The anchor still belongs to the same playback, provider and direction. */
  predicate SamePlayback(anchor: Option<PlaybackObservation>, o: PlaybackObservation) {
    && anchor.Some?
    && anchor.value.playbackId == o.playbackId
    && (if anchor.value.providerEvidence.None? then o.providerEvidence.None?
        else o.providerEvidence.Some?
             && anchor.value.providerEvidence.value.source == o.providerEvidence.value.source)
    && !(anchor.value.position.Some? && o.position.Some?
         && o.position.value < anchor.value.position.value)
  }

  /** The media part of a sample: who is playing, whether it is content, and how far it is. */
  function Media(s: SessionSnapshot, o: PlaybackObservation, now: Monotonic,
                 policy: EvidencePolicy): SessionSnapshot {
    var history := IncrementalIdentity(s, o, policy);
    if o.sessionId.None? || (o.content.None? && !history) then
      Unconfirmed(s, o, IdentityUnknown, false, false)
    else if o.adActive != Some(false) then
      Unconfirmed(s, o, if o.adActive.Some? then AdActive else AdUnknown, o.content.Some?, false)
    else if o.providerEvidence.Some? && (!Qualified(o) || o.identityUpdate.Unknown?) then
      Unconfirmed(s, o, IdentityUnknown, false, false)
    else
      Attributed(if SamePlayback(s.completionAnchor, o) then s else Unwitnessed(s),
                 o, history, now, policy)
  }

  /** An attributed sample without ads: an end, a pause, or progress. */
  function Attributed(s: SessionSnapshot, o: PlaybackObservation, history: bool, now: Monotonic,
                      policy: EvidencePolicy): SessionSnapshot {
    if o.state.Idle? && s.stopRequested && o.idleReason == Some(Canceled) then
      s.(revision := s.revision + 1, latest := Some(o), state := PlayerState.Stopped,
         progressAnchor := None, completionAnchor := None,
         evidence := PlaybackEvidence(true, false, false, StopObserved))
    else if && o.state.Idle? && o.idleReason == Some(IdleReason.Finished) && s.hasConfirmedPlayback
            && s.completionAnchor.Some? && !s.stopRequested then
      Finish(s, o, history)
    else if history then
      Unconfirmed(s, o, IdentityUnknown, false, true)
    else if o.state.Paused? || o.state.Buffering? then
      Unconfirmed(s.(completionAnchor := Some(o)), o, NotPlaying, true, true)
    else if !o.state.Playing? then
      Unconfirmed(s, o, NotPlaying, true, false)
    else if o.position.None? then
      Unconfirmed(s, o, PositionUnknown, true, false)
    else Progressed(s, o, now, policy)
  }

  /** The sample advanced enough after the anchor, which is still fresh. */
  predicate Confirms(progress: Option<PlaybackObservation>, o: PlaybackObservation,
                     now: Monotonic, policy: EvidencePolicy)
    requires o.position.Some?
  {
    && progress.Some? && progress.value.position.Some?
    && progress.value.playbackId == o.playbackId
    && now - progress.value.monotonic <= policy.maxAge
    && o.monotonic - progress.value.monotonic >= policy.minProgressInterval
    && o.position.value > progress.value.position.value
  }

  function Progressed(s: SessionSnapshot, o: PlaybackObservation, now: Monotonic,
                      policy: EvidencePolicy): SessionSnapshot
    requires o.position.Some?
  {
    var progress := s.progressAnchor;
    var confirmed := Confirms(progress, o, now, policy);
    var renewed :=
      || progress.None? || progress.value.position.None?
      || progress.value.playbackId != o.playbackId
      || confirmed
      || o.position.value < progress.value.position.value
      || o.monotonic - progress.value.monotonic >= policy.maxAge;
    s.(revision := s.revision + 1, latest := Some(o), state := PlayerState.Playing,
       progressAnchor := if renewed then Some(o) else progress,
       completionAnchor := Some(o),
       hasConfirmedPlayback := s.hasConfirmedPlayback || confirmed,
       evidence := PlaybackEvidence(true, confirmed, false,
                                    if confirmed then ProgressConfirmed else AwaitingProgress))
  }

  /** An accepted sample, once its number is recorded. */
  function Consume(s: SessionSnapshot, o: PlaybackObservation, now: Monotonic,
                   policy: EvidencePolicy): SessionSnapshot {
    if o.connectionReset then Lost(s, o) else
    var t := if Reopens(s, o) then AbandonRelease(s) else s;
    if o.sessionActive == Some(false) then Exit(t, o)
    else if Foreign(t.scope, o) then Lost(t, o)
    else if Heartbeat(t.scope, o) then t.(revision := t.revision + 1)
    else if t.completion.Some? then
      t.(revision := t.revision + 1, latest := Some(o), state := PlayerState.Ended,
         evidence := PlaybackEvidence(false, false, true, NaturalCompletion))
    else Media(t, o, now, policy)
  }

  function Observe(s: SessionSnapshot, o: PlaybackObservation, now: Monotonic,
                   policy: EvidencePolicy): Result<SessionSnapshot> {
    match Refresh(s, now, policy)
    case Err(fault) => Err(fault)
    case Ok(r) => Ok(Sample(r, o, now, policy))
  }

  /** A sample after the refresh: ignored, or recorded and consumed. */
  function Sample(s: SessionSnapshot, o: PlaybackObservation, now: Monotonic,
                  policy: EvidencePolicy): SessionSnapshot {
    if Accepts(s, o, now, policy) then Consume(Ordered(s, o), o, now, policy) else s
  }

  // ---------------------------------------------------------------- what one sample may change

  /** What every operation keeps of a snapshot: its scope, a stop, and above all a completion. */
  predicate Grows(s: SessionSnapshot, t: SessionSnapshot) {
    && t.scope == s.scope
    && s.revision <= t.revision
    && (s.stopRequested ==> t.stopRequested)
    && (s.ownershipLost ==> t.ownershipLost)
    && s.lastSequence <= t.lastSequence
    && (s.lastMonotonic.Some? ==>
          t.lastMonotonic.Some? && s.lastMonotonic.value <= t.lastMonotonic.value)
    && (s.completion.Some? ==> t.completion == s.completion)
  }

  /** Consuming a sample raises the revision by one and moves neither the ordering nor a stop. */
  predicate Steps(s: SessionSnapshot, o: PlaybackObservation, t: SessionSnapshot) {
    && t.scope == s.scope
    && t.revision == s.revision + 1
    && t.stopRequested == s.stopRequested
    && (s.ownershipLost ==> t.ownershipLost)
    && t.lastSequence == s.lastSequence && t.lastMonotonic == s.lastMonotonic
    && (s.completion.Some? ==> t.completion == s.completion)
    && (t.latest == Some(o)
        || (t.latest == s.latest && t.evidence == s.evidence
            && t.ownershipLost == s.ownershipLost))
  }

  lemma {:induction false} ExitSteps(s: SessionSnapshot, o: PlaybackObservation)
    ensures Steps(s, o, Exit(s, o)) && Steps(s, o, Lost(s, o))
  {
  }

  lemma {:induction false} AttributedSteps(s: SessionSnapshot, o: PlaybackObservation,
                                           history: bool, now: Monotonic, policy: EvidencePolicy)
    requires s.completion.None?
    ensures Steps(s, o, Attributed(s, o, history, now, policy))
  {
    hide Confirms;
  }

  lemma {:induction false} UnconfirmedSteps(s: SessionSnapshot, o: PlaybackObservation,
                                            reason: EvidenceReason, identity: bool, retain: bool)
    ensures Steps(s, o, Unconfirmed(s, o, reason, identity, retain))
  {
  }

  lemma {:induction false} UnwitnessedSteps(s: SessionSnapshot, o: PlaybackObservation,
                                            t: SessionSnapshot)
    requires Steps(Unwitnessed(s), o, t)
    ensures Steps(s, o, t)
  {
  }

  lemma {:induction false} MediaSteps(s: SessionSnapshot, o: PlaybackObservation, now: Monotonic,
                                      policy: EvidencePolicy)
    requires s.completion.None?
    ensures Steps(s, o, Media(s, o, now, policy))
  {
    hide Attributed, SamePlayback, IncrementalIdentity, Qualified, Steps, Unconfirmed;
    var history := IncrementalIdentity(s, o, policy);
    forall reason, identity {
      UnconfirmedSteps(s, o, reason, identity, false);
    }
    AttributedSteps(s, o, history, now, policy);
    AttributedSteps(Unwitnessed(s), o, history, now, policy);
    UnwitnessedSteps(s, o, Attributed(Unwitnessed(s), o, history, now, policy));
  }

  /** The steps that look at no media. */
  lemma {:induction false} PlainSteps(s: SessionSnapshot, o: PlaybackObservation)
    ensures Steps(s, o, s.(revision := s.revision + 1))
    ensures s.completion.Some? ==>
      Steps(s, o, s.(revision := s.revision + 1, latest := Some(o), state := PlayerState.Ended,
                     evidence := PlaybackEvidence(false, false, true, NaturalCompletion)))
  {
  }

  /** Giving up a release is no step of its own. */
  lemma {:induction false} AbandonedSteps(s: SessionSnapshot, o: PlaybackObservation,
                                          t: SessionSnapshot)
    requires Steps(AbandonRelease(s), o, t)
    ensures Steps(s, o, t)
  {
  }

  lemma {:induction false} ConsumeSteps(s: SessionSnapshot, o: PlaybackObservation, now: Monotonic,
                                        policy: EvidencePolicy)
    ensures Steps(s, o, Consume(s, o, now, policy))
  {
    hide Media, Exit, Lost, Foreign, Heartbeat, Reopens, AbandonRelease, Steps;
    var t := if Reopens(s, o) then AbandonRelease(s) else s;
    ExitSteps(s, o);
    ExitSteps(t, o);
    PlainSteps(t, o);
    if t.completion.None? {
      MediaSteps(t, o, now, policy);
    }
    if Reopens(s, o) && Steps(t, o, Consume(s, o, now, policy)) {
      AbandonedSteps(s, o, Consume(s, o, now, policy));
    }
  }

  lemma {:induction false} SampleGrows(s: SessionSnapshot, o: PlaybackObservation, now: Monotonic,
                                       policy: EvidencePolicy)
    ensures Grows(s, Sample(s, o, now, policy))
    ensures Sample(s, o, now, policy) == s || Sample(s, o, now, policy).revision > s.revision
    ensures Sample(s, o, now, policy).stopRequested == s.stopRequested
  {
    hide Consume;
    ConsumeSteps(Ordered(s, o), o, now, policy);
  }

  /** A refresh or a sample that changes anything raises the revision, as the compare-and-save of
      a session requires; a completion, once recorded, is never changed or revoked. */
  lemma {:induction false} ChangesRaiseRevision(s: SessionSnapshot, o: PlaybackObservation,
                                                now: Monotonic, policy: EvidencePolicy)
    ensures var r := Refresh(s, now, policy);
            r.Ok? ==> Grows(s, r.value) && (r.value == s || r.value.revision > s.revision)
    ensures var r := Observe(s, o, now, policy);
            r.Ok? ==> Grows(s, r.value) && (r.value == s || r.value.revision > s.revision)
  {
    hide Sample;
    if Refresh(s, now, policy).Ok? {
      SampleGrows(Refresh(s, now, policy).value, o, now, policy);
    }
  }

  // ---------------------------------------------------------------- redelivery

  /** Folding a batch at one instant; a refused step refuses the whole batch. */
  function ObserveAll(s: SessionSnapshot, batch: seq<PlaybackObservation>, now: Monotonic,
                      policy: EvidencePolicy): Result<SessionSnapshot>
    decreases |batch|
  {
    if batch == [] then Ok(s) else
    match Observe(s, batch[0], now, policy)
    case Err(fault) => Err(fault)
    case Ok(t) => ObserveAll(t, batch[1..], now, policy)
  }

  /** At this instant there is nothing left to expire. */
  predicate Settled(s: SessionSnapshot, now: Monotonic, policy: EvidencePolicy) {
    Refresh(s, now, policy) == Ok(s)
  }

  /** Consuming a fresh sample leaves nothing to expire: it is the latest one, or a heartbeat that
      leaves the latest one and its staleness as they were. */
  lemma {:induction false} ConsumeSettles(s: SessionSnapshot, o: PlaybackObservation,
                                          now: Monotonic, policy: EvidencePolicy)
    requires Settled(s, now, policy) && Fresh(now, o.monotonic, policy.maxAge)
    ensures Settled(Consume(s, o, now, policy), now, policy)
  {
    hide Consume;
    ConsumeSteps(s, o, now, policy);
  }

  lemma {:induction false} ObserveSettles(s: SessionSnapshot, o: PlaybackObservation,
                                          now: Monotonic, policy: EvidencePolicy)
    requires Observe(s, o, now, policy).Ok?
    ensures Settled(Observe(s, o, now, policy).value, now, policy)
  {
    hide Consume;
    var r := Refresh(s, now, policy).value;
    if Accepts(r, o, now, policy) {
      ConsumeSettles(Ordered(r, o), o, now, policy);
    }
  }

  /** A sample that was seen, or refused, is refused from then on. */
  lemma {:induction false} RefusedForGood(s: SessionSnapshot, t: SessionSnapshot,
                                          o: PlaybackObservation, now: Monotonic,
                                          policy: EvidencePolicy)
    requires !Accepts(s, o, now, policy) && Grows(s, t)
    ensures !Accepts(t, o, now, policy)
  {
  }

  lemma {:induction false} GrowsTransitively(s: SessionSnapshot, t: SessionSnapshot,
                                             u: SessionSnapshot)
    requires Grows(s, t) && Grows(t, u)
    ensures Grows(s, u)
  {
  }

  lemma {:induction false} ObserveRefuses(s: SessionSnapshot, o: PlaybackObservation,
                                          now: Monotonic, policy: EvidencePolicy)
    requires Observe(s, o, now, policy).Ok?
    ensures Grows(s, Observe(s, o, now, policy).value)
    ensures !Accepts(Observe(s, o, now, policy).value, o, now, policy)
  {
    ChangesRaiseRevision(s, o, now, policy);
    hide Consume;
    var r := Refresh(s, now, policy).value;
    ConsumeSteps(Ordered(r, o), o, now, policy);
  }

  /** After a batch, everything in it is refused and nothing is left to expire. */
  lemma {:induction false} BatchIsSeen(s: SessionSnapshot, batch: seq<PlaybackObservation>,
                                       now: Monotonic, policy: EvidencePolicy)
    requires ObserveAll(s, batch, now, policy).Ok? && batch != []
    ensures var t := ObserveAll(s, batch, now, policy).value;
            && Grows(s, t) && Settled(t, now, policy)
            && forall k :: 0 <= k < |batch| ==> !Accepts(t, batch[k], now, policy)
    decreases |batch|
  {
    hide Observe, Settled, Accepts, Grows;
    var u := Observe(s, batch[0], now, policy).value;
    ObserveSettles(s, batch[0], now, policy);
    ObserveRefuses(s, batch[0], now, policy);
    if |batch| > 1 {
      var t := ObserveAll(u, batch[1..], now, policy).value;
      BatchIsSeen(u, batch[1..], now, policy);
      GrowsTransitively(s, u, t);
      RefusedForGood(u, t, batch[0], now, policy);
      forall k | 0 <= k < |batch| ensures !Accepts(t, batch[k], now, policy) {
        assert k > 0 ==> batch[k] == batch[1..][k - 1];
      }
    }
  }

  lemma {:induction false} SeenChangesNothing(t: SessionSnapshot, batch: seq<PlaybackObservation>,
                                              now: Monotonic, policy: EvidencePolicy)
    requires Settled(t, now, policy)
    requires forall k :: 0 <= k < |batch| ==> !Accepts(t, batch[k], now, policy)
    ensures ObserveAll(t, batch, now, policy) == Ok(t)
    decreases |batch|
  {
    hide Accepts, Consume;
    if batch != [] {
      assert Observe(t, batch[0], now, policy) == Ok(t);
      SeenChangesNothing(t, batch[1..], now, policy);
    }
  }

  /** Redelivering a whole batch at the same instant changes nothing. */
  lemma {:induction false} RedeliveryIsIdempotent(s: SessionSnapshot,
                                                  batch: seq<PlaybackObservation>, now: Monotonic,
                                                  policy: EvidencePolicy)
    requires ObserveAll(s, batch, now, policy).Ok?
    ensures var once := ObserveAll(s, batch, now, policy).value;
            ObserveAll(once, batch, now, policy) == Ok(once)
  {
    if batch != [] {
      BatchIsSeen(s, batch, now, policy);
      SeenChangesNothing(ObserveAll(s, batch, now, policy).value, batch, now, policy);
    }
  }
}
