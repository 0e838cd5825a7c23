/** What one delivered sample makes of every claim of a session, claim by claim: each field of the
    snapshot afterwards is determined by conditions on the fields of the sample and of the snapshot
    before, without the branches that the policy takes to get there. */
module EvidenceTable {
  import opened Values
  import Policy

  // ---------------------------------------------------------------- the sample

  /** Too much time has passed since the last media sample, and this was not noticed before. */
  predicate Lapses(s: SessionSnapshot, now: Monotonic, policy: EvidencePolicy) {
    && s.latest.Some? && !s.ownershipLost
    && now - s.latest.value.monotonic > policy.maxAge
    && !s.evidence.reason.Stale?
  }

  /** Numbers are missing between the last accepted sample and this one. */
  predicate Skips(s: SessionSnapshot, o: PlaybackObservation) {
    0 <= s.lastSequence < o.sequence - 1
  }

  /** What was witnessed before is still worth something: nothing lapsed, nothing is missing. */
  predicate Continuous(s: SessionSnapshot, o: PlaybackObservation, now: Monotonic,
                       policy: EvidencePolicy) {
    !Lapses(s, now, policy) && !Skips(s, o)
  }

  /** A sample of the observed connection, of this attempt, fresh, and newer than every other. */
  predicate Heard(s: SessionSnapshot, o: PlaybackObservation, now: Monotonic,
                  policy: EvidencePolicy) {
    && !s.ownershipLost
    && o.target == s.scope.request.target
    && o.connectionGeneration == s.scope.connectionGeneration
    && s.scope.startedMonotonic < o.monotonic <= now <= o.monotonic + policy.maxAge
    && s.lastSequence < o.sequence
    && (s.lastMonotonic.Some? ==> s.lastMonotonic.value < o.monotonic)
  }

  /** The receiver says that no session is running. */
  predicate Exits(o: PlaybackObservation) {
    !o.connectionReset && o.sessionActive == Some(false)
  }

  /** Nothing in the sample contradicts the scope. */
  predicate Ours(scope: PlaybackScope, o: PlaybackObservation) {
    && !o.connectionReset
    && o.sessionActive != Some(false)
    && (o.applicationId.None? || scope.applicationId.None?
        || o.applicationId == scope.applicationId)
    && o.sessionId in {None, Some(scope.sessionId)}
    && o.content in {None, Some(scope.request.content)}
  }

  /** Control-plane status of the very session. */
  predicate Beat(scope: PlaybackScope, o: PlaybackObservation) {
    Ours(scope, o) && o.sessionActive == Some(true) && o.sessionId == Some(scope.sessionId)
  }

  /** A media sample that is not contradicted: it may still name nothing. */
  predicate Medial(scope: PlaybackScope, o: PlaybackObservation) {
    Ours(scope, o) && !Beat(scope, o)
  }

  /** The phase that the provider claims is the state that the receiver shows. */
  predicate Agrees(o: PlaybackObservation) {
    && o.providerEvidence.Some?
    && match o.providerEvidence.value.phase
       case Playing => o.state.Playing?
       case Paused => o.state.Paused?
       case Buffering => o.state.Buffering?
       case Finished => o.state.Idle? && o.idleReason == Some(IdleReason.Finished)
       case _ => false
  }

  /** A sample that names the exact content and shows no ad, and no provider disagrees. */
  predicate Exact(scope: PlaybackScope, o: PlaybackObservation) {
    && Medial(scope, o)
    && o.sessionId == Some(scope.sessionId) && o.content == Some(scope.request.content)
    && o.adActive == Some(false)
    && (o.providerEvidence.Some? ==> Agrees(o) && !o.identityUpdate.Unknown?)
  }

  /** A sample that names no content, and that a recent exact sample of the same playback and
      provider identifies. */
  predicate Bridged(scope: PlaybackScope, policy: EvidencePolicy, w: PlaybackObservation,
                    o: PlaybackObservation) {
    && Medial(scope, o)
    && o.sessionId == Some(scope.sessionId) && o.content.None? && o.identityUpdate.Omitted?
    && o.adActive == Some(false) && Agrees(o)
    && w.content == Some(scope.request.content) && w.identityUpdate.Explicit?
    && w.sessionId == o.sessionId && w.applicationId == o.applicationId == scope.applicationId
    && w.playbackId == o.playbackId && o.playbackId.Some?
    && w.providerEvidence.Some?
    && w.providerEvidence.value.source == o.providerEvidence.value.source
    && w.sequence < o.sequence && w.monotonic < o.monotonic <= w.monotonic + policy.maxAge
  }

  /** The same playback and the same provider, and not further back. */
  predicate SameView(w: PlaybackObservation, o: PlaybackObservation) {
    && w.playbackId == o.playbackId
    && w.providerEvidence.Some? == o.providerEvidence.Some?
    && (w.providerEvidence.Some? ==>
          w.providerEvidence.value.source == o.providerEvidence.value.source)
    && (w.position.Some? && o.position.Some? ==> w.position.value <= o.position.value)
  }

  // ---------------------------------------------------------------- sample and snapshot

  /** The sample continues what its last exact sample witnessed. */
  predicate Continues(s: SessionSnapshot, o: PlaybackObservation, now: Monotonic,
                      policy: EvidencePolicy) {
    && Continuous(s, o, now, policy) && s.completionAnchor.Some?
    && SameView(s.completionAnchor.value, o)
  }

  /** No content is named, but the continued witness of a confirmed playback names it. */
  predicate Attributed(s: SessionSnapshot, o: PlaybackObservation, now: Monotonic,
                       policy: EvidencePolicy) {
    && Continuous(s, o, now, policy) && s.hasConfirmedPlayback && s.completionAnchor.Some?
    && Bridged(s.scope, policy, s.completionAnchor.value, o)
  }

  predicate EndsIdle(o: PlaybackObservation) {
    o.state.Idle? && o.idleReason == Some(IdleReason.Finished)
  }

  /** The natural end of a playback that was confirmed and not left since. */
  predicate Ends(s: SessionSnapshot, o: PlaybackObservation, now: Monotonic,
                 policy: EvidencePolicy) {
    && Heard(s, o, now, policy) && !s.stopRequested && s.hasConfirmedPlayback
    && Continues(s, o, now, policy) && EndsIdle(o)
    && (Exact(s.scope, o) || Attributed(s, o, now, policy))
  }

  /** A sample of the released session's exit. */
  predicate Releases(s: SessionSnapshot, o: PlaybackObservation) {
    && s.releaseBoundary.Some? && s.releaseBoundary.value < o.monotonic
    && !Skips(s, o) && o.adActive != Some(true) && !o.state.Playing? && !o.state.Paused?
    && s.completion.Some? && !s.stopRequested
    && s.receipt.Some? && s.receipt.value.action.Release? && s.receipt.value.outcome.Accepted?
  }

  predicate StopsHere(s: SessionSnapshot, o: PlaybackObservation) {
    s.stopRequested && s.stopBoundary.Some? && s.stopBoundary.value < o.monotonic
  }

  /** The receiver is no longer this session's. */
  predicate Loses(s: SessionSnapshot, o: PlaybackObservation) {
    !Ours(s.scope, o) && !(Exits(o) && (Releases(s, o) || StopsHere(s, o)))
  }

  /** The position of an exact playing sample is beyond that of the witness of progress. */
  predicate Advances(s: SessionSnapshot, o: PlaybackObservation, now: Monotonic,
                     policy: EvidencePolicy) {
    && Heard(s, o, now, policy) && s.completion.None?
    && Exact(s.scope, o) && o.state.Playing? && o.position.Some?
    && Continues(s, o, now, policy)
    && s.progressAnchor.Some?
    && var w := s.progressAnchor.value;
    && w.playbackId == o.playbackId
    && w.position.Some? && w.position.value < o.position.value
    && w.monotonic + policy.minProgressInterval <= o.monotonic
    && now <= w.monotonic + policy.maxAge
  }

  // ---------------------------------------------------------------- claim by claim

  /** A clock that runs backwards is refused, and nothing else is. */
  lemma {:induction false} RefusesBackwardClock(s: SessionSnapshot, o: PlaybackObservation,
                                                now: Monotonic, policy: EvidencePolicy)
    ensures Policy.Observe(s, o, now, policy).Err?
        <==> s.latest.Some? && !s.ownershipLost && now < s.latest.value.monotonic
  {
  }

  lemma {:induction false} AcceptsIsHeard(s: SessionSnapshot, o: PlaybackObservation,
                                          now: Monotonic, policy: EvidencePolicy)
    requires Policy.Refresh(s, now, policy).Ok?
    ensures Policy.Accepts(Policy.Refresh(s, now, policy).value, o, now, policy)
        <==> Heard(s, o, now, policy)
  {
  }

  lemma {:induction false} ForeignIsNotOurs(scope: PlaybackScope, o: PlaybackObservation)
    ensures Ours(scope, o)
        <==> !o.connectionReset && o.sessionActive != Some(false) && !Policy.Foreign(scope, o)
    ensures Policy.Heartbeat(scope, o) && Ours(scope, o) <==> Beat(scope, o)
  {
  }

  lemma {:induction false} AgreesIsQualified(o: PlaybackObservation)
    ensures Policy.Qualified(o) <==> Agrees(o) && o.adActive == Some(false)
  {
  }

  lemma {:induction false} ViewIsSamePlayback(w: Option<PlaybackObservation>,
                                              o: PlaybackObservation)
    ensures Policy.SamePlayback(w, o) <==> w.Some? && SameView(w.value, o)
  {
  }

  /** The snapshot that the media part works on: witnesses given up where something is missing. */
  function Kept(s: SessionSnapshot, o: PlaybackObservation, now: Monotonic,
                policy: EvidencePolicy): SessionSnapshot
    requires Policy.Refresh(s, now, policy).Ok?
  {
    Policy.Ordered(Policy.Refresh(s, now, policy).value, o)
  }

  predicate Behind(s: SessionSnapshot, o: PlaybackObservation, now: Monotonic,
                   policy: EvidencePolicy, t: SessionSnapshot) {
    var kept := Continuous(s, o, now, policy);
    && t.scope == s.scope && t.completion == s.completion && t.stopRequested == s.stopRequested
    && t.revision == s.revision + (if Lapses(s, now, policy) then 1 else 0)
    && t.stopBoundary == s.stopBoundary && t.receipt == s.receipt
    && t.ownershipLost == s.ownershipLost
    && t.progressAnchor == (if kept then s.progressAnchor else None)
    && t.completionAnchor == (if kept then s.completionAnchor else None)
    && t.hasConfirmedPlayback == (kept && s.hasConfirmedPlayback)
    && t.releaseBoundary == (if Skips(s, o) then None else s.releaseBoundary)
    && t.releaseConfirmed == (!Skips(s, o) && s.releaseConfirmed)
    && t.lastSequence == o.sequence && t.lastMonotonic == Some(o.monotonic)
    && t.evidence == (if Lapses(s, now, policy) then Policy.Retired(s, Stale) else s.evidence)
    && t.state == (if Lapses(s, now, policy) then Policy.Unobserved(s) else s.state)
    && t.latest == s.latest
  }

  lemma {:induction false} KeptIsBehind(s: SessionSnapshot, o: PlaybackObservation,
                                        now: Monotonic, policy: EvidencePolicy)
    requires Policy.Refresh(s, now, policy).Ok?
    ensures Behind(s, o, now, policy, Kept(s, o, now, policy))
  {
  }

  // ---------------------------------------------------------------- the media part

  predicate Follows(w: Option<PlaybackObservation>, o: PlaybackObservation) {
    w.Some? && SameView(w.value, o)
  }

  predicate Named(k: SessionSnapshot, o: PlaybackObservation, policy: EvidencePolicy) {
    k.hasConfirmedPlayback && k.completionAnchor.Some?
    && Bridged(k.scope, policy, k.completionAnchor.value, o)
  }

  predicate Finishes(k: SessionSnapshot, o: PlaybackObservation, policy: EvidencePolicy) {
    && !k.stopRequested && k.hasConfirmedPlayback && Follows(k.completionAnchor, o) && EndsIdle(o)
    && (Exact(k.scope, o) || Named(k, o, policy))
  }

  /** A requested stop is seen in the player itself. */
  predicate Cancels(k: SessionSnapshot, o: PlaybackObservation) {
    Exact(k.scope, o) && o.state.Idle? && k.stopRequested && o.idleReason == Some(Canceled)
  }

  predicate Further(k: SessionSnapshot, o: PlaybackObservation, now: Monotonic,
                    policy: EvidencePolicy) {
    && Exact(k.scope, o) && o.state.Playing? && o.position.Some?
    && Follows(k.completionAnchor, o) && k.progressAnchor.Some?
    && var w := k.progressAnchor.value;
    && w.playbackId == o.playbackId
    && w.position.Some? && w.position.value < o.position.value
    && w.monotonic + policy.minProgressInterval <= o.monotonic
    && now <= w.monotonic + policy.maxAge
  }

  /** The samples that become the next witness of an end. */
  predicate Witnessing(scope: PlaybackScope, o: PlaybackObservation) {
    && Exact(scope, o)
    && (o.state.Paused? || o.state.Buffering? || (o.state.Playing? && o.position.Some?))
  }

  /** The witness of progress that is kept: not yet advanced from, not behind, not too old. */
  predicate Waits(k: SessionSnapshot, o: PlaybackObservation, now: Monotonic,
                  policy: EvidencePolicy) {
    && Follows(k.completionAnchor, o) && k.progressAnchor.Some? && o.position.Some?
    && var w := k.progressAnchor.value;
    && w.playbackId == o.playbackId
    && w.position.Some? && w.position.value <= o.position.value
    && o.monotonic < w.monotonic + policy.maxAge
    && !Further(k, o, now, policy)
  }

  function EndEvidence(w: Option<PlaybackObservation>, o: PlaybackObservation): CompletionEvidence
    requires o.content.None? ==> w.Some?
  {
    CompletionEvidence(
      o.observedAt, o.monotonic, o.sequence,
      if o.content.Some? then o.sequence else w.value.sequence,
      if o.content.Some? then CompletionAttribution.Explicit else OrderedHistory,
      if o.providerEvidence.Some? then o.providerEvidence.value.source else o.source)
  }

  predicate MediaWitnesses(k: SessionSnapshot, o: PlaybackObservation, now: Monotonic,
                           policy: EvidencePolicy, t: SessionSnapshot) {
    && (t.completion.Some? <==> Finishes(k, o, policy))
    && (Finishes(k, o, policy) ==>
          t.completion == Some(EndEvidence(k.completionAnchor, o)))
    && t.completionAnchor == (
         if Witnessing(k.scope, o) then Some(o)
         else if Named(k, o, policy) && Follows(k.completionAnchor, o) && !Finishes(k, o, policy)
         then k.completionAnchor else None)
    && t.progressAnchor == (
         if Witnessing(k.scope, o) && o.state.Playing?
         then if Waits(k, o, now, policy) then k.progressAnchor else Some(o)
         else None)
    && (t.hasConfirmedPlayback <==>
          || Further(k, o, now, policy)
          || (&& k.hasConfirmedPlayback && Follows(k.completionAnchor, o)
              && !Finishes(k, o, policy)
              && (Witnessing(k.scope, o) || Named(k, o, policy) || Cancels(k, o))))
  }

  predicate ShowsAd(o: PlaybackObservation) {
    o.adActive.Some? && o.adActive.value
  }

  predicate Identified(k: SessionSnapshot, o: PlaybackObservation) {
    Exact(k.scope, o) || (o.sessionId.Some? && o.content.Some? && o.adActive != Some(false))
  }

  predicate MediaClaims(k: SessionSnapshot, o: PlaybackObservation, now: Monotonic,
                        policy: EvidencePolicy, t: SessionSnapshot) {
    && t.state == (
         if Finishes(k, o, policy) then PlayerState.Ended
         else if Cancels(k, o) then PlayerState.Stopped
         else if Identified(k, o) then o.state else PlayerState.Unknown)
    && t.evidence.receiverPlaybackConfirmed == Further(k, o, now, policy)
    && t.evidence.naturalCompletionConfirmed == Finishes(k, o, policy)
    && t.evidence.identityConfirmed == Identified(k, o)
    && t.evidence.reason == (
         if Finishes(k, o, policy) then NaturalCompletion
         else if Cancels(k, o) then StopObserved
         else if o.sessionId.Some? && o.content.Some? && ShowsAd(o) then AdActive
         else if o.sessionId.Some? && o.content.Some? && o.adActive.None? then AdUnknown
         else if !Exact(k.scope, o) then IdentityUnknown
         else if !o.state.Playing? then NotPlaying
         else if o.position.None? then PositionUnknown
         else if Further(k, o, now, policy) then ProgressConfirmed
         else AwaitingProgress)
  }

  lemma {:induction false} IncrementalIsNamed(k: SessionSnapshot, o: PlaybackObservation,
                                              policy: EvidencePolicy)
    requires Medial(k.scope, o)
    ensures Policy.IncrementalIdentity(k, o, policy) <==> Named(k, o, policy)
  {
    hide Policy.Qualified, Agrees;
    AgreesIsQualified(o);
  }

  lemma {:induction false} ExactIsNotNamed(k: SessionSnapshot, o: PlaybackObservation,
                                           policy: EvidencePolicy)
    ensures Exact(k.scope, o) ==>
      o.sessionId.Some? && o.content.Some? && o.adActive == Some(false)
    ensures Named(k, o, policy) ==>
      && o.sessionId.Some? && o.content.None? && o.adActive == Some(false)
      && k.hasConfirmedPlayback && k.completionAnchor.Some?
      && (o.state.Idle? ==> o.idleReason == Some(IdleReason.Finished))
  {
  }

  /** An attributed sample: it is exact, or its continued witness names it. */
  lemma {:induction false} AttributedWitnesses(k: SessionSnapshot, o: PlaybackObservation,
                                               now: Monotonic, policy: EvidencePolicy)
    requires k.completion.None? && (Exact(k.scope, o) || Named(k, o, policy))
    ensures var kept := if Policy.SamePlayback(k.completionAnchor, o) then k
                        else Policy.Unwitnessed(k);
            MediaWitnesses(k, o, now, policy,
                           Policy.Attributed(kept, o, o.content.None?, now, policy))
  {
    hide Policy.SamePlayback, SameView, Exact, Named;
    ViewIsSamePlayback(k.completionAnchor, o);
    ExactIsNotNamed(k, o, policy);
  }

  lemma {:induction false} AttributedClaims(k: SessionSnapshot, o: PlaybackObservation,
                                            now: Monotonic, policy: EvidencePolicy)
    requires k.completion.None? && (Exact(k.scope, o) || Named(k, o, policy))
    ensures var kept := if Policy.SamePlayback(k.completionAnchor, o) then k
                        else Policy.Unwitnessed(k);
            MediaClaims(k, o, now, policy,
                        Policy.Attributed(kept, o, o.content.None?, now, policy))
  {
    hide Policy.SamePlayback, SameView, Exact, Named;
    ViewIsSamePlayback(k.completionAnchor, o);
    ExactIsNotNamed(k, o, policy);
  }

  /** Any other sample gives up every witness. */
  lemma {:induction false} UnattributedTable(k: SessionSnapshot, o: PlaybackObservation,
                                             now: Monotonic, policy: EvidencePolicy)
    requires Medial(k.scope, o) && k.completion.None?
    requires !Exact(k.scope, o) && !Named(k, o, policy)
    ensures MediaWitnesses(k, o, now, policy, Policy.Media(k, o, now, policy))
    ensures MediaClaims(k, o, now, policy, Policy.Media(k, o, now, policy))
  {
    hide Policy.Qualified, Agrees, Policy.Attributed, SameView, Policy.IncrementalIdentity;
    AgreesIsQualified(o);
    IncrementalIsNamed(k, o, policy);
  }

  lemma {:induction false} MediaIsAttributed(k: SessionSnapshot, o: PlaybackObservation,
                                             now: Monotonic, policy: EvidencePolicy)
    requires Medial(k.scope, o)
    requires Exact(k.scope, o) || Named(k, o, policy)
    ensures var kept := if Policy.SamePlayback(k.completionAnchor, o) then k
                        else Policy.Unwitnessed(k);
            (Policy.Media(k, o, now, policy)
             == Policy.Attributed(kept, o, o.content.None?, now, policy))
  {
    hide Policy.Qualified, Agrees, Policy.Attributed, Policy.SamePlayback,
         Policy.IncrementalIdentity;
    AgreesIsQualified(o);
    IncrementalIsNamed(k, o, policy);
  }

  lemma {:induction false} MediaTable(k: SessionSnapshot, o: PlaybackObservation, now: Monotonic,
                                      policy: EvidencePolicy)
    requires Medial(k.scope, o) && k.completion.None?
    ensures MediaWitnesses(k, o, now, policy, Policy.Media(k, o, now, policy))
    ensures MediaClaims(k, o, now, policy, Policy.Media(k, o, now, policy))
  {
    hide Exact, Named, MediaWitnesses, MediaClaims, Policy.Media, Policy.Attributed;
    if Exact(k.scope, o) || Named(k, o, policy) {
      AttributedWitnesses(k, o, now, policy);
      AttributedClaims(k, o, now, policy);
      MediaIsAttributed(k, o, now, policy);
    } else {
      UnattributedTable(k, o, now, policy);
    }
  }

  // ---------------------------------------------------------------- claim by claim

  /** The snapshot without the witnesses that a lapse or a gap gives up. */
  function Carried(s: SessionSnapshot, o: PlaybackObservation, now: Monotonic,
                   policy: EvidencePolicy): SessionSnapshot {
    if Continuous(s, o, now, policy) then s
    else s.(progressAnchor := None, completionAnchor := None, hasConfirmedPlayback := false)
  }

  /** Media of this session is heard, and no end is known yet. */
  predicate Watches(s: SessionSnapshot, o: PlaybackObservation, now: Monotonic,
                    policy: EvidencePolicy) {
    Heard(s, o, now, policy) && Medial(s.scope, o) && s.completion.None?
  }

  predicate Reopened(s: SessionSnapshot, o: PlaybackObservation) {
    s.releaseBoundary.Some? && (ShowsAd(o) || o.state.Playing? || o.state.Paused?)
  }

  predicate GivesUpRelease(s: SessionSnapshot, o: PlaybackObservation) {
    Skips(s, o) || Loses(s, o) || Reopened(s, o)
  }

  predicate Facts(s: SessionSnapshot, o: PlaybackObservation, now: Monotonic,
                  policy: EvidencePolicy, t: SessionSnapshot) {
    && t.scope == s.scope && t.receipt == s.receipt
    && t.stopRequested == s.stopRequested && t.stopBoundary == s.stopBoundary
    && t.revision == s.revision + (if Lapses(s, now, policy) then 1 else 0)
                   + (if Heard(s, o, now, policy) then 1 else 0)
    && t.completion == (
         if s.completion.Some? then s.completion
         else if Ends(s, o, now, policy) then Some(EndEvidence(s.completionAnchor, o)) else None)
    && (t.ownershipLost <==> s.ownershipLost || (Heard(s, o, now, policy) && Loses(s, o)))
    && t.releaseBoundary == (
         if Heard(s, o, now, policy) && GivesUpRelease(s, o) then None else s.releaseBoundary)
    && (t.releaseConfirmed <==>
          || (Heard(s, o, now, policy) && Exits(o) && Releases(s, o))
          || (s.releaseConfirmed && !(Heard(s, o, now, policy) && GivesUpRelease(s, o))))
    && t.lastSequence == (if Heard(s, o, now, policy) then o.sequence else s.lastSequence)
    && t.lastMonotonic == (
         if Heard(s, o, now, policy) then Some(o.monotonic) else s.lastMonotonic)
    && t.latest == (
         if Heard(s, o, now, policy) && !Beat(s.scope, o) then Some(o) else s.latest)
  }

  /** What is witnessed afterwards. */
  predicate Witnesses(s: SessionSnapshot, o: PlaybackObservation, now: Monotonic,
                      policy: EvidencePolicy, t: SessionSnapshot) {
    var k := Carried(s, o, now, policy);
    if !Heard(s, o, now, policy) then
      var lapsed := Lapses(s, now, policy);
      && t.progressAnchor == (if lapsed then None else s.progressAnchor)
      && t.completionAnchor == (if lapsed then None else s.completionAnchor)
      && (t.hasConfirmedPlayback <==> s.hasConfirmedPlayback && !lapsed)
    else if Watches(s, o, now, policy) then MediaWitnesses(k, o, now, policy, t)
    else
      var stopped := Exits(o) && !Releases(s, o);
      && t.progressAnchor == (if Loses(s, o) || stopped then None else k.progressAnchor)
      && t.completionAnchor == (if Loses(s, o) || stopped then None else k.completionAnchor)
      && (t.hasConfirmedPlayback <==> !Loses(s, o) && k.hasConfirmedPlayback)
  }

  /** What is claimed afterwards. */
  predicate Claims(s: SessionSnapshot, o: PlaybackObservation, now: Monotonic,
                   policy: EvidencePolicy, t: SessionSnapshot) {
    var k := Carried(s, o, now, policy);
    var end := s.completion.Some?;
    if !Heard(s, o, now, policy) || Beat(s.scope, o) then
      if Lapses(s, now, policy) then
        && t.state == (if end then PlayerState.Ended else PlayerState.Unknown)
        && t.evidence == PlaybackEvidence(false, false, end, Stale)
      else t.state == s.state && t.evidence == s.evidence
    else if Watches(s, o, now, policy) then MediaClaims(k, o, now, policy, t)
    else
      && t.state == (
           if Loses(s, o) then PlayerState.Unknown
           else if Exits(o) && !Releases(s, o) then PlayerState.Stopped else PlayerState.Ended)
      && t.evidence == PlaybackEvidence(
           false, false, end,
           if Loses(s, o) then SessionReplaced
           else if Exits(o) && !Releases(s, o) then StopObserved else NaturalCompletion)
  }

  predicate Told(s: SessionSnapshot, o: PlaybackObservation, now: Monotonic,
                 policy: EvidencePolicy, t: SessionSnapshot) {
    && Facts(s, o, now, policy, t)
    && Witnesses(s, o, now, policy, t)
    && Claims(s, o, now, policy, t)
  }

  lemma {:induction false} EndsAreMedial(s: SessionSnapshot, o: PlaybackObservation,
                                         now: Monotonic, policy: EvidencePolicy)
    ensures Ends(s, o, now, policy) ==> Medial(s.scope, o)
    ensures Medial(s.scope, o) ==> !Loses(s, o) && !Beat(s.scope, o) && !Exits(o)
  {
    hide Beat;
  }

  lemma {:induction false} EndsByWitness(s: SessionSnapshot, o: PlaybackObservation,
                                         now: Monotonic, policy: EvidencePolicy)
    requires Heard(s, o, now, policy)
    ensures Ends(s, o, now, policy) <==> Finishes(Carried(s, o, now, policy), o, policy)
  {
    hide SameView, Bridged, Exact;
  }

  /** The table of the media part depends on the witnesses, the scope and the stop only. */
  lemma {:induction false} SameTable(k: SessionSnapshot, c: SessionSnapshot,
                                     o: PlaybackObservation, now: Monotonic,
                                     policy: EvidencePolicy, t: SessionSnapshot)
    requires k.scope == c.scope && k.stopRequested == c.stopRequested
    requires k.progressAnchor == c.progressAnchor && k.completionAnchor == c.completionAnchor
    requires k.hasConfirmedPlayback == c.hasConfirmedPlayback
    requires MediaWitnesses(k, o, now, policy, t) && MediaClaims(k, o, now, policy, t)
    ensures MediaWitnesses(c, o, now, policy, t) && MediaClaims(c, o, now, policy, t)
  {
    hide SameView, Bridged, Exact;
  }

  lemma {:induction false} UnheardIsTold(s: SessionSnapshot, o: PlaybackObservation,
                                         now: Monotonic, policy: EvidencePolicy)
    requires Policy.Refresh(s, now, policy).Ok? && !Heard(s, o, now, policy)
    ensures Told(s, o, now, policy, Policy.Refresh(s, now, policy).value)
  {
    hide Loses, Releases, Continuous, Exits, Skips;
  }

  lemma {:induction false} LossIsLost(s: SessionSnapshot, o: PlaybackObservation, now: Monotonic,
                                      policy: EvidencePolicy, k: SessionSnapshot)
    requires Heard(s, o, now, policy) && Behind(s, o, now, policy, k) && Loses(s, o)
    ensures Policy.Consume(k, o, now, policy) == Policy.Lost(k, o)
  {
    hide Policy.Media, Continuous, Policy.Foreign;
    ForeignIsNotOurs(s.scope, o);
  }

  lemma {:induction false} LossIsTold(s: SessionSnapshot, o: PlaybackObservation, now: Monotonic,
                                      policy: EvidencePolicy, k: SessionSnapshot)
    requires Heard(s, o, now, policy) && Behind(s, o, now, policy, k) && Loses(s, o)
    ensures Told(s, o, now, policy, Policy.Consume(k, o, now, policy))
  {
    hide Policy.Consume, Ends, Medial, Continuous, Releases, StopsHere, Ours, Exits, Beat, Loses;
    LossIsLost(s, o, now, policy, k);
    EndsAreMedial(s, o, now, policy);
    LossIsNoBeat(s, o);
  }

  lemma {:induction false} LossIsNoBeat(s: SessionSnapshot, o: PlaybackObservation)
    ensures Loses(s, o) ==> !Beat(s.scope, o) && !(Exits(o) && Releases(s, o))
  {
  }

  lemma {:induction false} ExitIsTold(s: SessionSnapshot, o: PlaybackObservation, now: Monotonic,
                                      policy: EvidencePolicy, k: SessionSnapshot)
    requires Heard(s, o, now, policy) && Behind(s, o, now, policy, k)
    requires Exits(o) && (Releases(s, o) || StopsHere(s, o))
    ensures Told(s, o, now, policy, Policy.Consume(k, o, now, policy))
  {
    hide Policy.Media, Exact, Bridged, Continuous;
  }

  lemma {:induction false} BeatIsTold(s: SessionSnapshot, o: PlaybackObservation, now: Monotonic,
                                      policy: EvidencePolicy, k: SessionSnapshot)
    requires Heard(s, o, now, policy) && Behind(s, o, now, policy, k) && Beat(s.scope, o)
    ensures Told(s, o, now, policy, Policy.Consume(k, o, now, policy))
  {
    hide Policy.Media, Policy.Foreign, Policy.Heartbeat, Ends, Continuous, Releases;
    ForeignIsNotOurs(s.scope, o);
    EndsAreMedial(s, o, now, policy);
  }

  lemma {:induction false} RepeatIsTold(s: SessionSnapshot, o: PlaybackObservation, now: Monotonic,
                                        policy: EvidencePolicy, k: SessionSnapshot)
    requires Heard(s, o, now, policy) && Behind(s, o, now, policy, k)
    requires Medial(s.scope, o) && s.completion.Some?
    ensures Told(s, o, now, policy, Policy.Consume(k, o, now, policy))
  {
    hide Policy.Media, Policy.Foreign, Policy.Heartbeat, Ends, Continuous, Releases;
    ForeignIsNotOurs(s.scope, o);
    EndsAreMedial(s, o, now, policy);
  }

  lemma {:induction false} FinishesTold(k: SessionSnapshot, o: PlaybackObservation,
                                        now: Monotonic, policy: EvidencePolicy,
                                        t: SessionSnapshot)
    requires MediaWitnesses(k, o, now, policy, t)
    ensures t.completion
         == if Finishes(k, o, policy) then Some(EndEvidence(k.completionAnchor, o)) else None
    ensures Finishes(k, o, policy) ==> k.completionAnchor.Some?
  {
  }

  predicate Untouched(k: SessionSnapshot, o: PlaybackObservation, t: SessionSnapshot) {
    && t.scope == k.scope && t.receipt == k.receipt && t.revision == k.revision + 1
    && t.stopRequested == k.stopRequested && t.stopBoundary == k.stopBoundary
    && t.ownershipLost == k.ownershipLost && t.releaseBoundary == k.releaseBoundary
    && t.releaseConfirmed == k.releaseConfirmed && t.lastSequence == k.lastSequence
    && t.lastMonotonic == k.lastMonotonic && t.latest == Some(o)
  }

  lemma {:induction false} AttributedKeeps(k: SessionSnapshot, o: PlaybackObservation,
                                           history: bool, now: Monotonic, policy: EvidencePolicy)
    ensures Untouched(k, o, Policy.Attributed(k, o, history, now, policy))
  {
    hide Policy.Confirms, Policy.Unconfirmed, Policy.Progressed, Policy.Finish, Untouched;
    forall reason, identity, retain {
      UnconfirmedKeeps(k, o, reason, identity, retain);
    }
    EndingKeeps(k, o, history);
    if o.position.Some? {
      ProgressKeeps(k, o, now, policy);
    }
    StopKeeps(k, o);
  }

  lemma {:induction false} StopKeeps(k: SessionSnapshot, o: PlaybackObservation)
    ensures Untouched(k, o, k.(
      revision := k.revision + 1, latest := Some(o), state := PlayerState.Stopped,
      progressAnchor := None, completionAnchor := None,
      evidence := PlaybackEvidence(true, false, false, StopObserved)))
  {
  }

  lemma {:induction false} EndingKeeps(k: SessionSnapshot, o: PlaybackObservation, history: bool)
    ensures k.completionAnchor.Some? ==> Untouched(k, o, Policy.Finish(k, o, history))
  {
  }

  lemma {:induction false} ProgressKeeps(k: SessionSnapshot, o: PlaybackObservation,
                                         now: Monotonic, policy: EvidencePolicy)
    requires o.position.Some?
    ensures Untouched(k, o, Policy.Progressed(k, o, now, policy))
  {
    hide Policy.Confirms;
  }

  lemma {:induction false} MediaKeeps(k: SessionSnapshot, o: PlaybackObservation, now: Monotonic,
                                      policy: EvidencePolicy)
    ensures Untouched(k, o, Policy.Media(k, o, now, policy))
  {
    hide Policy.IncrementalIdentity, Policy.SamePlayback, Policy.Qualified, Policy.Attributed,
         Policy.Unconfirmed, Untouched, Policy.Unwitnessed;
    var history := Policy.IncrementalIdentity(k, o, policy);
    forall reason, identity {
      UnconfirmedKeeps(k, o, reason, identity, false);
    }
    AttributedKeeps(k, o, history, now, policy);
    AttributedKeeps(Policy.Unwitnessed(k), o, history, now, policy);
    UnwitnessedKeeps(k, o, Policy.Attributed(Policy.Unwitnessed(k), o, history, now, policy));
  }

  lemma {:induction false} UnconfirmedKeeps(k: SessionSnapshot, o: PlaybackObservation,
                                            reason: EvidenceReason, identity: bool, retain: bool)
    ensures Untouched(k, o, Policy.Unconfirmed(k, o, reason, identity, retain))
    ensures Untouched(k, o, Policy.Unconfirmed(k.(completionAnchor := Some(o)), o, reason, identity,
                                               retain))
  {
  }

  lemma {:induction false} UnwitnessedKeeps(k: SessionSnapshot, o: PlaybackObservation,
                                            t: SessionSnapshot)
    ensures Untouched(Policy.Unwitnessed(k), o, t) <==> Untouched(k, o, t)
  {
  }

  lemma {:induction false} MediaIsTold(s: SessionSnapshot, o: PlaybackObservation, now: Monotonic,
                                       policy: EvidencePolicy, k: SessionSnapshot)
    requires Heard(s, o, now, policy) && Behind(s, o, now, policy, k)
    requires Medial(s.scope, o) && s.completion.None?
    ensures Told(s, o, now, policy, Policy.Consume(k, o, now, policy))
  {
    hide Policy.Media, Policy.Foreign, Policy.Heartbeat, Ends, Continuous, Releases,
         MediaWitnesses, MediaClaims, Finishes, Ours, Loses;
    ForeignIsNotOurs(s.scope, o);
    EndsAreMedial(s, o, now, policy);
    EndsByWitness(s, o, now, policy);
    var kept := if Policy.Reopens(k, o) then Policy.AbandonRelease(k) else k;
    var t := Policy.Consume(k, o, now, policy);
    MediaTable(kept, o, now, policy);
    assert t == Policy.Media(kept, o, now, policy);
    SameTable(kept, Carried(s, o, now, policy), o, now, policy, t);
    MediaKeeps(kept, o, now, policy);
    FinishesTold(Carried(s, o, now, policy), o, now, policy, t);
  }

  /** What one delivered sample makes of every field of a session. */
  lemma {:induction false} SampleTold(s: SessionSnapshot, o: PlaybackObservation, now: Monotonic,
                                      policy: EvidencePolicy)
    requires Policy.Observe(s, o, now, policy).Ok?
    ensures Told(s, o, now, policy, Policy.Observe(s, o, now, policy).value)
  {
    hide Policy.Refresh, Policy.Accepts, Policy.Consume, Policy.Ordered, Told, Heard, Behind,
         Releases, StopsHere;
    AcceptsIsHeard(s, o, now, policy);
    if !Heard(s, o, now, policy) {
      UnheardIsTold(s, o, now, policy);
    } else {
      var k := Kept(s, o, now, policy);
      KeptIsBehind(s, o, now, policy);
      if Loses(s, o) {
        LossIsTold(s, o, now, policy, k);
      } else if Exits(o) {
        ExitIsTold(s, o, now, policy, k);
      } else if Beat(s.scope, o) {
        BeatIsTold(s, o, now, policy, k);
      } else if s.completion.Some? {
        RepeatIsTold(s, o, now, policy, k);
      } else {
        MediaIsTold(s, o, now, policy, k);
      }
    }
  }

  /** A delivered sample records a natural end exactly when it is one, with this evidence; a
      recorded one never changes. */
  lemma {:induction false} CompletesExactly(s: SessionSnapshot, o: PlaybackObservation,
                                            now: Monotonic, policy: EvidencePolicy)
    requires Policy.Observe(s, o, now, policy).Ok?
    ensures Policy.Observe(s, o, now, policy).value.completion
         == if s.completion.Some? then s.completion
            else if Ends(s, o, now, policy) then Some(EndEvidence(s.completionAnchor, o))
            else None
  {
    hide Policy.Observe, Ends;
    SampleTold(s, o, now, policy);
  }

  /** Playback is confirmed exactly by a sample that advances, and the claim stands until the next
      sample that is heard and more than a heartbeat, or until it lapses. */
  lemma {:induction false} ConfirmsExactly(s: SessionSnapshot, o: PlaybackObservation,
                                           now: Monotonic, policy: EvidencePolicy)
    requires Policy.Observe(s, o, now, policy).Ok?
    ensures Policy.Observe(s, o, now, policy).value.evidence.receiverPlaybackConfirmed
        <==> || Advances(s, o, now, policy)
             || (&& s.evidence.receiverPlaybackConfirmed && !Lapses(s, now, policy)
                 && (!Heard(s, o, now, policy) || Beat(s.scope, o)))
  {
    hide Policy.Observe, Ends, MediaWitnesses, Facts, Witnesses, Identified, Finishes, Cancels;
    SampleTold(s, o, now, policy);
    AdvancesAreFurther(s, o, now, policy);
  }

  lemma {:induction false} AdvancesAreFurther(s: SessionSnapshot, o: PlaybackObservation,
                                              now: Monotonic, policy: EvidencePolicy)
    ensures Advances(s, o, now, policy)
        <==> Watches(s, o, now, policy) && Further(Carried(s, o, now, policy), o, now, policy)
    ensures Advances(s, o, now, policy) ==> !Beat(s.scope, o)
  {
    hide SameView, Agrees, Ours;
  }

  // ---------------------------------------------------------------- the other operations

  /** Nothing is witnessed or claimed, except an end. */
  predicate Silent(t: SessionSnapshot) {
    && t.completionAnchor.None? && !t.hasConfirmedPlayback
    && !t.evidence.identityConfirmed && !t.evidence.receiverPlaybackConfirmed
    && t.evidence.naturalCompletionConfirmed == t.completion.Some?
  }

  /** What no operation but a sample changes. */
  predicate SameRecord(s: SessionSnapshot, t: SessionSnapshot) {
    && t.scope == s.scope && t.completion == s.completion && t.latest == s.latest
    && t.lastSequence == s.lastSequence && t.lastMonotonic == s.lastMonotonic
    && t.ownershipLost == s.ownershipLost
  }

  /** Looking at the clock notices a lapse, and nothing else. */
  lemma {:induction false} ClockTold(s: SessionSnapshot, now: Monotonic, policy: EvidencePolicy)
    requires Policy.Refresh(s, now, policy).Ok?
    ensures var t := Policy.Refresh(s, now, policy).value;
            if Lapses(s, now, policy) then
              && Silent(t) && t.progressAnchor.None? && SameRecord(s, t)
              && t.evidence.reason.Stale? && t.revision == s.revision + 1
              && t.state == (if s.completion.Some? then PlayerState.Ended else PlayerState.Unknown)
              && t.stopRequested == s.stopRequested && t.stopBoundary == s.stopBoundary
              && t.receipt == s.receipt && t.releaseBoundary == s.releaseBoundary
              && t.releaseConfirmed == s.releaseConfirmed
            else t == s
  {
  }

  /** Asking for a stop gives up the witnesses of an end; the newest boundary counts.  A missing
      observation gives up every witness and a release. */
  lemma {:induction false} StopAndGapTold(s: SessionSnapshot, boundary: Option<Monotonic>)
    ensures var t := Policy.RequestStop(s, boundary);
            && Silent(t) && SameRecord(s, t) && t.stopRequested && t.revision == s.revision + 1
            && t.evidence.reason.AwaitingObservation? && t.state == s.state
            && t.receipt == s.receipt && t.releaseBoundary == s.releaseBoundary
            && t.releaseConfirmed == s.releaseConfirmed
            && t.stopBoundary == (if boundary == None then s.stopBoundary else boundary)
    ensures var t := Policy.InvalidateHistory(s);
            && Silent(t) && SameRecord(s, t) && t.progressAnchor.None?
            && t.releaseBoundary.None? && !t.releaseConfirmed
            && t.evidence.reason.IdentityUnknown? && t.revision == s.revision + 1
            && t.state == (if s.completion.Some? then PlayerState.Ended else PlayerState.Unknown)
            && t.stopRequested == s.stopRequested && t.stopBoundary == s.stopBoundary
            && t.receipt == s.receipt
  {
  }

  /** A receipt is taken exactly for this attempt; that of a stop also asks for it. */
  lemma {:induction false} ReceiptTold(s: SessionSnapshot, receipt: CommandReceipt)
    ensures var r := Policy.RecordReceipt(s, receipt);
            && (r.Ok? <==> receipt.requestId == s.scope.request.requestId
                           && receipt.attemptId == s.scope.request.attemptId)
            && (r.Ok? ==>
                  && r.value.receipt == Some(receipt) && SameRecord(s, r.value)
                  && r.value.revision > s.revision
                  && r.value.stopRequested == (s.stopRequested || receipt.action.Stop?)
                  && r.value.stopBoundary == s.stopBoundary
                  && (receipt.action.Stop? ==> Silent(r.value))
                  && (!receipt.action.Stop? ==>
                        r.value == s.(receipt := Some(receipt), revision := s.revision + 1)))
  {
  }
}
