/** The value types shared by every component: identities, playback observations, evidence and
    session snapshots.  Frozen records become datatypes.  Fields that Python excludes from
    equality (a content title, a target name) are left out, so `==` here is the Python equality. */
module Values {

  type Id = string

  /** Characters that Python's `str.strip` removes. */
  predicate IsSpace(c: char) {
    || '\U{0009}' <= c <= '\U{000D}' || '\U{001C}' <= c <= '\U{0020}'
    || c == '\U{0085}' || c == '\U{00A0}' || c == '\U{1680}' || '\U{2000}' <= c <= '\U{200A}'
    || c == '\U{2028}' || c == '\U{2029}' || c == '\U{202F}' || c == '\U{205F}' || c == '\U{3000}'
  }

  predicate Blank(id: Id) {
    forall k :: 0 <= k < |id| ==> IsSpace(id[k])
  }

  const YOUTUBE_APPLICATION_ID := "233637DE"

  /** Monotonic instants are exact; only order and differences matter. */
  type Monotonic = real

  /** Wall-clock journal times; only their order matters. */
  type Instant = int

  datatype Option<+T> = None | Some(value: T)

  /** How an operation refuses: a malformed value, a revision or generation that moved on,
      or a guard of the journal (which includes a violated key of the database). */
  datatype Fault = Malformed | Conflict | Refused

  datatype Result<+T> = Ok(value: T) | Err(fault: Fault)

  datatype ContentKind = Video | Episode

  datatype ContentRef = ContentRef(provider: Id, contentId: Id, kind: ContentKind)

  datatype PlaybackTarget = PlaybackTarget(deviceId: Id, route: Id)

  datatype PlaybackRequest = PlaybackRequest(
    requestId: Id, attemptId: Id, queueItemId: Id, content: ContentRef, target: PlaybackTarget)

  datatype PlaybackScope = PlaybackScope(
    request: PlaybackRequest, sessionId: Id, connectionGeneration: Id,
    startedMonotonic: Monotonic, applicationId: Option<Id>)

  datatype CommandAction = Start | Stop | Pause | Resume | Release

  datatype CommandOutcome = Accepted | Rejected | Unknown

  datatype CommandReceipt = CommandReceipt(
    requestId: Id, attemptId: Id, action: CommandAction, outcome: CommandOutcome)

  datatype PlayerState = Unknown | Idle | Buffering | Playing | Paused | Ended | Stopped

  datatype IdleReason = Finished | Canceled | Error

  datatype IdentityUpdate = Unknown | Explicit | Omitted

  datatype ContentPhase = Unknown | Playing | Paused | Buffering | Finished | Ad

  datatype ProviderEvidence = ProviderEvidence(source: Id, phase: ContentPhase)

  datatype CompletionAttribution = Explicit | OrderedHistory

  datatype CompletionEvidence = CompletionEvidence(
    observedAt: Instant, monotonic: Monotonic, sequence: int, identitySequence: int,
    attribution: CompletionAttribution, source: Id)

  datatype PlaybackObservation = PlaybackObservation(
    target: PlaybackTarget, connectionGeneration: Id, sequence: int, observedAt: Instant,
    monotonic: Monotonic, sessionId: Option<Id>, content: Option<ContentRef>, state: PlayerState,
    position: Option<real>, duration: Option<real>, adActive: Option<bool>,
    idleReason: Option<IdleReason>, source: Id, applicationId: Option<Id>, playbackId: Option<Id>,
    sessionActive: Option<bool>, connectionReset: bool, pauseSupported: Option<bool>,
    identityUpdate: IdentityUpdate, providerEvidence: Option<ProviderEvidence>)
  {
    /** What the constructor of an observation refuses to build. */
    predicate WellFormed() {
      && sequence >= 0
      && connectionGeneration != "" && source != ""
      && (position.Some? ==> position.value >= 0.0)
      && (duration.Some? ==> duration.value >= 0.0)
      && (sessionActive == Some(false) ==>
            sessionId.None? && applicationId.None? && content.None?)
      && !state.Ended? && !state.Stopped?
      && (providerEvidence.Some? ==> providerEvidence.value.source != "")
    }
  }

  datatype EvidenceReason =
    | AwaitingObservation | Stale | IdentityUnknown | SessionReplaced | AdActive | AdUnknown
    | NotPlaying | PositionUnknown | AwaitingProgress | ProgressConfirmed | NaturalCompletion
    | StopObserved

  datatype PlaybackEvidence = PlaybackEvidence(
    identityConfirmed: bool, receiverPlaybackConfirmed: bool, naturalCompletionConfirmed: bool,
    reason: EvidenceReason)

  const NO_EVIDENCE := PlaybackEvidence(false, false, false, AwaitingObservation)

  datatype SessionSnapshot = SessionSnapshot(
    scope: PlaybackScope, revision: int, state: PlayerState, evidence: PlaybackEvidence,
    receipt: Option<CommandReceipt>, latest: Option<PlaybackObservation>,
    progressAnchor: Option<PlaybackObservation>, hasConfirmedPlayback: bool,
    completionAnchor: Option<PlaybackObservation>, completion: Option<CompletionEvidence>,
    stopRequested: bool, stopBoundary: Option<Monotonic>, lastSequence: int,
    lastMonotonic: Option<Monotonic>, ownershipLost: bool, releaseBoundary: Option<Monotonic>,
    releaseConfirmed: bool)

  /** A session before anything was observed. */
  function FreshSession(scope: PlaybackScope): SessionSnapshot {
    SessionSnapshot(scope, 0, PlayerState.Unknown, NO_EVIDENCE, None, None, None, false, None,
                    None, false, None, -1, None, false, None, false)
  }

  datatype EvidencePolicy = EvidencePolicy(maxAge: real, minProgressInterval: real)
  {
    predicate WellFormed() {
      0.0 < minProgressInterval <= maxAge
    }
  }

  const DEFAULT_POLICY := EvidencePolicy(5.0, 1.0)

  /** `0 <= now - instant <= limit`: an instant that is neither in the future nor too old. */
  predicate Fresh(now: Monotonic, instant: Monotonic, limit: real) {
    0.0 <= now - instant <= limit
  }
}
