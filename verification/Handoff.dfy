/** Release authority: the samples after an end are tracked under a veto that, once raised, stays. */
module Handoff {
  import opened Values

  datatype HandoffReason =
    | AuthorityRequired | AuthorityBlocked | CompletionRequired | OwnershipLost | StopRequested
    | TerminalStale | CompletionMismatch | TerminalUnqualified | SequenceGap | ClockDiscontinuity
    | ObservationGap | TargetChanged | ConnectionChanged | ConnectionReset | AdActive
    | ContentChanged | SessionChanged | ApplicationChanged | MediaChanged | PlaybackRestarted
    | ProviderActive | PositionRewound | ReceiverMissing | MediaMissing | ReceiverInactive
    | ReceiverIdentityMismatch | ReceiverStale | MediaStale | MediaIdentityMissing
    | MediaIdentityMismatch | MediaStateUnqualified | ProviderPhaseUnqualified | ReleaseEligible

  /** What an explanation may say about an event: comparisons instead of identities. */
  datatype HandoffEvidence = HandoffEvidence(
    sequence: int, age: Option<real>, sinceTerminal: Option<real>, sequenceDelta: Option<int>,
    observationDelta: Option<real>, terminalSequence: Option<int>, terminalPosition: Option<real>,
    state: PlayerState, idleReason: Option<IdleReason>, position: Option<real>,
    adActive: Option<bool>, providerPhase: Option<ContentPhase>, identityUpdate: IdentityUpdate,
    sessionActive: Option<bool>, connectionReset: bool, targetMatches: bool,
    connectionMatches: bool, contentMatches: Option<bool>, sessionMatches: Option<bool>,
    applicationMatches: Option<bool>, mediaMatches: Option<bool>)

  datatype HandoffVeto = HandoffVeto(reason: HandoffReason, evidence: HandoffEvidence)

  datatype ReleaseAuthority = ReleaseAuthority(
    terminal: PlaybackObservation, lastSequence: int, lastMonotonic: Monotonic, blocked: bool,
    firstVeto: Option<HandoffVeto>)

  /** Eligibility at the release stage. */
  datatype Diagnostic = Diagnostic(
    ready: bool, reason: HandoffReason, evidence: Option<HandoffEvidence>,
    firstVeto: Option<HandoffVeto>)

  function Matches<T(==)>(observed: Option<T>, expected: Option<T>): Option<bool> {
    if observed.None? then None else Some(observed == expected)
  }

  function Evidence(s: SessionSnapshot, o: PlaybackObservation, a: Option<ReleaseAuthority>,
                    now: Option<Monotonic>): HandoffEvidence {
    var terminal := if a.Some? then Some(a.value.terminal) else None;
    HandoffEvidence(
      o.sequence,
      if now.Some? then Some(now.value - o.monotonic) else None,
      if terminal.Some? then Some(o.monotonic - terminal.value.monotonic) else None,
      if a.Some? then Some(o.sequence - a.value.lastSequence) else None,
      if a.Some? then Some(o.monotonic - a.value.lastMonotonic) else None,
      if terminal.Some? then Some(terminal.value.sequence) else None,
      if terminal.Some? then terminal.value.position else None,
      o.state, o.idleReason, o.position, o.adActive,
      if o.providerEvidence.Some? then Some(o.providerEvidence.value.phase) else None,
      o.identityUpdate, o.sessionActive, o.connectionReset,
      o.target == s.scope.request.target,
      o.connectionGeneration == s.scope.connectionGeneration,
      Matches(o.content, Some(s.scope.request.content)),
      Matches(o.sessionId, Some(s.scope.sessionId)),
      Matches(o.applicationId, s.scope.applicationId),
      if terminal.Some? then Matches(o.playbackId, terminal.value.playbackId) else None)
  }

  // ---------------------------------------------------------------- the guards on one event

  /** The first failed guard, in the order of the guards. */
  function VetoReason(s: SessionSnapshot, o: PlaybackObservation, a: ReleaseAuthority)
    : Option<HandoffReason>
  {
    var scope := s.scope;
    if o.sequence != a.lastSequence + 1 then Some(SequenceGap)
    else if o.monotonic <= a.lastMonotonic then Some(ClockDiscontinuity)
    else if o.monotonic - a.lastMonotonic > 5.0 then Some(ObservationGap)
    else if o.target != scope.request.target then Some(TargetChanged)
    else if o.connectionGeneration != scope.connectionGeneration then Some(ConnectionChanged)
    else if o.connectionReset then Some(ConnectionReset)
    else if o.adActive == Some(true) then Some(HandoffReason.AdActive)
    else if o.content.Some? && o.content != Some(scope.request.content) then Some(ContentChanged)
    else if o.sessionId.Some? && o.sessionId != Some(scope.sessionId) then Some(SessionChanged)
    else if o.applicationId.Some? && o.applicationId != scope.applicationId
    then Some(ApplicationChanged)
    else if o.playbackId.Some? && o.playbackId != a.terminal.playbackId then Some(MediaChanged)
    else if o.state.Playing? || o.state.Paused? then Some(PlaybackRestarted)
    else if && o.providerEvidence.Some?
            && (|| o.providerEvidence.value.phase.Ad? || o.providerEvidence.value.phase.Playing?
                || o.providerEvidence.value.phase.Paused?) then Some(ProviderActive)
    else if && o.position.Some? && a.terminal.position.Some?
            && o.position.value < a.terminal.position.value then Some(PositionRewound)
    else None
  }

  /** The next sample after the end: contiguous, soon, of the same owner, and not playing again. */
  predicate Quiet(s: SessionSnapshot, terminal: PlaybackObservation, before: PlaybackObservation,
                  o: PlaybackObservation) {
    && o.sequence == before.sequence + 1
    && 0.0 < o.monotonic - before.monotonic <= 5.0
    && o.target == s.scope.request.target
    && o.connectionGeneration == s.scope.connectionGeneration && !o.connectionReset
    && o.adActive != Some(true)
    && (o.content.Some? ==> o.content == Some(s.scope.request.content))
    && (o.sessionId.Some? ==> o.sessionId == Some(s.scope.sessionId))
    && (o.applicationId.Some? ==> o.applicationId == s.scope.applicationId)
    && (o.playbackId.Some? ==> o.playbackId == terminal.playbackId)
    && !o.state.Playing? && !o.state.Paused?
    && (o.providerEvidence.Some? ==>
          var phase := o.providerEvidence.value.phase;
          !phase.Ad? && !phase.Playing? && !phase.Paused?)
    && (o.position.Some? && terminal.position.Some? ==>
          o.position.value >= terminal.position.value)
  }

  // ---------------------------------------------------------------- tracking

  /** One event: skipped when its number is not new, and otherwise judged and recorded. */
  function Tracked(s: SessionSnapshot, o: PlaybackObservation, a: ReleaseAuthority)
    : ReleaseAuthority
  {
    if o.sequence <= a.terminal.sequence || o.sequence <= a.lastSequence then a
    else
      var reason := VetoReason(s, o, a);
      a.(lastSequence := o.sequence, lastMonotonic := o.monotonic,
         blocked := a.blocked || reason.Some?,
         firstVeto := if reason.Some? && a.firstVeto.None?
                      then Some(HandoffVeto(reason.value, Evidence(s, o, Some(a), None)))
                      else a.firstVeto)
  }

  function TrackedAll(s: SessionSnapshot, events: seq<PlaybackObservation>, a: ReleaseAuthority)
    : ReleaseAuthority
  {
    if events == [] then a
    else Tracked(s, events[|events| - 1], TrackedAll(s, events[..|events| - 1], a))
  }

  predicate IsTerminal(o: PlaybackObservation, finish: CompletionEvidence) {
    o.sequence == finish.sequence && o.monotonic == finish.monotonic
  }

  /** The first event that the completion was recorded from. */
  function TerminalOf(events: seq<PlaybackObservation>, finish: CompletionEvidence)
    : (terminal: Option<PlaybackObservation>)
    ensures terminal.Some? ==> terminal.value in events && IsTerminal(terminal.value, finish)
    ensures terminal.None? ==> forall k :: 0 <= k < |events| ==> !IsTerminal(events[k], finish)
  {
    if events == [] then None
    else if IsTerminal(events[0], finish) then Some(events[0])
    else TerminalOf(events[1..], finish)
  }

  function Granted(terminal: PlaybackObservation): ReleaseAuthority {
    ReleaseAuthority(terminal, terminal.sequence, terminal.monotonic, false, None)
  }

  /** `track_release` as a function. */
  function Release(s: SessionSnapshot, events: seq<PlaybackObservation>,
                   a: Option<ReleaseAuthority>): Option<ReleaseAuthority>
  {
    if s.completion.None? then None
    else if a.Some? then Some(TrackedAll(s, events, a.value))
    else
      match TerminalOf(events, s.completion.value)
      case None => None
      case Some(terminal) => Some(TrackedAll(s, events, Granted(terminal)))
  }

  method TrackRelease(s: SessionSnapshot, events: seq<PlaybackObservation>,
                      a: Option<ReleaseAuthority>) returns (r: Option<ReleaseAuthority>)
    ensures r == Release(s, events, a)
  {
    if s.completion.None? {
      return None;
    }
    var authority;
    if a.Some? {
      authority := a.value;
    } else {
      var terminal := TerminalOf(events, s.completion.value);
      if terminal.None? {
        return None;
      }
      authority := Granted(terminal.value);
    }
    ghost var start := authority;
    for i := 0 to |events|
      invariant authority == TrackedAll(s, events[..i], start)
    {
      assert events[..i + 1][..i] == events[..i];
      var o := events[i];
      if o.sequence <= authority.terminal.sequence || o.sequence <= authority.lastSequence {
        continue;
      }
      var veto := authority.firstVeto;
      var reason := VetoReason(s, o, authority);
      if reason.Some? && veto.None? {
        veto := Some(HandoffVeto(reason.value, Evidence(s, o, Some(authority), None)));
      }
      authority := authority.(
        lastSequence := o.sequence, lastMonotonic := o.monotonic,
        blocked := authority.blocked || reason.Some?, firstVeto := veto);
    }
    assert events[..|events|] == events;
    r := Some(authority);
  }

  // ---------------------------------------------------------------- the trace it stands for

  /** An authority as tracking makes it: blocked exactly by its veto, and not behind its end. */
  predicate Lawful(a: ReleaseAuthority) {
    && (a.blocked <==> a.firstVeto.Some?)
    && a.terminal.sequence <= a.lastSequence
  }

  function Floor(counted: seq<PlaybackObservation>, floor: int): int {
    if counted == [] then floor else counted[|counted| - 1].sequence
  }

  /** The events with new numbers: each exceeds the floor and everything counted before it. */
  function Counted(events: seq<PlaybackObservation>, floor: int): seq<PlaybackObservation> {
    if events == [] then []
    else
      var before := Counted(events[..|events| - 1], floor);
      var o := events[|events| - 1];
      if o.sequence > Floor(before, floor) then before + [o] else before
  }

  /** The authority as it stood before counted event `i`. */
  function Before(a: ReleaseAuthority, counted: seq<PlaybackObservation>, i: nat)
    : ReleaseAuthority
    requires i <= |counted|
  {
    if i == 0 then a
    else a.(lastSequence := counted[i - 1].sequence, lastMonotonic := counted[i - 1].monotonic)
  }

  function Violation(s: SessionSnapshot, a: ReleaseAuthority, counted: seq<PlaybackObservation>,
                     i: nat): Option<HandoffReason>
    requires i < |counted|
  {
    VetoReason(s, counted[i], Before(a, counted, i))
  }

  /** Counted event `i` is the first that violates a guard, and is what the veto reports. */
  predicate FirstViolation(s: SessionSnapshot, a: ReleaseAuthority,
                           counted: seq<PlaybackObservation>, i: nat, veto: HandoffVeto)
    requires i < |counted|
  {
    && Violation(s, a, counted, i) == Some(veto.reason)
    && veto.evidence == Evidence(s, counted[i], Some(Before(a, counted, i)), None)
    && forall j :: 0 <= j < i ==> Violation(s, a, counted, j).None?
  }

  /** The specification of tracking: what the authority must be after these counted events. */
  predicate Traces(s: SessionSnapshot, a: ReleaseAuthority, counted: seq<PlaybackObservation>,
                   r: ReleaseAuthority) {
    && r.terminal == a.terminal
    && r.lastSequence == Before(a, counted, |counted|).lastSequence
    && r.lastMonotonic == Before(a, counted, |counted|).lastMonotonic
    && (a.firstVeto.Some? ==> r.firstVeto == a.firstVeto)
    && (a.firstVeto.None? ==>
          if r.firstVeto.None? then forall i :: 0 <= i < |counted| ==> Violation(s, a, counted, i).None?
          else exists i :: 0 <= i < |counted| && FirstViolation(s, a, counted, i, r.firstVeto.value))
  }

  lemma {:induction false} TracesExtends(s: SessionSnapshot, a: ReleaseAuthority,
                                         counted: seq<PlaybackObservation>, r: ReleaseAuthority,
                                         o: PlaybackObservation)
    requires Lawful(a) && Lawful(r) && Traces(s, a, counted, r) && o.sequence > r.lastSequence
    requires a.terminal.sequence <= r.lastSequence
    ensures Traces(s, a, counted + [o], Tracked(s, o, r))
    ensures Lawful(Tracked(s, o, r))
  {
    hide VetoReason, Evidence;
    var n, all := |counted|, counted + [o];
    forall i | 0 <= i < n
      ensures Violation(s, a, all, i) == Violation(s, a, counted, i)
      ensures Before(a, all, i) == Before(a, counted, i) && all[i] == counted[i]
    {
    }
    assert Before(a, all, n) == Before(a, counted, n) && all[n] == o;
    SameGuards(s, o, r, Before(a, counted, n));
    if a.firstVeto.None? {
      if r.firstVeto.Some? {
        var i :| 0 <= i < n && FirstViolation(s, a, counted, i, r.firstVeto.value);
        assert FirstViolation(s, a, all, i, r.firstVeto.value);
      } else if VetoReason(s, o, r).Some? {
        assert FirstViolation(s, a, all, n, Tracked(s, o, r).firstVeto.value);
      }
    }
  }

  /** The guards look only at the end and at the last event. */
  lemma {:induction false} SameGuards(s: SessionSnapshot, o: PlaybackObservation,
                                      a: ReleaseAuthority, b: ReleaseAuthority)
    requires a.terminal == b.terminal && a.lastSequence == b.lastSequence
    requires a.lastMonotonic == b.lastMonotonic
    ensures VetoReason(s, o, a) == VetoReason(s, o, b)
    ensures Evidence(s, o, Some(a), None) == Evidence(s, o, Some(b), None)
  {
  }

  /** Tracking equals its trace: the veto is exactly the first violation after the end, whatever
      harmless events follow it, and the authority is blocked exactly when there is one. */
  lemma {:induction false} TrackingIsItsTrace(s: SessionSnapshot, events: seq<PlaybackObservation>,
                                              a: ReleaseAuthority)
    requires Lawful(a)
    ensures var r := TrackedAll(s, events, a);
            Lawful(r) && Traces(s, a, Counted(events, a.lastSequence), r)
    decreases |events|
  {
    hide VetoReason, Evidence, Tracked, Traces, Violation;
    if events == [] {
      NothingTraced(s, a);
    } else {
      var before, o := events[..|events| - 1], events[|events| - 1];
      TrackingIsItsTrace(s, before, a);
      var counted, r := Counted(before, a.lastSequence), TrackedAll(s, before, a);
      TracedFloor(s, a, counted, r);
      if o.sequence > r.lastSequence {
        TracesExtends(s, a, counted, r, o);
      } else {
        SkipsOld(s, o, r);
      }
    }
  }

  lemma {:induction false} NothingTraced(s: SessionSnapshot, a: ReleaseAuthority)
    ensures Traces(s, a, [], a)
  {
  }

  lemma {:induction false} SkipsOld(s: SessionSnapshot, o: PlaybackObservation, a: ReleaseAuthority)
    requires o.sequence <= a.lastSequence
    ensures Tracked(s, o, a) == a
  {
  }

  lemma {:induction false} TracedFloor(s: SessionSnapshot, a: ReleaseAuthority,
                                       counted: seq<PlaybackObservation>, r: ReleaseAuthority)
    requires Lawful(a) && Traces(s, a, counted, r)
    ensures r.lastSequence == Floor(counted, a.lastSequence) && r.terminal == a.terminal
  {
    hide Violation, FirstViolation;
  }

  // ---------------------------------------------------------------- redelivery and batches

  /** Events that were tracked are old from then on. */
  lemma {:induction false} TrackedAreOld(s: SessionSnapshot, events: seq<PlaybackObservation>,
                                         a: ReleaseAuthority)
    requires a.terminal.sequence <= a.lastSequence
    ensures var r := TrackedAll(s, events, a);
            && a.lastSequence <= r.lastSequence && r.terminal == a.terminal
            && forall k :: 0 <= k < |events| ==> events[k].sequence <= r.lastSequence
    decreases |events|
  {
    hide VetoReason, Evidence;
    if events != [] {
      TrackedAreOld(s, events[..|events| - 1], a);
      assert forall k :: 0 <= k < |events| - 1 ==> events[k] == events[..|events| - 1][k];
    }
  }

  lemma {:induction false} OldChangesNothing(s: SessionSnapshot, events: seq<PlaybackObservation>,
                                             a: ReleaseAuthority)
    requires forall k :: 0 <= k < |events| ==> events[k].sequence <= a.lastSequence
    ensures TrackedAll(s, events, a) == a
    decreases |events|
  {
    hide VetoReason, Evidence;
    if events != [] {
      OldChangesNothing(s, events[..|events| - 1], a);
    }
  }

  /** Tracking looks at nothing of a snapshot but its scope. */
  lemma {:induction false} ScopeDecides(s: SessionSnapshot, t: SessionSnapshot,
                                        events: seq<PlaybackObservation>, a: ReleaseAuthority)
    requires s.scope == t.scope
    ensures TrackedAll(s, events, a) == TrackedAll(t, events, a)
    decreases |events|
  {
    if events != [] {
      ScopeDecides(s, t, events[..|events| - 1], a);
    }
  }

  /** Passing the same batch through two layers tracks it once, also when the snapshot has moved on
      between them. */
  lemma {:induction false} RedeliveryChangesNothing(s: SessionSnapshot, t: SessionSnapshot,
                                                    events: seq<PlaybackObservation>,
                                                    a: Option<ReleaseAuthority>)
    requires a.Some? ==> a.value.terminal.sequence <= a.value.lastSequence
    requires t.scope == s.scope && t.completion == s.completion
    ensures Release(t, events, Release(s, events, a)) == Release(s, events, a)
  {
    hide TrackedAll;
    if s.completion.Some? {
      var start := if a.Some? then a
                   else match TerminalOf(events, s.completion.value)
                        case None => None
                        case Some(terminal) => Some(Granted(terminal));
      if start.Some? {
        TrackedAreOld(s, events, start.value);
        OldChangesNothing(t, events, TrackedAll(s, events, start.value));
      }
    }
  }

  lemma {:induction false} TrackingAppends(s: SessionSnapshot, first: seq<PlaybackObservation>,
                                           second: seq<PlaybackObservation>, a: ReleaseAuthority)
    ensures TrackedAll(s, first + second, a) == TrackedAll(s, second, TrackedAll(s, first, a))
    decreases |second|
  {
    hide Tracked;
    if second == [] {
      assert first + second == first;
    } else {
      var front := second[..|second| - 1];
      assert (first + second)[..|first + second| - 1] == first + front;
      TrackingAppends(s, first, front, a);
    }
  }

  /** A batch, and the snapshot as it stood when the batch was tracked. */
  datatype Delivery = Delivery(snapshot: SessionSnapshot, events: seq<PlaybackObservation>)

  function Released(deliveries: seq<Delivery>, a: Option<ReleaseAuthority>)
    : Option<ReleaseAuthority>
  {
    if deliveries == [] then a
    else
      var last := deliveries[|deliveries| - 1];
      Release(last.snapshot, last.events, Released(deliveries[..|deliveries| - 1], a))
  }

  function AllEvents(deliveries: seq<Delivery>): seq<PlaybackObservation> {
    if deliveries == [] then []
    else AllEvents(deliveries[..|deliveries| - 1]) + deliveries[|deliveries| - 1].events
  }

  /** The snapshots of one finished session. */
  predicate OneSession(deliveries: seq<Delivery>, scope: PlaybackScope) {
    forall k :: 0 <= k < |deliveries| ==>
      deliveries[k].snapshot.scope == scope && deliveries[k].snapshot.completion.Some?
  }

  /** Neither how the events are cut into batches nor how the snapshot moves on between the batches
      matters: tracking them is tracking all of them with any snapshot of the session. */
  lemma {:induction false} BatchesCompose(deliveries: seq<Delivery>, s: SessionSnapshot,
                                          a: ReleaseAuthority)
    requires OneSession(deliveries, s.scope)
    ensures Released(deliveries, Some(a)) == Some(TrackedAll(s, AllEvents(deliveries), a))
    decreases |deliveries|
  {
    hide Tracked;
    if deliveries != [] {
      var front, last := deliveries[..|deliveries| - 1], deliveries[|deliveries| - 1];
      BatchesCompose(front, s, a);
      var before := TrackedAll(s, AllEvents(front), a);
      ScopeDecides(last.snapshot, s, last.events, before);
      TrackingAppends(s, AllEvents(front), last.events, a);
    }
  }

  /** So the trace specification holds over the whole stream of a session, however its snapshot
      moved on. */
  lemma {:induction false} StreamIsItsTrace(deliveries: seq<Delivery>, s: SessionSnapshot,
                                            a: ReleaseAuthority)
    requires Lawful(a) && OneSession(deliveries, s.scope)
    ensures var r := Released(deliveries, Some(a));
            && r.Some? && Lawful(r.value)
            && Traces(s, a, Counted(AllEvents(deliveries), a.lastSequence), r.value)
  {
    hide Lawful, Traces, TrackedAll, Released, OneSession;
    BatchesCompose(deliveries, s, a);
    TrackingIsItsTrace(s, AllEvents(deliveries), a);
  }

  // ---------------------------------------------------------------- the decision

  function LastReceiver(events: seq<PlaybackObservation>): (o: Option<PlaybackObservation>)
    ensures o.Some? ==> o.value in events && o.value.sessionActive.Some?
  {
    if events == [] then None
    else
      var last := events[|events| - 1];
      if last.sessionActive.Some? then Some(last) else LastReceiver(events[..|events| - 1])
  }

  function LastMedia(events: seq<PlaybackObservation>): (o: Option<PlaybackObservation>)
    ensures o.Some? ==> o.value in events && o.value.sessionActive.None?
  {
    if events == [] then None
    else
      var last := events[|events| - 1];
      if last.sessionActive.None? then Some(last) else LastMedia(events[..|events| - 1])
  }

  predicate InScope(s: SessionSnapshot, o: PlaybackObservation) {
    && o.target == s.scope.request.target
    && o.connectionGeneration == s.scope.connectionGeneration
    && o.sessionId == Some(s.scope.sessionId) && o.applicationId == s.scope.applicationId
  }

  function Held(s: SessionSnapshot, a: Option<ReleaseAuthority>, now: Monotonic,
                reason: HandoffReason, o: Option<PlaybackObservation>): Diagnostic {
    Diagnostic(false, reason,
               if o.Some? then Some(Evidence(s, o.value, a, Some(now))) else None,
               if a.Some? then a.value.firstVeto else None)
  }

  function ReleaseDecision(s: SessionSnapshot, a: Option<ReleaseAuthority>,
                           events: seq<PlaybackObservation>, now: Monotonic): Diagnostic {
    if a.None? then Held(s, a, now, AuthorityRequired, None)
    else if a.value.blocked then
      Held(s, a, now, AuthorityBlocked, if events == [] then None else Some(events[|events| - 1]))
    else if s.completion.None? then Held(s, a, now, CompletionRequired, None)
    else
      var terminal := a.value.terminal;
      if s.ownershipLost then Held(s, a, now, OwnershipLost, s.latest)
      else if s.stopRequested then Held(s, a, now, StopRequested, s.latest)
      else if !Fresh(now, terminal.monotonic, 5.0) then Held(s, a, now, TerminalStale, Some(terminal))
      else if !IsTerminal(terminal, s.completion.value)
      then Held(s, a, now, CompletionMismatch, Some(terminal))
      else if !QualifiedEnd(s, terminal) then Held(s, a, now, TerminalUnqualified, Some(terminal))
      else LiveDecision(s, a, events, now)
  }

  predicate QualifiedEnd(s: SessionSnapshot, terminal: PlaybackObservation) {
    && terminal.playbackId.Some? && terminal.adActive == Some(false)
    && terminal.state.Idle? && terminal.idleReason == Some(IdleReason.Finished)
    && InScope(s, terminal)
    && (terminal.content.None? || terminal.content == Some(s.scope.request.content))
  }

  /** The receiver and the media must still be exactly the finished session's. */
  function LiveDecision(s: SessionSnapshot, a: Option<ReleaseAuthority>,
                        events: seq<PlaybackObservation>, now: Monotonic): Diagnostic
    requires a.Some?
  {
    var receiver, media := LastReceiver(events), LastMedia(events);
    if receiver.None? then Held(s, a, now, ReceiverMissing, None)
    else if media.None? then Held(s, a, now, MediaMissing, None)
    else if receiver.value.sessionActive != Some(true)
    then Held(s, a, now, ReceiverInactive, receiver)
    else if !InScope(s, receiver.value) then Held(s, a, now, ReceiverIdentityMismatch, receiver)
    else if !Fresh(now, receiver.value.monotonic, 5.0) then Held(s, a, now, ReceiverStale, receiver)
    else if !Fresh(now, media.value.monotonic, 5.0) then Held(s, a, now, MediaStale, media)
    else if media.value.content.None? || !media.value.identityUpdate.Explicit?
    then Held(s, a, now, MediaIdentityMissing, media)
    else if || media.value.content != Some(s.scope.request.content) || !InScope(s, media.value)
            || media.value.playbackId != a.value.terminal.playbackId
    then Held(s, a, now, MediaIdentityMismatch, media)
    else if media.value.adActive == Some(true) then Held(s, a, now, HandoffReason.AdActive, media)
    else if !(|| media.value.state.Buffering?
              || (media.value.state.Idle? && media.value.idleReason == Some(IdleReason.Finished)))
    then Held(s, a, now, MediaStateUnqualified, media)
    else if && media.value.providerEvidence.Some?
            && !(|| media.value.providerEvidence.value.phase.Unknown?
                 || media.value.providerEvidence.value.phase.Buffering?
                 || media.value.providerEvidence.value.phase.Finished?)
    then Held(s, a, now, ProviderPhaseUnqualified, media)
    else Diagnostic(true, ReleaseEligible, Some(Evidence(s, media.value, a, Some(now))), None)
  }

  /** A run of counted events that is quiet from the end on. */
  predicate QuietSince(s: SessionSnapshot, terminal: PlaybackObservation,
                       counted: seq<PlaybackObservation>) {
    forall i :: 0 <= i < |counted| ==>
      counted[i].sequence == terminal.sequence + 1 + i && QuietAt(s, terminal, counted, i)
  }

  /** Counted event `i` is quiet after the one before it. */
  predicate QuietAt(s: SessionSnapshot, terminal: PlaybackObservation,
                    counted: seq<PlaybackObservation>, i: nat)
    requires i < |counted|
  {
    Quiet(s, terminal, if i == 0 then terminal else counted[i - 1], counted[i])
  }

  lemma {:induction false} NoViolationIsQuiet(s: SessionSnapshot, o: PlaybackObservation,
                                              a: ReleaseAuthority, before: PlaybackObservation)
    requires VetoReason(s, o, a).None?
    requires a.lastSequence == before.sequence && a.lastMonotonic == before.monotonic
    ensures Quiet(s, a.terminal, before, o)
  {
  }

  lemma {:induction false} UnblockedIsQuiet(s: SessionSnapshot, terminal: PlaybackObservation,
                                            events: seq<PlaybackObservation>)
    requires !TrackedAll(s, events, Granted(terminal)).blocked
    ensures QuietSince(s, terminal, Counted(events, terminal.sequence))
  {
    var a := Granted(terminal);
    var counted := Counted(events, terminal.sequence);
    TrackingIsItsTrace(s, events, a);
    hide VetoReason, TrackedAll, Quiet;
    forall i | 0 <= i < |counted|
      ensures QuietAt(s, terminal, counted, i)
    {
      assert Violation(s, a, counted, i).None?;
      NoViolationIsQuiet(s, counted[i], Before(a, counted, i),
                         if i == 0 then terminal else counted[i - 1]);
    }
    QuietNumbers(s, terminal, counted, |counted|);
  }

  lemma {:induction false} QuietNumbers(s: SessionSnapshot, terminal: PlaybackObservation,
                                        counted: seq<PlaybackObservation>, n: nat)
    requires n <= |counted|
    requires forall i :: 0 <= i < |counted| ==> QuietAt(s, terminal, counted, i)
    ensures forall i :: 0 <= i < n ==> counted[i].sequence == terminal.sequence + 1 + i
  {
    if n > 0 {
      QuietNumbers(s, terminal, counted, n - 1);
      assert QuietAt(s, terminal, counted, n - 1);
    }
  }

  /** The snapshots of one session in their order: a completion, once there, stays. */
  predicate OfSession(deliveries: seq<Delivery>, s: SessionSnapshot) {
    forall k :: 0 <= k < |deliveries| ==>
      && deliveries[k].snapshot.scope == s.scope
      && (deliveries[k].snapshot.completion.Some? ==>
            deliveries[k].snapshot.completion == s.completion)
  }

  /** The authority was granted for an end in batch `g`, and has tracked everything from there on. */
  predicate GrantedAt(deliveries: seq<Delivery>, s: SessionSnapshot, g: nat,
                      terminal: PlaybackObservation)
    requires g < |deliveries|
  {
    && s.completion.Some? && TerminalOf(deliveries[g].events, s.completion.value) == Some(terminal)
    && Released(deliveries, None)
         == Some(TrackedAll(s, AllEvents(deliveries[g..]), Granted(terminal)))
  }

  lemma {:induction false} GrantOfStream(deliveries: seq<Delivery>, s: SessionSnapshot)
    returns (g: nat, terminal: PlaybackObservation)
    requires OfSession(deliveries, s) && Released(deliveries, None).Some?
    ensures g < |deliveries| && GrantedAt(deliveries, s, g, terminal)
    decreases |deliveries|
  {
    hide TrackedAll;
    var front, last := deliveries[..|deliveries| - 1], deliveries[|deliveries| - 1];
    if Released(front, None).Some? {
      g, terminal := GrantOfStream(front, s);
      var before := TrackedAll(s, AllEvents(front[g..]), Granted(terminal));
      ScopeDecides(last.snapshot, s, last.events, before);
      TrackingAppends(s, AllEvents(front[g..]), last.events, Granted(terminal));
      assert deliveries[g..][..|deliveries[g..]| - 1] == front[g..];
    } else {
      g := |deliveries| - 1;
      terminal := TerminalOf(last.events, s.completion.value).value;
      ScopeDecides(last.snapshot, s, last.events, Granted(terminal));
      LastEvents(deliveries);
    }
  }

  lemma {:induction false} LastEvents(deliveries: seq<Delivery>)
    requires deliveries != []
    ensures AllEvents(deliveries[|deliveries| - 1..]) == deliveries[|deliveries| - 1].events
  {
    var last := deliveries[|deliveries| - 1..];
    assert last == [deliveries[|deliveries| - 1]] && last[..0] == [];
    assert AllEvents([]) == [];
  }

  /** The end is in batch `g`, and every event from that batch on was quiet. */
  predicate QuietFrom(deliveries: seq<Delivery>, s: SessionSnapshot, g: nat,
                      terminal: PlaybackObservation)
    requires g < |deliveries|
  {
    && terminal in deliveries[g].events
    && QuietSince(s, terminal, Counted(AllEvents(deliveries[g..]), terminal.sequence))
  }

  /** Readiness means, over a whole stream of batches and however the snapshot moved on between
      them: the authority's end is the fresh, qualified sample the completion was recorded from;
      every event with a new number since then, however batched or repeated, was contiguous, at most
      five seconds after the one before, and free of any other identity, ad or restarted playback;
      and the session is still owned and was not stopped. */
  lemma {:induction false} ReadyMeansQuiet(deliveries: seq<Delivery>, s: SessionSnapshot,
                                           events: seq<PlaybackObservation>, now: Monotonic)
    requires OfSession(deliveries, s)
    requires ReleaseDecision(s, Released(deliveries, None), events, now).ready
    ensures Released(deliveries, None).Some? && s.completion.Some?
    ensures var terminal := Released(deliveries, None).value.terminal;
            && IsTerminal(terminal, s.completion.value)
            && QualifiedEnd(s, terminal) && Fresh(now, terminal.monotonic, 5.0)
            && (exists g: nat :: g < |deliveries| && QuietFrom(deliveries, s, g, terminal))
            && !s.ownershipLost && !s.stopRequested
  {
    hide VetoReason, TrackedAll, LiveDecision, QualifiedEnd, QuietSince, Released, AllEvents,
         OfSession;
    var g, terminal := GrantOfStream(deliveries, s);
    var stream := AllEvents(deliveries[g..]);
    TrackingKeepsEnd(s, stream, Granted(terminal));
    UnblockedIsQuiet(s, terminal, stream);
    assert QuietFrom(deliveries, s, g, terminal);
  }

  lemma {:induction false} TrackingKeepsEnd(s: SessionSnapshot, events: seq<PlaybackObservation>,
                                            a: ReleaseAuthority)
    ensures TrackedAll(s, events, a).terminal == a.terminal
    decreases |events|
  {
    hide VetoReason, Evidence;
    if events != [] {
      TrackingKeepsEnd(s, events[..|events| - 1], a);
    }
  }
}
