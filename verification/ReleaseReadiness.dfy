/** When a release is ready, and why it is not: equivalences in terms of the events by position. */
module ReleaseReadiness {
  import opened Values
  import opened Handoff

  // ---------------------------------------------------------------- the newest events

  /** Event `i` is the last one about the receiver. */
  predicate NewestReceiver(events: seq<PlaybackObservation>, i: nat) {
    && i < |events| && events[i].sessionActive.Some?
    && forall k :: i < k < |events| ==> events[k].sessionActive.None?
  }

  /** Event `i` is the last one about media. */
  predicate NewestMedia(events: seq<PlaybackObservation>, i: nat) {
    && i < |events| && events[i].sessionActive.None?
    && forall k :: i < k < |events| ==> events[k].sessionActive.Some?
  }

  lemma {:induction false} ReceiverIsNewest(events: seq<PlaybackObservation>)
    ensures match LastReceiver(events)
            case None => forall k :: 0 <= k < |events| ==> events[k].sessionActive.None?
            case Some(o) => exists i :: 0 <= i < |events| && NewestReceiver(events, i) && events[i] == o
  {
    if events != [] {
      var n := |events| - 1;
      var front := events[..n];
      ReceiverIsNewest(front);
      if LastReceiver(events) == Some(events[n]) && !events[n].sessionActive.None? {
        assert NewestReceiver(events, n);
      } else if LastReceiver(front).Some? {
        var i :| 0 <= i < |front| && NewestReceiver(front, i)
          && front[i] == LastReceiver(front).value;
        assert events[i] == front[i];
        assert NewestReceiver(events, i);
      }
    }
  }

  lemma {:induction false} MediaIsNewest(events: seq<PlaybackObservation>)
    ensures match LastMedia(events)
            case None => forall k :: 0 <= k < |events| ==> events[k].sessionActive.Some?
            case Some(o) => exists i :: 0 <= i < |events| && NewestMedia(events, i) && events[i] == o
  {
    if events != [] {
      var n := |events| - 1;
      var front := events[..n];
      MediaIsNewest(front);
      if LastMedia(events) == Some(events[n]) && !events[n].sessionActive.Some? {
        assert NewestMedia(events, n);
      } else if LastMedia(front).Some? {
        var i :| 0 <= i < |front| && NewestMedia(front, i)
          && front[i] == LastMedia(front).value;
        assert events[i] == front[i];
        assert NewestMedia(events, i);
      }
    }
  }

  // ---------------------------------------------------------------- readiness

  /** The sample is at most five seconds old and not from the future. */
  predicate Recent(o: PlaybackObservation, now: Monotonic) {
    o.monotonic <= now <= o.monotonic + 5.0
  }

  /** The sample names the finished session, on its target and connection. */
  predicate Names(scope: PlaybackScope, o: PlaybackObservation) {
    && o.sessionId == Some(scope.sessionId) && o.applicationId == scope.applicationId
    && o.target == scope.request.target && o.connectionGeneration == scope.connectionGeneration
  }

  /** The end is the recent idle, ad-free sample from which the completion was recorded. */
  predicate EndStands(s: SessionSnapshot, end: PlaybackObservation, now: Monotonic) {
    && s.completion.Some? && !s.ownershipLost && !s.stopRequested
    && end.sequence == s.completion.value.sequence
    && end.monotonic == s.completion.value.monotonic
    && Recent(end, now) && Names(s.scope, end)
    && end.content in {None, Some(s.scope.request.content)} && end.playbackId.Some?
    && end.state.Idle? && end.idleReason == Some(IdleReason.Finished)
    && end.adActive == Some(false)
  }

  /** The receiver still runs the finished session. */
  predicate StillOwned(s: SessionSnapshot, o: PlaybackObservation, now: Monotonic) {
    o.sessionActive == Some(true) && Names(s.scope, o) && Recent(o, now)
  }

  /** The media is explicitly that of the end, without an ad, and idle after its end or loading. */
  predicate StillEnded(s: SessionSnapshot, end: PlaybackObservation, o: PlaybackObservation,
                       now: Monotonic) {
    && Recent(o, now) && Names(s.scope, o)
    && o.content == Some(s.scope.request.content) && o.identityUpdate.Explicit?
    && o.playbackId == end.playbackId
    && o.adActive != Some(true)
    && (o.state.Buffering? || (o.state.Idle? && o.idleReason == Some(IdleReason.Finished)))
    && (o.providerEvidence.Some? ==>
          var phase := o.providerEvidence.value.phase;
          phase.Unknown? || phase.Buffering? || phase.Finished?)
  }

  predicate ReleaseReady(s: SessionSnapshot, end: PlaybackObservation,
                         events: seq<PlaybackObservation>, now: Monotonic) {
    && EndStands(s, end, now)
    && (exists i :: 0 <= i < |events| && NewestReceiver(events, i) && StillOwned(s, events[i], now))
    && (exists i :: 0 <= i < |events| && NewestMedia(events, i)
          && StillEnded(s, end, events[i], now))
  }

  lemma {:induction false} EndIsQualified(s: SessionSnapshot, end: PlaybackObservation,
                                          now: Monotonic)
    ensures EndStands(s, end, now)
        <==> && s.completion.Some? && !s.ownershipLost && !s.stopRequested
             && Fresh(now, end.monotonic, 5.0) && IsTerminal(end, s.completion.value)
             && QualifiedEnd(s, end)
  {
  }

  predicate LiveNow(s: SessionSnapshot, end: PlaybackObservation,
                    receiver: Option<PlaybackObservation>, media: Option<PlaybackObservation>,
                    now: Monotonic) {
    && receiver.Some? && StillOwned(s, receiver.value, now)
    && media.Some? && StillEnded(s, end, media.value, now)
  }

  lemma {:induction false} LiveIsNow(s: SessionSnapshot, a: Option<ReleaseAuthority>,
                                     events: seq<PlaybackObservation>, now: Monotonic)
    requires a.Some?
    ensures LiveDecision(s, a, events, now).ready
        <==> LiveNow(s, a.value.terminal, LastReceiver(events), LastMedia(events), now)
  {
    hide Evidence, LastReceiver, LastMedia;
  }

  lemma {:induction false} LiveByPosition(s: SessionSnapshot, end: PlaybackObservation,
                                          events: seq<PlaybackObservation>, now: Monotonic)
    ensures LiveNow(s, end, LastReceiver(events), LastMedia(events), now)
        <==> && (exists i :: 0 <= i < |events| && NewestReceiver(events, i)
                   && StillOwned(s, events[i], now))
             && (exists i :: 0 <= i < |events| && NewestMedia(events, i)
                   && StillEnded(s, end, events[i], now))
  {
    hide StillOwned, StillEnded, LastReceiver, LastMedia;
    ReceiverIsNewest(events);
    MediaIsNewest(events);
  }

  /** A release is ready exactly when its authority is not blocked, the end still stands, the newest
      word about the receiver is that it runs this session, and the newest media is the ended one. */
  lemma {:induction false} ReadyExactly(s: SessionSnapshot, a: Option<ReleaseAuthority>,
                                        events: seq<PlaybackObservation>, now: Monotonic)
    ensures ReleaseDecision(s, a, events, now).ready
        <==> a.Some? && !a.value.blocked && ReleaseReady(s, a.value.terminal, events, now)
  {
    hide Evidence, LiveDecision, LiveNow, EndStands, QualifiedEnd, IsTerminal, NewestReceiver,
         NewestMedia, StillOwned, StillEnded, Fresh;
    if a.Some? {
      EndIsQualified(s, a.value.terminal, now);
      LiveIsNow(s, a, events, now);
      LiveByPosition(s, a.value.terminal, events, now);
    }
  }

  // ---------------------------------------------------------------- why it is not ready

  /** The end, once it is known to be recent and the recorded one, is not a qualified end. */
  predicate Unqualified(s: SessionSnapshot, end: PlaybackObservation) {
    || !Names(s.scope, end)
    || (end.content.Some? && end.content.value != s.scope.request.content)
    || end.playbackId.None? || end.adActive != Some(false)
    || !end.state.Idle? || end.idleReason != Some(IdleReason.Finished)
  }

  /** What is wrong with the authority or its end, if anything is. */
  function EndFault(s: SessionSnapshot, a: Option<ReleaseAuthority>, now: Monotonic)
    : Option<HandoffReason>
  {
    if a.None? then Some(AuthorityRequired)
    else if a.value.blocked then Some(AuthorityBlocked)
    else if s.completion.None? then Some(CompletionRequired)
    else if s.ownershipLost then Some(OwnershipLost)
    else if s.stopRequested then Some(StopRequested)
    else if !Recent(a.value.terminal, now) then Some(TerminalStale)
    else if || a.value.terminal.sequence != s.completion.value.sequence
            || a.value.terminal.monotonic != s.completion.value.monotonic
    then Some(CompletionMismatch)
    else if Unqualified(s, a.value.terminal) then Some(TerminalUnqualified)
    else None
  }

  /** What is wrong with the newest events, if anything is. */
  function LiveFault(s: SessionSnapshot, end: PlaybackObservation, receiver: PlaybackObservation,
                     media: PlaybackObservation, now: Monotonic): Option<HandoffReason> {
    if receiver.sessionActive != Some(true) then Some(ReceiverInactive)
    else if !Names(s.scope, receiver) then Some(ReceiverIdentityMismatch)
    else if !Recent(receiver, now) then Some(ReceiverStale)
    else if !Recent(media, now) then Some(MediaStale)
    else if media.content.None? || !media.identityUpdate.Explicit? then Some(MediaIdentityMissing)
    else if || media.content.value != s.scope.request.content || !Names(s.scope, media)
            || media.playbackId != end.playbackId then Some(MediaIdentityMismatch)
    else if media.adActive == Some(true) then Some(HandoffReason.AdActive)
    else if !media.state.Buffering? && !media.state.Idle? then Some(MediaStateUnqualified)
    else if media.state.Idle? && media.idleReason != Some(IdleReason.Finished)
    then Some(MediaStateUnqualified)
    else if && media.providerEvidence.Some?
            && var phase := media.providerEvidence.value.phase;
               phase.Playing? || phase.Paused? || phase.Ad?
    then Some(ProviderPhaseUnqualified)
    else None
  }

  lemma {:induction false} EndFaultHolds(s: SessionSnapshot, a: Option<ReleaseAuthority>,
                                         events: seq<PlaybackObservation>, now: Monotonic)
    ensures var d := ReleaseDecision(s, a, events, now);
            && (EndFault(s, a, now).Some? ==> !d.ready && d.reason == EndFault(s, a, now).value)
            && (EndFault(s, a, now).None? ==> a.Some? && d == LiveDecision(s, a, events, now))
  {
    hide Evidence, LiveDecision;
  }

  lemma {:induction false} LiveFaultHolds(s: SessionSnapshot, a: Option<ReleaseAuthority>,
                                          events: seq<PlaybackObservation>, now: Monotonic)
    requires a.Some? && LastReceiver(events).Some? && LastMedia(events).Some?
    ensures var fault := LiveFault(s, a.value.terminal, LastReceiver(events).value,
                                   LastMedia(events).value, now);
            var d := LiveDecision(s, a, events, now);
            d.reason == if fault.Some? then fault.value else ReleaseEligible
  {
    hide Held, Evidence, LastReceiver, LastMedia, InScope, Names, Fresh, Recent;
    SameChecks(s, LastReceiver(events).value, now);
    SameChecks(s, LastMedia(events).value, now);
    forall reason, o {
      HeldReason(s, a, now, reason, o);
    }
  }

  lemma {:induction false} HeldReason(s: SessionSnapshot, a: Option<ReleaseAuthority>,
                                      now: Monotonic, reason: HandoffReason,
                                      o: Option<PlaybackObservation>)
    ensures Held(s, a, now, reason, o).reason == reason
  {
  }

  lemma {:induction false} SameChecks(s: SessionSnapshot, o: PlaybackObservation, now: Monotonic)
    ensures InScope(s, o) <==> Names(s.scope, o)
    ensures Fresh(now, o.monotonic, 5.0) <==> Recent(o, now)
  {
  }

  /** A release is held for the first fault of its authority and end, then for a missing event
      about the receiver or the media, then for the first fault of the newest ones. */
  lemma {:induction false} HoldsExactly(s: SessionSnapshot, a: Option<ReleaseAuthority>,
                                        events: seq<PlaybackObservation>, now: Monotonic)
    ensures var d := ReleaseDecision(s, a, events, now);
            if EndFault(s, a, now).Some? then d.reason == EndFault(s, a, now).value
            else if forall k :: 0 <= k < |events| ==> events[k].sessionActive.None?
            then d.reason.ReceiverMissing?
            else if forall k :: 0 <= k < |events| ==> events[k].sessionActive.Some?
            then d.reason.MediaMissing?
            else
              && a.Some?
              && exists i, j :: 0 <= i < |events| && 0 <= j < |events|
                   && NewestReceiver(events, i) && NewestMedia(events, j)
                   && var fault := LiveFault(s, a.value.terminal, events[i], events[j], now);
                      d.reason == (if fault.Some? then fault.value else ReleaseEligible)
  {
    hide Evidence, ReleaseDecision, EndFault, LiveFault, LastReceiver, LastMedia;
    EndFaultHolds(s, a, events, now);
    ReceiverIsNewest(events);
    MediaIsNewest(events);
    if a.Some? && LastReceiver(events).Some? && LastMedia(events).Some? {
      LiveFaultHolds(s, a, events, now);
    }
  }

  // ---------------------------------------------------------------- vetoes

  /** The guards on one event after the end, each by itself. */
  predicate Breaks(scope: PlaybackScope, end: PlaybackObservation, sequence: int, at: Monotonic,
                   o: PlaybackObservation, reason: HandoffReason) {
    match reason
    case SequenceGap => o.sequence != sequence + 1
    case ClockDiscontinuity => o.monotonic <= at
    case ObservationGap => at + 5.0 < o.monotonic
    case TargetChanged => o.target != scope.request.target
    case ConnectionChanged => o.connectionGeneration != scope.connectionGeneration
    case ConnectionReset => o.connectionReset
    case AdActive => o.adActive == Some(true)
    case ContentChanged => o.content.Some? && o.content.value != scope.request.content
    case SessionChanged => o.sessionId.Some? && o.sessionId.value != scope.sessionId
    case ApplicationChanged => o.applicationId.Some? && o.applicationId != scope.applicationId
    case MediaChanged => o.playbackId.Some? && o.playbackId != end.playbackId
    case PlaybackRestarted => o.state.Playing? || o.state.Paused?
    case ProviderActive =>
      && o.providerEvidence.Some?
      && var phase := o.providerEvidence.value.phase; phase.Ad? || phase.Playing? || phase.Paused?
    case PositionRewound =>
      o.position.Some? && end.position.Some? && o.position.value < end.position.value
    case _ => false
  }

  /** The order in which the guards count. */
  function Rank(reason: HandoffReason): nat {
    match reason
    case SequenceGap => 1
    case ClockDiscontinuity => 2
    case ObservationGap => 3
    case TargetChanged => 4
    case ConnectionChanged => 5
    case ConnectionReset => 6
    case AdActive => 7
    case ContentChanged => 8
    case SessionChanged => 9
    case ApplicationChanged => 10
    case MediaChanged => 11
    case PlaybackRestarted => 12
    case ProviderActive => 13
    case PositionRewound => 14
    case _ => 15
  }

  /** An event is vetoed for a reason exactly when it breaks that guard and no earlier one. */
  lemma {:induction false} VetoExactly(s: SessionSnapshot, o: PlaybackObservation,
                                       a: ReleaseAuthority, reason: HandoffReason)
    ensures VetoReason(s, o, a) == Some(reason)
        <==> && Breaks(s.scope, a.terminal, a.lastSequence, a.lastMonotonic, o, reason)
             && forall earlier: HandoffReason :: Rank(earlier) < Rank(reason) ==>
                  !Breaks(s.scope, a.terminal, a.lastSequence, a.lastMonotonic, o, earlier)
  {
    var veto := VetoReason(s, o, a);
    if veto.Some? {
      VetoedBreaks(s, o, a);
      if Rank(reason) > Rank(veto.value) {
        assert Breaks(s.scope, a.terminal, a.lastSequence, a.lastMonotonic, o, veto.value);
      }
      RankIsOneToOne(reason, veto.value);
    } else {
      NothingBreaks(s, o, a, reason);
    }
  }

  lemma {:induction false} RankIsOneToOne(x: HandoffReason, y: HandoffReason)
    ensures Rank(x) == Rank(y) < 15 ==> x == y
  {
  }

  lemma {:induction false} VetoedBreaks(s: SessionSnapshot, o: PlaybackObservation,
                                        a: ReleaseAuthority)
    requires VetoReason(s, o, a).Some?
    ensures var veto := VetoReason(s, o, a).value;
            && Rank(veto) < 15
            && Breaks(s.scope, a.terminal, a.lastSequence, a.lastMonotonic, o, veto)
            && forall earlier: HandoffReason :: Rank(earlier) < Rank(veto) ==>
                 !Breaks(s.scope, a.terminal, a.lastSequence, a.lastMonotonic, o, earlier)
  {
  }

  lemma {:induction false} NothingBreaks(s: SessionSnapshot, o: PlaybackObservation,
                                         a: ReleaseAuthority, reason: HandoffReason)
    requires VetoReason(s, o, a).None?
    ensures !Breaks(s.scope, a.terminal, a.lastSequence, a.lastMonotonic, o, reason)
  {
  }

  // ---------------------------------------------------------------- explanations

  /** A comparison that is left out when nothing was observed. */
  predicate Compares<T(==)>(observed: Option<T>, expected: Option<T>, said: Option<bool>) {
    && (said == Some(true) <==> observed.Some? && observed == expected)
    && (said == Some(false) <==> observed.Some? && observed != expected)
  }

  /** What an explanation says of an event: its own fields, its distances from the end and from the
      last tracked event, and comparisons with the session instead of identities. */
  lemma {:induction false} EvidenceTold(s: SessionSnapshot, o: PlaybackObservation,
                                        a: Option<ReleaseAuthority>, now: Option<Monotonic>)
    ensures var e := Evidence(s, o, a, now);
            && e.sequence == o.sequence && e.state == o.state && e.idleReason == o.idleReason
            && e.position == o.position && e.adActive == o.adActive
            && e.identityUpdate == o.identityUpdate && e.sessionActive == o.sessionActive
            && e.connectionReset == o.connectionReset
            && (forall phase :: e.providerPhase == Some(phase)
                  <==> o.providerEvidence.Some? && o.providerEvidence.value.phase == phase)
            && (e.targetMatches <==> o.target == s.scope.request.target)
            && (e.connectionMatches <==> o.connectionGeneration == s.scope.connectionGeneration)
            && Compares(o.content, Some(s.scope.request.content), e.contentMatches)
            && Compares(o.sessionId, Some(s.scope.sessionId), e.sessionMatches)
            && Compares(o.applicationId, s.scope.applicationId, e.applicationMatches)
    ensures var e := Evidence(s, o, a, now);
            && (now.Some? ==> e.age == Some(now.value - o.monotonic)) && (now.None? ==> e.age.None?)
            && (a.Some? ==>
                  && e.sinceTerminal == Some(o.monotonic - a.value.terminal.monotonic)
                  && e.sequenceDelta == Some(o.sequence - a.value.lastSequence)
                  && e.observationDelta == Some(o.monotonic - a.value.lastMonotonic)
                  && e.terminalSequence == Some(a.value.terminal.sequence)
                  && e.terminalPosition == a.value.terminal.position
                  && Compares(o.playbackId, a.value.terminal.playbackId, e.mediaMatches))
            && (a.None? ==>
                  && e.sinceTerminal.None? && e.sequenceDelta.None? && e.observationDelta.None?
                  && e.terminalSequence.None? && e.terminalPosition.None? && e.mediaMatches.None?)
  {
  }

  // ---------------------------------------------------------------- over a stream

  /** Event `k` is the first of the batch that the completion was recorded from. */
  predicate FirstEnd(d: Delivery, k: nat) {
    && d.snapshot.completion.Some? && k < |d.events|
    && IsTerminal(d.events[k], d.snapshot.completion.value)
    && forall j :: 0 <= j < k ==> !IsTerminal(d.events[j], d.snapshot.completion.value)
  }

  predicate HasEnd(d: Delivery) {
    exists k: nat :: k < |d.events| && FirstEnd(d, k)
  }

  /** The authority is granted in batch `g` and never given up: from there on every snapshot has the
      completion, and an earlier batch with an end was followed by a snapshot without one. */
  predicate GrantsAt(deliveries: seq<Delivery>, g: nat) {
    && g < |deliveries| && HasEnd(deliveries[g])
    && (forall m :: g <= m < |deliveries| ==> deliveries[m].snapshot.completion.Some?)
    && Forgotten(deliveries, g)
  }

  predicate Forgotten(deliveries: seq<Delivery>, g: nat)
    requires g <= |deliveries|
  {
    forall e :: 0 <= e < g && HasEnd(deliveries[e]) ==>
      exists m :: e < m < g && deliveries[m].snapshot.completion.None?
  }

  lemma {:induction false} EndIsFirst(events: seq<PlaybackObservation>, finish: CompletionEvidence)
    ensures match TerminalOf(events, finish)
            case None => forall k :: 0 <= k < |events| ==> !IsTerminal(events[k], finish)
            case Some(end) =>
              exists k :: 0 <= k < |events| && IsTerminal(events[k], finish) && events[k] == end
                && forall j :: 0 <= j < k ==> !IsTerminal(events[j], finish)
  {
    hide IsTerminal;
    if events != [] && !IsTerminal(events[0], finish) {
      var rest := events[1..];
      EndIsFirst(rest, finish);
      if TerminalOf(rest, finish).Some? {
        var k :| 0 <= k < |rest| && IsTerminal(rest[k], finish)
          && rest[k] == TerminalOf(rest, finish).value
          && forall j :: 0 <= j < k ==> !IsTerminal(rest[j], finish);
        assert events[k + 1] == rest[k];
        forall j | 0 <= j < k + 1 ensures !IsTerminal(events[j], finish) {
          if j > 0 {
            assert events[j] == rest[j - 1];
          }
        }
      }
    }
  }

  lemma {:induction false} EndOfBatch(d: Delivery)
    requires d.snapshot.completion.Some?
    ensures HasEnd(d) <==> TerminalOf(d.events, d.snapshot.completion.value).Some?
    ensures forall k: nat :: FirstEnd(d, k) ==>
      TerminalOf(d.events, d.snapshot.completion.value) == Some(d.events[k])
  {
    hide IsTerminal;
    var finish := d.snapshot.completion.value;
    EndIsFirst(d.events, finish);
    if TerminalOf(d.events, finish).Some? {
      var k :| 0 <= k < |d.events| && IsTerminal(d.events[k], finish)
        && d.events[k] == TerminalOf(d.events, finish).value
        && forall j :: 0 <= j < k ==> !IsTerminal(d.events[j], finish);
      assert FirstEnd(d, k);
    }
  }

  /** No grant survives exactly when every end was forgotten. */
  lemma {:induction false} GrantSurvives(deliveries: seq<Delivery>)
    ensures Released(deliveries, None).None? <==> Forgotten(deliveries, |deliveries|)
    decreases |deliveries|
  {
    hide TrackedAll, HasEnd, TerminalOf;
    if deliveries != [] {
      var n := |deliveries| - 1;
      var front, last := deliveries[..n], deliveries[n];
      GrantSurvives(front);
      if last.snapshot.completion.Some? {
        EndOfBatch(last);
        ForgottenBefore(deliveries);
      } else {
        EndNeedsCompletion(last);
        forall e | 0 <= e < n + 1 && HasEnd(deliveries[e])
          ensures exists m :: e < m < n + 1 && deliveries[m].snapshot.completion.None?
        {
          assert deliveries[n].snapshot.completion.None?;
        }
      }
    }
  }

  lemma {:induction false} EndNeedsCompletion(d: Delivery)
    ensures HasEnd(d) ==> d.snapshot.completion.Some?
  {
  }

  lemma {:induction false} ForgottenBefore(deliveries: seq<Delivery>)
    requires deliveries != []
    requires deliveries[|deliveries| - 1].snapshot.completion.Some?
    ensures Forgotten(deliveries, |deliveries|)
        <==> && !HasEnd(deliveries[|deliveries| - 1])
             && Forgotten(deliveries[..|deliveries| - 1], |deliveries| - 1)
  {
    hide HasEnd;
    var n := |deliveries| - 1;
    var front := deliveries[..n];
    assert forall e :: 0 <= e < n ==> front[e] == deliveries[e];
    if Forgotten(deliveries, n + 1) {
      forall e | 0 <= e < n && HasEnd(front[e])
        ensures exists m :: e < m < n && front[m].snapshot.completion.None?
      {
        var m :| e < m < n + 1 && deliveries[m].snapshot.completion.None?;
        assert front[m].snapshot.completion.None?;
      }
    }
    if Forgotten(front, n) && !HasEnd(deliveries[n]) {
      forall e | 0 <= e < n + 1 && HasEnd(deliveries[e])
        ensures exists m :: e < m < n + 1 && deliveries[m].snapshot.completion.None?
      {
        assert HasEnd(front[e]);
        var m :| e < m < n && front[m].snapshot.completion.None?;
        assert deliveries[m].snapshot.completion.None?;
      }
    }
  }

  /** The authority of a stream tracks everything from the batch that granted it. */
  lemma {:induction false} GrantTracks(deliveries: seq<Delivery>, s: SessionSnapshot, g: nat,
                                       k: nat)
    requires OfSession(deliveries, s) && GrantsAt(deliveries, g) && FirstEnd(deliveries[g], k)
    ensures Released(deliveries, None)
         == Some(TrackedAll(s, AllEvents(deliveries[g..]), Granted(deliveries[g].events[k])))
    decreases |deliveries|
  {
    hide TrackedAll, HasEnd, FirstEnd, Forgotten, TerminalOf;
    var n := |deliveries| - 1;
    var front, last := deliveries[..n], deliveries[n];
    FirstEndIsThere(deliveries[g], k);
    var end := Granted(deliveries[g].events[k]);
    EndOfBatch(deliveries[g]);
    if g == n {
      SameForgotten(deliveries, front, g);
      GrantSurvives(front);
      LastEvents(deliveries);
      ScopeDecides(last.snapshot, s, last.events, end);
    } else {
      SameForgotten(deliveries, front, g);
      GrantTracks(front, s, g, k);
      var before := TrackedAll(s, AllEvents(front[g..]), end);
      ScopeDecides(last.snapshot, s, last.events, before);
      TrackingAppends(s, AllEvents(front[g..]), last.events, end);
      assert deliveries[g..][..|deliveries[g..]| - 1] == front[g..];
    }
  }

  lemma {:induction false} FirstEndIsThere(d: Delivery, k: nat)
    requires FirstEnd(d, k)
    ensures k < |d.events| && d.snapshot.completion.Some?
  {
  }

  lemma {:induction false} SameForgotten(deliveries: seq<Delivery>, front: seq<Delivery>, g: nat)
    requires g <= |front| <= |deliveries| && front == deliveries[..|front|]
    ensures Forgotten(deliveries, g) <==> Forgotten(front, g)
  {
    hide HasEnd;
    assert forall e :: 0 <= e < g ==> front[e] == deliveries[e];
  }

  /** An authority tracked from its grant is unblocked exactly when everything since was quiet. */
  lemma {:induction false} QuietExactly(s: SessionSnapshot, end: PlaybackObservation,
                                        events: seq<PlaybackObservation>)
    ensures !TrackedAll(s, events, Granted(end)).blocked
        <==> QuietSince(s, end, Counted(events, end.sequence))
  {
    hide TrackedAll, VetoReason, Quiet, Evidence;
    var a := Granted(end);
    var counted := Counted(events, end.sequence);
    TrackingIsItsTrace(s, events, a);
    if !TrackedAll(s, events, a).blocked {
      UnblockedIsQuiet(s, end, events);
    }
    if QuietSince(s, end, counted) {
      forall i | 0 <= i < |counted| ensures Violation(s, a, counted, i).None? {
        assert QuietAt(s, end, counted, i);
        QuietIsNoViolation(s, counted[i], Before(a, counted, i),
                           if i == 0 then end else counted[i - 1]);
      }
    }
  }

  lemma {:induction false} QuietIsNoViolation(s: SessionSnapshot, o: PlaybackObservation,
                                              a: ReleaseAuthority, before: PlaybackObservation)
    requires Quiet(s, a.terminal, before, o)
    requires a.lastSequence == before.sequence && a.lastMonotonic == before.monotonic
    ensures VetoReason(s, o, a).None?
  {
  }

  /** Event `k` of batch `g` is the end of the session, granted and quiet since. */
  predicate EndedQuietly(deliveries: seq<Delivery>, s: SessionSnapshot, g: nat, k: nat) {
    && GrantsAt(deliveries, g) && k < |deliveries[g].events| && FirstEnd(deliveries[g], k)
    && var end := deliveries[g].events[k];
    QuietSince(s, end, Counted(AllEvents(deliveries[g..]), end.sequence))
  }

  /** Over a whole stream of batches, however cut and repeated and however the snapshot moved on
      between them, a release is ready exactly when some batch brought the end of the session, every
      new event since was quiet, the end still stands, and the newest events about the receiver and
      the media show the finished session. */
  lemma {:induction false} StreamReadyExactly(deliveries: seq<Delivery>, s: SessionSnapshot,
                                              events: seq<PlaybackObservation>, now: Monotonic)
    requires OfSession(deliveries, s)
    ensures ReleaseDecision(s, Released(deliveries, None), events, now).ready
        <==> exists g: nat, k: nat ::
               && g < |deliveries| && k < |deliveries[g].events|
               && EndedQuietly(deliveries, s, g, k)
               && ReleaseReady(s, deliveries[g].events[k], events, now)
  {
    hide ReleaseDecision, ReleaseReady, TrackedAll, Released, QuietSince, FirstEnd, Counted,
         AllEvents, OfSession;
    var a := Released(deliveries, None);
    ReadyExactly(s, a, events, now);
    if a.Some? {
      var g, k := GrantedBatch(deliveries);
      EndedExactly(deliveries, s, g, k);
    }
    forall g: nat, k: nat |
      g < |deliveries| && k < |deliveries[g].events| && EndedQuietly(deliveries, s, g, k)
      ensures a.Some? && !a.value.blocked && a.value.terminal == deliveries[g].events[k]
    {
      EndedExactly(deliveries, s, g, k);
    }
  }

  lemma {:induction false} EndedExactly(deliveries: seq<Delivery>, s: SessionSnapshot, g: nat,
                                        k: nat)
    requires OfSession(deliveries, s) && GrantsAt(deliveries, g)
    requires k < |deliveries[g].events| && FirstEnd(deliveries[g], k)
    ensures var a := Released(deliveries, None);
            && a.Some? && a.value.terminal == deliveries[g].events[k]
            && (!a.value.blocked <==> EndedQuietly(deliveries, s, g, k))
  {
    hide TrackedAll, Released, QuietSince, Counted, FirstEnd, AllEvents, OfSession;
    var end := deliveries[g].events[k];
    GrantTracks(deliveries, s, g, k);
    TrackingKeepsEnd(s, AllEvents(deliveries[g..]), Granted(end));
    QuietExactly(s, end, AllEvents(deliveries[g..]));
  }

  /** The batch that granted an authority, and its end. */
  lemma {:induction false} GrantedBatch(deliveries: seq<Delivery>) returns (g: nat, k: nat)
    requires Released(deliveries, None).Some?
    ensures GrantsAt(deliveries, g)
    ensures k < |deliveries[g].events| && FirstEnd(deliveries[g], k)
    decreases |deliveries|
  {
    hide TrackedAll, FirstEnd, Forgotten, TerminalOf;
    var n := |deliveries| - 1;
    var front := deliveries[..n];
    if Released(front, None).Some? {
      g, k := GrantedBatch(front);
      SameForgotten(deliveries, front, g);
    } else {
      g := n;
      GrantSurvives(front);
      SameForgotten(deliveries, front, n);
      EndOfBatch(deliveries[n]);
      k :| k < |deliveries[n].events| && FirstEnd(deliveries[n], k);
    }
  }
}
