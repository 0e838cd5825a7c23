/** What one event makes of a native tracker, field by field, and that a playback which goes as it
    should makes the tracker ready. */
module NativeReadiness {
  import opened Values
  import opened NativeTracking
  import E = EvidenceTable
  import N = NaturalEnd
  import Policy

  // ---------------------------------------------------------------- one event

  /** A new, recent event of the watched target, before any contradiction. */
  predicate News(w: Watch, t: Tracker, o: PlaybackObservation, now: Monotonic) {
    && t.refusal.None? && o.target == w.request.target
    && w.startedMonotonic < o.monotonic <= now <= o.monotonic + w.policy.maxAge
    && t.lastSequence < o.sequence && t.lastMonotonic < o.monotonic
  }

  predicate Gap(t: Tracker, o: PlaybackObservation) {
    0 <= t.lastSequence < o.sequence - 1
  }

  predicate OtherSession(w: Watch, o: PlaybackObservation) {
    || (o.applicationId.Some? && o.applicationId != Some(w.applicationId))
    || (o.sessionId.Some? && o.sessionId != Some(w.sessionId))
  }

  /** Content that is not watched; what is waited for may still play before the watched content was
      ever seen. */
  predicate OtherContent(w: Watch, t: Tracker, o: PlaybackObservation,
                         waiting: Option<ContentRef>) {
    && o.content.Some? && o.content != Some(w.request.content)
    && (t.snapshot.Some? || o.content != waiting)
  }

  predicate Contradicts(w: Watch, t: Tracker, o: PlaybackObservation,
                        waiting: Option<ContentRef>, refusal: Refusal) {
    var connection := o.connectionReset || o.connectionGeneration != w.connectionGeneration;
    var exit := o.sessionActive == Some(false);
    match refusal
    case ConnectionChanged => connection
    case SessionExited => !connection && exit
    case SessionChanged => !connection && !exit && OtherSession(w, o)
    case UnexpectedContent =>
      !connection && !exit && !OtherSession(w, o) && OtherContent(w, t, o, waiting)
  }

  predicate Harmless(w: Watch, t: Tracker, o: PlaybackObservation, waiting: Option<ContentRef>) {
    && !o.connectionReset && o.connectionGeneration == w.connectionGeneration
    && o.sessionActive != Some(false) && !OtherSession(w, o) && !OtherContent(w, t, o, waiting)
  }

  /** Media of the very session, near a receiver witness that no gap has given up. */
  predicate NearWitness(w: Watch, t: Tracker, o: PlaybackObservation) {
    && o.applicationId == Some(w.applicationId) && o.sessionId == Some(w.sessionId)
    && o.playbackId.Some? && o.playbackId.value != ""
    && t.receiver.Some? && !Gap(t, o)
    && t.receiver.value.monotonic <= o.monotonic
    && o.monotonic <= t.receiver.value.monotonic + w.policy.maxAge
  }

  /** The evidence policy gets to see the event. */
  predicate Fed(w: Watch, t: Tracker, o: PlaybackObservation) {
    if o.sessionActive == Some(true) then
      && t.snapshot.Some?
      && o.applicationId == Some(w.applicationId) && o.sessionId == Some(w.sessionId)
    else
      && NearWitness(w, t, o)
      && (o.content.Some? ==> o.identityUpdate.Explicit?)
      && (t.snapshot.None? ==> o.content == Some(w.request.content))
  }

  /** The session that the policy continues: a new one, or the old one unless events are missing. */
  function Base(w: Watch, t: Tracker, o: PlaybackObservation): SessionSnapshot {
    if t.snapshot.None? then
      FreshSession(PlaybackScope(w.request, w.sessionId, w.connectionGeneration, t.lastMonotonic,
                                 Some(w.applicationId)))
    else if Gap(t, o) then Policy.InvalidateHistory(t.snapshot.value)
    else t.snapshot.value
  }

  /** Nothing is witnessed or claimed any more, except an end. */
  predicate GivenUp(s: SessionSnapshot) {
    && s.progressAnchor.None? && s.completionAnchor.None? && !s.hasConfirmedPlayback
    && !s.evidence.receiverPlaybackConfirmed && !s.evidence.identityConfirmed
    && s.releaseBoundary.None? && !s.releaseConfirmed
    && s.evidence.naturalCompletionConfirmed == s.completion.Some?
  }

  /** What a contradiction leaves: a lost session that claims nothing but its end. */
  predicate Bereaved(before: Option<SessionSnapshot>, after: Option<SessionSnapshot>,
                     o: PlaybackObservation) {
    && (before.Some? <==> after.Some?)
    && (after.Some? ==>
          && GivenUp(after.value) && after.value.ownershipLost && after.value.latest == Some(o)
          && after.value.completion == before.value.completion
          && after.value.scope == before.value.scope
          && after.value.evidence.reason == SessionReplaced)
  }

  predicate Follows(w: Watch, t: Tracker, o: PlaybackObservation, now: Monotonic, u: Tracker)
    requires Current(t.snapshot, now)
  {
    var active := o.sessionActive == Some(true);
    var exact := o.applicationId == Some(w.applicationId) && o.sessionId == Some(w.sessionId);
    && u.receiver == (
         if !exact then None else if active then Some(o)
         else if Gap(t, o) then None else t.receiver)
    && (u.snapshot.None? <==> t.snapshot.None? && !Fed(w, t, o))
    && (Fed(w, t, o) ==>
          var base := Base(w, t, o);
          && Policy.Observe(base, o, now, w.policy).Ok?
          && u.snapshot == Some(Policy.Observe(base, o, now, w.policy).value))
    && (u.snapshot.Some? && !Fed(w, t, o) ==>
          && GivenUp(u.snapshot.value) && u.snapshot.value.scope == t.snapshot.value.scope
          && u.snapshot.value.completion == t.snapshot.value.completion)
  }

  /** What one event makes of a tracker. */
  predicate Judges(w: Watch, t: Tracker, o: PlaybackObservation, now: Monotonic,
                   waiting: Option<ContentRef>, u: Tracker)
    requires Current(t.snapshot, now)
  {
    if !News(w, t, o, now) then u == t
    else
      && u.lastSequence == o.sequence && u.lastMonotonic == o.monotonic && u.now == t.now
      && (forall refusal: Refusal ::
            u.refusal == Some(refusal) <==> Contradicts(w, t, o, waiting, refusal))
      && (u.refusal.None? <==> Harmless(w, t, o, waiting))
      && (u.refusal.Some? ==> u.receiver.None? && Bereaved(t.snapshot, u.snapshot, o))
      && (u.refusal.None? ==> Follows(w, t, o, now, u))
  }

  lemma {:induction false} NewsInWindow(w: Watch, t: Tracker, o: PlaybackObservation,
                                        now: Monotonic)
    ensures InWindow(w, t, o, now) <==> News(w, t, o, now)
  {
  }

  lemma {:induction false} ContradictsExactly(w: Watch, t: Tracker, o: PlaybackObservation,
                                              waiting: Option<ContentRef>)
    ensures forall refusal: Refusal ::
      Contradiction(w, t, o, waiting) == Some(refusal)
      <==> Contradicts(w, t, o, waiting, refusal)
    ensures Contradiction(w, t, o, waiting).None? <==> Harmless(w, t, o, waiting)
  {
  }

  /** The policy can look at the base. */
  lemma {:induction false} BaseIsCurrent(w: Watch, t: Tracker, o: PlaybackObservation,
                                         now: Monotonic)
    requires Current(t.snapshot, now)
    ensures Policy.Refresh(Base(w, t, o), now, w.policy).Ok?
    ensures Policy.Observe(Base(w, t, o), o, now, w.policy)
         == Ok(Followed(w, Base(w, t, o), o, now))
  {
    hide Policy.Sample;
  }

  lemma {:induction false} InvalidatedIsGivenUp(s: SessionSnapshot)
    ensures var t := Policy.InvalidateHistory(s);
            GivenUp(t) && t.scope == s.scope && t.completion == s.completion
    ensures Policy.InvalidateHistory(Policy.InvalidateHistory(s)).scope == s.scope
    ensures Policy.InvalidateHistory(Policy.InvalidateHistory(s)).completion == s.completion
  {
  }

  /** What an event makes of a tracker once it is news. */
  lemma {:induction false} HarmlessJudged(w: Watch, t: Tracker, o: PlaybackObservation,
                                          now: Monotonic, waiting: Option<ContentRef>)
    requires Current(t.snapshot, now) && Current(Advanced(t, o).snapshot, now)
    requires Contradiction(w, Advanced(t, o), o, waiting).None?
    ensures Follows(w, t, o, now, Judged(w, Advanced(t, o), o, now, t.lastMonotonic, waiting))
  {
    hide Followed, GivenUp, Policy.InvalidateHistory, Policy.Observe, Policy.Refresh,
         Contradiction;
    BaseIsCurrent(w, t, o, now);
    if t.snapshot.Some? {
      InvalidatedIsGivenUp(t.snapshot.value);
      InvalidatedIsGivenUp(Policy.InvalidateHistory(t.snapshot.value));
    }
  }

  lemma {:induction false} AdvancedIsCurrent(t: Tracker, o: PlaybackObservation, now: Monotonic)
    requires Current(t.snapshot, now)
    ensures var u := Advanced(t, o);
            && Current(u.snapshot, now) && (u.snapshot.None? <==> t.snapshot.None?)
            && u.refusal == t.refusal && u.now == t.now
            && u.lastSequence == o.sequence && u.lastMonotonic == o.monotonic
            && (t.snapshot.Some? ==>
                  u.snapshot.value.scope == t.snapshot.value.scope
                  && u.snapshot.value.completion == t.snapshot.value.completion)
  {
  }

  lemma {:induction false} ContradictedIsBereaved(t: Tracker, reason: Refusal,
                                                  o: PlaybackObservation)
    ensures var u := Contradicted(t, reason, o);
            && u.refusal == Some(reason) && u.receiver.None? && u.now == t.now
            && u.lastSequence == t.lastSequence && u.lastMonotonic == t.lastMonotonic
            && Bereaved(t.snapshot, u.snapshot, o)
  {
  }

  lemma {:induction false} SameContradiction(w: Watch, t: Tracker, o: PlaybackObservation,
                                             waiting: Option<ContentRef>)
    ensures Contradiction(w, Advanced(t, o), o, waiting) == Contradiction(w, t, o, waiting)
  {
  }

  lemma {:induction false} JudgedElsewhere(w: Watch, t: Tracker, o: PlaybackObservation,
                                           now: Monotonic, boundary: Monotonic,
                                           waiting: Option<ContentRef>)
    requires Current(t.snapshot, now) && Contradiction(w, t, o, waiting).None?
    ensures var u := Judged(w, t, o, now, boundary, waiting);
            && u.refusal == t.refusal && u.now == t.now
            && u.lastSequence == t.lastSequence && u.lastMonotonic == t.lastMonotonic
  {
    hide Followed, Contradiction, Policy.InvalidateHistory;
  }

  /** One event of a native stream: ignored unless it is news, refused exactly for a contradiction,
      and otherwise followed. */
  lemma {:induction false} NotedExactly(w: Watch, t: Tracker, o: PlaybackObservation,
                                        now: Monotonic, waiting: Option<ContentRef>)
    requires Current(t.snapshot, now)
    ensures Judges(w, t, o, now, waiting, Noted(w, t, o, now, waiting))
  {
    hide Judged, Contradiction, Contradicts, Harmless, Contradicted, Advanced, News, InWindow,
         Follows, Bereaved;
    NewsInWindow(w, t, o, now);
    if News(w, t, o, now) {
      AdvancedIsCurrent(t, o, now);
      SameContradiction(w, t, o, waiting);
      ContradictsExactly(w, t, o, waiting);
      NewsAreUnrefused(w, t, o, now);
      var refusal := Contradiction(w, t, o, waiting);
      if refusal.Some? {
        JudgedContradicted(w, Advanced(t, o), o, now, t.lastMonotonic, waiting);
        ContradictedIsBereaved(Advanced(t, o), refusal.value, o);
        BereavedBefore(t.snapshot, Advanced(t, o).snapshot,
                       Noted(w, t, o, now, waiting).snapshot, o);
      } else {
        HarmlessJudged(w, t, o, now, waiting);
        JudgedElsewhere(w, Advanced(t, o), o, now, t.lastMonotonic, waiting);
      }
    }
  }

  lemma {:induction false} JudgedContradicted(w: Watch, t: Tracker, o: PlaybackObservation,
                                              now: Monotonic, boundary: Monotonic,
                                              waiting: Option<ContentRef>)
    requires Current(t.snapshot, now) && Contradiction(w, t, o, waiting).Some?
    ensures Judged(w, t, o, now, boundary, waiting)
         == Contradicted(t, Contradiction(w, t, o, waiting).value, o)
  {
  }

  lemma {:induction false} NewsAreUnrefused(w: Watch, t: Tracker, o: PlaybackObservation,
                                            now: Monotonic)
    ensures News(w, t, o, now) ==> t.refusal.None?
  {
  }

  lemma {:induction false} BereavedBefore(first: Option<SessionSnapshot>,
                                          second: Option<SessionSnapshot>,
                                          after: Option<SessionSnapshot>, o: PlaybackObservation)
    requires Bereaved(second, after, o) && (first.Some? <==> second.Some?)
    requires first.Some? ==>
      first.value.scope == second.value.scope && first.value.completion == second.value.completion
    ensures Bereaved(first, after, o)
  {
  }

  /** What one event makes of a successor's tracker and of the predecessor beside it: both see every
      event that is news, and a contradiction ends the predecessor's ownership, too. */
  lemma {:induction false} PairExactly(a: Authorization, w: Watch, p: Succession,
                                       o: PlaybackObservation)
    requires ValidPair(w, p) && NotStale(w, p.tracker)
    requires Current(Some(p.predecessor), p.tracker.now) && Current(p.tracker.snapshot, p.tracker.now)
    ensures var q := PairNoted(a, w, p, o);
            if !News(w, p.tracker, o, p.tracker.now) then q == p
            else
              && Judges(w, p.tracker, o, p.tracker.now, Some(a.predecessor.content), q.tracker)
              && Policy.Observe(p.predecessor, o, p.tracker.now, w.policy).Ok?
              && var s := Policy.Observe(p.predecessor, o, p.tracker.now, w.policy).value;
                 if q.tracker.refusal.None? || s.ownershipLost then q.predecessor == s
                 else
                   && GivenUp(q.predecessor) && q.predecessor.ownershipLost
                   && q.predecessor.completion == s.completion
                   && q.predecessor.scope == s.scope
                   && q.predecessor.evidence.reason.SessionReplaced?
  {
    hide Noted, Judges, InWindow, News, Valid, NotStale, Policy.Sample;
    NewsInWindow(w, p.tracker, o, p.tracker.now);
    NotedExactly(w, p.tracker, o, p.tracker.now, Some(a.predecessor.content));
  }

  /** A batch is noted event by event, in its order. */
  lemma {:induction false} BatchAppends(w: Watch, t: Tracker, first: seq<PlaybackObservation>,
                                        second: seq<PlaybackObservation>,
                                        waiting: Option<ContentRef>)
    requires Valid(w, t) && NotStale(w, t)
    ensures NotedAll(w, t, first + second, waiting)
         == NotedAll(w, NotedAll(w, t, first, waiting), second, waiting)
    decreases |second|
  {
    hide Noted, Valid, NotStale;
    if second == [] {
      assert first + second == first;
    } else {
      var front := second[..|second| - 1];
      assert (first + second)[..|first + second| - 1] == first + front;
      BatchAppends(w, t, first, front, waiting);
    }
  }

  lemma {:induction false} BatchOfOne(w: Watch, t: Tracker, o: PlaybackObservation,
                                      waiting: Option<ContentRef>)
    requires Valid(w, t) && NotStale(w, t) && Current(t.snapshot, t.now)
    ensures NotedAll(w, t, [], waiting) == t
    ensures NotedAll(w, t, [o], waiting) == Noted(w, t, o, t.now, waiting)
  {
    hide Noted, Valid, NotStale;
    assert [o][..0] == [];
  }

  lemma {:induction false} PairBatchAppends(a: Authorization, w: Watch, p: Succession,
                                            first: seq<PlaybackObservation>,
                                            second: seq<PlaybackObservation>)
    requires ValidPair(w, p) && NotStale(w, p.tracker)
    ensures PairNotedAll(a, w, p, first + second)
         == PairNotedAll(a, w, PairNotedAll(a, w, p, first), second)
    decreases |second|
  {
    hide PairNoted, ValidPair, NotStale;
    if second == [] {
      assert first + second == first;
    } else {
      var front := second[..|second| - 1];
      assert (first + second)[..|first + second| - 1] == first + front;
      PairBatchAppends(a, w, p, first, front);
    }
  }

  lemma {:induction false} PairBatchOfOne(a: Authorization, w: Watch, p: Succession,
                                          o: PlaybackObservation)
    requires ValidPair(w, p) && NotStale(w, p.tracker)
    ensures PairNotedAll(a, w, p, []) == p
    ensures PairNotedAll(a, w, p, [o]) == PairNoted(a, w, p, o)
  {
    hide PairNoted, ValidPair, NotStale;
    assert [o][..0] == [];
  }

  // ---------------------------------------------------------------- what may be watched

  /** A YouTube session on a Cast target. */
  predicate OnCast(request: PlaybackRequest, application: Id, session: Id) {
    && request.target.route == "cast" && request.content.provider == "youtube"
    && application == YOUTUBE_APPLICATION_ID && session != ""
  }

  /** A successor can be declared for another attempt, item and video on the same target. */
  lemma {:induction false} DeclaresExactly(a: Authorization)
    ensures a.WellFormed()
        <==> && OnCast(a.predecessor, a.applicationId, a.sessionId)
             && OnCast(a.successor, a.applicationId, a.sessionId)
             && a.successor.target == a.predecessor.target && a.operationId != ""
             && a.successor.attemptId != a.predecessor.attemptId
             && a.successor.queueItemId != a.predecessor.queueItemId
             && a.successor.content.contentId != a.predecessor.content.contentId
  {
  }

  /** A predecessor is live when it is owned, not stopped, of the authorized scope and connection,
      and has seen nothing after the watch began. */
  lemma {:induction false} LivesExactly(a: Authorization, w: Watch, s: SessionSnapshot)
    ensures LivePredecessor(a, w, s)
        <==> && s.scope == PlaybackScope(a.predecessor, a.sessionId, w.connectionGeneration,
                                         s.scope.startedMonotonic, Some(a.applicationId))
             && s.scope.startedMonotonic <= w.startedMonotonic
             && (s.lastMonotonic.None? || s.lastMonotonic.value <= w.startedMonotonic)
             && !(s.ownershipLost || s.stopRequested)
  {
  }

  // ---------------------------------------------------------------- a playback becomes ready

  /** No look at the clock up to `now` finds the last media sample too old. */
  predicate Unexpired(w: Watch, t: Tracker, now: Monotonic) {
    t.snapshot.Some? && t.snapshot.value.latest.Some? ==>
      t.snapshot.value.latest.value.monotonic <= now
      && now <= t.snapshot.value.latest.value.monotonic + w.policy.maxAge
  }

  lemma {:induction false} RenewedUnexpired(w: Watch, t: Tracker, now: Monotonic)
    requires Valid(w, t) && t.now <= now && Unexpired(w, t, now)
    ensures Renewed(w, t, now) == t.(now := now)
  {
  }

  /** A batch of one event, when nothing expires. */
  lemma {:induction false} OneBatch(w: Watch, t: Tracker, o: PlaybackObservation, now: Monotonic)
    requires Valid(w, t) && t.now <= now && Unexpired(w, t, now)
    ensures Current(t.snapshot, now)
    ensures var u := Noted(w, t.(now := now), o, now, None);
            Unexpired(w, u, now) ==> Observed(w, t, [o], now) == Ok(u)
  {
    hide Valid, NotStale, Noted;
    UnexpiredIsCurrent(w, t, now);
    RenewedKeeps(w, t, now);
    RenewedUnexpired(w, t, now);
    var r := t.(now := now);
    assert Renewed(w, t, now) == r;
    NotedKeeps(w, r, o, None);
    var u := Noted(w, r, o, now, None);
    assert [o][..0] == [];
    assert NotedAll(w, r, [], None) == r;
    assert NotedAll(w, r, [o], None) == u;
    if Unexpired(w, u, now) {
      RenewedUnexpired(w, u, now);
      assert u.(now := now) == u;
    }
  }

  lemma {:induction false} UnexpiredIsCurrent(w: Watch, t: Tracker, now: Monotonic)
    ensures Unexpired(w, t, now) ==> Current(t.snapshot, now)
  {
  }

  /** An event of the watched session on its connection. */
  predicate OfWatch(w: Watch, o: PlaybackObservation) {
    && o.target == w.request.target && o.connectionGeneration == w.connectionGeneration
    && !o.connectionReset
    && o.applicationId == Some(w.applicationId) && o.sessionId == Some(w.sessionId)
    && (o.content.Some? ==> o.content == Some(w.request.content))
  }

  predicate HeartbeatOf(w: Watch, o: PlaybackObservation) {
    OfWatch(w, o) && o.sessionActive == Some(true)
  }

  /** Explicit watched content, playing without an ad at a position, and no provider disagrees. */
  predicate PlayingOf(w: Watch, o: PlaybackObservation) {
    && OfWatch(w, o) && o.sessionActive.None?
    && o.content == Some(w.request.content) && o.identityUpdate.Explicit?
    && o.playbackId.Some? && o.playbackId.value != ""
    && o.state.Playing? && o.position.Some? && o.adActive == Some(false)
    && (o.providerEvidence.Some? ==> o.providerEvidence.value.phase.Playing?)
  }

  predicate NextAfter(t: Tracker, o: PlaybackObservation) {
    (t.lastSequence >= 0 ==> o.sequence == t.lastSequence + 1)
    && t.lastSequence < o.sequence && t.lastMonotonic < o.monotonic
  }

  predicate InTime(w: Watch, t: Tracker, o: PlaybackObservation, now: Monotonic) {
    && w.startedMonotonic < o.monotonic <= now <= o.monotonic + w.policy.maxAge
    && t.now <= now
  }

  /** The receiver was witnessed and nothing was played yet. */
  predicate Attending(w: Watch, t: Tracker, h: PlaybackObservation) {
    && Valid(w, t) && t.refusal.None? && t.snapshot.None? && t.receiver == Some(h)
    && t.lastSequence >= 0
  }

  /** Playback was seen once, by sample `a`, and the receiver last by `h`. */
  predicate Poised(w: Watch, t: Tracker, h: PlaybackObservation, a: PlaybackObservation) {
    && Valid(w, t) && t.refusal.None? && t.receiver == Some(h) && t.lastSequence >= 0
    && t.snapshot.Some?
    && var s := t.snapshot.value;
    && InWatch(w, s.scope) && s.scope.startedMonotonic <= t.lastMonotonic
    && s.completion.None? && !s.ownershipLost
    && s.lastSequence == t.lastSequence && s.lastMonotonic == Some(t.lastMonotonic)
    && s.latest == Some(a) && s.progressAnchor == Some(a) && s.completionAnchor == Some(a)
  }

  lemma {:induction false} HeartbeatAttends(w: Watch, t: Tracker, h: PlaybackObservation,
                                            now: Monotonic)
    requires Valid(w, t) && t.refusal.None? && t.snapshot.None?
    requires HeartbeatOf(w, h) && NextAfter(t, h) && h.sequence >= 0 && InTime(w, t, h, now)
    ensures Observed(w, t, [h], now).Ok?
    ensures Attending(w, Observed(w, t, [h], now).value, h)
    ensures var u := Observed(w, t, [h], now).value;
            u.lastSequence == h.sequence && u.lastMonotonic == h.monotonic && u.now == now
  {
    hide Noted, Observed;
    OneBatch(w, t, h, now);
    NotedExactly(w, t.(now := now), h, now, None);
    ObservedIsValid(w, t, h, now);
  }

  lemma {:induction false} ObservedIsValid(w: Watch, t: Tracker, o: PlaybackObservation,
                                           now: Monotonic)
    requires Valid(w, t) && t.now <= now
    ensures Observed(w, t, [o], now).Ok? && Valid(w, Observed(w, t, [o], now).value)
  {
  }

  /** In terms of the evidence policy. */
  lemma {:induction false} PlayingIsExact(w: Watch, scope: PlaybackScope, o: PlaybackObservation)
    requires InWatch(w, scope)
    ensures PlayingOf(w, o) ==>
      E.Exact(scope, o) && o.state.Playing? && o.position.Some? && E.Medial(scope, o)
    ensures HeartbeatOf(w, o) ==> E.Beat(scope, o)
  {
  }

  lemma {:induction false} PlayingIsFed(w: Watch, t: Tracker, h: PlaybackObservation,
                                        o: PlaybackObservation)
    requires t.receiver == Some(h) && NextAfter(t, o) && PlayingOf(w, o)
    requires h.monotonic <= o.monotonic <= h.monotonic + w.policy.maxAge
    ensures Harmless(w, t, o, None) && Fed(w, t, o) && !Gap(t, o)
  {
  }

  lemma {:induction false} NextIsNews(w: Watch, t: Tracker, o: PlaybackObservation, now: Monotonic)
    requires t.refusal.None? && o.target == w.request.target
    requires NextAfter(t, o) && InTime(w, t, o, now)
    ensures News(w, t.(now := now), o, now) && !Gap(t, o)
  {
  }

  /** The first sample that a fresh session accepts is its witness. */
  lemma {:induction false} FirstIsWitness(s: SessionSnapshot, o: PlaybackObservation,
                                          now: Monotonic, policy: EvidencePolicy)
    requires s == FreshSession(s.scope) && E.Heard(s, o, now, policy)
    requires E.Exact(s.scope, o) && o.state.Playing? && o.position.Some?
    ensures Policy.Observe(s, o, now, policy).Ok?
    ensures var t := Policy.Observe(s, o, now, policy).value;
            && t.scope == s.scope && t.completion.None? && !t.ownershipLost
            && t.lastSequence == o.sequence && t.lastMonotonic == Some(o.monotonic)
            && t.latest == Some(o) && t.progressAnchor == Some(o) && t.completionAnchor == Some(o)
  {
    hide Policy.Observe, E.Exact, E.Bridged, E.Claims, E.Exits, E.Medial, E.Beat, E.Loses, E.Ends,
         E.SameView, E.Heard;
    E.RefusesBackwardClock(s, o, now, policy);
    E.SampleTold(s, o, now, policy);
    N.BeatIsOurs(s, o);
    N.NamedIsMedial(s.scope, policy, o, o);
    N.EndsNeedIdle(s, o, now, policy);
  }

  lemma {:induction false} PlayStarts(w: Watch, t: Tracker, h: PlaybackObservation,
                                      a: PlaybackObservation, now: Monotonic)
    requires Attending(w, t, h) && h.monotonic <= t.lastMonotonic
    requires PlayingOf(w, a) && NextAfter(t, a) && InTime(w, t, a, now)
    requires a.monotonic <= h.monotonic + w.policy.maxAge
    ensures Observed(w, t, [a], now).Ok?
    ensures Poised(w, Observed(w, t, [a], now).value, h, a)
    ensures var u := Observed(w, t, [a], now).value;
            u.lastSequence == a.sequence && u.lastMonotonic == a.monotonic && u.now == now
  {
    hide Noted, Observed, Policy.Observe, PlayingOf, HeartbeatOf, Valid, E.Exact, E.Medial,
         Harmless, Fed, E.Heard;
    var r := t.(now := now);
    OneBatch(w, t, a, now);
    NotedExactly(w, r, a, now, None);
    ObservedIsValid(w, t, a, now);
    PlayingIsFed(w, r, h, a);
    PlayingTarget(w, a);
    NextIsNews(w, t, a, now);
    var s := Scoped(w, t.lastMonotonic);
    ValidStarts(w, t);
    PlayingIsExact(w, s.scope, a);
    assert E.Heard(s, a, now, w.policy) by { FirstIsHeard(w, t, a, now); }
    FirstIsWitness(s, a, now, w.policy);
  }

  lemma {:induction false} PlayingTarget(w: Watch, o: PlaybackObservation)
    ensures PlayingOf(w, o) || HeartbeatOf(w, o) ==>
      o.target == w.request.target && o.connectionGeneration == w.connectionGeneration
      && o.applicationId == Some(w.applicationId) && o.sessionId == Some(w.sessionId)
    ensures PlayingOf(w, o) ==> o.sessionActive.None?
    ensures HeartbeatOf(w, o) ==> o.sessionActive == Some(true)
  {
  }

  lemma {:induction false} ValidStarts(w: Watch, t: Tracker)
    requires Valid(w, t)
    ensures InWatch(w, Scoped(w, t.lastMonotonic).scope)
    ensures -1 <= t.lastSequence
  {
  }

  lemma {:induction false} FirstIsHeard(w: Watch, t: Tracker, o: PlaybackObservation,
                                        now: Monotonic)
    requires Valid(w, t) && InTime(w, t, o, now) && NextAfter(t, o) && PlayingOf(w, o)
    ensures E.Heard(Scoped(w, t.lastMonotonic), o, now, w.policy)
  {
  }

  lemma {:induction false} PoisedIsHeard(w: Watch, t: Tracker, h: PlaybackObservation,
                                         a: PlaybackObservation, o: PlaybackObservation,
                                         now: Monotonic)
    requires Poised(w, t, h, a) && InTime(w, t, o, now) && NextAfter(t, o)
    requires a.monotonic <= now <= a.monotonic + w.policy.maxAge
    requires PlayingOf(w, o) || HeartbeatOf(w, o)
    ensures Unexpired(w, t, now) && Valid(w, t)
    ensures var s := t.snapshot.value;
            && Policy.Observe(s, o, now, w.policy).Ok?
            && E.Heard(s, o, now, w.policy) && E.Continuous(s, o, now, w.policy)
  {
    hide Valid;
    E.RefusesBackwardClock(t.snapshot.value, o, now, w.policy);
  }

  lemma {:induction false} BeatIsFed(w: Watch, t: Tracker, o: PlaybackObservation)
    requires t.snapshot.Some? && NextAfter(t, o) && HeartbeatOf(w, o)
    ensures Harmless(w, t, o, None) && Fed(w, t, o)
  {
  }

  /** A heartbeat renews the receiver's witness and leaves the playback's. */
  lemma {:induction false} BeatPoises(w: Watch, t: Tracker, h: PlaybackObservation,
                                      a: PlaybackObservation, b: PlaybackObservation,
                                      now: Monotonic)
    requires Poised(w, t, h, a) && InTime(w, t, b, now) && NextAfter(t, b)
    requires a.monotonic <= now <= a.monotonic + w.policy.maxAge && HeartbeatOf(w, b)
    ensures Observed(w, t, [b], now).Ok?
    ensures Poised(w, Observed(w, t, [b], now).value, b, a)
    ensures var u := Observed(w, t, [b], now).value;
            u.lastSequence == b.sequence && u.lastMonotonic == b.monotonic && u.now == now
  {
    hide Noted, Observed, Policy.Observe, PlayingOf, HeartbeatOf, Valid, E.Beat, InWatch,
         Harmless, Fed, E.Heard, E.Continuous;
    var r := t.(now := now);
    PoisedIsHeard(w, t, h, a, b, now);
    OneBatch(w, t, b, now);
    NotedExactly(w, r, b, now, None);
    ObservedIsValid(w, t, b, now);
    BeatIsFed(w, r, b);
    PlayingTarget(w, b);
    NextIsNews(w, t, b, now);
    PlayingIsExact(w, t.snapshot.value.scope, b);
    N.BeatLeaves(t.snapshot.value, b, now, w.policy);
  }

  /** A sample that advances confirms the playback. */
  lemma {:induction false} AdvanceConfirms(s: SessionSnapshot, o: PlaybackObservation,
                                           now: Monotonic, policy: EvidencePolicy,
                                           a: PlaybackObservation)
    requires Policy.Observe(s, o, now, policy).Ok? && E.Heard(s, o, now, policy)
    requires E.Continuous(s, o, now, policy) && s.completion.None?
    requires s.progressAnchor == Some(a) && s.completionAnchor == Some(a) && E.SameView(a, o)
    requires E.Exact(s.scope, o) && o.state.Playing? && o.position.Some?
    requires a.position.Some? && a.position.value < o.position.value
    requires a.monotonic + policy.minProgressInterval <= o.monotonic
    requires now <= a.monotonic + policy.maxAge
    ensures var t := Policy.Observe(s, o, now, policy).value;
            && t.evidence.receiverPlaybackConfirmed && !t.ownershipLost && t.latest == Some(o)
  {
    hide Policy.Observe, E.Exact, E.Beat, E.Medial, E.Lapses, E.Ours, E.Loses;
    E.ConfirmsExactly(s, o, now, policy);
    N.NamedIsMedial(s.scope, policy, o, o);
    N.MediaTold(s, o, now, policy);
  }

  lemma {:induction false} ProgressIsReady(w: Watch, t: Tracker, h: PlaybackObservation,
                                           a: PlaybackObservation, c: PlaybackObservation,
                                           now: Monotonic)
    requires Poised(w, t, h, a) && InTime(w, t, c, now) && NextAfter(t, c)
    requires h.monotonic <= t.lastMonotonic && now <= h.monotonic + w.policy.maxAge
    requires a.monotonic <= now <= a.monotonic + w.policy.maxAge && PlayingOf(w, c)
    requires E.SameView(a, c) && a.position.Some? && a.position.value < c.position.value
    requires a.monotonic + w.policy.minProgressInterval <= c.monotonic
    ensures Observed(w, t, [c], now).Ok? && Ready(w, Observed(w, t, [c], now).value)
  {
    hide Noted, Observed, Policy.Observe, PlayingOf, HeartbeatOf, Valid, E.Exact, E.Medial,
         Harmless, Fed, E.Heard, E.Continuous, E.SameView, InWatch;
    var r := t.(now := now);
    PoisedIsHeard(w, t, h, a, c, now);
    OneBatch(w, t, c, now);
    NotedExactly(w, r, c, now, None);
    ObservedIsValid(w, t, c, now);
    PlayingIsFed(w, r, h, c);
    PlayingTarget(w, c);
    NextIsNews(w, t, c, now);
    PlayingIsExact(w, t.snapshot.value.scope, c);
    AdvanceConfirms(t.snapshot.value, c, now, w.policy, a);
  }

  // ---------------------------------------------------------------- over a run

  /** One event, and the time at which it is looked at. */
  datatype Look = Look(event: PlaybackObservation, now: Monotonic)

  function Batches(looks: seq<Look>): (batches: seq<Batch>)
    ensures |batches| == |looks|
  {
    if looks == [] then []
    else
      var last := looks[|looks| - 1];
      Batches(looks[..|looks| - 1]) + [Batch([last.event], last.now)]
  }

  /** Each event is looked at in time, and is the next after the one before. */
  predicate Consecutive(w: Watch, looks: seq<Look>) {
    && (forall k :: 0 <= k < |looks| ==>
          && looks[k].event.sequence >= 0
          && w.startedMonotonic < looks[k].event.monotonic <= looks[k].now
          && looks[k].now <= looks[k].event.monotonic + w.policy.maxAge)
    && (forall k :: 0 < k < |looks| ==>
          && looks[k - 1].now <= looks[k].now
          && looks[k].event.sequence == looks[k - 1].event.sequence + 1
          && looks[k - 1].event.monotonic < looks[k].event.monotonic)
  }

  /** A heartbeat, a first sample, more heartbeats, and progress: nothing gets too old on the way. */
  predicate Playthrough(w: Watch, looks: seq<Look>) {
    && |looks| >= 3 && Consecutive(w, looks)
    && (forall k :: 0 <= k < |looks| - 1 && k != 1 ==> HeartbeatOf(w, looks[k].event))
    && var n := |looks| - 1;
    && var a, c := looks[1].event, looks[n].event;
    && PlayingOf(w, a) && PlayingOf(w, c) && E.SameView(a, c)
    && a.monotonic <= looks[0].event.monotonic + w.policy.maxAge
    && a.position.value < c.position.value
    && a.monotonic + w.policy.minProgressInterval <= c.monotonic
    && looks[n].now <= a.monotonic + w.policy.maxAge
    && looks[n].now <= looks[if n == 2 then 0 else n - 1].event.monotonic + w.policy.maxAge
  }

  lemma {:induction false} WatchedStep(w: Watch, looks: seq<Look>, k: nat)
    requires 0 < k <= |looks|
    requires Watched(w, Batches(looks[..k - 1])).now <= looks[k - 1].now
    ensures var t := Observed(w, Watched(w, Batches(looks[..k - 1])), [looks[k - 1].event],
                              looks[k - 1].now);
            t.Ok? && Watched(w, Batches(looks[..k])) == t.value
  {
    hide Observed, Valid, NotStale;
    var front := looks[..k][..k - 1];
    assert front == looks[..k - 1];
    var batches := Batches(looks[..k]);
    assert batches[..|batches| - 1] == Batches(front);
  }

  predicate At(t: Tracker, look: Look) {
    && t.lastSequence == look.event.sequence && t.lastMonotonic == look.event.monotonic
    && t.now == look.now
  }

  lemma {:induction false} FirstLook(w: Watch, looks: seq<Look>)
    requires Playthrough(w, looks)
    ensures var t := Watched(w, Batches(looks[..1]));
            Attending(w, t, looks[0].event) && At(t, looks[0])
  {
    hide Observed, Valid, NotStale, PlayingOf, HeartbeatOf, E.SameView, Attending;
    var t := Opened(w, -1);
    assert looks[..0] == [] && Watched(w, Batches([])) == t;
    assert Valid(w, t) by { OpenedIsValid(w); }
    assert HeartbeatOf(w, looks[0].event);
    HeartbeatAttends(w, t, looks[0].event, looks[0].now);
    WatchedStep(w, looks, 1);
  }

  lemma {:induction false} OpenedIsValid(w: Watch)
    ensures Valid(w, Opened(w, -1))
  {
  }

  lemma {:induction false} SecondLook(w: Watch, looks: seq<Look>)
    requires Playthrough(w, looks)
    ensures var t := Watched(w, Batches(looks[..2]));
            Poised(w, t, looks[0].event, looks[1].event) && At(t, looks[1])
  {
    hide Observed, Valid, NotStale, PlayingOf, HeartbeatOf, E.SameView, Poised;
    FirstLook(w, looks);
    var t := Watched(w, Batches(looks[..1]));
    PlayStarts(w, t, looks[0].event, looks[1].event, looks[1].now);
    WatchedStep(w, looks, 2);
  }

  lemma {:induction false} LaterLooks(w: Watch, looks: seq<Look>, k: nat)
    requires Playthrough(w, looks) && 2 <= k < |looks|
    ensures var t := Watched(w, Batches(looks[..k]));
            && Poised(w, t, looks[if k == 2 then 0 else k - 1].event, looks[1].event)
            && At(t, looks[k - 1])
    decreases k
  {
    hide Observed, Valid, NotStale, PlayingOf, HeartbeatOf, E.SameView, Poised;
    if k == 2 {
      SecondLook(w, looks);
    } else {
      LaterLooks(w, looks, k - 1);
      var t := Watched(w, Batches(looks[..k - 1]));
      LooksRise(w, looks, 1, k - 1);
      LooksRise(w, looks, k - 1, |looks| - 1);
      assert HeartbeatOf(w, looks[k - 1].event);
      PoisedIsOpen(w, t, looks[if k - 1 == 2 then 0 else k - 2].event, looks[1].event);
      BeatPoises(w, t, looks[if k - 1 == 2 then 0 else k - 2].event, looks[1].event,
                 looks[k - 1].event, looks[k - 1].now);
      WatchedStep(w, looks, k);
    }
  }

  lemma {:induction false} PoisedIsOpen(w: Watch, t: Tracker, h: PlaybackObservation,
                                        a: PlaybackObservation)
    ensures Poised(w, t, h, a) ==> t.lastSequence >= 0 && Valid(w, t)
  {
    hide Valid;
  }

  lemma {:induction false} LooksRise(w: Watch, looks: seq<Look>, j: nat, k: nat)
    requires Consecutive(w, looks) && j <= k < |looks|
    ensures looks[j].now <= looks[k].now
    ensures looks[j].event.monotonic <= looks[k].event.monotonic
    ensures looks[j].event.monotonic <= looks[j].now
    decreases k
  {
    if j < k {
      LooksRise(w, looks, j, k - 1);
    }
  }

  /** A native playback that is heard of, starts and progresses, with any heartbeats in between,
      makes its tracker ready at the sample of progress. */
  lemma {:induction false} PlaythroughIsReady(w: Watch, looks: seq<Look>)
    requires Playthrough(w, looks)
    ensures Ready(w, Watched(w, Batches(looks)))
  {
    hide Observed, Valid, NotStale, PlayingOf, HeartbeatOf, E.SameView, Poised, Ready;
    var n := |looks| - 1;
    assert looks[..n + 1] == looks;
    LaterLooks(w, looks, n);
    LooksRise(w, looks, 1, n);
    LooksRise(w, looks, if n == 2 then 0 else n - 1, n - 1);
    var t := Watched(w, Batches(looks[..n]));
    var h := looks[if n == 2 then 0 else n - 1].event;
    PoisedIsOpen(w, t, h, looks[1].event);
    PlayingHasPosition(w, looks[1].event);
    ProgressIsReady(w, t, h, looks[1].event, looks[n].event, looks[n].now);
    WatchedStep(w, looks, n + 1);
  }

  lemma {:induction false} PlayingHasPosition(w: Watch, o: PlaybackObservation)
    ensures PlayingOf(w, o) ==> o.position.Some?
  {
  }
}
