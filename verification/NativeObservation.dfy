/** The trackers themselves: objects that update their fields event by event, each method tied to
    the functions of NativeTracking. */
module NativeObservation {
  import opened Values
  import opened Policy
  import opened NativeTracking

  class NativePlaybackTracker {
    const watch: Watch
    var snapshot: Option<SessionSnapshot>
    var refusal: Option<Refusal>
    var receiver: Option<PlaybackObservation>
    var lastSequence: int
    var lastMonotonic: Monotonic
    var now: Monotonic

    /** The state as a value. */
    ghost function View(): Tracker
      reads this
    {
      Tracker(snapshot, refusal, receiver, lastSequence, lastMonotonic, now)
    }

    ghost predicate Consistent()
      reads this
    {
      Valid(watch, View())
    }

    constructor (watch: Watch, lastSequence: int)
      requires lastSequence >= -1
      ensures this.watch == watch && View() == Opened(watch, lastSequence)
      ensures Consistent() && NotStale(watch, View())
    {
      this.watch := watch;
      this.snapshot, this.refusal, this.receiver := None, None, None;
      this.lastSequence := lastSequence;
      this.lastMonotonic, this.now := watch.startedMonotonic, watch.startedMonotonic;
    }

    method IsReady() returns (ready: bool)
      ensures ready == Ready(watch, View())
      ensures Consistent() && NotStale(watch, View()) && ready && watch.policy == DEFAULT_POLICY ==>
        QualifiedForAdoption(watch, View())
    {
      ready := refusal.None? && receiver.Some?
        && Fresh(now, receiver.value.monotonic, watch.policy.maxAge)
        && snapshot.Some? && !snapshot.value.ownershipLost
        && snapshot.value.evidence.receiverPlaybackConfirmed;
      if Ready(watch, View()) && Valid(watch, View()) && NotStale(watch, View())
         && watch.policy == DEFAULT_POLICY {
        ReadyQualifies(watch, View());
      }
    }

    /** Time may not run backwards; a snapshot may expire. */
    method RefreshAt(at: Monotonic) returns (fault: Option<Fault>)
      requires Consistent()
      modifies this
      ensures Consistent()
      ensures fault == if at < old(now) then Some(Malformed) else None
      ensures View() == if at < old(now) then old(View()) else Renewed(watch, old(View()), at)
      ensures fault.None? ==> NotStale(watch, View())
    {
      if at < now {
        return Some(Malformed);
      }
      ghost var before := View();
      RenewedKeeps(watch, before, at);
      now := at;
      if snapshot.Some? {
        RenewableSnapshot(watch, before, at);
        snapshot := Some(Refresh(snapshot.value, at, watch.policy).value);
      }
      fault := None;
    }

    method Refuse(reason: Refusal, event: PlaybackObservation)
      modifies this
      ensures View() == Contradicted(old(View()), reason, event)
    {
      refusal, receiver := Some(reason), None;
      if snapshot.Some? {
        snapshot := Some(InvalidateHistory(snapshot.value).(
          ownershipLost := true, latest := Some(event),
          evidence := Retired(snapshot.value, SessionReplaced)));
      }
    }

    /** One event; reports whether it lies in the ordered window of this tracker. */
    method ObserveOne(event: PlaybackObservation, waiting: Option<ContentRef>)
      returns (inWindow: bool)
      requires Consistent() && NotStale(watch, View())
      modifies this
      ensures inWindow == InWindow(watch, old(View()), event, old(now))
      ensures Current(old(snapshot), old(now))
      ensures View() == Noted(watch, old(View()), event, old(now), waiting)
      ensures Consistent() && NotStale(watch, View()) && now == old(now)
    {
      NotedKeeps(watch, View(), event, waiting);
      ghost var before := View();
      if !InWindow(watch, Tracker(snapshot, refusal, receiver, lastSequence, lastMonotonic, now),
                   event, now) {
        return false;
      }
      AdvancedIsPending(watch, View(), event);
      var boundary := lastMonotonic;
      if lastSequence >= 0 && event.sequence > lastSequence + 1 {
        receiver := None;
        snapshot := Invalidated(snapshot);
      }
      lastSequence, lastMonotonic := event.sequence, event.monotonic;
      assert View() == Advanced(before, event);
      JudgedKeeps(watch, View(), event, before.lastSequence, boundary, waiting);
      Judge(event, boundary, waiting);
      inWindow := true;
    }

    method Judge(event: PlaybackObservation, boundary: Monotonic, waiting: Option<ContentRef>)
      requires Current(snapshot, now)
      modifies this
      ensures View() == Judged(watch, old(View()), event, old(now), boundary, waiting)
    {
      var contradiction := Contradiction(
        watch, Tracker(snapshot, refusal, receiver, lastSequence, lastMonotonic, now), event,
        waiting);
      if contradiction.Some? {
        Refuse(contradiction.value, event);
        return;
      }
      var exact := ExactSession(watch, event);
      if event.sessionActive == Some(true) {
        receiver := if exact then Some(event) else None;
        if snapshot.Some? {
          snapshot := Some(if exact then Followed(watch, snapshot.value, event, now)
                           else InvalidateHistory(snapshot.value));
        }
        return;
      }
      if || !exact || event.playbackId.None? || event.playbackId.value == "" || receiver.None?
         || !Fresh(event.monotonic, receiver.value.monotonic, watch.policy.maxAge) {
        if !exact {
          receiver := None;
        }
        snapshot := Invalidated(snapshot);
        return;
      }
      if event.content.Some? && !event.identityUpdate.Explicit? {
        snapshot := Invalidated(snapshot);
        return;
      }
      if snapshot.None? {
        if event.content != Some(watch.request.content) {
          return;
        }
        snapshot := Some(Scoped(watch, boundary));
      }
      snapshot := Some(Followed(watch, snapshot.value, event, now));
    }

    method Observe(events: seq<PlaybackObservation>, at: Monotonic)
      returns (r: Result<Option<SessionSnapshot>>)
      requires Consistent()
      modifies this
      ensures Consistent()
      ensures r == (match Observed(watch, old(View()), events, at)
                    case Ok(t) => Ok(t.snapshot)
                    case Err(fault) => Err(fault))
      ensures View() == (match Observed(watch, old(View()), events, at)
                         case Ok(t) => t
                         case Err(_) => old(View()))
      ensures r.Ok? ==> NotStale(watch, View()) && now == at
    {
      ghost var before := View();
      var fault := RefreshAt(at);
      if fault.Some? {
        return Err(fault.value);
      }
      RenewedKeeps(watch, before, at);
      ghost var start := View();
      for i := 0 to |events|
        invariant Consistent() && NotStale(watch, View()) && now == at
        invariant View() == NotedAll(watch, start, events[..i], None)
      {
        assert events[..i + 1][..i] == events[..i];
        var _ := ObserveOne(events[i], None);
      }
      assert events[..|events|] == events;
      fault := RefreshAt(at);
      r := Ok(snapshot);
    }
  }

  class NativeSuccessorTracker {
    const authorization: Authorization
    const tracker: NativePlaybackTracker
    var predecessor: SessionSnapshot

    ghost function View(): Succession
      reads this, tracker
    {
      Succession(tracker.View(), predecessor)
    }

    ghost predicate Consistent()
      reads this, tracker
    {
      ValidPair(tracker.watch, View())
    }

    constructor (authorization: Authorization, watch: Watch, live: Option<SessionSnapshot>)
      requires authorization.WellFormed()
      requires watch == SuccessorWatch(authorization, watch.connectionGeneration,
                                       watch.startedMonotonic, watch.policy)
      requires live.Some? ==>
        LivePredecessor(authorization, watch, live.value) && Ordinary(live.value)
      ensures this.authorization == authorization && tracker.watch == watch && fresh(tracker)
      ensures Consistent() && tracker.View() == Opened(watch, if live.Some? then live.value.lastSequence else -1)
      ensures live.Some? ==> predecessor == live.value
      ensures live.None? ==> predecessor == Unseen(authorization, watch)
    {
      this.authorization := authorization;
      this.tracker := new NativePlaybackTracker(
        watch, if live.Some? then live.value.lastSequence else -1);
      this.predecessor := if live.Some? then live.value else Unseen(authorization, watch);
    }

    /** The constructor's own checks; a live predecessor that does not match is refused. */
    static method Open(authorization: Authorization, watch: Watch, live: Option<SessionSnapshot>)
      returns (r: Result<NativeSuccessorTracker>)
      requires authorization.WellFormed()
      requires watch == SuccessorWatch(authorization, watch.connectionGeneration,
                                       watch.startedMonotonic, watch.policy)
      requires live.Some? ==> Ordinary(live.value)
      ensures r.Ok? <==> (live.Some? ==> LivePredecessor(authorization, watch, live.value))
      ensures r.Ok? ==> r.value.Consistent() && fresh(r.value) && fresh(r.value.tracker)
    {
      if live.Some? && !LivePredecessor(authorization, watch, live.value) {
        return Err(Malformed);
      }
      var made := new NativeSuccessorTracker(authorization, watch, live);
      r := Ok(made);
    }

    /** After a reconnect the predecessor keeps at most its historical completion. */
    static method Reconnect(authorization: Authorization, watch: Watch,
                            completion: Option<CompletionEvidence>)
      returns (r: NativeSuccessorTracker)
      requires authorization.WellFormed()
      requires watch == SuccessorWatch(authorization, watch.connectionGeneration,
                                       watch.startedMonotonic, watch.policy)
      ensures r.Consistent() && fresh(r) && fresh(r.tracker)
      ensures r.predecessor.completion == completion
      ensures r.predecessor.progressAnchor.None? && !r.predecessor.hasConfirmedPlayback
    {
      r := new NativeSuccessorTracker(authorization, watch, None);
      r.predecessor := r.predecessor.(
        completion := completion,
        evidence := PlaybackEvidence(false, false, completion.Some?, AwaitingObservation));
    }

    method IsReady() returns (ready: bool)
      ensures ready == Ready(tracker.watch, tracker.View())
    {
      ready := tracker.IsReady();
    }

    /** A batch for both sessions; the predecessor's completion is never unmade. */
    method Observe(events: seq<PlaybackObservation>, at: Monotonic)
      returns (r: Result<Option<SessionSnapshot>>)
      requires Consistent()
      modifies this, tracker
      ensures Consistent()
      ensures r.Ok? <==> old(tracker.now) <= at
      ensures View() == (match PairObserved(authorization, tracker.watch, old(View()), events, at)
                         case Ok(q) => q
                         case Err(_) => old(View()))
      ensures r.Ok? ==> r.value == tracker.snapshot && NotStale(tracker.watch, tracker.View())
      ensures old(predecessor.completion).Some? ==>
        predecessor.completion == old(predecessor.completion)
    {
      ghost var before := View();
      var fault := tracker.RefreshAt(at);
      if fault.Some? {
        return Err(fault.value);
      }
      ghost var start := View();
      assert start == PairRenewed(tracker.watch, before, at);
      for i := 0 to |events|
        invariant Consistent() && NotStale(tracker.watch, tracker.View()) && tracker.now == at
        invariant View() == PairNotedAll(authorization, tracker.watch, start, events[..i])
      {
        assert events[..i + 1][..i] == events[..i];
        PairNotedKeeps(authorization, tracker.watch, View(), events[i]);
        var inWindow := tracker.ObserveOne(events[i], Some(authorization.predecessor.content));
        if inWindow {
          predecessor := Followed(tracker.watch, predecessor, events[i], at);
          if tracker.refusal.Some? && !predecessor.ownershipLost {
            predecessor := Bereft(predecessor);
          }
        }
      }
      assert events[..|events|] == events;
      PairFinishKeeps(tracker.watch, View(), at);
      predecessor := Refresh(predecessor, at, tracker.watch.policy).value;
      fault := tracker.RefreshAt(at);
      r := Ok(tracker.snapshot);
    }
  }
}
