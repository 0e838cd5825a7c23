/** A recorded completion stays valid: it is never later rejected by the queue's decisions. */
module CompletionValidity {
  import opened Values
  import opened Policy
  import opened PolicyTrace
  import QueueRecords
  import QueuePolicy

  /** A completion is well formed, and anything that may become one is numbered. */
  predicate Recorded(s: SessionSnapshot) {
    && (s.completionAnchor.Some? ==> s.completionAnchor.value.sequence >= 0)
    && (s.completion.Some? ==>
          && var c := s.completion.value;
          && s.evidence.naturalCompletionConfirmed
          && c.source != ""
          && 0 <= c.identitySequence <= c.sequence <= s.lastSequence
          && s.lastMonotonic.Some?
          && s.scope.startedMonotonic < c.monotonic <= s.lastMonotonic.value
          && (if c.attribution.Explicit? then c.identitySequence == c.sequence
              else c.identitySequence < c.sequence))
  }

  lemma {:induction false} AttributedRecords(s: SessionSnapshot, o: PlaybackObservation,
                                             history: bool, now: Monotonic, policy: EvidencePolicy)
    requires Recorded(s) && s.completion.None? && o.WellFormed()
    requires s.lastSequence == o.sequence && s.lastMonotonic == Some(o.monotonic)
    requires o.monotonic > s.scope.startedMonotonic
    requires history && s.completionAnchor.Some? ==> s.completionAnchor.value.sequence < o.sequence
    ensures Recorded(Attributed(s, o, history, now, policy))
  {
    hide Confirms;
  }

  lemma {:induction false} MediaRecords(s: SessionSnapshot, o: PlaybackObservation, now: Monotonic,
                                        policy: EvidencePolicy)
    requires Recorded(s) && s.completion.None? && o.WellFormed()
    requires s.lastSequence == o.sequence && s.lastMonotonic == Some(o.monotonic)
    requires o.monotonic > s.scope.startedMonotonic
    ensures Recorded(Media(s, o, now, policy))
  {
    hide Attributed, SamePlayback, Qualified;
    var history := IncrementalIdentity(s, o, policy);
    AttributedRecords(s, o, history, now, policy);
    AttributedRecords(Unwitnessed(s), o, history, now, policy);
  }

  lemma {:induction false} LostRecords(s: SessionSnapshot, o: PlaybackObservation)
    requires Recorded(s)
    ensures Recorded(Lost(s, o))
  {
  }

  lemma {:induction false} ExitRecords(s: SessionSnapshot, o: PlaybackObservation)
    requires Recorded(s)
    ensures Recorded(Exit(s, o)) && Recorded(Lost(s, o))
  {
    hide Lost;
    LostRecords(s, o);
  }

  lemma {:induction false} KeptRecords(s: SessionSnapshot, o: PlaybackObservation)
    requires Recorded(s)
    ensures Recorded(AbandonRelease(s)) && Recorded(s.(revision := s.revision + 1))
    ensures s.completion.Some? ==>
      Recorded(s.(revision := s.revision + 1, latest := Some(o), state := PlayerState.Ended,
                  evidence := PlaybackEvidence(false, false, true, NaturalCompletion)))
  {
  }

  lemma {:induction false} ConsumeRecords(s: SessionSnapshot, o: PlaybackObservation,
                                          now: Monotonic, policy: EvidencePolicy)
    requires Recorded(s) && o.WellFormed() && o.monotonic > s.scope.startedMonotonic
    requires s.lastSequence == o.sequence && s.lastMonotonic == Some(o.monotonic)
    ensures Recorded(Consume(s, o, now, policy))
  {
    hide Media, Foreign, Exit, Lost, Reopens, Heartbeat, Recorded;
    var t := if Reopens(s, o) then AbandonRelease(s) else s;
    KeptRecords(s, o);
    KeptRecords(t, o);
    ExitRecords(s, o);
    ExitRecords(t, o);
    if t.completion.None? {
      MediaRecords(t, o, now, policy);
    }
  }

  lemma {:induction false} RefreshRecords(s: SessionSnapshot, now: Monotonic,
                                          policy: EvidencePolicy)
    requires Recorded(s) && Refresh(s, now, policy).Ok?
    ensures Recorded(Refresh(s, now, policy).value)
  {
  }

  lemma {:induction false} OrderedRecords(s: SessionSnapshot, o: PlaybackObservation,
                                          now: Monotonic, policy: EvidencePolicy)
    requires Recorded(s) && Accepts(s, o, now, policy)
    ensures Recorded(Ordered(s, o)) && o.monotonic > Ordered(s, o).scope.startedMonotonic
    ensures Ordered(s, o).lastSequence == o.sequence
    ensures Ordered(s, o).lastMonotonic == Some(o.monotonic)
  {
  }

  lemma {:induction false} SampleRecords(s: SessionSnapshot, o: PlaybackObservation,
                                         now: Monotonic, policy: EvidencePolicy)
    requires Recorded(s) && o.WellFormed() && Observe(s, o, now, policy).Ok?
    ensures Recorded(Observe(s, o, now, policy).value)
  {
    hide Consume, Recorded, Refresh, Ordered, Accepts;
    var r := Refresh(s, now, policy).value;
    RefreshRecords(s, now, policy);
    if Accepts(r, o, now, policy) {
      OrderedRecords(r, o, now, policy);
      ConsumeRecords(Ordered(r, o), o, now, policy);
    }
  }

  lemma {:induction false} AfterRecords(s: SessionSnapshot, op: PolicyOp, policy: EvidencePolicy)
    requires Recorded(s) && (op.Deliver? ==> op.observation.WellFormed())
    ensures Recorded(After(s, op, policy))
  {
    hide Observe;
    if op.Deliver? && Observe(s, op.observation, op.now, policy).Ok? {
      SampleRecords(s, op.observation, op.now, policy);
    }
  }

  lemma {:induction false} RunRecords(scope: PlaybackScope, ops: seq<PolicyOp>,
                                      policy: EvidencePolicy)
    requires WellFormedOps(ops)
    ensures Recorded(State(scope, ops, policy))
    decreases |ops|
  {
    hide After;
    if ops != [] {
      var before := ops[..|ops| - 1];
      RunRecords(scope, before, policy);
      hide Recorded;
      AfterRecords(State(scope, before, policy), ops[|ops| - 1], policy);
    }
  }

  /** Once a run has recorded a completion, every later snapshot of that run presents it as valid
      at every instant from the last event on, under the same decision identity. */
  lemma {:induction false} CompletionStaysValid(scope: PlaybackScope, ops: seq<PolicyOp>, n: nat,
                                                policy: EvidencePolicy, now: Monotonic,
                                                render: QueuePolicy.Rendering, queueId: Id)
    requires WellFormedOps(ops) && n <= |ops|
    requires State(scope, ops[..n], policy).completion.Some?
    requires State(scope, ops, policy).lastMonotonic.Some? ==>
      State(scope, ops, policy).lastMonotonic.value <= now
    ensures QueuePolicy.ValidCompletion(State(scope, ops, policy), now)
    ensures QueuePolicy.DecisionId(render, queueId, State(scope, ops, policy), None)
         == QueuePolicy.DecisionId(render, queueId, State(scope, ops[..n], policy), None)
  {
    RunRecords(scope, ops, policy);
    RunGrows(scope, ops, n, policy);
    hide State;
  }

  lemma {:induction false} PrecludesOtherwise(q: QueueRecords.QueueSnapshot,
                                              session: Option<SessionSnapshot>, now: Monotonic,
                                              authority: Option<QueuePolicy.QueueAuthority>,
                                              skip: Option<QueuePolicy.SkipIntent>)
    ensures QueuePolicy.Precluded(q, session, now, authority, skip)
         != Some(QueuePolicy.InvalidCompletion)
  {
    hide QueuePolicy.ValidQueue, QueuePolicy.SessionMatches;
  }

  /** A finish that was persisted under the decision a run once proposed is never held as an
      invalid completion by a later snapshot of the same run. */
  lemma {:induction false} FinishIsNeverRejected(
      scope: PlaybackScope, ops: seq<PolicyOp>, n: nat, policy: EvidencePolicy,
      render: QueuePolicy.Rendering, q: QueueRecords.QueueSnapshot, now: Monotonic,
      authority: Option<QueuePolicy.QueueAuthority>, receiver: Option<PlaybackObservation>,
      skip: Option<QueuePolicy.SkipIntent>)
    requires WellFormedOps(ops) && n <= |ops| && q.attempts != []
    requires State(scope, ops[..n], policy).completion.Some?
    requires State(scope, ops, policy).lastMonotonic.Some? ==>
      State(scope, ops, policy).lastMonotonic.value <= now
    requires q.attempts[|q.attempts| - 1].intent.Finished? ==>
      q.attempts[|q.attempts| - 1].decisionId
        == Some(QueuePolicy.DecisionId(render, q.queueId, State(scope, ops[..n], policy), None))
    ensures !QueuePolicy.Decide(render, q, Some(State(scope, ops, policy)), now, authority,
                                receiver, skip, policy).reason.InvalidCompletion?
  {
    CompletionStaysValid(scope, ops, n, policy, now, render, q.queueId);
    hide State;
    ValidFinishIsAccepted(render, q, State(scope, ops, policy), now, authority, receiver, skip,
                          policy);
  }

  lemma {:induction false} ValidFinishIsAccepted(
      render: QueuePolicy.Rendering, q: QueueRecords.QueueSnapshot, session: SessionSnapshot,
      now: Monotonic, authority: Option<QueuePolicy.QueueAuthority>,
      receiver: Option<PlaybackObservation>, skip: Option<QueuePolicy.SkipIntent>,
      policy: EvidencePolicy)
    requires q.attempts != [] && QueuePolicy.ValidCompletion(session, now)
    requires q.attempts[|q.attempts| - 1].intent.Finished? ==>
      q.attempts[|q.attempts| - 1].decisionId
        == Some(QueuePolicy.DecisionId(render, q.queueId, session, None))
    ensures !QueuePolicy.Decide(render, q, Some(session), now, authority, receiver, skip,
                                policy).reason.InvalidCompletion?
  {
    PrecludesOtherwise(q, Some(session), now, authority, skip);
    hide QueuePolicy.ValidCompletion, QueuePolicy.DecisionId, QueuePolicy.ReceiverReady,
         QueuePolicy.FirstPending, QueuePolicy.Precluded, QueuePolicy.AnyUnsettled,
         QueuePolicy.Unacknowledged;
  }
}
