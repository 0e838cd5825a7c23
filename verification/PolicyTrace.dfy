/** What must have been delivered for a completion to stand: a statement about every run of the
    policy's operations from a fresh snapshot. */
module PolicyTrace {
  import opened Values
  import opened Policy

  datatype PolicyOp =
    | Deliver(observation: PlaybackObservation, now: Monotonic)
    | Tick(now: Monotonic)
    | AskStop(boundary: Option<Monotonic>)
    | Receive(receipt: CommandReceipt)
    | Retire
    | AskRelease(start: Monotonic)
    | GiveUpRelease

  function Attempted(s: SessionSnapshot, op: PolicyOp, policy: EvidencePolicy)
    : Result<SessionSnapshot>
  {
    match op
    case Deliver(o, now) => Observe(s, o, now, policy)
    case Tick(now) => Refresh(s, now, policy)
    case AskStop(boundary) => Ok(RequestStop(s, boundary))
    case Receive(receipt) => RecordReceipt(s, receipt)
    case Retire => Ok(InvalidateHistory(s))
    case AskRelease(start) => Ok(BeginRelease(s, start))
    case GiveUpRelease => Ok(AbandonRelease(s))
  }

  /** An operation that raises leaves its caller with the snapshot it had. */
  function After(s: SessionSnapshot, op: PolicyOp, policy: EvidencePolicy): SessionSnapshot {
    match Attempted(s, op, policy)
    case Ok(t) => t
    case Err(_) => s
  }

  function State(scope: PlaybackScope, ops: seq<PolicyOp>, policy: EvidencePolicy)
    : SessionSnapshot
  {
    if ops == [] then FreshSession(scope)
    else After(State(scope, ops[..|ops| - 1], policy), ops[|ops| - 1], policy)
  }

  predicate AcceptedBy(s: SessionSnapshot, op: PolicyOp, policy: EvidencePolicy) {
    && op.Deliver?
    && Refresh(s, op.now, policy).Ok?
    && Accepts(Refresh(s, op.now, policy).value, op.observation, op.now, policy)
  }

  /** The samples that a run accepted, in order. */
  function Accepted(scope: PlaybackScope, ops: seq<PolicyOp>, policy: EvidencePolicy)
    : seq<PlaybackObservation>
  {
    if ops == [] then []
    else
      var before, op := ops[..|ops| - 1], ops[|ops| - 1];
      Accepted(scope, before, policy)
      + (if AcceptedBy(State(scope, before, policy), op, policy) then [op.observation] else [])
  }

  predicate WellFormedOps(ops: seq<PolicyOp>) {
    forall k :: 0 <= k < |ops| && ops[k].Deliver? ==> ops[k].observation.WellFormed()
  }

  /** The operation asks for a stop: explicitly, or by recording the receipt of one. */
  predicate Stops(scope: PlaybackScope, op: PolicyOp) {
    match op
    case AskStop(_) => true
    case Receive(receipt) =>
      && receipt.action.Stop?
      && receipt.requestId == scope.request.requestId
      && receipt.attemptId == scope.request.attemptId
    case _ => false
  }

  // ---------------------------------------------------------------- the witnesses of an end

  /** Exact content, playing without ads, with a position. */
  predicate ExactPlaying(scope: PlaybackScope, o: PlaybackObservation) {
    && o.target == scope.request.target
    && o.connectionGeneration == scope.connectionGeneration
    && o.monotonic > scope.startedMonotonic
    && o.sessionId == Some(scope.sessionId)
    && o.content == Some(scope.request.content)
    && o.state.Playing? && o.adActive == Some(false) && o.position.Some?
    && !o.connectionReset && o.sessionActive.None? && !Foreign(scope, o)
  }

  /** Nothing but this playback: a matching receiver heartbeat, or an ad-free sample of the same
      session and playback that names the exact content or is qualified by its provider. */
  predicate SameRun(scope: PlaybackScope, o: PlaybackObservation, playbackId: Option<Id>) {
    && !o.connectionReset
    && !Foreign(scope, o)
    && (Heartbeat(scope, o)
        || (&& o.sessionActive.None? && o.sessionId == Some(scope.sessionId)
            && o.adActive == Some(false) && o.playbackId == playbackId
            && (o.content == Some(scope.request.content) || (o.content.None? && Qualified(o)))))
  }

  predicate FinishedIdle(o: PlaybackObservation) {
    o.sessionActive.None? && o.state.Idle? && o.idleReason == Some(IdleReason.Finished)
    && o.adActive == Some(false)
  }

  /** From index `p` on: consecutive numbers, increasing times, and nothing but one playback. */
  predicate Unbroken(scope: PlaybackScope, log: seq<PlaybackObservation>, p: nat)
    requires p < |log|
  {
    && (forall k :: p < k < |log| ==>
          && log[k].sequence == log[p].sequence + (k - p)
          && log[k].monotonic > log[k - 1].monotonic)
    && (forall k :: p <= k < |log| ==> SameRun(scope, log[k], log[p].playbackId))
  }

  /** Progress: two exact samples far enough apart, the later one further along. */
  predicate Progress(scope: PlaybackScope, policy: EvidencePolicy, a: PlaybackObservation,
                     b: PlaybackObservation) {
    && ExactPlaying(scope, a) && ExactPlaying(scope, b)
    && a.playbackId == b.playbackId
    && b.monotonic - a.monotonic >= policy.minProgressInterval
    && b.position.value > a.position.value
  }

  /** The completion records the last sample of the log, identified by an exact one. */
  predicate Records(scope: PlaybackScope, log: seq<PlaybackObservation>, p: nat,
                    completion: CompletionEvidence)
    requires log != []
  {
    var end := log[|log| - 1];
    && completion.monotonic == end.monotonic && completion.sequence == end.sequence
    && completion.observedAt == end.observedAt
    && (completion.attribution.Explicit? <==> completion.identitySequence == end.sequence)
    && exists w :: p <= w < |log| && log[w].sequence == completion.identitySequence
         && log[w].content == Some(scope.request.content)
  }

  predicate EndWitness(scope: PlaybackScope, policy: EvidencePolicy,
                       log: seq<PlaybackObservation>, completion: CompletionEvidence,
                       p: nat, c: nat)
    requires p < c < |log| - 1
  {
    && Progress(scope, policy, log[p], log[c])
    && Unbroken(scope, log, p)
    && FinishedIdle(log[|log| - 1])
    && Records(scope, log, p, completion)
  }

  /** The log ends with a natural completion that it justifies. */
  predicate Justifies(scope: PlaybackScope, policy: EvidencePolicy,
                      log: seq<PlaybackObservation>, completion: CompletionEvidence) {
    exists p: nat, c: nat :: p < c < |log| - 1 && EndWitness(scope, policy, log, completion, p, c)
  }

  /** The run completed at operation `n`, justified by what it had accepted, before any stop. */
  predicate CompletedAt(scope: PlaybackScope, ops: seq<PolicyOp>, policy: EvidencePolicy, n: nat)
    requires n < |ops| && State(scope, ops, policy).completion.Some?
  {
    && State(scope, ops[..n], policy).completion.None?
    && AcceptedBy(State(scope, ops[..n], policy), ops[n], policy)
    && (forall k :: 0 <= k < n ==> !Stops(scope, ops[k]))
    && Justifies(scope, policy, Accepted(scope, ops[..n + 1], policy),
                 State(scope, ops, policy).completion.value)
  }

  // ---------------------------------------------------------------- what the anchors stand for

  /** The anchor is an accepted exact sample at or after `p`. */
  predicate Anchored(scope: PlaybackScope, log: seq<PlaybackObservation>, p: nat,
                     anchor: Option<PlaybackObservation>) {
    && anchor.Some?
    && exists w :: p <= w < |log| && log[w] == anchor.value
         && log[w].content == Some(scope.request.content)
  }

  predicate ProgressAt(s: SessionSnapshot, log: seq<PlaybackObservation>, p: nat) {
    && p < |log|
    && s.progressAnchor == Some(log[p])
    && ExactPlaying(s.scope, log[p])
    && Unbroken(s.scope, log, p)
    && Anchored(s.scope, log, p, s.completionAnchor)
    && s.completionAnchor.value.playbackId == log[p].playbackId
  }

  predicate ConfirmedAt(s: SessionSnapshot, policy: EvidencePolicy,
                        log: seq<PlaybackObservation>, p: nat, c: nat) {
    && p < c < |log|
    && Progress(s.scope, policy, log[p], log[c])
    && Unbroken(s.scope, log, p)
    && Anchored(s.scope, log, p, s.completionAnchor)
    && s.completionAnchor.value.playbackId == log[p].playbackId
  }

  /** Until a stop or a completion, the anchors of a snapshot are backed by its log. */
  predicate Backed(s: SessionSnapshot, policy: EvidencePolicy, log: seq<PlaybackObservation>) {
    !s.stopRequested && s.completion.None? ==>
      && (s.progressAnchor.Some? ==> exists p: nat :: p < |log| && ProgressAt(s, log, p))
      && (s.hasConfirmedPlayback ==> exists p: nat, c: nat :: p < c < |log| && ConfirmedAt(s, policy, log, p, c))
  }

  predicate Numbered(s: SessionSnapshot, log: seq<PlaybackObservation>) {
    && s.lastSequence == (if log == [] then -1 else log[|log| - 1].sequence)
    && s.lastMonotonic == (if log == [] then None else Some(log[|log| - 1].monotonic))
    && (forall k :: 0 <= k < |log| ==> log[k].sequence >= 0)
  }

  // ---------------------------------------------------------------- one sample

  /** What consuming a sample can do to the anchors, before any stop or completion. */
  predicate Anchors(s: SessionSnapshot, o: PlaybackObservation, t: SessionSnapshot,
                    policy: EvidencePolicy) {
    && (t.completion.Some? ==>
          && s.hasConfirmedPlayback && s.completionAnchor.Some?
          && FinishedIdle(o) && SameRun(s.scope, o, s.completionAnchor.value.playbackId)
          && t.completion == Some(Completion(s.completionAnchor.value, o, o.content.None?))
          && (o.content.None? ==> s.completionAnchor.value.sequence < o.sequence))
    && (t.progressAnchor.Some? && t.completion.None? ==>
          Starts(s, o, t) || (t.progressAnchor == s.progressAnchor && Keeps(s, o, t)))
    && (t.hasConfirmedPlayback && t.completion.None? ==>
          (s.hasConfirmedPlayback && Keeps(s, o, t)) || NewlyConfirmed(s, o, t, policy))
  }

  /** A first witness. */
  predicate Starts(s: SessionSnapshot, o: PlaybackObservation, t: SessionSnapshot) {
    ExactPlaying(s.scope, o) && t.progressAnchor == Some(o) && t.completionAnchor == Some(o)
  }

  /** The anchor stays, or moves to an exact sample of the same playback. */
  predicate Keeps(s: SessionSnapshot, o: PlaybackObservation, t: SessionSnapshot) {
    && s.completionAnchor.Some?
    && SameRun(s.scope, o, s.completionAnchor.value.playbackId)
    && (t.completionAnchor == s.completionAnchor
        || (t.completionAnchor == Some(o) && o.content == Some(s.scope.request.content)
            && o.playbackId == s.completionAnchor.value.playbackId))
  }

  predicate NewlyConfirmed(s: SessionSnapshot, o: PlaybackObservation, t: SessionSnapshot,
                           policy: EvidencePolicy) {
    && s.progressAnchor.Some? && s.completionAnchor.Some?
    && t.completionAnchor == Some(o)
    && ExactPlaying(s.scope, o)
    && o.playbackId == s.progressAnchor.value.playbackId
    && o.monotonic - s.progressAnchor.value.monotonic >= policy.minProgressInterval
    && s.progressAnchor.value.position.Some?
    && o.position.value > s.progressAnchor.value.position.value
  }

  predicate InScope(scope: PlaybackScope, o: PlaybackObservation) {
    && o.target == scope.request.target
    && o.connectionGeneration == scope.connectionGeneration
    && o.monotonic > scope.startedMonotonic
  }

  lemma {:induction false} AttributedAnchors(s: SessionSnapshot, o: PlaybackObservation,
                                             history: bool, now: Monotonic, policy: EvidencePolicy)
    requires InScope(s.scope, o) && !s.stopRequested && s.completion.None?
    requires !o.connectionReset && !Foreign(s.scope, o) && o.sessionActive.None?
    requires o.sessionId.Some? && o.adActive == Some(false) && (history <==> o.content.None?)
    requires history ==>
      Qualified(o) && (s.completionAnchor.Some? ==> s.completionAnchor.value.sequence < o.sequence)
    requires s.progressAnchor.Some? || s.hasConfirmedPlayback ==> SamePlayback(s.completionAnchor, o)
    ensures Anchors(s, o, Attributed(s, o, history, now, policy), policy)
  {
  }

  lemma {:induction false} MediaAnchors(s: SessionSnapshot, o: PlaybackObservation, now: Monotonic,
                                        policy: EvidencePolicy)
    requires InScope(s.scope, o) && !s.stopRequested && s.completion.None?
    requires !o.connectionReset && !Foreign(s.scope, o)
    requires o.sessionId.Some? ==> o.sessionActive.None?
    ensures Anchors(s, o, Media(s, o, now, policy), policy)
  {
    hide Attributed;
    var history := IncrementalIdentity(s, o, policy);
    if o.sessionId.Some? && (o.content.Some? || history) && o.adActive == Some(false) {
      AttributedAnchors(if SamePlayback(s.completionAnchor, o) then s else Unwitnessed(s), o,
                        history, now, policy);
    }
  }

  lemma {:induction false} ConsumeAnchors(s: SessionSnapshot, o: PlaybackObservation,
                                          now: Monotonic, policy: EvidencePolicy)
    requires InScope(s.scope, o) && !s.stopRequested && s.completion.None?
    requires s.progressAnchor.Some? || s.hasConfirmedPlayback ==> s.completionAnchor.Some?
    ensures Anchors(s, o, Consume(s, o, now, policy), policy)
  {
    hide Media, Qualified;
    var t := if Reopens(s, o) then AbandonRelease(s) else s;
    if && !o.connectionReset && o.sessionActive != Some(false) && !Foreign(s.scope, o)
       && !Heartbeat(s.scope, o) {
      assert o.sessionActive.Some? ==> o.sessionActive.value;
      MediaAnchors(t, o, now, policy);
    }
  }

  // ---------------------------------------------------------------- one more accepted sample

  /** The sample directly continues the log. */
  predicate Next(log: seq<PlaybackObservation>, o: PlaybackObservation) {
    && log != []
    && o.sequence == log[|log| - 1].sequence + 1
    && o.monotonic > log[|log| - 1].monotonic
  }

  lemma {:induction false} UnbrokenExtends(scope: PlaybackScope, log: seq<PlaybackObservation>,
                                           p: nat, o: PlaybackObservation)
    requires p < |log| && Unbroken(scope, log, p) && Next(log, o)
    requires SameRun(scope, o, log[p].playbackId)
    ensures Unbroken(scope, log + [o], p)
  {
    hide SameRun;
  }

  lemma {:induction false} AnchorExtends(scope: PlaybackScope, log: seq<PlaybackObservation>,
                                         p: nat, o: PlaybackObservation,
                                         before: Option<PlaybackObservation>,
                                         after: Option<PlaybackObservation>)
    requires p <= |log|
    requires (after == before && Anchored(scope, log, p, before))
          || (after == Some(o) && o.content == Some(scope.request.content))
    ensures Anchored(scope, log + [o], p, after)
  {
    var all := log + [o];
    assert all[|log|] == o;
    if after == before && Anchored(scope, log, p, before) {
      var w :| p <= w < |log| && log[w] == before.value
        && log[w].content == Some(scope.request.content);
      assert all[w] == after.value;
    }
  }

  /** An end is justified by the confirmed progress before it. */
  lemma {:induction false} EndIsJustified(s: SessionSnapshot, policy: EvidencePolicy,
                                          log: seq<PlaybackObservation>, p: nat, c: nat,
                                          o: PlaybackObservation)
    requires ConfirmedAt(s, policy, log, p, c) && Next(log, o)
    requires FinishedIdle(o) && SameRun(s.scope, o, s.completionAnchor.value.playbackId)
    requires o.content.None? ==> s.completionAnchor.value.sequence < o.sequence
    ensures Justifies(s.scope, policy, log + [o],
                      Completion(s.completionAnchor.value, o, o.content.None?))
  {
    var all := log + [o];
    var completion := Completion(s.completionAnchor.value, o, o.content.None?);
    UnbrokenExtends(s.scope, log, p, o);
    var w :| p <= w < |log| && log[w] == s.completionAnchor.value
      && log[w].content == Some(s.scope.request.content);
    assert all[w] == log[w] && all[|log|] == o && all[p] == log[p] && all[c] == log[c];
    if o.content.Some? {
      assert all[|log|].sequence == completion.identitySequence;
      assert all[|log|].content == Some(s.scope.request.content);
    } else {
      assert all[w].sequence == completion.identitySequence;
    }
    assert Records(s.scope, all, p, completion);
    assert EndWitness(s.scope, policy, all, completion, p, c);
  }

  lemma {:induction false} ProgressExtends(s: SessionSnapshot, policy: EvidencePolicy,
                                           log: seq<PlaybackObservation>, o: PlaybackObservation,
                                           t: SessionSnapshot)
    requires t.scope == s.scope && t.progressAnchor.Some?
    requires s.progressAnchor.Some? ==>
      Next(log, o) && exists p: nat :: p < |log| && ProgressAt(s, log, p)
    requires Starts(s, o, t) || (t.progressAnchor == s.progressAnchor && Keeps(s, o, t))
    ensures exists p: nat :: p < |log| + 1 && ProgressAt(t, log + [o], p)
  {
    var all := log + [o];
    assert all[|log|] == o;
    if Starts(s, o, t) {
      AnchorExtends(s.scope, log, |log|, o, s.completionAnchor, t.completionAnchor);
      assert ProgressAt(t, all, |log|);
    } else {
      var p: nat :| p < |log| && ProgressAt(s, log, p);
      UnbrokenExtends(s.scope, log, p, o);
      AnchorExtends(s.scope, log, p, o, s.completionAnchor, t.completionAnchor);
      assert all[p] == log[p];
      assert ProgressAt(t, all, p);
    }
  }

  lemma {:induction false} ConfirmationExtends(s: SessionSnapshot, policy: EvidencePolicy,
                                               log: seq<PlaybackObservation>, p: nat, c: nat,
                                               o: PlaybackObservation, t: SessionSnapshot)
    requires t.scope == s.scope && Next(log, o) && ConfirmedAt(s, policy, log, p, c)
    requires Keeps(s, o, t)
    ensures ConfirmedAt(t, policy, log + [o], p, c)
  {
    var all := log + [o];
    hide SameRun, ExactPlaying;
    UnbrokenExtends(s.scope, log, p, o);
    AnchorExtends(s.scope, log, p, o, s.completionAnchor, t.completionAnchor);
    assert all[p] == log[p] && all[c] == log[c];
  }

  lemma {:induction false} ConfirmationStarts(s: SessionSnapshot, policy: EvidencePolicy,
                                              log: seq<PlaybackObservation>, p: nat,
                                              o: PlaybackObservation, t: SessionSnapshot)
    requires t.scope == s.scope && Next(log, o) && ProgressAt(s, log, p)
    requires NewlyConfirmed(s, o, t, policy)
    ensures ConfirmedAt(t, policy, log + [o], p, |log|)
  {
    var all := log + [o];
    UnbrokenExtends(s.scope, log, p, o);
    AnchorExtends(s.scope, log, p, o, s.completionAnchor, t.completionAnchor);
    assert all[p] == log[p] && all[|log|] == o;
  }

  /** One consumed sample keeps the anchors backed, and an end it records is justified. */
  lemma {:induction false} BackedExtends(s: SessionSnapshot, policy: EvidencePolicy,
                                         log: seq<PlaybackObservation>, o: PlaybackObservation,
                                         t: SessionSnapshot)
    requires !s.stopRequested && s.completion.None? && t.scope == s.scope
    requires Backed(s, policy, log) && Anchors(s, o, t, policy)
    requires s.progressAnchor.Some? || s.hasConfirmedPlayback ==> Next(log, o)
    ensures Backed(t, policy, log + [o])
    ensures t.completion.Some? ==> Justifies(s.scope, policy, log + [o], t.completion.value)
  {
    hide SameRun, ExactPlaying, FinishedIdle, ConfirmedAt, ProgressAt, Next, Keeps, Starts,
         NewlyConfirmed, Justifies;
    if t.completion.Some? {
      var p: nat, c: nat :| p < c < |log| && ConfirmedAt(s, policy, log, p, c);
      EndIsJustified(s, policy, log, p, c, o);
    } else {
      if t.progressAnchor.Some? {
        ProgressExtends(s, policy, log, o, t);
      }
      if t.hasConfirmedPlayback {
        if s.hasConfirmedPlayback && Keeps(s, o, t) {
          var p: nat, c: nat :| p < c < |log| && ConfirmedAt(s, policy, log, p, c);
          ConfirmationExtends(s, policy, log, p, c, o, t);
        } else {
          NewHasProgress(s, o, t, policy);
          var p: nat :| p < |log| && ProgressAt(s, log, p);
          ConfirmationStarts(s, policy, log, p, o, t);
        }
      }
    }
  }

  lemma {:induction false} NewHasProgress(s: SessionSnapshot, o: PlaybackObservation,
                                          t: SessionSnapshot, policy: EvidencePolicy)
    requires NewlyConfirmed(s, o, t, policy)
    ensures s.progressAnchor.Some?
  {
  }

  // ---------------------------------------------------------------- one operation

  /** What holds between a snapshot and the samples its run has accepted. */
  predicate Sound(s: SessionSnapshot, policy: EvidencePolicy, log: seq<PlaybackObservation>) {
    Backed(s, policy, log) && Numbered(s, log)
  }

  /** Giving up witnesses keeps the rest backed. */
  predicate Weakens(s: SessionSnapshot, t: SessionSnapshot) {
    && t.scope == s.scope && t.completion == s.completion
    && (s.stopRequested ==> t.stopRequested)
    && t.lastSequence == s.lastSequence && t.lastMonotonic == s.lastMonotonic
    && (t.stopRequested
        || (t.progressAnchor.None? && !t.hasConfirmedPlayback)
        || (t.progressAnchor == s.progressAnchor && t.completionAnchor == s.completionAnchor
            && t.hasConfirmedPlayback == s.hasConfirmedPlayback))
  }

  lemma {:induction false} WeakensKeeps(s: SessionSnapshot, t: SessionSnapshot,
                                        policy: EvidencePolicy, log: seq<PlaybackObservation>)
    requires Sound(s, policy, log) && Weakens(s, t)
    ensures Sound(t, policy, log)
  {
    hide Unbroken, ExactPlaying, Anchored, Progress;
    if !t.stopRequested && t.completion.None? {
      if t.progressAnchor.Some? {
        var p: nat :| p < |log| && ProgressAt(s, log, p);
        assert ProgressAt(t, log, p);
      }
      if t.hasConfirmedPlayback {
        var p: nat, c: nat :| p < c < |log| && ConfirmedAt(s, policy, log, p, c);
        assert ConfirmedAt(t, policy, log, p, c);
      }
    }
  }

  /** Every operation but an accepted sample only gives up witnesses. */
  lemma {:induction false} QuietWeakens(s: SessionSnapshot, op: PolicyOp, policy: EvidencePolicy)
    requires !AcceptedBy(s, op, policy)
    ensures Weakens(s, After(s, op, policy))
  {
    hide Accepts, Consume;
  }

  lemma {:induction false} BackedHasAnchor(s: SessionSnapshot, policy: EvidencePolicy,
                                           log: seq<PlaybackObservation>)
    requires Backed(s, policy, log) && !s.stopRequested && s.completion.None?
    ensures s.progressAnchor.Some? || s.hasConfirmedPlayback ==>
      s.completionAnchor.Some? && log != []
  {
    hide Unbroken, ExactPlaying, Progress;
  }

  lemma {:induction false} AcceptedSample(s: SessionSnapshot, policy: EvidencePolicy,
                                          log: seq<PlaybackObservation>, o: PlaybackObservation,
                                          now: Monotonic)
    requires Sound(s, policy, log) && Accepts(s, o, now, policy) && o.WellFormed()
    ensures var t := Consume(Ordered(s, o), o, now, policy);
            && Sound(t, policy, log + [o])
            && (s.completion.None? && t.completion.Some? ==>
                  !s.stopRequested && Justifies(s.scope, policy, log + [o], t.completion.value))
  {
    var u := Ordered(s, o);
    var t := Consume(u, o, now, policy);
    hide Consume, Unbroken, ExactPlaying, Progress, Anchored, Justifies;
    ConsumeSteps(u, o, now, policy);
    if !s.stopRequested && s.completion.None? {
      assert u.progressAnchor.Some? || u.hasConfirmedPlayback ==> Next(log, o) by {
        BackedHasAnchor(s, policy, log);
      }
      assert Backed(u, policy, log) by {
        WeakensKeeps(s, u.(lastSequence := s.lastSequence, lastMonotonic := s.lastMonotonic),
                     policy, log);
        SameAnchors(u.(lastSequence := s.lastSequence, lastMonotonic := s.lastMonotonic), u,
                    policy, log);
      }
      BackedHasAnchor(u, policy, log);
      ConsumeAnchors(u, o, now, policy);
      BackedExtends(u, policy, log, o, t);
    } else if s.stopRequested {
      StoppedNeverEnds(u, o, now, policy);
    }
  }

  lemma {:induction false} SameAnchors(s: SessionSnapshot, t: SessionSnapshot,
                                       policy: EvidencePolicy, log: seq<PlaybackObservation>)
    requires Backed(s, policy, log)
    requires t == s.(lastSequence := t.lastSequence, lastMonotonic := t.lastMonotonic)
    ensures Backed(t, policy, log)
  {
    hide Unbroken, ExactPlaying, Anchored, Progress;
    if !t.stopRequested && t.completion.None? {
      if t.progressAnchor.Some? {
        var p: nat :| p < |log| && ProgressAt(s, log, p);
        assert ProgressAt(t, log, p);
      }
      if t.hasConfirmedPlayback {
        var p: nat, c: nat :| p < c < |log| && ConfirmedAt(s, policy, log, p, c);
        assert ConfirmedAt(t, policy, log, p, c);
      }
    }
  }

  /** After a stop no sample records an end. */
  lemma {:induction false} StoppedNeverEnds(s: SessionSnapshot, o: PlaybackObservation,
                                            now: Monotonic, policy: EvidencePolicy)
    requires s.stopRequested
    ensures Consume(s, o, now, policy).completion == s.completion
  {
    hide IncrementalIdentity, SamePlayback, Qualified, Attributed, Foreign, Heartbeat, Reopens;
    var t := if Reopens(s, o) then AbandonRelease(s) else s;
    AttributedAfterStop(t, o, IncrementalIdentity(t, o, policy), now, policy);
    AttributedAfterStop(Unwitnessed(t), o, IncrementalIdentity(t, o, policy), now, policy);
  }

  lemma {:induction false} AttributedAfterStop(s: SessionSnapshot, o: PlaybackObservation,
                                               history: bool, now: Monotonic,
                                               policy: EvidencePolicy)
    requires s.stopRequested
    ensures Attributed(s, o, history, now, policy).completion == s.completion
  {
    hide Confirms;
  }

  // ---------------------------------------------------------------- every run

  lemma {:induction false} FreshIsSound(scope: PlaybackScope, policy: EvidencePolicy)
    ensures Sound(FreshSession(scope), policy, [])
  {
  }

  lemma {:induction false} AfterIsSound(s: SessionSnapshot, op: PolicyOp, policy: EvidencePolicy,
                                        log: seq<PlaybackObservation>)
    requires Sound(s, policy, log) && (op.Deliver? ==> op.observation.WellFormed())
    ensures var t := After(s, op, policy);
            var more := if AcceptedBy(s, op, policy) then [op.observation] else [];
            && Sound(t, policy, log + more) && Grows(s, t)
            && (Stops(s.scope, op) ==> t.stopRequested)
            && (s.completion.None? && t.completion.Some? ==>
                  AcceptedBy(s, op, policy) && !s.stopRequested
                  && Justifies(s.scope, policy, log + more, t.completion.value))
  {
    hide Sound, Consume, Justifies, Accepts;
    if AcceptedBy(s, op, policy) {
      var r := Refresh(s, op.now, policy).value;
      ChangesRaiseRevision(s, op.observation, op.now, policy);
      RefreshWeakens(s, op.now, policy);
      WeakensKeeps(s, r, policy, log);
      AcceptedSample(r, policy, log, op.observation, op.now);
    } else {
      QuietWeakens(s, op, policy);
      WeakensKeeps(s, After(s, op, policy), policy, log);
      QuietGrows(s, op, policy);
      assert log + [] == log;
    }
  }

  lemma {:induction false} RefreshWeakens(s: SessionSnapshot, now: Monotonic,
                                          policy: EvidencePolicy)
    requires Refresh(s, now, policy).Ok?
    ensures Weakens(s, Refresh(s, now, policy).value)
    ensures Refresh(s, now, policy).value.stopRequested == s.stopRequested
  {
  }

  lemma {:induction false} QuietGrows(s: SessionSnapshot, op: PolicyOp, policy: EvidencePolicy)
    requires !AcceptedBy(s, op, policy)
    ensures Grows(s, After(s, op, policy))
    ensures Stops(s.scope, op) ==> After(s, op, policy).stopRequested
  {
    hide Accepts, Consume;
  }

  lemma {:induction false} StateIsSound(scope: PlaybackScope, ops: seq<PolicyOp>,
                                        policy: EvidencePolicy)
    requires WellFormedOps(ops)
    ensures State(scope, ops, policy).scope == scope
    ensures Sound(State(scope, ops, policy), policy, Accepted(scope, ops, policy))
    decreases |ops|
  {
    hide Sound, After, AcceptedBy;
    if ops == [] {
      FreshIsSound(scope, policy);
    } else {
      var before := ops[..|ops| - 1];
      StateIsSound(scope, before, policy);
      AfterIsSound(State(scope, before, policy), ops[|ops| - 1], policy,
                   Accepted(scope, before, policy));
    }
  }

  /** Before a stop was recorded, none was asked for. */
  lemma {:induction false} NoStopYet(scope: PlaybackScope, ops: seq<PolicyOp>,
                                     policy: EvidencePolicy)
    requires WellFormedOps(ops) && !State(scope, ops, policy).stopRequested
    ensures forall k :: 0 <= k < |ops| ==> !Stops(scope, ops[k])
    decreases |ops|
  {
    hide Sound, After, AcceptedBy, Stops;
    if ops != [] {
      var before := ops[..|ops| - 1];
      StateIsSound(scope, before, policy);
      AfterIsSound(State(scope, before, policy), ops[|ops| - 1], policy,
                   Accepted(scope, before, policy));
      NoStopYet(scope, before, policy);
      forall k | 0 <= k < |ops| ensures !Stops(scope, ops[k]) {
        assert k < |ops| - 1 ==> ops[k] == before[k];
      }
    }
  }

  /** The operation that adds a completion is one that completes the run. */
  lemma {:induction false} CompletesThere(scope: PlaybackScope, ops: seq<PolicyOp>,
                                          policy: EvidencePolicy, n: nat)
    requires WellFormedOps(ops) && |ops| == n + 1
    requires State(scope, ops[..n], policy).completion.None?
    requires State(scope, ops, policy).completion.Some?
    ensures CompletedAt(scope, ops, policy, n)
  {
    hide Sound, After, AcceptedBy, Stops, Justifies;
    var before := ops[..n];
    var s := State(scope, before, policy);
    StateIsSound(scope, before, policy);
    AfterIsSound(s, ops[n], policy, Accepted(scope, before, policy));
    NoStopYet(scope, before, policy);
    assert ops[..n + 1] == ops;
    assert forall k :: 0 <= k < n ==> before[k] == ops[k];
  }

  /** A run that claims a natural completion accepted, before any stop, two exact samples of ad-free
      progress and then, over consecutive samples of the same playback only, a finished one; and
      the completion has not changed since. */
  lemma {:induction false} CompletionIsSound(scope: PlaybackScope, ops: seq<PolicyOp>,
                                             policy: EvidencePolicy)
    requires WellFormedOps(ops) && State(scope, ops, policy).completion.Some?
    ensures exists n: nat :: n < |ops| && CompletedAt(scope, ops, policy, n)
    decreases |ops|
  {
    hide Sound, After, AcceptedBy, Stops, Justifies;
    var last := |ops| - 1;
    var before := ops[..last];
    var s := State(scope, before, policy);
    if s.completion.None? {
      CompletesThere(scope, ops, policy, last);
    } else {
      StateIsSound(scope, before, policy);
      AfterIsSound(s, ops[last], policy, Accepted(scope, before, policy));
      CompletionIsSound(scope, before, policy);
      var n: nat :| n < last && CompletedAt(scope, before, policy, n);
      assert before[..n] == ops[..n] && before[..n + 1] == ops[..n + 1];
      assert forall k :: 0 <= k <= n ==> before[k] == ops[k];
      assert CompletedAt(scope, ops, policy, n);
    }
  }

  /** A completion, a stop and a loss are permanent, and the order of samples only advances. */
  lemma {:induction false} RunGrows(scope: PlaybackScope, ops: seq<PolicyOp>, n: nat,
                                    policy: EvidencePolicy)
    requires WellFormedOps(ops) && n <= |ops|
    ensures Grows(State(scope, ops[..n], policy), State(scope, ops, policy))
    decreases |ops|
  {
    hide Sound, After, AcceptedBy, Stops, Justifies;
    if n == |ops| {
      assert ops[..n] == ops;
    } else {
      var before := ops[..|ops| - 1];
      StateIsSound(scope, before, policy);
      AfterIsSound(State(scope, before, policy), ops[|ops| - 1], policy,
                   Accepted(scope, before, policy));
      RunGrows(scope, before, n, policy);
      assert before[..n] == ops[..n];
    }
  }

  // ---------------------------------------------------------------- batches

  /** The samples of a batch, delivered one by one at one instant. */
  function Deliveries(batch: seq<PlaybackObservation>, now: Monotonic): (ops: seq<PolicyOp>)
    ensures |ops| == |batch|
  {
    if batch == [] then [] else [Deliver(batch[0], now)] + Deliveries(batch[1..], now)
  }

  /** Folding a batch is delivering its samples in their order; it is refused only when one of them
      is. */
  lemma {:induction false} BatchIsRun(scope: PlaybackScope, ops: seq<PolicyOp>,
                                      batch: seq<PlaybackObservation>, now: Monotonic,
                                      policy: EvidencePolicy)
    ensures var r := ObserveAll(State(scope, ops, policy), batch, now, policy);
            && (r.Ok? ==> State(scope, ops + Deliveries(batch, now), policy) == r.value)
            && (r.Err? ==>
                  exists k :: 0 <= k < |batch|
                    && Observe(State(scope, ops + Deliveries(batch, now)[..k], policy), batch[k],
                               now, policy).Err?)
    decreases |batch|
  {
    hide Observe;
    if batch == [] {
      assert ops + Deliveries(batch, now) == ops;
    } else {
      var all := Deliveries(batch, now);
      var more := ops + [Deliver(batch[0], now)];
      assert more[..|more| - 1] == ops;
      assert ops + all == more + Deliveries(batch[1..], now);
      assert ops + all[..0] == ops;
      if Observe(State(scope, ops, policy), batch[0], now, policy).Ok? {
        BatchIsRun(scope, more, batch[1..], now, policy);
        if ObserveAll(State(scope, ops, policy), batch, now, policy).Err? {
          var k :| 0 <= k < |batch[1..]|
            && Observe(State(scope, more + Deliveries(batch[1..], now)[..k], policy),
                       batch[1..][k], now, policy).Err?;
          assert ops + all[..k + 1] == more + Deliveries(batch[1..], now)[..k];
          assert batch[k + 1] == batch[1..][k];
        }
      }
    }
  }

  // ---------------------------------------------------------------- confirmed without history

  /** A matching heartbeat that skips a number. */
  predicate GappedHeartbeat(s: SessionSnapshot, o: PlaybackObservation) {
    && s.lastSequence >= 0 && o.sequence > s.lastSequence + 1
    && Heartbeat(s.scope, o) && !Foreign(s.scope, o) && !o.connectionReset
  }

  /** The claim "the receiver is playing" outlives the history that confirmed it exactly when a
      matching heartbeat is accepted after a gap: the gap gives up the history and the heartbeat
      leaves the claim as it was. */
  lemma {:induction false} ConfirmedWithoutHistory(s: SessionSnapshot, op: PolicyOp,
                                                   policy: EvidencePolicy)
    requires s.evidence.receiverPlaybackConfirmed ==> s.hasConfirmedPlayback
    ensures var t := After(s, op, policy);
            (t.evidence.receiverPlaybackConfirmed && !t.hasConfirmedPlayback)
            <==> (AcceptedBy(s, op, policy) && GappedHeartbeat(s, op.observation)
                  && Refresh(s, op.now, policy).value.evidence.receiverPlaybackConfirmed)
  {
    hide Accepts, Consume;
    if op.Deliver? && Refresh(s, op.now, policy).Ok? {
      ConsumeConfirms(Ordered(Refresh(s, op.now, policy).value, op.observation), op.observation,
                      op.now, policy);
    }
  }

  lemma {:induction false} ConsumeConfirms(s: SessionSnapshot, o: PlaybackObservation,
                                           now: Monotonic, policy: EvidencePolicy)
    ensures var t := Consume(s, o, now, policy);
            (t.evidence.receiverPlaybackConfirmed && !t.hasConfirmedPlayback)
            <==> (&& s.evidence.receiverPlaybackConfirmed && !s.hasConfirmedPlayback
                  && Heartbeat(s.scope, o) && !Foreign(s.scope, o) && !o.connectionReset)
  {
    hide Media, Foreign, Exit, Lost, Heartbeat, Reopens;
    var t := if Reopens(s, o) then AbandonRelease(s) else s;
    MediaConfirms(t, o, now, policy);
    ExitUnconfirmed(s, o);
    ExitUnconfirmed(t, o);
    HeartbeatIsActive(s.scope, o);
  }

  /** Neither an exit nor a loss leaves a claim of playback. */
  lemma {:induction false} ExitUnconfirmed(s: SessionSnapshot, o: PlaybackObservation)
    ensures !Lost(s, o).evidence.receiverPlaybackConfirmed
    ensures !Exit(s, o).evidence.receiverPlaybackConfirmed
  {
  }

  lemma {:induction false} HeartbeatIsActive(scope: PlaybackScope, o: PlaybackObservation)
    ensures Heartbeat(scope, o) ==> o.sessionActive == Some(true)
  {
  }

  const CONTENT := ContentRef("youtube", "a", Video)
  const SCOPE := PlaybackScope(
    PlaybackRequest("q", "1", "i", CONTENT, PlaybackTarget("tv", "cast")), "s", "c", 0.0, None)

  function PlayingAt(sequence: int, at: Monotonic, position: real): PlaybackObservation {
    PlaybackObservation(SCOPE.request.target, "c", sequence, 0, at, Some("s"), Some(CONTENT),
      PlayerState.Playing, Some(position), None, Some(false), None, "receiver", None, Some("p"),
      None, false, None, IdentityUpdate.Explicit, None)
  }

  function HeartbeatAt(sequence: int, at: Monotonic): PlaybackObservation {
    PlaybackObservation(SCOPE.request.target, "c", sequence, 0, at, Some("s"), None,
      PlayerState.Unknown, None, None, None, None, "receiver", None, None, Some(true), false, None,
      IdentityUpdate.Unknown, None)
  }

  /** Such a run: progress is confirmed by samples 0 and 1, and sample 2 is never delivered. */
  lemma {:induction false} GapLeavesTheClaim()
    ensures var ops := [Deliver(PlayingAt(0, 1.0, 0.0), 1.0), Deliver(PlayingAt(1, 2.0, 1.0), 2.0),
                        Deliver(HeartbeatAt(3, 3.0), 3.0)];
            var t := State(SCOPE, ops, DEFAULT_POLICY);
            WellFormedOps(ops) && t.evidence.receiverPlaybackConfirmed && !t.hasConfirmedPlayback
  {
    var a, b, h := PlayingAt(0, 1.0, 0.0), PlayingAt(1, 2.0, 1.0), HeartbeatAt(3, 3.0);
    var ops := [Deliver(a, 1.0), Deliver(b, 2.0), Deliver(h, 3.0)];
    assert ops[..2] == [Deliver(a, 1.0), Deliver(b, 2.0)];
    assert ops[..2][..1] == [Deliver(a, 1.0)] && ops[..2][..1][..0] == [];
    FirstSample();
    SecondSample(After(FreshSession(SCOPE), Deliver(a, 1.0), DEFAULT_POLICY));
    hide After;
    assert State(SCOPE, ops[..2][..1][..0], DEFAULT_POLICY) == FreshSession(SCOPE);
    assert State(SCOPE, ops[..2][..1], DEFAULT_POLICY)
        == After(FreshSession(SCOPE), Deliver(a, 1.0), DEFAULT_POLICY);
    GappedSample(State(SCOPE, ops[..2], DEFAULT_POLICY));
  }

  lemma {:induction false} FirstSample()
    ensures var a := PlayingAt(0, 1.0, 0.0);
            var t := After(FreshSession(SCOPE), Deliver(a, 1.0), DEFAULT_POLICY);
            && t.scope == SCOPE && t.latest == Some(a) && !t.ownershipLost && t.completion.None?
            && t.lastSequence == 0 && t.lastMonotonic == Some(1.0) && t.releaseBoundary.None?
            && t.progressAnchor == Some(a) && t.completionAnchor == Some(a)
  {
    var a := PlayingAt(0, 1.0, 0.0);
    assert Accepts(FreshSession(SCOPE), a, 1.0, DEFAULT_POLICY);
  }

  lemma {:induction false} SecondSample(s: SessionSnapshot)
    requires var a := PlayingAt(0, 1.0, 0.0);
             && s.scope == SCOPE && s.latest == Some(a) && !s.ownershipLost && s.completion.None?
             && s.lastSequence == 0 && s.lastMonotonic == Some(1.0) && s.releaseBoundary.None?
             && s.progressAnchor == Some(a) && s.completionAnchor == Some(a)
    ensures var b := PlayingAt(1, 2.0, 1.0);
            var t := After(s, Deliver(b, 2.0), DEFAULT_POLICY);
            && t.scope == SCOPE && t.latest == Some(b) && !t.ownershipLost && t.completion.None?
            && t.lastSequence == 1 && t.lastMonotonic == Some(2.0) && t.releaseBoundary.None?
            && t.evidence.receiverPlaybackConfirmed
  {
    var b := PlayingAt(1, 2.0, 1.0);
    assert Accepts(s, b, 2.0, DEFAULT_POLICY);
    assert SamePlayback(s.completionAnchor, b);
    assert Confirms(s.progressAnchor, b, 2.0, DEFAULT_POLICY);
  }

  lemma {:induction false} GappedSample(s: SessionSnapshot)
    requires var b := PlayingAt(1, 2.0, 1.0);
             && s.scope == SCOPE && s.latest == Some(b) && !s.ownershipLost && s.completion.None?
             && s.lastSequence == 1 && s.lastMonotonic == Some(2.0) && s.releaseBoundary.None?
             && s.evidence.receiverPlaybackConfirmed
    ensures var t := After(s, Deliver(HeartbeatAt(3, 3.0), 3.0), DEFAULT_POLICY);
            t.evidence.receiverPlaybackConfirmed && !t.hasConfirmedPlayback
  {
    assert Accepts(s, HeartbeatAt(3, 3.0), 3.0, DEFAULT_POLICY);
  }

  lemma {:induction false} MediaConfirms(s: SessionSnapshot, o: PlaybackObservation, now: Monotonic,
                                         policy: EvidencePolicy)
    ensures var t := Media(s, o, now, policy);
            t.evidence.receiverPlaybackConfirmed ==> t.hasConfirmedPlayback
  {
    hide IncrementalIdentity, Qualified, SamePlayback, Confirms;
  }
}
