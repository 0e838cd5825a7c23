/** When a natural end is recorded: a viewing that is confirmed, continued and finished completes
    its run at the very sample that ends it.  This is the converse of soundness. */
module NaturalEnd {
  import opened Values
  import opened PolicyTrace
  import opened EvidenceTable
  import Policy

  // ---------------------------------------------------------------- a viewing

  predicate MediaAt(scope: PlaybackScope, op: PolicyOp) {
    op.Deliver? && !Beat(scope, op.observation)
  }

  /** From `a` on and before `k`: the last sample, the last media sample, the last exact one. */
  function LastSample(ops: seq<PolicyOp>, a: nat, k: nat): (j: nat)
    requires a < k <= |ops|
    ensures a <= j < k && (ops[a].Deliver? ==> ops[j].Deliver?)
  {
    if k - 1 == a || ops[k - 1].Deliver? then k - 1 else LastSample(ops, a, k - 1)
  }

  function LastMedia(scope: PlaybackScope, ops: seq<PolicyOp>, a: nat, k: nat): (j: nat)
    requires a < k <= |ops|
    ensures a <= j < k && (ops[a].Deliver? ==> ops[j].Deliver?)
  {
    if k - 1 == a || MediaAt(scope, ops[k - 1]) then k - 1 else LastMedia(scope, ops, a, k - 1)
  }

  function LastExact(scope: PlaybackScope, ops: seq<PolicyOp>, a: nat, k: nat): (j: nat)
    requires a < k <= |ops|
    ensures a <= j < k && (ops[a].Deliver? ==> ops[j].Deliver?)
  {
    if k - 1 == a || (ops[k - 1].Deliver? && Exact(scope, ops[k - 1].observation)) then k - 1
    else LastExact(scope, ops, a, k - 1)
  }

  predicate Timely(scope: PlaybackScope, policy: EvidencePolicy, op: PolicyOp) {
    && op.Deliver?
    && op.observation.target == scope.request.target
    && op.observation.connectionGeneration == scope.connectionGeneration
    && scope.startedMonotonic < op.observation.monotonic
    && op.observation.monotonic <= op.now <= op.observation.monotonic + policy.maxAge
  }

  /** Exact content, playing, with a position. */
  predicate Plays(scope: PlaybackScope, op: PolicyOp) {
    && op.Deliver? && Exact(scope, op.observation)
    && op.observation.state.Playing? && op.observation.position.Some?
  }

  /** Nobody stops the session or declares an observation missing. */
  predicate Undisturbed(scope: PlaybackScope, op: PolicyOp) {
    !op.Retire? && !Stops(scope, op)
  }

  /** No look at the clock finds the last media sample too old. */
  predicate Unexpired(scope: PlaybackScope, policy: EvidencePolicy, ops: seq<PolicyOp>, a: nat,
                      k: nat)
    requires a < k < |ops| && ops[a].Deliver?
  {
    var last := ops[LastMedia(scope, ops, a, k)].observation;
    match ops[k]
    case Deliver(_, now) => now <= last.monotonic + policy.maxAge
    case Tick(now) => now <= last.monotonic + policy.maxAge
    case _ => true
  }

  /** A sample of the same viewing: the next number, later, and, unless it is a heartbeat, the same
      playback and provider without a rewind, exact or identified by the last exact sample. */
  predicate Continued(scope: PlaybackScope, policy: EvidencePolicy, ops: seq<PolicyOp>, a: nat,
                      k: nat)
    requires a < k < |ops| && ops[a].Deliver? && ops[k].Deliver?
  {
    var o := ops[k].observation;
    var last := ops[LastSample(ops, a, k)].observation;
    var w := ops[LastExact(scope, ops, a, k)].observation;
    && Timely(scope, policy, ops[k])
    && o.sequence == last.sequence + 1 && last.monotonic < o.monotonic
    && (|| Beat(scope, o)
        || (SameView(w, o) && (Exact(scope, o) || Bridged(scope, policy, w, o))))
  }

  predicate Uninterrupted(scope: PlaybackScope, policy: EvidencePolicy, ops: seq<PolicyOp>, a: nat)
  {
    a < |ops| && ops[a].Deliver?
    && forall k :: a < k < |ops| ==>
         && Undisturbed(scope, ops[k]) && Unexpired(scope, policy, ops, a, k)
         && (ops[k].Deliver? ==> Continued(scope, policy, ops, a, k))
  }

  /** Up to `c` nothing but playing samples and heartbeats. */
  predicate PlaysUntil(scope: PlaybackScope, ops: seq<PolicyOp>, a: nat, c: nat)
    requires c < |ops|
  {
    forall k :: a <= k <= c && MediaAt(scope, ops[k]) ==> Plays(scope, ops[k])
  }

  /** A sample that neither ends nor breaks a confirmed viewing: a pause, buffering, playing with
      a position, or a sample that only the last exact one identifies. */
  predicate Lasts(scope: PlaybackScope, op: PolicyOp) {
    MediaAt(scope, op) ==>
      && !EndsIdle(op.observation)
      && (Exact(scope, op.observation) ==> Witnessing(scope, op.observation))
  }

  predicate LastsUntilEnd(scope: PlaybackScope, ops: seq<PolicyOp>, c: nat) {
    forall k :: c <= k < |ops| - 1 ==> Lasts(scope, ops[k])
  }

  /** Two samples of progress at `a` and `c`, a continued viewing, and its end at the last
      operation. */
  predicate Viewing(scope: PlaybackScope, policy: EvidencePolicy, ops: seq<PolicyOp>, a: nat,
                    c: nat) {
    && a < c < |ops| - 1
    && Uninterrupted(scope, policy, ops, a)
    && PlaysUntil(scope, ops, a, c) && LastsUntilEnd(scope, ops, c)
    && Plays(scope, ops[a]) && Plays(scope, ops[c])
    && ops[a].observation.monotonic + policy.minProgressInterval <= ops[c].observation.monotonic
    && ops[a].observation.position.value < ops[c].observation.position.value
    && MediaAt(scope, ops[|ops| - 1]) && EndsIdle(ops[|ops| - 1].observation)
  }

  /** The run accepts the first sample of the viewing, and has no end, stop or loss before it. */
  predicate Begins(scope: PlaybackScope, policy: EvidencePolicy, ops: seq<PolicyOp>, a: nat)
    requires a < |ops| && ops[a].Deliver?
  {
    var s := State(scope, ops[..a], policy);
    && s.completion.None? && !s.stopRequested
    && Policy.Observe(s, ops[a].observation, ops[a].now, policy).Ok?
    && Heard(s, ops[a].observation, ops[a].now, policy)
  }

  /** The witness of progress held after the first sample is not too old at `c`. */
  predicate Recent(scope: PlaybackScope, policy: EvidencePolicy, ops: seq<PolicyOp>, a: nat,
                   c: nat)
    requires a < c < |ops| && ops[c].Deliver?
  {
    var w := State(scope, ops[..a + 1], policy).progressAnchor;
    w.Some? ==> ops[c].now <= w.value.monotonic + policy.maxAge
  }

  // ---------------------------------------------------------------- one operation

  /** What the viewing has made of the session before operation `k`. */
  predicate Watching(scope: PlaybackScope, ops: seq<PolicyOp>, a: nat, k: nat, s: SessionSnapshot)
    requires a < k <= |ops| && ops[a].Deliver?
  {
    var last := ops[LastSample(ops, a, k)].observation;
    && s.scope == scope && s.completion.None? && !s.stopRequested && !s.ownershipLost
    && s.lastSequence == last.sequence && s.lastMonotonic == Some(last.monotonic)
    && s.latest == Some(ops[LastMedia(scope, ops, a, k)].observation)
    && s.completionAnchor == Some(ops[LastExact(scope, ops, a, k)].observation)
  }

  /** The session is confirmed, or it still holds this witness of progress. */
  predicate Holds(s: SessionSnapshot, w: PlaybackObservation) {
    || s.hasConfirmedPlayback
    || (&& s.progressAnchor == Some(w) && s.completionAnchor.Some?
        && s.completionAnchor.value.playbackId == w.playbackId
        && w.position.Some? && s.completionAnchor.value.position.Some?
        && w.position.value <= s.completionAnchor.value.position.value)
  }

  predicate SameWitnesses(s: SessionSnapshot, t: SessionSnapshot) {
    && t.scope == s.scope && t.completion == s.completion && t.stopRequested == s.stopRequested
    && t.ownershipLost == s.ownershipLost && t.lastSequence == s.lastSequence
    && t.lastMonotonic == s.lastMonotonic && t.latest == s.latest
    && t.completionAnchor == s.completionAnchor && t.progressAnchor == s.progressAnchor
    && t.hasConfirmedPlayback == s.hasConfirmedPlayback
  }

  /** Every other operation leaves the viewing alone. */
  lemma {:induction false} OthersLeave(scope: PlaybackScope, policy: EvidencePolicy,
                                       ops: seq<PolicyOp>, a: nat, k: nat, s: SessionSnapshot)
    requires a < k < |ops| && ops[a].Deliver? && !ops[k].Deliver?
    requires Undisturbed(scope, ops[k]) && Unexpired(scope, policy, ops, a, k)
    requires Watching(scope, ops, a, k, s)
    ensures SameWitnesses(s, After(s, ops[k], policy))
    ensures Watching(scope, ops, a, k + 1, After(s, ops[k], policy))
  {
    hide Beat;
  }

  /** What one continued sample leaves, in terms of the table. */
  lemma {:induction false} SampleContinues(scope: PlaybackScope, policy: EvidencePolicy,
                                           ops: seq<PolicyOp>, a: nat, k: nat,
                                           s: SessionSnapshot)
    requires a < k < |ops| && ops[a].Deliver? && ops[k].Deliver?
    requires Unexpired(scope, policy, ops, a, k) && Continued(scope, policy, ops, a, k)
    requires ops[LastMedia(scope, ops, a, k)].observation.monotonic
          <= ops[LastSample(ops, a, k)].observation.monotonic
    requires Watching(scope, ops, a, k, s)
    ensures var o, now := ops[k].observation, ops[k].now;
            && Policy.Observe(s, o, now, policy).Ok?
            && Heard(s, o, now, policy) && Continuous(s, o, now, policy)
  {
    hide Beat, SameView, Exact, Bridged;
    RefusesBackwardClock(s, ops[k].observation, ops[k].now, policy);
  }

  lemma {:induction false} TimesRise(scope: PlaybackScope, policy: EvidencePolicy,
                                     ops: seq<PolicyOp>, a: nat, j: nat, k: nat)
    requires Uninterrupted(scope, policy, ops, a)
    requires a <= j < k <= |ops| && ops[j].Deliver?
    ensures ops[j].observation.monotonic
         <= ops[LastSample(ops, a, k)].observation.monotonic
    ensures k < |ops| && ops[k].Deliver? ==>
      ops[j].observation.monotonic < ops[k].observation.monotonic
    decreases k - j
  {
    hide Undisturbed, Unexpired;
    if j < k - 1 {
      TimesRise(scope, policy, ops, a, j, k - 1);
    }
  }

  /** The sample is only ownership: every witness stays. */
  lemma {:induction false} BeatLeaves(s: SessionSnapshot, o: PlaybackObservation, now: Monotonic,
                                      policy: EvidencePolicy)
    requires Policy.Observe(s, o, now, policy).Ok? && s.completion.None?
    requires Heard(s, o, now, policy) && Continuous(s, o, now, policy) && Beat(s.scope, o)
    ensures var t := Policy.Observe(s, o, now, policy).value;
            SameWitnesses(s.(lastSequence := o.sequence, lastMonotonic := Some(o.monotonic)), t)
  {
    hide Policy.Observe, Heard, Continuous, Exact, Bridged, Claims, Exits;
    SampleTold(s, o, now, policy);
    EndsAreMedial(s, o, now, policy);
    BeatIsOurs(s, o);
  }

  lemma {:induction false} BeatIsOurs(s: SessionSnapshot, o: PlaybackObservation)
    ensures Beat(s.scope, o) ==> !Loses(s, o) && !Medial(s.scope, o) && !Exits(o)
    ensures Medial(s.scope, o) ==> !Loses(s, o) && !Exits(o) && !Beat(s.scope, o)
  {
    hide Releases, StopsHere;
  }

  /** A media sample of a session without an end. */
  lemma {:induction false} MediaTold(s: SessionSnapshot, o: PlaybackObservation, now: Monotonic,
                                     policy: EvidencePolicy)
    requires Policy.Observe(s, o, now, policy).Ok? && s.completion.None?
    requires Heard(s, o, now, policy) && Continuous(s, o, now, policy) && Medial(s.scope, o)
    ensures var t := Policy.Observe(s, o, now, policy).value;
            && t.scope == s.scope && t.stopRequested == s.stopRequested
            && t.ownershipLost == s.ownershipLost
            && t.lastSequence == o.sequence && t.lastMonotonic == Some(o.monotonic)
            && t.latest == Some(o)
            && MediaWitnesses(s, o, now, policy, t)
  {
    hide Policy.Observe, Heard, Continuous, Exact, Bridged, Claims, Exits, Medial, Beat, Loses,
         MediaWitnesses, Ends;
    SampleTold(s, o, now, policy);
    BeatIsOurs(s, o);
  }

  /** Another playing sample: progress is confirmed, or its witness is held on to. */
  lemma {:induction false} PlayingStep(s: SessionSnapshot, o: PlaybackObservation, now: Monotonic,
                                       policy: EvidencePolicy, w: PlaybackObservation,
                                       t: SessionSnapshot)
    requires MediaWitnesses(s, o, now, policy, t) && Follows(s.completionAnchor, o)
    requires Exact(s.scope, o) && o.state.Playing? && o.position.Some?
    requires Holds(s, w) && o.monotonic < w.monotonic + policy.maxAge
    ensures t.completion.None? && t.completionAnchor == Some(o) && Holds(t, w)
    ensures (&& now <= w.monotonic + policy.maxAge && w.position.Some?
             && w.position.value < o.position.value
             && w.monotonic + policy.minProgressInterval <= o.monotonic)
            ==> t.hasConfirmedPlayback
  {
    hide Exact, Bridged;
  }

  lemma {:induction false} LastingStep(s: SessionSnapshot, o: PlaybackObservation, now: Monotonic,
                                       policy: EvidencePolicy, w: PlaybackObservation,
                                       t: SessionSnapshot)
    requires MediaWitnesses(s, o, now, policy, t) && s.completionAnchor == Some(w)
    requires SameView(w, o) && s.hasConfirmedPlayback && !EndsIdle(o)
    requires Witnessing(s.scope, o) || (!Exact(s.scope, o) && Bridged(s.scope, policy, w, o))
    ensures t.completion.None? && t.hasConfirmedPlayback
    ensures t.completionAnchor == Some(if Exact(s.scope, o) then o else w)
  {
    hide Bridged, Agrees;
  }

  lemma {:induction false} EndingStep(s: SessionSnapshot, o: PlaybackObservation, now: Monotonic,
                                      policy: EvidencePolicy, w: PlaybackObservation,
                                      t: SessionSnapshot)
    requires MediaWitnesses(s, o, now, policy, t) && s.completionAnchor == Some(w)
    requires SameView(w, o) && EndsIdle(o) && !s.stopRequested
    requires Exact(s.scope, o) || Bridged(s.scope, policy, w, o)
    ensures s.hasConfirmedPlayback ==> t.completion == Some(EndEvidence(Some(w), o))
    ensures t.completion.Some? ==> s.hasConfirmedPlayback
  {
    hide Bridged, Exact, SameView;
  }

  // ---------------------------------------------------------------- the viewing

  lemma {:induction false} StateStep(scope: PlaybackScope, ops: seq<PolicyOp>,
                                     policy: EvidencePolicy, k: nat)
    requires k < |ops|
    ensures State(scope, ops[..k + 1], policy)
         == After(State(scope, ops[..k], policy), ops[k], policy)
  {
    hide After;
    assert ops[..k + 1][..k] == ops[..k];
  }

  lemma {:induction false} DeliveredStep(s: SessionSnapshot, op: PolicyOp, policy: EvidencePolicy)
    requires op.Deliver? && Policy.Observe(s, op.observation, op.now, policy).Ok?
    ensures After(s, op, policy) == Policy.Observe(s, op.observation, op.now, policy).value
  {
    hide Policy.Observe;
  }

  lemma {:induction false} NamedIsMedial(scope: PlaybackScope, policy: EvidencePolicy,
                                         w: PlaybackObservation, o: PlaybackObservation)
    ensures Exact(scope, o) || Bridged(scope, policy, w, o) ==> Medial(scope, o)
    ensures Medial(scope, o) ==> !Beat(scope, o)
  {
    hide Ours, Agrees;
  }

  /** One operation of the viewing before its end. */
  lemma {:induction false} ViewingStep(scope: PlaybackScope, policy: EvidencePolicy,
                                       ops: seq<PolicyOp>, a: nat, k: nat, s: SessionSnapshot)
    requires Uninterrupted(scope, policy, ops, a) && a < k < |ops|
    requires Watching(scope, ops, a, k, s)
    ensures var t := After(s, ops[k], policy);
            && (!MediaAt(scope, ops[k]) ==>
                  SameWitnesses(s.(lastSequence := t.lastSequence,
                                   lastMonotonic := t.lastMonotonic), t)
                  && Watching(scope, ops, a, k + 1, t))
            && (MediaAt(scope, ops[k]) ==>
                  && t.scope == s.scope && t.stopRequested == s.stopRequested
                  && t.ownershipLost == s.ownershipLost
                  && t.lastSequence == ops[k].observation.sequence
                  && t.lastMonotonic == Some(ops[k].observation.monotonic)
                  && t.latest == Some(ops[k].observation)
                  && MediaWitnesses(s, ops[k].observation, ops[k].now, policy, t))
  {
    hide After, Undisturbed, Unexpired, Continued, Continuous, Heard, MediaWitnesses, Beat;
    if !ops[k].Deliver? {
      OthersLeave(scope, policy, ops, a, k, s);
    } else {
      var o, now := ops[k].observation, ops[k].now;
      TimesRise(scope, policy, ops, a, LastMedia(scope, ops, a, k), k);
      SampleContinues(scope, policy, ops, a, k, s);
      DeliveredStep(s, ops[k], policy);
      NamedIsMedial(scope, policy, ops[LastExact(scope, ops, a, k)].observation, o);
      if Beat(scope, o) {
        BeatLeaves(s, o, now, policy);
      } else {
        ContinuedMedia(scope, policy, ops, a, k);
        MediaTold(s, o, now, policy);
      }
    }
  }

  lemma {:induction false} ContinuedMedia(scope: PlaybackScope, policy: EvidencePolicy,
                                          ops: seq<PolicyOp>, a: nat, k: nat)
    requires a < k < |ops| && ops[a].Deliver? && MediaAt(scope, ops[k])
    requires Continued(scope, policy, ops, a, k)
    ensures var o, w := ops[k].observation, ops[LastExact(scope, ops, a, k)].observation;
            SameView(w, o) && (Exact(scope, o) || Bridged(scope, policy, w, o))
            && Medial(scope, o)
  {
    hide Exact, Bridged, SameView;
    NamedIsMedial(scope, policy, ops[LastExact(scope, ops, a, k)].observation,
                  ops[k].observation);
  }

  /** The first playing sample starts a viewing: progress is confirmed, or a witness of it held. */
  lemma {:induction false} PlayingStarts(s: SessionSnapshot, o: PlaybackObservation, now: Monotonic,
                                         policy: EvidencePolicy)
    requires Policy.Observe(s, o, now, policy).Ok? && Heard(s, o, now, policy)
    requires s.completion.None? && !s.stopRequested
    requires Exact(s.scope, o) && o.state.Playing? && o.position.Some?
    ensures var t := Policy.Observe(s, o, now, policy).value;
            && t.scope == s.scope && t.completion.None? && !t.stopRequested && !t.ownershipLost
            && t.lastSequence == o.sequence && t.lastMonotonic == Some(o.monotonic)
            && t.latest == Some(o) && t.completionAnchor == Some(o)
            && t.progressAnchor.Some? && Holds(t, t.progressAnchor.value)
            && t.progressAnchor.value.playbackId == o.playbackId
            && t.progressAnchor.value.position.Some?
            && t.progressAnchor.value.position.value <= o.position.value
  {
    hide Policy.Observe, Heard, Continuous, Exact, Bridged, Claims, Exits, Medial, Beat, Loses,
         Ends, SameView;
    SampleTold(s, o, now, policy);
    BeatIsOurs(s, o);
    NamedIsMedial(s.scope, policy, o, o);
    EndsNeedIdle(s, o, now, policy);
    HeardIsOwned(s, o, now, policy);
  }

  lemma {:induction false} EndsNeedIdle(s: SessionSnapshot, o: PlaybackObservation, now: Monotonic,
                                        policy: EvidencePolicy)
    ensures Ends(s, o, now, policy) ==> o.state.Idle?
  {
    hide Heard, Continues, Exact, Attributed;
  }

  lemma {:induction false} HeardIsOwned(s: SessionSnapshot, o: PlaybackObservation, now: Monotonic,
                                        policy: EvidencePolicy)
    ensures Heard(s, o, now, policy) ==> !s.ownershipLost
  {
  }

  /** The witness of progress is no later than the last accepted sample. */
  lemma {:induction false} WitnessIsEarlier(scope: PlaybackScope, ops: seq<PolicyOp>,
                                            policy: EvidencePolicy)
    requires WellFormedOps(ops)
    ensures var s := State(scope, ops, policy);
            !s.stopRequested && s.completion.None? && s.progressAnchor.Some? ==>
              s.lastMonotonic.Some?
              && s.progressAnchor.value.monotonic <= s.lastMonotonic.value
  {
    StateIsSound(scope, ops, policy);
    hide State, PolicyTrace.Accepted, Anchored, ExactPlaying, SameRun, ConfirmedAt;
    var s, log := State(scope, ops, policy), PolicyTrace.Accepted(scope, ops, policy);
    if !s.stopRequested && s.completion.None? && s.progressAnchor.Some? {
      var p: nat :| p < |log| && ProgressAt(s, log, p);
      UnbrokenRises(scope, log, p, |log| - 1);
    }
  }

  lemma {:induction false} UnbrokenRises(scope: PlaybackScope, log: seq<PlaybackObservation>,
                                         p: nat, k: nat)
    requires p <= k < |log| && Unbroken(scope, log, p)
    ensures log[p].monotonic <= log[k].monotonic
  {
    hide SameRun;
    if p < k {
      UnbrokenRises(scope, log, p, k - 1);
    }
  }

  /** The session after the first sample of a viewing. */
  lemma {:induction false} ViewingStarts(scope: PlaybackScope, policy: EvidencePolicy,
                                         ops: seq<PolicyOp>, a: nat)
    requires WellFormedOps(ops) && a < |ops| && Plays(scope, ops[a])
    requires Begins(scope, policy, ops, a)
    ensures var t := State(scope, ops[..a + 1], policy);
            && Watching(scope, ops, a, a + 1, t)
            && t.progressAnchor.Some? && Holds(t, t.progressAnchor.value)
            && t.progressAnchor.value.position.Some?
            && t.progressAnchor.value.position.value <= ops[a].observation.position.value
            && t.progressAnchor.value.monotonic <= ops[a].observation.monotonic
  {
    hide After, State, Exact, Heard, Holds;
    StateIsSound(scope, ops[..a], policy);
    StateStep(scope, ops, policy, a);
    DeliveredStep(State(scope, ops[..a], policy), ops[a], policy);
    PlayingStarts(State(scope, ops[..a], policy), ops[a].observation, ops[a].now, policy);
    WitnessIsEarlier(scope, ops[..a + 1], policy);
  }

  /** An operation that is not followed by the end: playing goes on, or nothing happens. */
  lemma {:induction false} PlayingGoesOn(scope: PlaybackScope, policy: EvidencePolicy,
                                         ops: seq<PolicyOp>, a: nat, k: nat, s: SessionSnapshot,
                                         w: PlaybackObservation)
    requires Uninterrupted(scope, policy, ops, a) && a < k < |ops|
    requires Watching(scope, ops, a, k, s) && Holds(s, w)
    requires MediaAt(scope, ops[k]) ==>
      Plays(scope, ops[k]) && ops[k].observation.monotonic < w.monotonic + policy.maxAge
    ensures var t := After(s, ops[k], policy);
            Watching(scope, ops, a, k + 1, t) && Holds(t, w)
  {
    hide After, Undisturbed, Unexpired, Continued, MediaWitnesses, Exact, Bridged, Beat,
         Uninterrupted, SameView;
    ViewingStep(scope, policy, ops, a, k, s);
    if MediaAt(scope, ops[k]) {
      MediaContinues(scope, policy, ops, a, k);
      PlayingStep(s, ops[k].observation, ops[k].now, policy, w, After(s, ops[k], policy));
    }
  }

  lemma {:induction false} MediaContinues(scope: PlaybackScope, policy: EvidencePolicy,
                                          ops: seq<PolicyOp>, a: nat, k: nat)
    requires Uninterrupted(scope, policy, ops, a) && a < k < |ops| && MediaAt(scope, ops[k])
    ensures ops[a].Deliver?
    ensures var o, w := ops[k].observation, ops[LastExact(scope, ops, a, k)].observation;
            SameView(w, o) && (Exact(scope, o) || Bridged(scope, policy, w, o))
  {
    hide Exact, Bridged, SameView, Beat;
    ContinuedMedia(scope, policy, ops, a, k);
  }

  /** Up to the second sample of progress. */
  lemma {:induction false} ViewingPlays(scope: PlaybackScope, policy: EvidencePolicy,
                                        ops: seq<PolicyOp>, a: nat, k: nat,
                                        w: PlaybackObservation)
    requires WellFormedOps(ops) && a < k <= |ops| && Uninterrupted(scope, policy, ops, a)
    requires Plays(scope, ops[a]) && Begins(scope, policy, ops, a)
    requires State(scope, ops[..a + 1], policy).progressAnchor == Some(w)
    requires forall i :: a < i < k && MediaAt(scope, ops[i]) ==>
      Plays(scope, ops[i]) && ops[i].observation.monotonic < w.monotonic + policy.maxAge
    ensures Watching(scope, ops, a, k, State(scope, ops[..k], policy))
    ensures Holds(State(scope, ops[..k], policy), w)
  {
    hide State, After, Uninterrupted, Plays, MediaAt, Watching, Holds, Begins;
    if k == a + 1 {
      ViewingStarts(scope, policy, ops, a);
    } else {
      ViewingPlays(scope, policy, ops, a, k - 1, w);
      StateStep(scope, ops, policy, k - 1);
      PlayingGoesOn(scope, policy, ops, a, k - 1, State(scope, ops[..k - 1], policy), w);
    }
  }

  /** A confirmed session stays confirmed by whatever neither ends nor breaks the viewing. */
  lemma {:induction false} ViewingLasts(scope: PlaybackScope, policy: EvidencePolicy,
                                        ops: seq<PolicyOp>, a: nat, k: nat, s: SessionSnapshot)
    requires Uninterrupted(scope, policy, ops, a) && a < k < |ops|
    requires Watching(scope, ops, a, k, s) && s.hasConfirmedPlayback && Lasts(scope, ops[k])
    ensures var t := After(s, ops[k], policy);
            Watching(scope, ops, a, k + 1, t) && t.hasConfirmedPlayback
  {
    hide After, Undisturbed, Unexpired, Continued, MediaWitnesses, Exact, Bridged, Beat,
         Uninterrupted, SameView, Witnessing, EndsIdle;
    ViewingStep(scope, policy, ops, a, k, s);
    if MediaAt(scope, ops[k]) {
      MediaContinues(scope, policy, ops, a, k);
      LastingStep(s, ops[k].observation, ops[k].now, policy,
                  ops[LastExact(scope, ops, a, k)].observation, After(s, ops[k], policy));
    }
  }

  lemma {:induction false} ConfirmedLasts(scope: PlaybackScope, policy: EvidencePolicy,
                                          ops: seq<PolicyOp>, a: nat, c: nat, k: nat)
    requires a < c <= k <= |ops| && Uninterrupted(scope, policy, ops, a)
    requires Watching(scope, ops, a, c, State(scope, ops[..c], policy))
    requires State(scope, ops[..c], policy).hasConfirmedPlayback
    requires forall i :: c <= i < k ==> Lasts(scope, ops[i])
    ensures Watching(scope, ops, a, k, State(scope, ops[..k], policy))
    ensures State(scope, ops[..k], policy).hasConfirmedPlayback
  {
    hide State, After, Uninterrupted, Lasts, Watching;
    if k > c {
      ConfirmedLasts(scope, policy, ops, a, c, k - 1);
      StateStep(scope, ops, policy, k - 1);
      ViewingLasts(scope, policy, ops, a, k - 1, State(scope, ops[..k - 1], policy));
    }
  }

  /** The end of a viewing is recorded exactly when the session was confirmed. */
  lemma {:induction false} ViewingEnds(scope: PlaybackScope, policy: EvidencePolicy,
                                       ops: seq<PolicyOp>, a: nat, k: nat, s: SessionSnapshot)
    requires Uninterrupted(scope, policy, ops, a) && a < k < |ops|
    requires Watching(scope, ops, a, k, s)
    requires MediaAt(scope, ops[k]) && EndsIdle(ops[k].observation)
    ensures var t := After(s, ops[k], policy);
            var w := ops[LastExact(scope, ops, a, k)].observation;
            && (t.completion.Some? <==> s.hasConfirmedPlayback)
            && (s.hasConfirmedPlayback ==>
                  t.completion == Some(EndEvidence(Some(w), ops[k].observation)))
  {
    hide After, Undisturbed, Unexpired, Continued, MediaWitnesses, Exact, Bridged, Beat,
         Uninterrupted, SameView, EndsIdle;
    ViewingStep(scope, policy, ops, a, k, s);
    MediaContinues(scope, policy, ops, a, k);
    EndingStep(s, ops[k].observation, ops[k].now, policy,
               ops[LastExact(scope, ops, a, k)].observation, After(s, ops[k], policy));
  }

  // ---------------------------------------------------------------- when an end is recorded

  lemma {:induction false} ConfirmingStep(s: SessionSnapshot, o: PlaybackObservation,
                                          now: Monotonic, policy: EvidencePolicy,
                                          w: PlaybackObservation, t: SessionSnapshot)
    requires MediaWitnesses(s, o, now, policy, t) && Follows(s.completionAnchor, o)
    requires Exact(s.scope, o) && o.state.Playing? && o.position.Some? && Holds(s, w)
    requires w.position.Some? && w.position.value < o.position.value
    requires w.monotonic + policy.minProgressInterval <= o.monotonic
    ensures t.completion.None? && t.completionAnchor == Some(o)
    ensures now <= w.monotonic + policy.maxAge ==> t.hasConfirmedPlayback
    ensures !s.hasConfirmedPlayback && w.monotonic + policy.maxAge < now ==>
      !t.hasConfirmedPlayback
  {
    hide Exact, Bridged;
  }

  /** The second sample of progress confirms the playback exactly when the witness is recent. */
  lemma {:induction false} ProgressDecides(scope: PlaybackScope, policy: EvidencePolicy,
                                           ops: seq<PolicyOp>, a: nat, c: nat, s: SessionSnapshot,
                                           w: PlaybackObservation)
    requires Uninterrupted(scope, policy, ops, a) && a < c < |ops| && Plays(scope, ops[c])
    requires Watching(scope, ops, a, c, s) && Holds(s, w)
    requires w.position.Some? && w.position.value < ops[c].observation.position.value
    requires w.monotonic + policy.minProgressInterval <= ops[c].observation.monotonic
    ensures var t := After(s, ops[c], policy);
            && Watching(scope, ops, a, c + 1, t)
            && (ops[c].now <= w.monotonic + policy.maxAge ==> t.hasConfirmedPlayback)
            && (!s.hasConfirmedPlayback && w.monotonic + policy.maxAge < ops[c].now ==>
                  !t.hasConfirmedPlayback)
  {
    hide After, Undisturbed, Unexpired, Continued, MediaWitnesses, Exact, Bridged, Beat,
         Uninterrupted, SameView;
    NamedIsMedial(scope, policy, w, ops[c].observation);
    ViewingStep(scope, policy, ops, a, c, s);
    MediaContinues(scope, policy, ops, a, c);
    ConfirmingStep(s, ops[c].observation, ops[c].now, policy, w, After(s, ops[c], policy));
  }

  lemma {:induction false} PlaysLasts(scope: PlaybackScope, op: PolicyOp)
    ensures Plays(scope, op) ==> Lasts(scope, op)
  {
    hide Exact, Beat;
  }

  /** A viewing that was confirmed at its first sample, or whose first witness is recent at the
      second, is confirmed when it ends. */
  lemma {:induction false} ViewingIsConfirmed(scope: PlaybackScope, policy: EvidencePolicy,
                                              ops: seq<PolicyOp>, a: nat, c: nat)
    requires WellFormedOps(ops) && Viewing(scope, policy, ops, a, c)
    requires Begins(scope, policy, ops, a)
    requires State(scope, ops[..a + 1], policy).hasConfirmedPlayback
          || Recent(scope, policy, ops, a, c)
    ensures var s := State(scope, ops[..|ops| - 1], policy);
            Watching(scope, ops, a, |ops| - 1, s) && s.hasConfirmedPlayback
  {
    hide State, After, Watching, Begins, Lasts, MediaAt, EndsIdle, Exact;
    ViewingStarts(scope, policy, ops, a);
    var first := State(scope, ops[..a + 1], policy);
    var w := first.progressAnchor.value;
    forall i | a < i < |ops| - 1 ensures Lasts(scope, ops[i]) {
      PlaysLasts(scope, ops[i]);
      NotMediaLasts(scope, ops[i]);
    }
    if first.hasConfirmedPlayback {
      ConfirmedLasts(scope, policy, ops, a, a + 1, |ops| - 1);
    } else {
      forall i | a < i < c && MediaAt(scope, ops[i])
        ensures Plays(scope, ops[i])
        ensures ops[i].observation.monotonic < w.monotonic + policy.maxAge
      {
        TimesRise(scope, policy, ops, a, i, c);
        ContinuedIsTimely(scope, policy, ops, a, c);
      }
      ViewingPlays(scope, policy, ops, a, c, w);
      StateStep(scope, ops, policy, c);
      ProgressDecides(scope, policy, ops, a, c, State(scope, ops[..c], policy), w);
      ConfirmedLasts(scope, policy, ops, a, c + 1, |ops| - 1);
    }
  }

  lemma {:induction false} NotMediaLasts(scope: PlaybackScope, op: PolicyOp)
    ensures !MediaAt(scope, op) ==> Lasts(scope, op)
  {
    hide MediaAt;
  }

  lemma {:induction false} ContinuedIsTimely(scope: PlaybackScope, policy: EvidencePolicy,
                                             ops: seq<PolicyOp>, a: nat, k: nat)
    requires Uninterrupted(scope, policy, ops, a) && a < k < |ops| && ops[k].Deliver?
    ensures ops[k].observation.monotonic <= ops[k].now
  {
    hide Unexpired, Undisturbed, Exact, Beat, Bridged, SameView;
  }

  lemma {:induction false} WatchingIsOpen(scope: PlaybackScope, ops: seq<PolicyOp>, a: nat,
                                          k: nat, s: SessionSnapshot)
    requires a < k <= |ops| && ops[a].Deliver? && Watching(scope, ops, a, k, s)
    ensures s.completion.None?
  {
  }

  /** The run completes at its last operation and not before, with the evidence of that sample and
      of the last exact one. */
  predicate EndsLast(scope: PlaybackScope, policy: EvidencePolicy, ops: seq<PolicyOp>, a: nat)
    requires a < |ops| - 1 && ops[a].Deliver? && ops[|ops| - 1].Deliver?
  {
    var n := |ops| - 1;
    var w := ops[LastExact(scope, ops, a, n)].observation;
    && State(scope, ops[..n], policy).completion.None?
    && State(scope, ops, policy).completion == Some(EndEvidence(Some(w), ops[n].observation))
    && CompletedAt(scope, ops, policy, n)
  }

  /** Such a viewing completes its run at the very sample that ends it, with the evidence of that
      sample and of the last exact one, and not before. */
  lemma {:induction false} NaturalEndIsRecorded(scope: PlaybackScope, policy: EvidencePolicy,
                                                ops: seq<PolicyOp>, a: nat, c: nat)
    requires WellFormedOps(ops) && Viewing(scope, policy, ops, a, c)
    requires Begins(scope, policy, ops, a)
    requires State(scope, ops[..a + 1], policy).hasConfirmedPlayback
          || Recent(scope, policy, ops, a, c)
    ensures EndsLast(scope, policy, ops, a)
  {
    hide State, After, Watching, Begins, MediaAt, EndsIdle, Exact, Uninterrupted;
    var n := |ops| - 1;
    assert ops[..n + 1] == ops;
    ViewingIsConfirmed(scope, policy, ops, a, c);
    StateStep(scope, ops, policy, n);
    ViewingEnds(scope, policy, ops, a, n, State(scope, ops[..n], policy));
    FirstIsDelivered(scope, policy, ops, a);
    WatchingIsOpen(scope, ops, a, n, State(scope, ops[..n], policy));
    CompletesThere(scope, ops, policy, n);
  }

  lemma {:induction false} FirstIsDelivered(scope: PlaybackScope, policy: EvidencePolicy,
                                            ops: seq<PolicyOp>, a: nat)
    requires Uninterrupted(scope, policy, ops, a)
    ensures ops[a].Deliver?
  {
    hide Continued, Unexpired, Undisturbed;
  }

  /** From a fresh session: two timely samples of progress, the first still fresh at the second,
      and a continued viewing to its end complete the run. */
  lemma {:induction false} FreshViewingIsRecorded(scope: PlaybackScope, policy: EvidencePolicy,
                                                  ops: seq<PolicyOp>, c: nat)
    requires WellFormedOps(ops) && Viewing(scope, policy, ops, 0, c)
    requires Timely(scope, policy, ops[0])
    requires ops[c].now <= ops[0].observation.monotonic + policy.maxAge
    ensures EndsLast(scope, policy, ops, 0)
  {
    hide After, Watching, Exact, Uninterrupted, EndsLast, LastsUntilEnd, PlaysUntil;
    FreshBegins(scope, policy, ops);
    NaturalEndIsRecorded(scope, policy, ops, 0, c);
  }

  lemma {:induction false} FreshBegins(scope: PlaybackScope, policy: EvidencePolicy,
                                       ops: seq<PolicyOp>)
    requires WellFormedOps(ops) && ops != [] && Plays(scope, ops[0])
    requires Timely(scope, policy, ops[0])
    ensures Begins(scope, policy, ops, 0)
    ensures State(scope, ops[..1], policy).progressAnchor == Some(ops[0].observation)
  {
    hide After, Exact, Policy.Observe, Claims, Facts, Beat, Bridged, SameView;
    var s, o, now := FreshSession(scope), ops[0].observation, ops[0].now;
    assert State(scope, ops[..0], policy) == s;
    RefusesBackwardClock(s, o, now, policy);
    StateStep(scope, ops, policy, 0);
    DeliveredStep(s, ops[0], policy);
    SampleTold(s, o, now, policy);
    NamedIsMedial(scope, policy, o, o);
    assert ops[0].observation.WellFormed();
  }

  // ---------------------------------------------------------------- a witness that is too old

  /** Nothing but the first sample, the one at `c` and the end carries media. */
  predicate OnlyThree(scope: PlaybackScope, ops: seq<PolicyOp>, a: nat, c: nat) {
    forall k :: a < k < |ops| - 1 && k != c ==> !MediaAt(scope, ops[k])
  }

  lemma {:induction false} NothingHappens(scope: PlaybackScope, policy: EvidencePolicy,
                                          ops: seq<PolicyOp>, a: nat, b: nat, k: nat)
    requires Uninterrupted(scope, policy, ops, a) && a < b <= k <= |ops|
    requires Watching(scope, ops, a, b, State(scope, ops[..b], policy))
    requires forall i :: b <= i < k ==> !MediaAt(scope, ops[i])
    ensures var s, t := State(scope, ops[..b], policy), State(scope, ops[..k], policy);
            && Watching(scope, ops, a, k, t)
            && t.hasConfirmedPlayback == s.hasConfirmedPlayback
            && t.progressAnchor == s.progressAnchor && t.completionAnchor == s.completionAnchor
  {
    hide State, After, Uninterrupted, Watching, MediaAt, MediaWitnesses;
    if k > b {
      NothingHappens(scope, policy, ops, a, b, k - 1);
      StateStep(scope, ops, policy, k - 1);
      FirstIsDelivered(scope, policy, ops, a);
      ViewingStep(scope, policy, ops, a, k - 1, State(scope, ops[..k - 1], policy));
    }
  }

  /** With two samples of progress and no more media before the end, the end is recorded exactly
      when the playback was confirmed at the first or its witness is recent at the second: a
      witness that an earlier, stalled sample left behind can be too old although both samples of
      progress are timely. */
  lemma {:induction false} WitnessDecides(scope: PlaybackScope, policy: EvidencePolicy,
                                          ops: seq<PolicyOp>, a: nat, c: nat)
    requires WellFormedOps(ops) && Viewing(scope, policy, ops, a, c)
    requires Begins(scope, policy, ops, a) && OnlyThree(scope, ops, a, c)
    ensures State(scope, ops, policy).completion.Some?
        <==> State(scope, ops[..a + 1], policy).hasConfirmedPlayback
             || Recent(scope, policy, ops, a, c)
  {
    hide State, After, Watching, Begins, Beat, EndsIdle, Exact, Uninterrupted, EndsLast, Holds;
    if State(scope, ops[..a + 1], policy).hasConfirmedPlayback || Recent(scope, policy, ops, a, c) {
      NaturalEndIsRecorded(scope, policy, ops, a, c);
      LastHasEnd(scope, policy, ops, a);
    } else {
      var n := |ops| - 1;
      assert ops[..n + 1] == ops;
      ViewingStarts(scope, policy, ops, a);
      var w := State(scope, ops[..a + 1], policy).progressAnchor.value;
      NothingHappens(scope, policy, ops, a, a + 1, c);
      StillHolds(State(scope, ops[..a + 1], policy), State(scope, ops[..c], policy), w);
      StateStep(scope, ops, policy, c);
      ProgressDecides(scope, policy, ops, a, c, State(scope, ops[..c], policy), w);
      NothingHappens(scope, policy, ops, a, c + 1, n);
      StateStep(scope, ops, policy, n);
      ViewingEnds(scope, policy, ops, a, n, State(scope, ops[..n], policy));
    }
  }

  lemma {:induction false} StillHolds(s: SessionSnapshot, t: SessionSnapshot,
                                      w: PlaybackObservation)
    requires Holds(s, w) && t.hasConfirmedPlayback == s.hasConfirmedPlayback
    requires t.progressAnchor == s.progressAnchor && t.completionAnchor == s.completionAnchor
    ensures Holds(t, w)
  {
  }

  lemma {:induction false} LastHasEnd(scope: PlaybackScope, policy: EvidencePolicy,
                                      ops: seq<PolicyOp>, a: nat)
    requires a < |ops| - 1 && ops[a].Deliver? && ops[|ops| - 1].Deliver?
    requires EndsLast(scope, policy, ops, a)
    ensures State(scope, ops, policy).completion.Some?
  {
    hide State, CompletedAt;
  }

  function FinishedAt(sequence: int, at: Monotonic): PlaybackObservation {
    PlayingAt(sequence, at, 9.0).(state := PlayerState.Idle,
                                  idleReason := Some(IdleReason.Finished))
  }

  /** A stall at position 5 from 1.0 to 3.0, progress from 3.0 to 6.5, and the end. */
  function StalledRun(): seq<PolicyOp> {
    [Deliver(PlayingAt(0, 1.0, 5.0), 1.0), Deliver(PlayingAt(1, 3.0, 5.0), 3.0),
     Deliver(PlayingAt(2, 6.5, 6.0), 6.5), Deliver(FinishedAt(3, 7.0), 7.0)]
  }

  /** Such a run: two timely samples of progress and an end that is not recorded. */
  lemma {:induction false} StalledWitnessHidesTheEnd()
    ensures WellFormedOps(StalledRun()) && Viewing(SCOPE, DEFAULT_POLICY, StalledRun(), 1, 2)
    ensures Begins(SCOPE, DEFAULT_POLICY, StalledRun(), 1)
    ensures State(SCOPE, StalledRun(), DEFAULT_POLICY).completion.None?
  {
    hide State, After;
    StalledViewing();
    StalledStart();
    WitnessDecides(SCOPE, DEFAULT_POLICY, StalledRun(), 1, 2);
  }

  lemma {:induction false} StalledViewing()
    ensures WellFormedOps(StalledRun()) && Viewing(SCOPE, DEFAULT_POLICY, StalledRun(), 1, 2)
    ensures OnlyThree(SCOPE, StalledRun(), 1, 2)
  {
    hide State, After;
    var ops := StalledRun();
    assert LastSample(ops, 1, 2) == 1 && LastMedia(SCOPE, ops, 1, 2) == 1;
    assert LastExact(SCOPE, ops, 1, 2) == 1;
    assert LastSample(ops, 1, 3) == 2 && LastMedia(SCOPE, ops, 1, 3) == 2;
    assert LastExact(SCOPE, ops, 1, 3) == 2;
  }

  lemma {:induction false} StalledStart()
    ensures Begins(SCOPE, DEFAULT_POLICY, StalledRun(), 1)
    ensures var t := State(SCOPE, StalledRun()[..2], DEFAULT_POLICY);
            !t.hasConfirmedPlayback && t.progressAnchor == Some(PlayingAt(0, 1.0, 5.0))
  {
    hide State, After;
    var ops := StalledRun();
    var p, a := PlayingAt(0, 1.0, 5.0), PlayingAt(1, 3.0, 5.0);
    StateStep(SCOPE, ops, DEFAULT_POLICY, 0);
    StateStep(SCOPE, ops, DEFAULT_POLICY, 1);
    StalledFirst(ops);
    StalledSecond(State(SCOPE, ops[..1], DEFAULT_POLICY));
  }

  lemma {:induction false} StalledFirst(ops: seq<PolicyOp>)
    requires ops == StalledRun()
    ensures var p := PlayingAt(0, 1.0, 5.0);
            var t := State(SCOPE, ops[..1], DEFAULT_POLICY);
            && t.scope == SCOPE && t.completion.None? && !t.stopRequested && !t.ownershipLost
            && !t.hasConfirmedPlayback && t.latest == Some(p) && t.lastSequence == 0
            && t.lastMonotonic == Some(1.0)
            && t.progressAnchor == Some(p) && t.completionAnchor == Some(p)
  {
    assert State(SCOPE, ops[..0], DEFAULT_POLICY) == FreshSession(SCOPE);
    StateStep(SCOPE, ops, DEFAULT_POLICY, 0);
    assert Policy.Accepts(FreshSession(SCOPE), PlayingAt(0, 1.0, 5.0), 1.0, DEFAULT_POLICY);
  }

  lemma {:induction false} StalledSecond(s: SessionSnapshot)
    requires var p := PlayingAt(0, 1.0, 5.0);
             && s.scope == SCOPE && s.completion.None? && !s.stopRequested && !s.ownershipLost
             && !s.hasConfirmedPlayback && s.latest == Some(p) && s.lastSequence == 0
             && s.lastMonotonic == Some(1.0)
             && s.progressAnchor == Some(p) && s.completionAnchor == Some(p)
    ensures var a := PlayingAt(1, 3.0, 5.0);
            var t := After(s, Deliver(a, 3.0), DEFAULT_POLICY);
            && Policy.Observe(s, a, 3.0, DEFAULT_POLICY).Ok? && Heard(s, a, 3.0, DEFAULT_POLICY)
            && !t.hasConfirmedPlayback && t.progressAnchor == Some(PlayingAt(0, 1.0, 5.0))
  {
    var a := PlayingAt(1, 3.0, 5.0);
    assert Policy.Accepts(s, a, 3.0, DEFAULT_POLICY);
    assert Policy.SamePlayback(s.completionAnchor, a);
    assert !Policy.Confirms(s.progressAnchor, a, 3.0, DEFAULT_POLICY);
  }
}
