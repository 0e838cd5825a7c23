/** How an exit of the session is understood over a run: a stop that was asked for is seen, a
    release that was asked for and accepted is confirmed, and any other exit is a loss. */
module SessionExits {
  import opened Values
  import opened PolicyTrace
  import opened EvidenceTable
  import Policy

  predicate ExitHeard(scope: PlaybackScope, ops: seq<PolicyOp>, policy: EvidencePolicy)
    requires ops != []
  {
    var n := |ops| - 1;
    var s := State(scope, ops[..n], policy);
    && ops[n].Deliver? && Exits(ops[n].observation)
    && Policy.Observe(s, ops[n].observation, ops[n].now, policy).Ok?
    && Heard(s, ops[n].observation, ops[n].now, policy)
  }

  lemma {:induction false} LastStep(scope: PlaybackScope, ops: seq<PolicyOp>,
                                    policy: EvidencePolicy, k: nat)
    requires k < |ops|
    ensures State(scope, ops[..k + 1], policy)
         == After(State(scope, ops[..k], policy), ops[k], policy)
  {
    hide After;
    assert ops[..k + 1][..k] == ops[..k];
  }

  // ---------------------------------------------------------------- a stop

  /** No later request moves the boundary of the stop. */
  predicate KeepsBoundary(op: PolicyOp) {
    op.AskStop? ==> op.boundary.None?
  }

  lemma {:induction false} BoundaryStays(s: SessionSnapshot, op: PolicyOp, policy: EvidencePolicy)
    ensures var t := After(s, op, policy);
            && (s.stopRequested ==> t.stopRequested)
            && (op.AskStop? ==> t.stopRequested)
            && t.stopBoundary
               == (if op.AskStop? && op.boundary.Some? then op.boundary else s.stopBoundary)
  {
    hide Policy.Observe, Witnesses, Claims, Heard;
    if op.Deliver? && Policy.Observe(s, op.observation, op.now, policy).Ok? {
      SampleTold(s, op.observation, op.now, policy);
    }
  }

  lemma {:induction false} StopIsRemembered(scope: PlaybackScope, ops: seq<PolicyOp>,
                                            policy: EvidencePolicy, i: nat)
    requires i < |ops| && ops[i].AskStop? && ops[i].boundary.Some?
    requires forall k :: i < k < |ops| ==> KeepsBoundary(ops[k])
    ensures var t := State(scope, ops, policy);
            t.stopRequested && t.stopBoundary == ops[i].boundary
    decreases |ops|
  {
    hide After, KeepsBoundary;
    var n := |ops| - 1;
    BoundaryStays(State(scope, ops[..n], policy), ops[n], policy);
    if i < n {
      KeptBoundary(ops[n]);
      StopIsRemembered(scope, ops[..n], policy, i);
    }
  }

  lemma {:induction false} KeptBoundary(op: PolicyOp)
    ensures KeepsBoundary(op) ==> !(op.AskStop? && op.boundary.Some?)
  {
  }

  /** After a stop was asked for, an exit that is heard is the stop exactly when it is later than
      the boundary, and a loss otherwise. */
  lemma {:induction false} StopIsSeen(scope: PlaybackScope, ops: seq<PolicyOp>,
                                      policy: EvidencePolicy, i: nat)
    requires i < |ops| - 1 && ops[i].AskStop? && ops[i].boundary.Some?
    requires forall k :: i < k < |ops| ==> KeepsBoundary(ops[k])
    requires WellFormedOps(ops) && ExitHeard(scope, ops, policy)
    ensures var t := State(scope, ops, policy);
            var later := ops[i].boundary.value < ops[|ops| - 1].observation.monotonic;
            && t.state == (if later then PlayerState.Stopped else PlayerState.Unknown)
            && (t.ownershipLost <==> !later)
            && t.evidence.reason == (if later then StopObserved else SessionReplaced)
  {
    hide State, After, KeepsBoundary, Policy.Observe, Heard, Witnesses, Facts;
    var n := |ops| - 1;
    assert ops[..n + 1] == ops;
    LastStep(scope, ops, policy, n);
    StopIsRemembered(scope, ops[..n], policy, i);
    StateIsSound(scope, ops[..n], policy);
    ExitTold(State(scope, ops[..n], policy), ops[n].observation, ops[n].now, policy);
  }

  /** What is made of an exit that is heard. */
  lemma {:induction false} ExitTold(s: SessionSnapshot, o: PlaybackObservation, now: Monotonic,
                                    policy: EvidencePolicy)
    requires Policy.Observe(s, o, now, policy).Ok? && Heard(s, o, now, policy) && Exits(o)
    ensures var t := After(s, Deliver(o, now), policy);
            && (t.ownershipLost <==> !Releases(s, o) && !StopsHere(s, o))
            && (Releases(s, o) ==> t.releaseConfirmed && t.state.Ended?)
            && (!Releases(s, o) && StopsHere(s, o) ==>
                  t.state.Stopped? && t.evidence.reason == StopObserved)
            && (t.ownershipLost ==> t.state == PlayerState.Unknown && !t.releaseConfirmed
                                    && t.evidence.reason == SessionReplaced)
  {
    hide Policy.Observe, Witnesses, Lapses, Releases, StopsHere, Ends;
    SampleTold(s, o, now, policy);
  }

  // ---------------------------------------------------------------- a release

  /** The receipt says that the session accepted its release. */
  predicate AcceptsRelease(scope: PlaybackScope, op: PolicyOp) {
    && op.Receive?
    && op.receipt.requestId == scope.request.requestId
    && op.receipt.attemptId == scope.request.attemptId
    && op.receipt.action.Release? && op.receipt.outcome.Accepted?
  }

  /** While the release is pending: clock ticks, its receipt, and samples that do not give the
      release up. */
  predicate Awaits(s: SessionSnapshot, op: PolicyOp, policy: EvidencePolicy) {
    match op
    case Tick(_) => true
    case Receive(_) => AcceptsRelease(s.scope, op)
    case Deliver(o, now) => !Heard(s, o, now, policy) || !GivesUpRelease(s, o)
    case _ => false
  }

  predicate Pending(s: SessionSnapshot, boundary: Monotonic) {
    s.completion.Some? && !s.stopRequested && s.releaseBoundary == Some(boundary)
  }

  predicate Released(s: SessionSnapshot) {
    s.receipt.Some? && s.receipt.value.action.Release? && s.receipt.value.outcome.Accepted?
  }

  lemma {:induction false} AwaitingKeeps(s: SessionSnapshot, op: PolicyOp, policy: EvidencePolicy,
                                         boundary: Monotonic)
    requires Pending(s, boundary) && Awaits(s, op, policy)
    ensures var t := After(s, op, policy);
            && Pending(t, boundary) && t.scope == s.scope
            && (Released(s) || op.Receive? ==> Released(t))
  {
    hide Policy.Observe, Witnesses, Claims, Heard, GivesUpRelease, Exits, Ends;
    if op.Deliver? && Policy.Observe(s, op.observation, op.now, policy).Ok? {
      SampleTold(s, op.observation, op.now, policy);
    }
  }

  lemma {:induction false} ReleaseIsPending(scope: PlaybackScope, ops: seq<PolicyOp>,
                                            policy: EvidencePolicy, i: nat, n: nat)
    requires WellFormedOps(ops) && i < n <= |ops| && ops[i].AskRelease?
    requires var s := State(scope, ops[..i], policy); s.completion.Some? && !s.stopRequested
    requires forall k :: i < k < n ==> Awaits(State(scope, ops[..k], policy), ops[k], policy)
    ensures Pending(State(scope, ops[..n], policy), ops[i].start)
    ensures (exists k :: i < k < n && ops[k].Receive?) ==> Released(State(scope, ops[..n], policy))
    decreases n
  {
    hide State, Pending, Awaits, Released, After;
    LastStep(scope, ops, policy, n - 1);
    if i == n - 1 {
      AskingPends(State(scope, ops[..i], policy), ops[i], policy);
    } else {
      ReleaseIsPending(scope, ops, policy, i, n - 1);
      AwaitingKeeps(State(scope, ops[..n - 1], policy), ops[n - 1], policy, ops[i].start);
    }
  }

  lemma {:induction false} AskingPends(s: SessionSnapshot, op: PolicyOp, policy: EvidencePolicy)
    requires op.AskRelease? && s.completion.Some? && !s.stopRequested
    ensures Pending(After(s, op, policy), op.start)
  {
  }

  /** After the release of a completed session was asked for and its receipt came, an exit that is
      heard confirms the release exactly when it is later than the request, and is a loss
      otherwise. */
  lemma {:induction false} ReleaseIsSeen(scope: PlaybackScope, ops: seq<PolicyOp>,
                                         policy: EvidencePolicy, i: nat)
    requires WellFormedOps(ops) && i < |ops| - 1 && ops[i].AskRelease?
    requires var s := State(scope, ops[..i], policy); s.completion.Some? && !s.stopRequested
    requires forall k :: i < k < |ops| - 1 ==> Awaits(State(scope, ops[..k], policy), ops[k], policy)
    requires exists k :: i < k < |ops| - 1 && ops[k].Receive?
    requires ExitHeard(scope, ops, policy)
    requires var o, s := ops[|ops| - 1].observation, State(scope, ops[..|ops| - 1], policy);
             !Skips(s, o) && !Reopened(s, o)
    ensures var t := State(scope, ops, policy);
            var later := ops[i].start < ops[|ops| - 1].observation.monotonic;
            && (t.releaseConfirmed <==> later) && (t.ownershipLost <==> !later)
            && t.state == (if later then PlayerState.Ended else PlayerState.Unknown)
  {
    hide State, After, Awaits, Policy.Observe, Heard, Witnesses, Facts, Skips;
    var n := |ops| - 1;
    assert ops[..n + 1] == ops;
    LastStep(scope, ops, policy, n);
    ReleaseIsPending(scope, ops, policy, i, n);
    ExitTold(State(scope, ops[..n], policy), ops[n].observation, ops[n].now, policy);
  }
}
