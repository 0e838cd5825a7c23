/** Pure queue decisions: at most one local settlement or one next item is proposed. */
module QueuePolicy {
  import opened Values
  import opened QueueRecords
  import opened QueueJournal
  import opened DecisionMaterial

  datatype Disposition = Hold | Ready | Complete

  datatype Reason =
    | Canceled | InvalidQueue | AuthorityRequired | ScopeMismatch | NeedsAttention
    | CommandUnresolved | SessionRequired | AwaitingCompletion | InvalidCompletion
    | CompletionObserved | SkipRequested | ReceiverReplaced | ReceiverUnconfirmed | NextItem
    | Exhausted | ReconciliationRequired | NativeSuccessorRequired

  datatype QueueAuthority = QueueAuthority(
    queueId: Id, generation: int, connectionGeneration: Id, startedMonotonic: Monotonic)

  datatype SkipIntent = SkipIntent(intentId: Id, attemptId: Id, itemId: Id)

  datatype AttemptSettlement = AttemptSettlement(
    attemptId: Id, itemId: Id, outcome: QueueIntent, decisionId: Id)

  datatype QueueDecision = QueueDecision(
    queueId: Id, expectedRevision: int, generation: int, disposition: Disposition,
    reason: Reason, settlement: Option<AttemptSettlement>, nextItemId: Option<Id>)

  /** How times become text, and the digest of a decision's material. */
  datatype Rendering = Rendering(
    instant: Instant -> string, moment: Monotonic -> string, digest: string -> string)

  // ---------------------------------------------------------------- is the queue consistent

  /** Pending items come last. */
  predicate PendingLast(items: seq<QueueEntry>) {
    forall i, j :: 0 <= i < j < |items| && items[i].intent.Pending? ==> items[j].intent.Pending?
  }

  /** One pass over the items decides it. */
  method CheckPendingLast(items: seq<QueueEntry>) returns (ok: bool)
    ensures ok <==> PendingLast(items)
  {
    var pendingSeen := false;
    for n := 0 to |items|
      invariant pendingSeen <==> exists i :: 0 <= i < n && items[i].intent.Pending?
      invariant PendingLast(items[..n])
    {
      if items[n].intent.Pending? {
        pendingSeen := true;
      } else if pendingSeen {
        return false;
      }
    }
    assert items[..|items|] == items;
    ok := true;
  }

  predicate ValidAttempt(q: QueueSnapshot, a: QueueAttempt) {
    && AttemptOk(q.items, a)
    && (a.intent.Finished? || a.intent.Skipped? ==> a.decisionId.Some? && a.decisionId.value != "")
    && ValidOrigin(q, a)
  }

  predicate ValidOrigin(q: QueueSnapshot, a: QueueAttempt) {
    match a.origin
    case LocalStart => Starts(q.commands, a.attemptId) == 1
    case NativeObserved(reservationId) =>
      && q.mode.Native?
      && Starts(q.commands, a.attemptId) == 0
      && exists k :: 0 <= k < |q.reservations|
           && q.reservations[k].reservationId == reservationId
           && q.reservations[k].successorAttemptId == a.attemptId
           && q.reservations[k].successorItemId == a.itemId
           && !q.reservations[k].state.Reserved?
           && q.reservations[k].adoptionDecisionId.Some?
  }

  /** Inconsistent snapshots are rejected, even when built by hand. */
  predicate ValidQueue(q: QueueSnapshot) {
    && q.queueId != "" && q.items != [] && q.revision >= 0 && q.generation >= 0
    && ItemKeys(q.items) && AttemptIds(q.attempts)
    && (forall i, j :: 0 <= i < j < |q.attempts| ==> q.attempts[i].itemId != q.attempts[j].itemId)
    && (forall i, j :: 0 <= i < j < |q.commands| ==>
          q.commands[i].commandId != q.commands[j].commandId)
    && (forall k :: 0 <= k < |q.commands| ==>
          && AttemptAt(q.attempts, q.commands[k].attemptId).Some?
          && 0 <= q.commands[k].generation <= q.generation)
    && OneCurrent(q.items, q.currentItemId)
    && (if q.attempts != [] then q.currentItemId == Some(q.attempts[|q.attempts| - 1].itemId)
        else q.currentItemId.None? && forall k :: 0 <= k < |q.items| ==> !q.items[k].intent.Current?)
    && PendingLast(q.items)
    && (forall k :: 0 <= k < |q.attempts| ==> ValidAttempt(q, q.attempts[k]))
  }

  predicate OneCurrent(items: seq<QueueEntry>, current: Option<Id>) {
    && (forall i, j :: 0 <= i < j < |items| ==>
          !(items[i].intent.Current? && items[j].intent.Current?))
    && (forall i :: 0 <= i < |items| && items[i].intent.Current? ==>
          current == Some(items[i].itemId))
  }

  // ---------------------------------------------------------------- evidence

  predicate SessionMatches(q: QueueSnapshot, session: SessionSnapshot, authority: QueueAuthority,
                           now: Monotonic) {
    && q.attempts != []
    && var a := q.attempts[|q.attempts| - 1];
    && var request := session.scope.request;
    && request.target == q.target && request.queueItemId == a.itemId
    && request.attemptId == a.attemptId
    && ItemAt(q.items, a.itemId).Some?
    && request.content == q.items[ItemAt(q.items, a.itemId).value].content
    && session.scope.connectionGeneration == authority.connectionGeneration
    && authority.startedMonotonic <= session.scope.startedMonotonic <= now
    && (q.mode.Native? || forall k :: 0 <= k < |q.commands| && q.commands[k].attemptId == a.attemptId
                            ==> q.commands[k].generation == q.generation)
  }

  /** The completion is a well-formed historical fact of this session, not from the future. */
  predicate ValidCompletion(session: SessionSnapshot, now: Monotonic) {
    && session.completion.Some?
    && var c := session.completion.value;
    && session.evidence.naturalCompletionConfirmed
    && c.source != ""
    && 0 <= c.identitySequence <= c.sequence <= session.lastSequence
    && session.lastMonotonic.Some?
    && session.scope.startedMonotonic < c.monotonic <= session.lastMonotonic.value <= now
    && (if c.attribution.Explicit? then c.identitySequence == c.sequence
        else c.identitySequence < c.sequence)
  }

  function AttributionName(a: CompletionAttribution): string {
    match a
    case Explicit => "explicit"
    case OrderedHistory => "ordered_history"
  }

  function FinishParts(render: Rendering, scope: PlaybackScope, c: CompletionEvidence)
    : seq<string>
  {
    ["finish", scope.connectionGeneration, scope.sessionId, c.source, render.instant(c.observedAt),
     render.moment(c.monotonic), Str(c.sequence), Str(c.identitySequence),
     AttributionName(c.attribution)]
  }

  function DecisionParts(render: Rendering, queueId: Id, session: SessionSnapshot,
                         skip: Option<SkipIntent>): seq<string>
    requires skip.None? ==> session.completion.Some?
  {
    [queueId, session.scope.request.attemptId, session.scope.request.queueItemId]
    + (if skip.Some? then ["skip", skip.value.intentId]
       else FinishParts(render, session.scope, session.completion.value))
  }

  function DecisionId(render: Rendering, queueId: Id, session: SessionSnapshot,
                      skip: Option<SkipIntent>): Id
    requires skip.None? ==> session.completion.Some?
  {
    "queue-decision-v1-" + render.digest(Material(DecisionParts(render, queueId, session, skip)))
  }

  /** A receiver sample that is not older than what the session has seen. */
  predicate Supersedes(receiver: PlaybackObservation, session: SessionSnapshot) {
    && (session.lastMonotonic.Some? ==> receiver.monotonic >= session.lastMonotonic.value)
    && receiver.sequence >= session.lastSequence
    && (Some(receiver) != session.latest ==>
          receiver.sequence != session.lastSequence
          && Some(receiver.monotonic) != session.lastMonotonic)
  }

  /** The receiver is idle: it reports no session, or it reports the very end of this one. */
  predicate ReceiverReady(q: QueueSnapshot, session: Option<SessionSnapshot>,
                          authority: QueueAuthority, receiver: Option<PlaybackObservation>,
                          now: Monotonic, policy: EvidencePolicy) {
    && (receiver.Some? && session.Some? ==> Supersedes(receiver.value, session.value))
    && var latest := if receiver.Some? then receiver
                     else if session.Some? then session.value.latest else None;
    && latest.Some?
    && var o := latest.value;
    && o.target == q.target && o.connectionGeneration == authority.connectionGeneration
    && o.monotonic > authority.startedMonotonic && Fresh(now, o.monotonic, policy.maxAge)
    && !o.connectionReset
    && (session.Some? ==>
          && o.sequence >= session.value.lastSequence
          && (session.value.lastMonotonic.Some? ==>
                o.monotonic >= session.value.lastMonotonic.value))
    && (o.sessionActive == Some(false)
        || (session.Some? && EndsSession(session.value, o, now)))
  }

  predicate EndsSession(session: SessionSnapshot, o: PlaybackObservation, now: Monotonic) {
    && session.completion.Some? && session.latest == Some(o)
    && var c := session.completion.value;
    && ValidCompletion(session, now)
    && o.sequence == session.lastSequence == c.sequence
    && session.lastMonotonic == Some(o.monotonic) && o.monotonic == c.monotonic
    && o.sessionId == Some(session.scope.sessionId)
    && o.applicationId == session.scope.applicationId
    && (o.content.None? || o.content == Some(session.scope.request.content))
    && o.state.Idle? && o.idleReason == Some(IdleReason.Finished) && o.adActive == Some(false)
    && o.providerEvidence.Some? && o.providerEvidence.value.phase.Finished?
    && o.providerEvidence.value.source == c.source
  }

  // ---------------------------------------------------------------- the decision

  function Holding(q: QueueSnapshot, reason: Reason): QueueDecision {
    QueueDecision(q.queueId, q.revision, q.generation, Hold, reason, None, None)
  }

  predicate AnyStop(commands: seq<JournalCommand>) {
    exists k :: 0 <= k < |commands| && commands[k].action.Stop?
  }

  predicate AnyUnsettled(items: seq<QueueEntry>) {
    exists k :: 0 <= k < |items|
      && !items[k].intent.Finished? && !items[k].intent.Skipped? && !items[k].intent.Pending?
  }

  /** The first pending item. */
  function FirstPending(items: seq<QueueEntry>): (found: Option<nat>)
    ensures found.Some? ==>
      && found.value < |items| && items[found.value].intent.Pending?
      && forall k :: 0 <= k < found.value ==> !items[k].intent.Pending?
    ensures found.None? ==> forall k :: 0 <= k < |items| ==> !items[k].intent.Pending?
  {
    if items == [] then None
    else if items[0].intent.Pending? then Some(0)
    else
      match FirstPending(items[1..])
      case None => None
      case Some(k) => Some(k + 1)
  }

  predicate Unacknowledged(q: QueueSnapshot, attemptId: Id) {
    exists k :: 0 <= k < |q.commands| && q.commands[k].attemptId == attemptId
      && q.commands[k].action.Start? && !q.commands[k].state.Acknowledged?
  }

  /** The guards before any attempt is looked at. */
  function Precluded(q: QueueSnapshot, session: Option<SessionSnapshot>, now: Monotonic,
                     authority: Option<QueueAuthority>, skip: Option<SkipIntent>): Option<Reason>
  {
    if q.cancellationRequested || (session.Some? && session.value.stopRequested) then Some(Reason.Canceled)
    else if !ValidQueue(q) then Some(InvalidQueue)
    else if AnyStop(q.commands) then Some(Reason.Canceled)
    else if authority.None? then Some(AuthorityRequired)
    else if || authority.value.queueId != q.queueId
            || authority.value.generation != q.generation
            || authority.value.startedMonotonic > now then Some(ScopeMismatch)
    else if && !q.mode.Native?
            && (exists k :: 0 <= k < |q.items|
                  && (q.items[k].intent.NeedsAttention? || q.items[k].intent.Stopped?))
    then Some(Reason.NeedsAttention)
    else if AnyUnresolved(q.commands) then Some(CommandUnresolved)
    else if session.Some? && !SessionMatches(q, session.value, authority.value, now)
    then Some(ScopeMismatch)
    else if q.attempts != [] && session.None? then Some(SessionRequired)
    else if q.attempts == [] && (exists k :: 0 <= k < |q.items| && !q.items[k].intent.Pending?)
    then Some(Reason.NeedsAttention)
    else if && skip.Some?
            && (|| q.attempts == []
                || skip.value.attemptId != q.attempts[|q.attempts| - 1].attemptId
                || skip.value.itemId != q.attempts[|q.attempts| - 1].itemId)
    then Some(ScopeMismatch)
    else None
  }

  /** A current attempt is settled by its completion or by a skip. */
  function Settling(render: Rendering, q: QueueSnapshot, session: SessionSnapshot, now: Monotonic,
                    skip: Option<SkipIntent>): QueueDecision
    requires q.attempts != []
  {
    var a := q.attempts[|q.attempts| - 1];
    if skip.None? && !ValidCompletion(session, now) then
      Holding(q, if session.completion.Some? then InvalidCompletion else AwaitingCompletion)
    else if Unacknowledged(q, a.attemptId) then Holding(q, CommandUnresolved)
    else
      Holding(q, if session.ownershipLost then ReceiverReplaced
                 else if skip.Some? then SkipRequested else CompletionObserved).(
        settlement := Some(AttemptSettlement(
          a.attemptId, a.itemId, if skip.Some? then Skipped else QueueIntent.Finished,
          DecisionId(render, q.queueId, session, skip))))
  }

  function Decide(render: Rendering, q: QueueSnapshot, session: Option<SessionSnapshot>,
                  now: Monotonic, authority: Option<QueueAuthority>,
                  receiver: Option<PlaybackObservation>, skip: Option<SkipIntent>,
                  policy: EvidencePolicy): QueueDecision
  {
    var precluded := Precluded(q, session, now, authority, skip);
    if precluded.Some? then Holding(q, precluded.value)
    else if q.attempts != [] && q.attempts[|q.attempts| - 1].intent.Current? then
      Settling(render, q, session.value, now, skip)
    else if q.reconciliationRequired then Holding(q, ReconciliationRequired)
    else if q.mode.Native? && q.attempts != [] then Holding(q, NativeSuccessorRequired)
    else if session.Some? && session.value.ownershipLost then Holding(q, ReceiverReplaced)
    else if && q.attempts != [] && q.attempts[|q.attempts| - 1].intent.Finished?
            && (|| !ValidCompletion(session.value, now)
                || q.attempts[|q.attempts| - 1].decisionId
                     != Some(DecisionId(render, q.queueId, session.value, None)))
    then Holding(q, InvalidCompletion)
    else if AnyUnsettled(q.items) then Holding(q, Reason.NeedsAttention)
    else
      match FirstPending(q.items)
      case None => Holding(q, Exhausted).(disposition := Complete)
      case Some(k) =>
        if !ReceiverReady(q, session, authority.value, receiver, now, policy)
        then Holding(q, ReceiverUnconfirmed)
        else Holding(q, Reason.NextItem).(
          disposition := Ready, nextItemId := Some(q.items[k].itemId))
  }

  // ---------------------------------------------------------------- what a decision identifies

  /** Different texts have different digests, and different wall-clock times are written
      differently. */
  ghost predicate Faithful(render: Rendering) {
    && (forall x: string, y: string :: render.digest(x) == render.digest(y) ==> x == y)
    && (forall x: Instant, y: Instant :: render.instant(x) == render.instant(y) ==> x == y)
  }

  /** These two moments are written differently unless they are the same.  No notation can tell all
      real numbers apart; `repr` tells the doubles apart. */
  predicate Tells(render: Rendering, x: Monotonic, y: Monotonic) {
    render.moment(x) == render.moment(y) ==> x == y
  }

  /** There are such renderings. */
  lemma {:induction false} SomeRenderingIsFaithful(moment: Monotonic -> string)
    ensures Faithful(Rendering(n => Str(n), moment, text => text))
  {
    forall x: Instant, y: Instant | Str(x) == Str(y) ensures x == y {
      StrIsUnambiguous(x, y);
    }
  }

  /** Two decisions with one identity are about the same queue, attempt and item, and either record
      the same skip or a completion in the same session; the same one, if their moments are told
      apart. */
  lemma {:induction false} DecisionsIdentifyWork(render: Rendering, q1: Id, s1: SessionSnapshot,
                                                 k1: Option<SkipIntent>, q2: Id,
                                                 s2: SessionSnapshot, k2: Option<SkipIntent>)
    requires Faithful(render)
    requires (k1.None? ==> s1.completion.Some?) && (k2.None? ==> s2.completion.Some?)
    requires DecisionId(render, q1, s1, k1) == DecisionId(render, q2, s2, k2)
    ensures q1 == q2
    ensures s1.scope.request.attemptId == s2.scope.request.attemptId
    ensures s1.scope.request.queueItemId == s2.scope.request.queueItemId
    ensures k1.Some? <==> k2.Some?
    ensures k1.Some? ==> k1.value.intentId == k2.value.intentId
    ensures k1.None? ==>
      && s1.scope.connectionGeneration == s2.scope.connectionGeneration
      && s1.scope.sessionId == s2.scope.sessionId
      && (Tells(render, s1.completion.value.monotonic, s2.completion.value.monotonic) ==>
            s1.completion == s2.completion)
  {
    var p1, p2 := DecisionParts(render, q1, s1, k1), DecisionParts(render, q2, s2, k2);
    var d1, d2 := render.digest(Material(p1)), render.digest(Material(p2));
    assert ("queue-decision-v1-" + d1)[18..] == d1 && ("queue-decision-v1-" + d2)[18..] == d2;
    MaterialIsUnambiguous(p1, p2);
    assert p1[0] == q1 && p2[0] == q2;
    assert p1[1] == s1.scope.request.attemptId && p2[1] == s2.scope.request.attemptId;
    assert p1[2] == s1.scope.request.queueItemId && p2[2] == s2.scope.request.queueItemId;
    assert |p1| == if k1.Some? then 5 else 12;
    assert |p2| == if k2.Some? then 5 else 12;
    if k1.Some? {
      assert p1[4] == k1.value.intentId && p2[4] == k2.value.intentId;
    } else {
      assert p1[3..] == FinishParts(render, s1.scope, s1.completion.value);
      assert p2[3..] == FinishParts(render, s2.scope, s2.completion.value);
      FinishesDiffer(render, s1.scope, s1.completion.value, s2.scope, s2.completion.value);
    }
  }

  lemma {:induction false} FinishesDiffer(render: Rendering, s1: PlaybackScope,
                                          c1: CompletionEvidence, s2: PlaybackScope,
                                          c2: CompletionEvidence)
    requires Faithful(render) && FinishParts(render, s1, c1) == FinishParts(render, s2, c2)
    ensures s1.connectionGeneration == s2.connectionGeneration && s1.sessionId == s2.sessionId
    ensures Tells(render, c1.monotonic, c2.monotonic) ==> c1 == c2
  {
    var p1, p2 := FinishParts(render, s1, c1), FinishParts(render, s2, c2);
    assert p1[1] == p2[1] && p1[2] == p2[2] && p1[3] == p2[3] && p1[4] == p2[4] && p1[5] == p2[5];
    assert p1[6] == p2[6] && p1[7] == p2[7] && p1[8] == p2[8];
    StrIsUnambiguous(c1.sequence, c2.sequence);
    StrIsUnambiguous(c1.identitySequence, c2.identitySequence);
    assert |AttributionName(CompletionAttribution.Explicit)| != |AttributionName(OrderedHistory)|;
  }
}
