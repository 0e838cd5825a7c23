/** The two executors as the straight-line code they are: an ordered sequence of store calls around
    one invocation.  Run without interference, each call is exactly the process of QueueExecution,
    from its first step to its last; what interference and crashes can do is proved there. */
module QueueExecutor {
  import opened Values
  import opened QueueRecords
  import opened QueueJournal
  import opened JournalInvariant
  import opened QueueHistory
  import opened QueueExecution
  import opened QueueStore
  import opened ReplyJournal

  /** What one call takes from outside: its clock readings, its guard, and its operation's reply. */
  datatype Outside = Outside(preparedAt: Instant, claimedAt: Instant, recordedAt: Instant,
                             allowed: bool, reply: Reply)

  function Turn(taken: Taken, at: Instant, o: Outside): Event {
    Advance(0, Choice(taken, at, o.allowed, o.reply))
  }

  /** Every invocation so far, and what was replied to it. */
  datatype Heard = Heard(invocations: seq<Effect>, replies: map<Effect, Reply>)
  {
    function With(e: Effect, reply: Reply): Heard {
      Heard(invocations + [e], replies[e := reply])
    }
  }

  /** The world of a process that is alone. */
  function Only(rows: QueueSnapshot, request: Request, pc: Pc, log: Heard): World {
    World(rows, map[0 := Process(request, pc)], log.invocations, log.replies)
  }

  /** A process alone with the store, up to its invocation. */
  function Begin(rows: QueueSnapshot, log: Heard, request: Request, taken: Taken,
                 o: Outside): World {
    var w0 := Only(rows, request, Begun, log);
    var w1 := Next(w0, Turn(taken, o.preparedAt, o));
    var w2 := Next(w1, Turn(taken, o.preparedAt, o));
    var w3 := Next(w2, Turn(taken, o.claimedAt, o));
    Next(w3, Turn(taken, o.claimedAt, o))
  }

  /** The same process to its end: it invokes, or not, and records. */
  function Alone(rows: QueueSnapshot, log: Heard, request: Request, taken: Taken,
                 o: Outside): World {
    var w4 := Begin(rows, log, request, taken, o);
    var w5 := Next(w4, Turn(taken, o.recordedAt, o));
    Next(w5, Turn(taken, o.recordedAt, o))
  }

  /** It is one of the executions that QueueExecution is about. */
  lemma {:induction false} AloneIsAnExecution(rows: QueueSnapshot, log: Heard,
                                              request: Request, taken: Taken, o: Outside)
    ensures Alone(rows, log, request, taken, o)
         == Execution(Only(rows, request, Begun, log),
                      [Turn(taken, o.preparedAt, o), Turn(taken, o.preparedAt, o),
                       Turn(taken, o.claimedAt, o), Turn(taken, o.claimedAt, o),
                       Turn(taken, o.recordedAt, o), Turn(taken, o.recordedAt, o)])
  {
    hide Next;
    var p, c, r := Turn(taken, o.preparedAt, o), Turn(taken, o.claimedAt, o),
                   Turn(taken, o.recordedAt, o);
    var w0 := Only(rows, request, Begun, log);
    assert [p, p, c, c, r, r][1..] == [p, c, c, r, r];
    assert [p, c, c, r, r][1..] == [c, c, r, r];
    assert [c, c, r, r][1..] == [c, r, r] && [c, r, r][1..] == [r, r] && [r, r][1..] == [r];
    var w1 := Next(w0, p);
    var w2 := Next(w1, p);
    var w3 := Next(w2, c);
    var w4 := Next(w3, c);
    var w5 := Next(w4, r);
    assert Execution(w5, [r]) == Next(w5, r);
    assert Execution(w4, [r, r]) == Execution(w5, [r]);
    assert Execution(w3, [c, r, r]) == Execution(w4, [r, r]);
    assert Execution(w2, [c, c, r, r]) == Execution(w3, [c, r, r]);
    assert Execution(w1, [p, c, c, r, r]) == Execution(w2, [c, c, r, r]);
  }

  class QueueExecutor {
    const store: SQLiteQueueStore
    const queueId: Id
    /** Every invocation of an operation so far. */
    var heard: Heard

    constructor (store: SQLiteQueueStore, queueId: Id)
      ensures this.store == store && this.queueId == queueId && heard == Heard([], map[])
    {
      this.store, this.queueId, this.heard := store, queueId, Heard([], map[]);
    }

    /** The rows and the invocations are those of this world. */
    ghost predicate At(w: World, others: Database)
      reads this, store
    {
      && w.log == heard.invocations && w.replies == heard.replies
      && store.queues == others[queueId := w.rows]
    }

    /** Journals the intent. */
    method Prepare(request: Request, at: Instant) returns (r: Result<QueueSnapshot>)
      requires store.Valid() && request.WellFormed()
      modifies store
      ensures store.Valid()
      ensures Transacted(old(store.queues), store.queues, queueId, request.Prepare(at), r)
    {
      match request
      case CommandRequest(item, a, c, action, revision, _) =>
        if action.Start? {
          r := store.PrepareStart(queueId, item, a, c, at, revision);
        } else if action.Stop? {
          r := store.PrepareStop(queueId, a, c, at, revision);
        } else {
          r := store.PrepareControl(queueId, a, c, action, at, revision);
        }
      case NativeRequest(reservation, item, a, q, revision, generation) =>
        if q.action.PlayNext? {
          r := store.PrepareNativeSuccessor(queueId, item, reservation, a, q, at, revision,
                                            generation);
        } else {
          r := store.PrepareNativeClear(queueId, reservation, q, at, revision, generation);
        }
    }

    /** Claims the intent for this one invocation. */
    method Claim(request: Request, at: Instant, revision: int) returns (r: Result<QueueSnapshot>)
      requires store.Valid()
      modifies store
      ensures store.Valid()
      ensures Transacted(old(store.queues), store.queues, queueId, request.Claim(at, revision), r)
    {
      match request
      case CommandRequest(_, _, c, _, _, _) =>
        r := store.MarkDispatched(queueId, c, at, revision);
      case NativeRequest(_, _, _, q, _, generation) =>
        r := store.MarkNativeDispatched(queueId, q.operationId, at, revision, generation);
    }

    /** Records what came back; a refusal to record leaves the claim for reconciliation. */
    method Record(request: Request, outcome: ExecutionState, at: Instant, revision: int)
      returns (r: Result<QueueSnapshot>)
      requires store.Valid()
      modifies store
      ensures store.Valid()
      ensures Transacted(old(store.queues), store.queues, queueId,
                         request.Record(outcome, at, revision), r)
    {
      match request
      case CommandRequest(_, _, c, _, _, _) =>
        r := store.RecordOutcome(queueId, c, outcome, at, revision);
      case NativeRequest(_, _, _, q, _, generation) =>
        r := store.RecordNativeOutcome(queueId, q.operationId, outcome, at, revision, generation);
    }

    /** Prepares and claims; permission is the revision of a claim that is still undisturbed. */
    method Obtain(request: Request, o: Outside, before: QueueSnapshot)
      returns (permission: Option<int>)
      requires store.Valid() && request.WellFormed()
      requires queueId in store.queues && store.queues[queueId] == before
      modifies store
      ensures store.Valid()
      ensures var (rows, permitted) :=
                Permission(before, request, Elsewhere(old(store.queues), queueId), o);
              store.queues == old(store.queues)[queueId := rows] && permission == permitted
    {
      hide Elsewhere, Apply, AfterLoad, AfterPrepare, AfterReread, Durable;
      ghost var others := store.queues;
      assert others[queueId := before] == others;
      var pc := AfterLoad(before, request);
      if !pc.Loaded? {
        return None;
      }
      var prepared := Prepare(request, o.preparedAt);
      if prepared.Err? {
        return None;
      }
      ElsewhereStays(others, queueId, prepared.value);
      pc := AfterPrepare(prepared.value, request, pc.existing);
      if !pc.Prepared? {
        return None;
      }
      var claimed := Claim(request, o.claimedAt, pc.revision);
      if claimed.Err? {
        return None;
      }
      var current := store.Load(queueId);
      pc := AfterReread(current.value, request, claimed.value.revision);
      permission := if pc.Permitted? then Some(pc.revision) else None;
    }

    /** Prepare, claim, invoke once, record.  `told` is what the journal was told of the outcome, if it
        took it: acknowledged or rejected exactly if that is what a receipt said. */
    method Execute(request: Request, o: Outside) returns (invoked: bool, told: Option<ExecutionState>)
      requires store.Valid() && request.WellFormed()
      modifies this, store
      ensures store.Valid()
      ensures queueId !in old(store.queues) ==>
        !invoked && store.queues == old(store.queues) && heard == old(heard)
      ensures queueId in old(store.queues) ==>
        At(Alone(old(store.queues)[queueId], old(heard), request,
                 Elsewhere(old(store.queues), queueId), o), old(store.queues))
      ensures heard == if invoked then old(heard).With(request.Effect(), o.reply) else old(heard)
      ensures told.Some? ==>
        && queueId in store.queues
        && StateOf(store.queues[queueId], request.Effect()) == told
        && (told == Some(ExecutionState.Acknowledged) <==> invoked && o.reply == Receipt(Accepted))
        && (told == Some(ExecutionState.Rejected) <==>
              invoked && o.reply == Receipt(CommandOutcome.Rejected))
        && (told == Some(ExecutionState.Uncertain) <==>
              !invoked || o.reply == Failed || o.reply == Receipt(CommandOutcome.Unknown))
    {
      hide Elsewhere, Apply, Alone, Permission, Durable, StateOf;
      invoked, told := false, None;
      var before := store.Load(queueId);
      if before.None? {
        return;
      }
      ghost var others, taken := store.queues, Elsewhere(store.queues, queueId);
      AloneIsStraight(before.value, heard, request, taken, o);
      var permission := Obtain(request, o, before.value);
      if permission.None? {
        return;
      }
      var outcome := ExecutionState.Uncertain;
      if !request.Guarded() || o.allowed {
        heard := heard.With(request.Effect(), o.reply);
        invoked := true;
        outcome := Outcome(o.reply);
      }
      ElsewhereStays(others, queueId, store.queues[queueId]);
      ghost var rows := store.queues[queueId];
      var recorded := Record(request, outcome, o.recordedAt, permission.value);
      if recorded.Ok? {
        told := Some(outcome);
        RecordIsJournaled(rows, taken, request, outcome, o.recordedAt, permission.value);
      }
    }
  }

  // ---------------------------------------------------------------- a lone process, in one piece

  /** Whether the call gets to invoke, and what it has journaled by then. */
  function Permission(rows: QueueSnapshot, request: Request, taken: Taken, o: Outside)
    : (QueueSnapshot, Option<int>)
  {
    var loaded := AfterLoad(rows, request);
    if !loaded.Loaded? then (rows, None) else
    match Apply(rows, taken, request.Prepare(o.preparedAt))
    case Err(_) => (rows, None)
    case Ok(t) =>
      var prepared := AfterPrepare(t, request, loaded.existing);
      if !prepared.Prepared? then (t, None) else
      match Apply(t, taken, request.Claim(o.claimedAt, prepared.revision))
      case Err(_) => (t, None)
      case Ok(u) =>
        var reread := AfterReread(u, request, u.revision);
        (u, if reread.Permitted? then Some(reread.revision) else None)
  }

  /** What the whole call leaves in the journal, and whether it invoked. */
  function Straight(rows: QueueSnapshot, request: Request, taken: Taken, o: Outside)
    : (QueueSnapshot, bool)
  {
    var (t, permission) := Permission(rows, request, taken, o);
    if permission.None? then (t, false)
    else
      var invokes := !request.Guarded() || o.allowed;
      var outcome := if invokes then Outcome(o.reply) else ExecutionState.Uncertain;
      match Apply(t, taken, request.Record(outcome, o.recordedAt, permission.value))
      case Err(_) => (t, invokes)
      case Ok(u) => (u, invokes)
  }

  lemma {:induction false} BeginIsPermission(rows: QueueSnapshot, log: Heard,
                                             request: Request, taken: Taken, o: Outside)
    ensures var (t, permission) := Permission(rows, request, taken, o);
            Begin(rows, log, request, taken, o)
              == Only(t, request,
                      if permission.Some? then Permitted(permission.value) else Done, log)
  {
    hide Next, Apply, AfterLoad, AfterPrepare, AfterReread;
    StepBegun(rows, request, log, taken, o.preparedAt, o);
    LoadGoesOn(rows, request);
    StepDone(rows, request, log, taken, o);
    var loaded := AfterLoad(rows, request);
    if loaded.Loaded? {
      StepLoaded(rows, request, loaded.existing, log, taken, o.preparedAt, o);
      if Apply(rows, taken, request.Prepare(o.preparedAt)).Ok? {
        var t := Apply(rows, taken, request.Prepare(o.preparedAt)).value;
        StepDone(t, request, log, taken, o);
        PrepareGoesOn(t, request, loaded.existing);
        var prepared := AfterPrepare(t, request, loaded.existing);
        if prepared.Prepared? {
          StepPrepared(t, request, prepared.revision, log, taken, o.claimedAt, o);
          if Apply(t, taken, request.Claim(o.claimedAt, prepared.revision)).Ok? {
            var u := Apply(t, taken, request.Claim(o.claimedAt, prepared.revision)).value;
            StepClaimed(u, request, u.revision, log, taken, o.claimedAt, o);
            RereadGoesOn(u, request, u.revision);
          }
        }
      }
    }
  }

  lemma {:induction false} AloneIsStraight(rows: QueueSnapshot, log: Heard, request: Request,
                                           taken: Taken, o: Outside)
    ensures var (t, invokes) := Straight(rows, request, taken, o);
            Alone(rows, log, request, taken, o)
              == Only(t, request, Done, if invokes then log.With(request.Effect(), o.reply) else log)
  {
    hide Next, Apply, Permission, Begin, Outcome;
    BeginIsPermission(rows, log, request, taken, o);
    var (t, permission) := Permission(rows, request, taken, o);
    StepDone(t, request, log, taken, o);
    if permission.Some? {
      var invokes := !request.Guarded() || o.allowed;
      var outcome := if invokes then Outcome(o.reply) else ExecutionState.Uncertain;
      var log' := if invokes then log.With(request.Effect(), o.reply) else log;
      StepPermitted(t, request, permission.value, log, taken, o.recordedAt, o);
      StepReturned(t, request, permission.value, outcome, log', taken, o.recordedAt, o);
    }
  }

  // ---------------------------------------------------------------- the steps of a lone process

  lemma {:induction false} StepBegun(rows: QueueSnapshot, request: Request, log: Heard,
                                     taken: Taken, at: Instant, o: Outside)
    ensures Next(Only(rows, request, Begun, log), Turn(taken, at, o))
         == Only(rows, request, AfterLoad(rows, request), log)
  {
    hide AfterLoad;
  }

  lemma {:induction false} StepLoaded(rows: QueueSnapshot, request: Request, existing: bool,
                                      log: Heard, taken: Taken, at: Instant, o: Outside)
    ensures Next(Only(rows, request, Loaded(existing), log), Turn(taken, at, o))
         == match Apply(rows, taken, request.Prepare(at))
            case Err(_) => Only(rows, request, Done, log)
            case Ok(t) => Only(t, request, AfterPrepare(t, request, existing), log)
  {
    hide AfterPrepare, Apply;
  }

  lemma {:induction false} StepPrepared(rows: QueueSnapshot, request: Request, revision: int,
                                        log: Heard, taken: Taken, at: Instant, o: Outside)
    ensures Next(Only(rows, request, Prepared(revision), log), Turn(taken, at, o))
         == match Apply(rows, taken, request.Claim(at, revision))
            case Err(_) => Only(rows, request, Done, log)
            case Ok(t) => Only(t, request, Claimed(t.revision), log)
  {
    hide Apply;
  }

  lemma {:induction false} StepClaimed(rows: QueueSnapshot, request: Request, revision: int,
                                       log: Heard, taken: Taken, at: Instant, o: Outside)
    ensures Next(Only(rows, request, Claimed(revision), log), Turn(taken, at, o))
         == Only(rows, request, AfterReread(rows, request, revision), log)
  {
    hide AfterReread;
  }

  lemma {:induction false} StepPermitted(rows: QueueSnapshot, request: Request, revision: int,
                                         log: Heard, taken: Taken, at: Instant, o: Outside)
    ensures Next(Only(rows, request, Permitted(revision), log), Turn(taken, at, o))
         == if request.Guarded() && !o.allowed
            then Only(rows, request, Returned(revision, ExecutionState.Uncertain), log)
            else Only(rows, request, Returned(revision, Outcome(o.reply)), log.With(request.Effect(), o.reply))
  {
  }

  lemma {:induction false} StepReturned(rows: QueueSnapshot, request: Request, revision: int,
                                        outcome: ExecutionState, log: Heard, taken: Taken,
                                        at: Instant, o: Outside)
    ensures Next(Only(rows, request, Returned(revision, outcome), log), Turn(taken, at, o))
         == match Apply(rows, taken, request.Record(outcome, at, revision))
            case Err(_) => Only(rows, request, Done, log)
            case Ok(t) => Only(t, request, Done, log)
  {
    hide Apply;
  }

  lemma {:induction false} StepDone(rows: QueueSnapshot, request: Request, log: Heard,
                                    taken: Taken, o: Outside)
    ensures forall at :: Next(Only(rows, request, Done, log), Turn(taken, at, o))
                      == Only(rows, request, Done, log)
  {
  }

  /** The checks either let the process go on or end it. */
  lemma {:induction false} LoadGoesOn(rows: QueueSnapshot, request: Request)
    ensures AfterLoad(rows, request).Loaded? || AfterLoad(rows, request) == Done
  {
  }

  lemma {:induction false} PrepareGoesOn(rows: QueueSnapshot, request: Request, existing: bool)
    ensures AfterPrepare(rows, request, existing).Prepared?
         || AfterPrepare(rows, request, existing) == Done
  {
  }

  lemma {:induction false} RereadGoesOn(rows: QueueSnapshot, request: Request, revision: int)
    ensures AfterReread(rows, request, revision).Permitted?
         || AfterReread(rows, request, revision) == Done
  {
  }

  /** What the other queues hold does not depend on this one. */
  lemma {:induction false} ElsewhereStays(queues: Database, id: Id, rows: QueueSnapshot)
    requires id in queues
    ensures Elsewhere(queues[id := rows], id) == Elsewhere(queues, id)
  {
    var other := queues[id := rows];
    assert forall q :: q in other <==> q in queues;
    assert forall q :: q in queues && q != id ==> other[q] == queues[q];
  }
}
