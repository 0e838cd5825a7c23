/** The two at-most-once executors over one queue, as processes that advance one store boundary at
    a time.  Any number of processes interleave with each other, with every other store call
    (cancellation, recovery, settlement, ...) and with crashes between any two boundaries. */
module QueueExecution {
  import opened Values
  import opened QueueRecords
  import opened QueueJournal
  import opened JournalInvariant
  import opened QueueHistory

  /** What one `execute` call is asked to do: an ordinary command or a native operation. */
  datatype Request =
    | CommandRequest(itemId: Id, attemptId: Id, commandId: Id, action: CommandAction,
                     expectedRevision: int, expectedGeneration: int)
    | NativeRequest(reservationId: Id, successorItemId: Id, successorAttemptId: Id,
                    native: NativeQueueRequest, expectedRevision: int, expectedGeneration: int)
  {
    predicate WellFormed() {
      NativeRequest? ==> native.WellFormed()
    }

    function Effect(): Effect {
      if CommandRequest? then CommandEffect(commandId) else NativeEffect(native.operationId)
    }

    /** The transaction that journals the intent. */
    function Prepare(at: Instant): StoreOp {
      match this
      case CommandRequest(item, a, c, action, rev, _) =>
        (match action
         case Start => OpStart(item, a, c, at, rev)
         case Stop => OpStop(a, c, at, rev)
         case _ => OpControl(a, c, action, at, rev))
      case NativeRequest(r, item, a, q, rev, gen) =>
        if q.action.PlayNext? then OpReserve(item, r, a, q, at, rev, gen)
        else OpClear(r, q, at, rev, gen)
    }

    /** The transaction that claims the intent for one invocation. */
    function Claim(at: Instant, revision: int): StoreOp {
      match this
      case CommandRequest(_, _, c, _, _, _) => OpDispatch(c, at, revision)
      case NativeRequest(_, _, _, q, _, gen) => OpNativeDispatch(q.operationId, at, revision, gen)
    }

    /** The transaction that records what came back. */
    function Record(outcome: ExecutionState, at: Instant, revision: int): StoreOp {
      match this
      case CommandRequest(_, _, c, _, _, _) => OpOutcome(c, outcome, at, revision)
      case NativeRequest(_, _, _, q, _, gen) =>
        OpNativeOutcome(q.operationId, outcome, at, revision, gen)
    }

    /** A stop is not withheld by cancellation or by the caller's guard. */
    predicate Guarded() {
      CommandRequest? ==> !action.Stop?
    }
  }

  /** The effect that a journaled identity stands for. */
  datatype Effect = CommandEffect(id: Id) | NativeEffect(id: Id)

  /** The journaled state of an effect. */
  function StateOf(s: QueueSnapshot, e: Effect): Option<ExecutionState> {
    match e
    case CommandEffect(id) =>
      (match CommandAt(s.commands, id)
       case None => None
       case Some(k) => Some(s.commands[k].state))
    case NativeEffect(id) =>
      match OperationAt(s.operations, id)
      case None => None
      case Some(k) => Some(s.operations[k].state)
  }

  /** Where a process stands; it may crash before any of these steps. */
  datatype Pc =
    | Begun
    | Loaded(existing: bool)
    | Prepared(revision: int)
    | Claimed(revision: int)
    | Permitted(revision: int)
    | Returned(revision: int, outcome: ExecutionState)
    | Done

  datatype Process = Process(request: Request, pc: Pc)

  /** What the operation did: raised or returned something else than a matching receipt, or
      returned one. */
  datatype Reply = Failed | Receipt(outcome: CommandOutcome)

  /** The durable rows, the running calls, every invocation of an effect so far, and what the last
      invocation of an effect replied. */
  datatype World = World(
    rows: QueueSnapshot, processes: map<nat, Process>, log: seq<Effect>,
    replies: map<Effect, Reply>)

  function Outcome(reply: Reply): ExecutionState {
    match reply
    case Failed => ExecutionState.Uncertain
    case Receipt(Accepted) => ExecutionState.Acknowledged
    case Receipt(Rejected) => ExecutionState.Rejected
    case Receipt(Unknown) => ExecutionState.Uncertain
  }

  /** Everything a step takes from outside: clock, keys of other queues, guard and reply. */
  datatype Choice = Choice(taken: Taken, at: Instant, allowed: bool, reply: Reply)

  datatype Event =
    | Spawn(pid: nat, request: Request)
    | Advance(pid: nat, choice: Choice)
    | Crash(pid: nat)
    | Other(call: Call)
  {
    predicate WellFormed() {
      match this
      case Spawn(_, request) => request.WellFormed()
      case Other(call) => call.op.WellFormed()
      case _ => true
    }
  }

  predicate SelectedAttempt(s: QueueSnapshot, attemptId: Id, itemId: Id) {
    exists k :: 0 <= k < |s.attempts|
      && s.attempts[k].attemptId == attemptId && s.attempts[k].itemId == itemId
  }

  /** The first read.  A command that is journaled already only returns its history. */
  function AfterLoad(s: QueueSnapshot, request: Request): Pc {
    if s.generation != request.expectedGeneration then Done
    else if request.NativeRequest? then Loaded(StateOf(s, request.Effect()).Some?)
    else if StateOf(s, request.Effect()).Some? || s.revision != request.expectedRevision then Done
    else if !request.action.Start? && !SelectedAttempt(s, request.attemptId, request.itemId)
    then Done
    else Loaded(false)
  }

  /** A command journaled by an earlier owner generation is not this call's. */
  predicate OfGeneration(s: QueueSnapshot, request: Request) {
    request.CommandRequest? && CommandAt(s.commands, request.commandId).Some? ==>
      s.commands[CommandAt(s.commands, request.commandId).value].generation
        == request.expectedGeneration
  }

  /** After preparation: only an intent that this call has just journaled goes on. */
  function AfterPrepare(t: QueueSnapshot, request: Request, existing: bool): Pc {
    if || existing || t.generation != request.expectedGeneration
       || !OfGeneration(t, request)
       || StateOf(t, request.Effect()) != Some(ExecutionState.Pending)
       || t.revision != request.expectedRevision + 1
    then Done
    else Prepared(t.revision)
  }

  /** The reread after the claim: any change in between is a conservative hold. */
  function AfterReread(s: QueueSnapshot, request: Request, revision: int): Pc {
    if || s.generation != request.expectedGeneration || s.revision != revision
       || (request.CommandRequest? && !request.action.Stop? && s.cancellationRequested)
    then Done
    else Permitted(revision)
  }

  /** One step of one call, up to its next boundary. */
  function Step(w: World, pid: nat, choice: Choice): (v: World)
    requires pid in w.processes
    ensures v.processes.Keys == w.processes.Keys
  {
    var Process(request, pc) := w.processes[pid];
    match pc
    case Begun => Goto(w, pid, AfterLoad(w.rows, request))
    case Loaded(existing) =>
      (match Apply(w.rows, choice.taken, request.Prepare(choice.at))
       case Err(_) => Goto(w, pid, Done)
       case Ok(t) => Goto(w.(rows := t), pid, AfterPrepare(t, request, existing)))
    case Prepared(revision) =>
      (match Apply(w.rows, choice.taken, request.Claim(choice.at, revision))
       case Err(_) => Goto(w, pid, Done)
       case Ok(t) => Goto(w.(rows := t), pid, Claimed(t.revision)))
    case Claimed(revision) => Goto(w, pid, AfterReread(w.rows, request, revision))
    case Permitted(revision) =>
      if request.Guarded() && !choice.allowed then
        Goto(w, pid, Returned(revision, ExecutionState.Uncertain))
      else
        Goto(w.(log := w.log + [request.Effect()],
                replies := w.replies[request.Effect() := choice.reply]), pid,
             Returned(revision, Outcome(choice.reply)))
    case Returned(revision, outcome) =>
      (match Apply(w.rows, choice.taken, request.Record(outcome, choice.at, revision))
       case Err(_) => Goto(w, pid, Done)
       case Ok(t) => Goto(w.(rows := t), pid, Done))
    case Done => w
  }

  function Goto(w: World, pid: nat, pc: Pc): World
    requires pid in w.processes
  {
    w.(processes := w.processes[pid := w.processes[pid].(pc := pc)])
  }

  function Next(w: World, e: Event): World {
    match e
    case Spawn(pid, request) =>
      if pid in w.processes then w
      else w.(processes := w.processes[pid := Process(request, Begun)])
    case Advance(pid, choice) => if pid in w.processes then Step(w, pid, choice) else w
    case Crash(pid) => if pid in w.processes then Goto(w, pid, Done) else w
    case Other(call) => w.(rows := After(w.rows, call))
  }

  function Execution(w: World, events: seq<Event>): World
    decreases |events|
  {
    if events == [] then w else Execution(Next(w, events[0]), events[1..])
  }

  // ---------------------------------------------------------------- what a claim means

  /** The effect is journaled and left PENDING for good. */
  predicate Spent(s: QueueSnapshot, e: Effect) {
    StateOf(s, e).Some? && !StateOf(s, e).value.Pending?
  }

  /** Journaled effects stay journaled, and once spent stay spent. */
  lemma {:induction false} StateContinues(s: QueueSnapshot, t: QueueSnapshot, e: Effect)
    requires Keyed(t) && RowsContinue(s, t)
    ensures StateOf(s, e).Some? ==> StateOf(t, e).Some?
    ensures Spent(s, e) ==> Spent(t, e)
  {
    match e
    case CommandEffect(id) =>
      var k := CommandAt(s.commands, id);
      if k.Some? {
        assert CommandContinues(s.cancellationRequested, s.commands[k.value], t.commands[k.value]);
        var n := CommandAt(t.commands, id).value;
        assert n == k.value;
      }
    case NativeEffect(id) =>
      var k := OperationAt(s.operations, id);
      if k.Some? {
        assert OperationContinues(s.cancellationRequested || s.reconciliationRequired,
                                  s.operations[k.value], t.operations[k.value]);
        var n := OperationAt(t.operations, id).value;
        assert n == k.value;
      }
  }

  /** A claim succeeds only on a PENDING intent, and spends it. */
  lemma {:induction false} ClaimSpends(s: QueueSnapshot, taken: Taken, request: Request,
                                       at: Instant, revision: int)
    requires Keyed(s)
    requires Write(s, taken, request.Claim(at, revision)).Ok?
    ensures StateOf(s, request.Effect()) == Some(ExecutionState.Pending)
    ensures Keyed(Write(s, taken, request.Claim(at, revision)).value) ==>
      Spent(Write(s, taken, request.Claim(at, revision)).value, request.Effect())
  {
    hide Transition, TransitionNative, Keyed, Spent, StateOf;
    match request
    case CommandRequest(_, _, c, _, _, _) => CommandClaimSpends(s, c, at, revision);
    case NativeRequest(_, _, _, q, _, gen) =>
      NativeClaimSpends(s, q.operationId, at, revision, gen);
  }

  lemma {:induction false} CommandClaimSpends(s: QueueSnapshot, c: Id, at: Instant, revision: int)
    requires Keyed(s) && Transition(s, c, ExecutionState.Dispatched, at, revision).Ok?
    ensures StateOf(s, CommandEffect(c)) == Some(ExecutionState.Pending)
    ensures var t := Transition(s, c, ExecutionState.Dispatched, at, revision).value;
            Keyed(t) ==> Spent(t, CommandEffect(c))
  {
    hide Dispatchable, AttemptKeys, ReservationKeys, OperationKeys;
    var t := Transition(s, c, ExecutionState.Dispatched, at, revision).value;
    var k := CommandAt(s.commands, c).value;
    assert t.commands[k].commandId == c;
  }

  lemma {:induction false} NativeClaimSpends(s: QueueSnapshot, o: Id, at: Instant, revision: int,
                                             generation: int)
    requires Keyed(s)
    requires TransitionNative(s, o, ExecutionState.Dispatched, at, revision, generation).Ok?
    ensures StateOf(s, NativeEffect(o)) == Some(ExecutionState.Pending)
    ensures var t := TransitionNative(s, o, ExecutionState.Dispatched, at, revision,
                                      generation).value;
            Keyed(t) ==> Spent(t, NativeEffect(o))
  {
    hide NativeDispatchable, AttemptKeys, ReservationKeys, CommandKeys;
    var t := TransitionNative(s, o, ExecutionState.Dispatched, at, revision, generation).value;
    var k := OperationAt(s.operations, o).value;
    assert t.operations[k].operationId == o;
  }

  // ---------------------------------------------------------------- the invariant of every run

  /** A process that owns a claim it has not yet used. */
  predicate Owns(p: Process) {
    p.pc.Claimed? || p.pc.Permitted?
  }

  /** Each effect is owned at most once, or invoked at most once, never both; and whatever is owned
      or invoked was durably claimed. */
  predicate ClaimsOnce(w: World) {
    && (forall p, q ::
          p in w.processes && q in w.processes && p != q
          && Owns(w.processes[p]) && Owns(w.processes[q]) ==>
            w.processes[p].request.Effect() != w.processes[q].request.Effect())
    && (forall p :: p in w.processes && Owns(w.processes[p]) ==>
          && w.processes[p].request.Effect() !in w.log
          && Spent(w.rows, w.processes[p].request.Effect()))
    && (forall i, j :: 0 <= i < j < |w.log| ==> w.log[i] != w.log[j])
    && (forall i :: 0 <= i < |w.log| ==> Spent(w.rows, w.log[i]))
  }

  predicate Good(w: World) {
    && Durable(w.rows) && ClaimsOnce(w)
    && (forall p :: p in w.processes ==> w.processes[p].request.WellFormed())
  }

  /** Committing rows that continue keeps every claim. */
  lemma {:induction false} ClaimsContinue(w: World, t: QueueSnapshot)
    requires ClaimsOnce(w) && Keyed(t) && RowsContinue(w.rows, t)
    ensures ClaimsOnce(w.(rows := t))
  {
    hide RowsContinue, Keyed, Spent;
    forall p | p in w.processes && Owns(w.processes[p])
      ensures Spent(t, w.processes[p].request.Effect())
    {
      StateContinues(w.rows, t, w.processes[p].request.Effect());
    }
    forall i | 0 <= i < |w.log| ensures Spent(t, w.log[i]) {
      StateContinues(w.rows, t, w.log[i]);
    }
  }

  /** A transaction of a process commits rows that continue. */
  lemma {:induction false} CommitContinues(w: World, taken: Taken, op: StoreOp)
    requires Durable(w.rows) && op.WellFormed() && Apply(w.rows, taken, op).Ok?
    ensures var t := Apply(w.rows, taken, op).value;
            Durable(t) && Keyed(t) && RowsContinue(w.rows, t)
            && Write(w.rows, taken, op) == Ok(t)
  {
    hide RowsContinue, Write, RollsBack;
    ApplyKeeps(w.rows, taken, op);
    WriteContinues(w.rows, taken, op);
  }

  /** An intent that is still PENDING is neither owned nor invoked. */
  lemma {:induction false} PendingIsUnclaimed(w: World, e: Effect)
    requires ClaimsOnce(w) && StateOf(w.rows, e) == Some(ExecutionState.Pending)
    ensures e !in w.log
    ensures forall p :: p in w.processes && Owns(w.processes[p]) ==>
      w.processes[p].request.Effect() != e
  {
    hide StateOf;
  }

  lemma {:induction false} GainsClaim(w: World, pid: nat, revision: int)
    requires ClaimsOnce(w) && pid in w.processes
    requires var e := w.processes[pid].request.Effect();
             && Spent(w.rows, e) && e !in w.log
             && forall p :: p in w.processes && Owns(w.processes[p]) ==>
                  w.processes[p].request.Effect() != e
    ensures ClaimsOnce(Goto(w, pid, Claimed(revision)))
  {
    hide Spent;
  }

  /** A successful claim gives its process an effect that nobody owns and nobody has invoked. */
  lemma {:induction false} GoodClaims(w: World)
    requires Good(w)
    ensures ClaimsOnce(w) && Keyed(w.rows) && Durable(w.rows)
    ensures forall p :: p in w.processes ==> w.processes[p].request.WellFormed()
  {
    hide ClaimsOnce, Keyed, ReloadAccepts;
  }

  lemma {:induction false} IsGood(w: World)
    requires ClaimsOnce(w) && Durable(w.rows)
    requires forall p :: p in w.processes ==> w.processes[p].request.WellFormed()
    ensures Good(w)
  {
    hide ClaimsOnce, Durable;
  }

  lemma {:induction false} ClaimIsNew(w: World, pid: nat, choice: Choice)
    requires Good(w) && pid in w.processes && w.processes[pid].pc.Prepared?
    ensures Good(Step(w, pid, choice))
  {
    hide Good, Durable, Apply, Write, Keyed, RowsContinue, ClaimsOnce, Spent;
    GoodClaims(w);
    var Process(request, pc) := w.processes[pid];
    var op := request.Claim(choice.at, pc.revision);
    if Apply(w.rows, choice.taken, op).Ok? {
      var t := Apply(w.rows, choice.taken, op).value;
      CommitContinues(w, choice.taken, op);
      ClaimSpends(w.rows, choice.taken, request, choice.at, pc.revision);
      PendingIsUnclaimed(w, request.Effect());
      ClaimsContinue(w, t);
      GainsClaim(w.(rows := t), pid, t.revision);
      IsGood(Step(w, pid, choice));
    } else {
      ReleasesClaims(w, pid, Done);
    }
  }

  /** Steps that own nothing afterwards and invoke nothing. */
  lemma {:induction false} ReleasesClaims(w: World, pid: nat, pc: Pc)
    requires Good(w) && pid in w.processes
    requires pc.Claimed? || pc.Permitted? ==> Owns(w.processes[pid])
    ensures Good(Goto(w, pid, pc))
  {
    hide Durable, Spent;
  }

  lemma {:induction false} UsesClaim(w: World, pid: nat, pc: Pc)
    requires ClaimsOnce(w) && pid in w.processes && Owns(w.processes[pid])
    requires !pc.Claimed? && !pc.Permitted?
    ensures ClaimsOnce(Goto(w, pid, pc))
    ensures forall replies ::
      ClaimsOnce(Goto(w.(log := w.log + [w.processes[pid].request.Effect()], replies := replies),
                      pid, pc))
  {
    hide Spent;
  }

  lemma {:induction false} InvokesOnce(w: World, pid: nat, choice: Choice)
    requires Good(w) && pid in w.processes && w.processes[pid].pc.Permitted?
    ensures Good(Step(w, pid, choice))
  {
    hide Good, Durable, ClaimsOnce, Outcome;
    GoodClaims(w);
    var revision := w.processes[pid].pc.revision;
    UsesClaim(w, pid, Returned(revision, ExecutionState.Uncertain));
    UsesClaim(w, pid, Returned(revision, Outcome(choice.reply)));
    IsGood(Step(w, pid, choice));
  }

  /** A process that commits a transaction, and goes on without a claim. */
  lemma {:induction false} CommitsKeepClaims(w: World, taken: Taken, op: StoreOp, pid: nat, pc: Pc)
    requires Good(w) && pid in w.processes && op.WellFormed() && Apply(w.rows, taken, op).Ok?
    requires !pc.Claimed? && !pc.Permitted?
    ensures Good(Goto(w.(rows := Apply(w.rows, taken, op).value), pid, pc))
  {
    hide Durable, Keyed, RowsContinue, Apply, Write, ClaimsOnce;
    var t := Apply(w.rows, taken, op).value;
    CommitContinues(w, taken, op);
    ClaimsContinue(w, t);
    ReleasesClaims(w.(rows := t), pid, pc);
  }

  lemma {:induction false} StepKeeps(w: World, pid: nat, choice: Choice)
    requires Good(w) && pid in w.processes
    ensures Good(Step(w, pid, choice))
  {
    hide Good, Durable, RowsContinue, Apply, Write, OfGeneration, StateOf, SelectedAttempt;
    GoodProcess(w, pid);
    var Process(request, pc) := w.processes[pid];
    match pc {
      case Begun => ReleasesClaims(w, pid, AfterLoad(w.rows, request));
      case Loaded(existing) =>
        var op := request.Prepare(choice.at);
        if Apply(w.rows, choice.taken, op).Ok? {
          var t := Apply(w.rows, choice.taken, op).value;
          CommitsKeepClaims(w, choice.taken, op, pid, AfterPrepare(t, request, existing));
        } else {
          ReleasesClaims(w, pid, Done);
        }
      case Prepared(_) => ClaimIsNew(w, pid, choice);
      case Claimed(revision) => ReleasesClaims(w, pid, AfterReread(w.rows, request, revision));
      case Permitted(_) => InvokesOnce(w, pid, choice);
      case Returned(revision, outcome) =>
        var op := request.Record(outcome, choice.at, revision);
        if Apply(w.rows, choice.taken, op).Ok? {
          CommitsKeepClaims(w, choice.taken, op, pid, Done);
        } else {
          ReleasesClaims(w, pid, Done);
        }
      case Done =>
    }
  }

  lemma {:induction false} GoodProcess(w: World, pid: nat)
    requires Good(w) && pid in w.processes
    ensures Durable(w.rows) && w.processes[pid].request.WellFormed()
  {
    hide Durable, ClaimsOnce;
  }

  lemma {:induction false} OtherKeeps(w: World, call: Call)
    requires Good(w) && call.op.WellFormed()
    ensures Good(w.(rows := After(w.rows, call)))
  {
    hide Good, Durable, Keyed, RowsContinue, LatchesContinue, StopsContinue, After, ClaimsOnce;
    GoodClaims(w);
    AfterContinues(w.rows, call);
    var v := w.(rows := After(w.rows, call));
    DurableIsKeyed(v.rows);
    ClaimsContinue(w, v.rows);
    IsGood(v);
  }

  lemma {:induction false} SpawnKeeps(w: World, pid: nat, request: Request)
    requires Good(w) && request.WellFormed() && pid !in w.processes
    ensures Good(w.(processes := w.processes[pid := Process(request, Begun)]))
  {
    hide Durable, Spent;
  }

  lemma {:induction false} NextKeeps(w: World, e: Event)
    requires Good(w) && e.WellFormed()
    ensures Good(Next(w, e))
  {
    hide Good, Step, After;
    match e {
      case Spawn(pid, request) =>
        if pid !in w.processes {
          SpawnKeeps(w, pid, request);
        }
      case Advance(pid, choice) =>
        if pid in w.processes {
          StepKeeps(w, pid, choice);
        }
      case Crash(pid) =>
        if pid in w.processes {
          ReleasesClaims(w, pid, Done);
        }
      case Other(call) => OtherKeeps(w, call);
    }
  }

  predicate WellFormedEvents(events: seq<Event>) {
    forall k :: 0 <= k < |events| ==> events[k].WellFormed()
  }

  lemma {:induction false} ExecutionKeeps(w: World, events: seq<Event>)
    requires Good(w) && WellFormedEvents(events)
    ensures Good(Execution(w, events))
    decreases |events|
  {
    hide Good, Next;
    if events != [] {
      NextKeeps(w, events[0]);
      ExecutionKeeps(Next(w, events[0]), events[1..]);
    }
  }

  /** Over every interleaving of calls, crashes, duplicates and other store calls, an effect is
      invoked at most once, and only after its claim is durable. */
  lemma {:induction false} AtMostOnce(s: QueueSnapshot, events: seq<Event>)
    requires Durable(s) && WellFormedEvents(events)
    ensures var w := Execution(World(s, map[], [], map[]), events);
            && (forall i, j :: 0 <= i < j < |w.log| ==> w.log[i] != w.log[j])
            && (forall i :: 0 <= i < |w.log| ==> Spent(w.rows, w.log[i]))
  {
    assert Good(World(s, map[], [], map[]));
    ExecutionKeeps(World(s, map[], [], map[]), events);
    hide Durable, Spent;
  }

  /** In every run, the step that invokes an effect finds its claim durable already. */
  lemma {:induction false} InvokedAfterClaim(s: QueueSnapshot, events: seq<Event>, e: Event)
    requires Durable(s) && WellFormedEvents(events)
    ensures var w := Execution(World(s, map[], [], map[]), events);
            Next(w, e).log == w.log
            || exists x :: Next(w, e).log == w.log + [x] && x !in w.log && Spent(w.rows, x)
  {
    assert Good(World(s, map[], [], map[]));
    ExecutionKeeps(World(s, map[], [], map[]), events);
    var w := Execution(World(s, map[], [], map[]), events);
    assert ClaimsOnce(w);
    hide Good, Durable, Spent, Step, After, Execution, ClaimsOnce;
    if e.Advance? && e.pid in w.processes {
      StepInvokesClaimed(w, e.pid, e.choice);
    }
  }

  lemma {:induction false} StepInvokesClaimed(w: World, pid: nat, choice: Choice)
    requires ClaimsOnce(w) && pid in w.processes
    ensures Step(w, pid, choice).log == w.log
         || (Step(w, pid, choice).log == w.log + [w.processes[pid].request.Effect()]
             && w.processes[pid].request.Effect() !in w.log
             && Spent(w.rows, w.processes[pid].request.Effect()))
  {
    hide Spent, Apply, StateOf, OfGeneration, SelectedAttempt, AfterLoad, AfterPrepare,
         AfterReread;
    assert Step(w, pid, choice).log != w.log ==> Owns(w.processes[pid]);
  }

  // ---------------------------------------------------------------- a pending intent stays so

  /** From here a call cannot invoke its effect if the effect is journaled already. */
  predicate Idle(pc: Pc) {
    match pc
    case Begun => true
    case Loaded(existing) => existing
    case Returned(_, _) => true
    case Done => true
    case _ => false
  }

  /** The effect is journaled and no running call could go on to invoke it: each call for it is idle,
      or came too late to claim what was claimed already. */
  predicate Abandoned(w: World, e: Effect) {
    && StateOf(w.rows, e).Some?
    && forall p :: p in w.processes && w.processes[p].request.Effect() == e ==>
         Idle(w.processes[p].pc) || (Spent(w.rows, e) && !Owns(w.processes[p]))
  }

  /** A step of a call: an idle call for a journaled effect stays idle and invokes nothing; any
      call invokes its own effect only. */
  lemma {:induction false} StepInvokes(w: World, pid: nat, choice: Choice)
    requires pid in w.processes
    ensures var p := w.processes[pid];
            var v := Step(w, pid, choice);
            && (Idle(p.pc) && StateOf(w.rows, p.request.Effect()).Some? ==>
                  v.log == w.log && Idle(v.processes[pid].pc))
            && (v.log == w.log || v.log == w.log + [p.request.Effect()])
            && v.processes.Keys == w.processes.Keys
            && v.processes[pid].request == p.request
            && (forall q :: q in w.processes && q != pid ==> v.processes[q] == w.processes[q])
  {
    hide Apply, StateOf, OfGeneration, SelectedAttempt;
    var Process(request, pc) := w.processes[pid];
    if pc.Begun? && StateOf(w.rows, request.Effect()).Some? {
      LoadSeesJournal(w.rows, request);
    }
  }

  lemma {:induction false} LoadSeesJournal(s: QueueSnapshot, request: Request)
    requires StateOf(s, request.Effect()).Some?
    ensures AfterLoad(s, request) == Done || AfterLoad(s, request) == Loaded(true)
  {
  }

  /** A call that does not own a claim cannot get one for a spent effect. */
  lemma {:induction false} StepOfSpent(w: World, pid: nat, choice: Choice)
    requires Good(w) && pid in w.processes && !Owns(w.processes[pid])
    requires Spent(w.rows, w.processes[pid].request.Effect())
    ensures var v := Step(w, pid, choice);
            v.log == w.log && !Owns(v.processes[pid])
  {
    hide Good, Durable, Write, Apply, AfterLoad, AfterPrepare, AfterReread, Spent, StateOf, Keyed;
    GoodProcess(w, pid);
    var Process(request, pc) := w.processes[pid];
    ChecksDoNotClaim(w.rows, request);
    if pc.Prepared? && Apply(w.rows, choice.taken, request.Claim(choice.at, pc.revision)).Ok? {
      CommitContinues(w, choice.taken, request.Claim(choice.at, pc.revision));
      SpentIsNotPending(w.rows, request.Effect());
      assert Keyed(w.rows) by { DurableIsKeyed(w.rows); }
      ClaimSpends(w.rows, choice.taken, request, choice.at, pc.revision);
      assert false;
    }
    if pc.Loaded? && Apply(w.rows, choice.taken, request.Prepare(choice.at)).Ok? {
      ChecksDoNotClaim(Apply(w.rows, choice.taken, request.Prepare(choice.at)).value, request);
    }
  }

  lemma {:induction false} ChecksDoNotClaim(s: QueueSnapshot, request: Request)
    ensures !AfterLoad(s, request).Claimed? && !AfterLoad(s, request).Permitted?
    ensures forall existing ::
      var pc := AfterPrepare(s, request, existing); !pc.Claimed? && !pc.Permitted?
  {
  }

  lemma {:induction false} SpentIsNotPending(s: QueueSnapshot, e: Effect)
    requires Spent(s, e)
    ensures StateOf(s, e) != Some(ExecutionState.Pending)
  {
  }

  lemma {:induction false} DurableIsKeyed(s: QueueSnapshot)
    requires Durable(s)
    ensures Keyed(s)
  {
  }

  lemma {:induction false} AbandonedStays(w: World, e: Event, effect: Effect)
    requires Good(w) && e.WellFormed() && Abandoned(w, effect)
    ensures Abandoned(Next(w, e), effect)
    ensures Next(w, e).log == w.log
         || exists x :: x != effect && Next(w, e).log == w.log + [x]
  {
    hide Good, Durable, Keyed, RowsContinue, After, StateOf, Step, Spent, Idle;
    RowsOfNext(w, e);
    StateContinues(w.rows, Next(w, e).rows, effect);
    BegunIsIdle();
    match e {
      case Advance(pid, choice) =>
        if pid in w.processes {
          StepInvokes(w, pid, choice);
          if w.processes[pid].request.Effect() == effect && !Idle(w.processes[pid].pc) {
            StepOfSpent(w, pid, choice);
          }
        }
      case _ =>
    }
  }

  lemma {:induction false} BegunIsIdle()
    ensures Idle(Begun) && Idle(Done)
  {
  }

  lemma {:induction false} RowsOfNext(w: World, e: Event)
    requires Good(w) && e.WellFormed()
    ensures Keyed(Next(w, e).rows) && RowsContinue(w.rows, Next(w, e).rows)
  {
    NextKeeps(w, e);
    ContinuesReflexively(w.rows);
    hide Durable, Keyed, RowsContinue, LatchesContinue, StopsContinue, ClaimsOnce, Apply, Step,
         After;
    match e {
      case Other(call) => AfterContinues(w.rows, call);
      case Advance(pid, choice) =>
        if pid in w.processes {
          RowsOfStep(w, pid, choice);
        }
      case _ =>
    }
  }

  /** A step commits at most one transaction. */
  lemma {:induction false} RowsOfStep(w: World, pid: nat, choice: Choice)
    requires Good(w) && pid in w.processes && RowsContinue(w.rows, w.rows)
    ensures RowsContinue(w.rows, Step(w, pid, choice).rows)
  {
    hide Good, Durable, Keyed, RowsContinue, Apply, Write, AfterLoad, AfterPrepare, AfterReread;
    GoodProcess(w, pid);
    var Process(request, pc) := w.processes[pid];
    var op := match pc
      case Prepared(revision) => request.Claim(choice.at, revision)
      case Returned(revision, outcome) => request.Record(outcome, choice.at, revision)
      case _ => request.Prepare(choice.at);
    if Apply(w.rows, choice.taken, op).Ok? {
      CommitContinues(w, choice.taken, op);
    }
  }

  /** How often an effect was invoked. */
  function Invocations(log: seq<Effect>, e: Effect): nat {
    multiset(log)[e]
  }

  /** An effect that is abandoned is never invoked later: not by a retry with the same identity, not
      after recovery. */
  lemma {:induction false} AbandonedIsNeverInvoked(w: World, events: seq<Event>, effect: Effect)
    requires Good(w) && WellFormedEvents(events) && Abandoned(w, effect)
    ensures Invocations(Execution(w, events).log, effect) == Invocations(w.log, effect)
    decreases |events|
  {
    hide Good, Next, Abandoned;
    if events != [] {
      var v := Next(w, events[0]);
      NextKeeps(w, events[0]);
      AbandonedStays(w, events[0], effect);
      AbandonedIsNeverInvoked(v, events[1..], effect);
    }
  }

  /** A call that crashes after its claim leaves an effect that is never invoked later, whatever
      other calls are under way. */
  lemma {:induction false} CrashedClaimIsNeverInvoked(w: World, pid: nat, events: seq<Event>)
    requires Good(w) && WellFormedEvents(events) && pid in w.processes && Owns(w.processes[pid])
    ensures var effect := w.processes[pid].request.Effect();
            Invocations(Execution(Next(w, Crash(pid)), events).log, effect) == 0
  {
    var effect := w.processes[pid].request.Effect();
    var v := Next(w, Crash(pid));
    NextKeeps(w, Crash(pid));
    OnlyOwner(w, pid);
    hide Good, StateOf, Execution, Invocations, ClaimsOnce;
    assert Abandoned(v, effect);
    AbandonedIsNeverInvoked(v, events, effect);
    NotInvoked(w.log, effect);
  }

  lemma {:induction false} OnlyOwner(w: World, pid: nat)
    requires Good(w) && pid in w.processes && Owns(w.processes[pid])
    ensures var effect := w.processes[pid].request.Effect();
            && effect !in w.log && Spent(w.rows, effect)
            && forall p ::
                 p in w.processes && p != pid && w.processes[p].request.Effect() == effect ==>
                   !Owns(w.processes[p])
  {
    hide Durable, Spent;
  }

  lemma {:induction false} NotInvoked(log: seq<Effect>, e: Effect)
    requires e !in log
    ensures Invocations(log, e) == 0
  {
  }

  /** A call that crashes before its claim leaves an intent that is never invoked later, a retry with
      the same identity included, if no other call for it had read the journal before the intent
      was there.  `OverlappingCalls` is about those that had. */
  lemma {:induction false} CrashedIntentIsNeverInvoked(w: World, pid: nat, events: seq<Event>)
    requires Good(w) && WellFormedEvents(events) && pid in w.processes
    requires StateOf(w.rows, w.processes[pid].request.Effect()).Some?
    requires forall q ::
      q in w.processes && q != pid
      && w.processes[q].request.Effect() == w.processes[pid].request.Effect() ==>
        Idle(w.processes[q].pc)
    ensures var effect := w.processes[pid].request.Effect();
            Invocations(Execution(Next(w, Crash(pid)), events).log, effect)
              == Invocations(w.log, effect)
  {
    hide Good, StateOf, Execution, Invocations;
    NextKeeps(w, Crash(pid));
    AbandonedIsNeverInvoked(Next(w, Crash(pid)), events, w.processes[pid].request.Effect());
  }
}
