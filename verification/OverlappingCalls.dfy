/** Two calls for one effect that overlap: when the later one invokes an intent that the earlier one
    journaled and left behind. */
module OverlappingCalls {
  import opened Values
  import opened QueueRecords
  import opened QueueJournal
  import opened JournalInvariant
  import opened QueueHistory
  import opened QueueExecution

  /** The next `n` steps of one call, undisturbed. */
  function Turns(pid: nat, c: Choice, n: nat): seq<Event> {
    seq(n, _ => Advance(pid, c))
  }

  /** The call read the journal before the intent was there, or prepared it. */
  predicate ReadEarlier(pc: Pc) {
    pc == Loaded(false) || pc.Prepared?
  }

  /** The revision at which a call expects to find its intent freshly journaled. */
  function ExpectedAt(p: Process): int
    requires ReadEarlier(p.pc)
  {
    if p.pc.Prepared? then p.pc.revision else p.request.expectedRevision + 1
  }

  /** What the call takes for its own intent: one that nobody has claimed, in its generation and at
      the revision it expects, and that matches its request. */
  predicate TakesForOwn(s: QueueSnapshot, p: Process, c: Choice)
    requires ReadEarlier(p.pc)
  {
    p.pc.Loaded? ==>
      && s.revision == ExpectedAt(p)
      && StateOf(s, p.request.Effect()) == Some(ExecutionState.Pending)
      && OfGeneration(s, p.request)
      && Apply(s, c.taken, p.request.Prepare(c.at)).Ok?
  }

  /** The owner is the same, and nothing was canceled for anything but a stop. */
  predicate Undisturbed(s: QueueSnapshot, request: Request) {
    && s.generation == request.expectedGeneration
    && (request.CommandRequest? && !request.action.Stop? ==> !s.cancellationRequested)
  }

  /** The call goes on to invoke the journaled effect. */
  predicate GoesOn(s: QueueSnapshot, p: Process, c: Choice)
    requires ReadEarlier(p.pc)
  {
    && Undisturbed(s, p.request)
    && TakesForOwn(s, p, c)
    && Apply(s, c.taken, p.request.Claim(c.at, ExpectedAt(p))).Ok?
    && (p.request.Guarded() ==> c.allowed)
  }

  // ---------------------------------------------------------------- single steps

  /** Preparing an intent that is journaled already changes nothing. */
  lemma {:induction false} JournaledIsReturned(s: QueueSnapshot, taken: Taken, request: Request,
                                               at: Instant)
    requires StateOf(s, request.Effect()).Some?
    requires Write(s, taken, request.Prepare(at)).Ok?
    ensures Write(s, taken, request.Prepare(at)).value == s
  {
    hide AnyUnsettledItem, PendingItem, Stoppable, AnyUnresolved, AnyReserved, Has, Blank,
         Stageable, RequestMatches, ReservationFree, ActionFree, SameOperation;
  }

  /** After a claim nothing is left to check but what the claim itself keeps. */
  lemma {:induction false} ClaimIsReread(s: QueueSnapshot, taken: Taken, request: Request,
                                         at: Instant, revision: int)
    requires Write(s, taken, request.Claim(at, revision)).Ok?
    ensures var t := Write(s, taken, request.Claim(at, revision)).value;
            AfterReread(t, request, t.revision)
              == if Undisturbed(s, request) then Permitted(t.revision) else Done
  {
    hide Dispatchable, NativeDispatchable, CommandAt, OperationAt, ReservationAt;
  }

  lemma {:induction false} NothingAfterDone(w: World, pid: nat, c: Choice, n: nat)
    requires pid in w.processes && w.processes[pid].pc.Done?
    ensures Execution(w, Turns(pid, c, n)) == w
    decreases n
  {
    if n > 0 {
      assert Turns(pid, c, n)[1..] == Turns(pid, c, n - 1);
      NothingAfterDone(w, pid, c, n - 1);
    }
  }

  lemma {:induction false} OneTurn(w: World, pid: nat, c: Choice, n: nat)
    requires pid in w.processes && n > 0
    ensures Execution(w, Turns(pid, c, n)) == Execution(Step(w, pid, c), Turns(pid, c, n - 1))
  {
    hide Step;
    assert Turns(pid, c, n)[1..] == Turns(pid, c, n - 1);
  }

  lemma {:induction false} NoTurn(w: World, pid: nat, c: Choice)
    ensures Execution(w, Turns(pid, c, 0)) == w
  {
  }

  /** A claim that succeeded is invoked at its third step. */
  lemma {:induction false} InvokesClaim(w: World, pid: nat, c: Choice)
    requires pid in w.processes && w.processes[pid].pc == Claimed(w.rows.revision)
    requires var request := w.processes[pid].request;
             AfterReread(w.rows, request, w.rows.revision)
               == if Undisturbed(w.rows, request) then Permitted(w.rows.revision) else Done
    ensures var request := w.processes[pid].request;
            Execution(w, Turns(pid, c, 2)).log
              == if Undisturbed(w.rows, request) && (request.Guarded() ==> c.allowed)
                 then w.log + [request.Effect()] else w.log
  {
    hide Execution, AfterReread, Outcome, Undisturbed;
    OneTurn(w, pid, c, 2);
    var v := Step(w, pid, c);
    if v.processes[pid].pc.Done? {
      NothingAfterDone(v, pid, c, 1);
    } else {
      OneTurn(v, pid, c, 1);
      NoTurn(Step(v, pid, c), pid, c);
    }
  }

  lemma {:induction false} PreparedGoesOn(w: World, pid: nat, c: Choice)
    requires Durable(w.rows) && pid in w.processes && w.processes[pid].pc.Prepared?
    ensures Execution(w, Turns(pid, c, 3)).log
         == if GoesOn(w.rows, w.processes[pid], c) then w.log + [w.processes[pid].request.Effect()]
            else w.log
  {
    hide Durable, Execution, Write, Apply, AfterReread, Outcome, Undisturbed;
    var p := w.processes[pid];
    var op := p.request.Claim(c.at, p.pc.revision);
    OneTurn(w, pid, c, 3);
    var v := Step(w, pid, c);
    if Apply(w.rows, c.taken, op).Ok? {
      Committed(w.rows, c.taken, op);
      ClaimIsReread(w.rows, c.taken, p.request, c.at, p.pc.revision);
      ClaimDisturbsNothing(w.rows, c.taken, p.request, c.at, p.pc.revision);
      InvokesClaim(v, pid, c);
    } else {
      NothingAfterDone(v, pid, c, 2);
    }
  }

  lemma {:induction false} Committed(s: QueueSnapshot, taken: Taken, op: StoreOp)
    requires Apply(s, taken, op).Ok?
    ensures Write(s, taken, op) == Apply(s, taken, op)
  {
    hide Write, ReloadAccepts;
  }

  lemma {:induction false} ClaimDisturbsNothing(s: QueueSnapshot, taken: Taken, request: Request,
                                                at: Instant, revision: int)
    requires Write(s, taken, request.Claim(at, revision)).Ok?
    ensures Undisturbed(Write(s, taken, request.Claim(at, revision)).value, request)
         == Undisturbed(s, request)
  {
    hide Dispatchable, NativeDispatchable, CommandAt, OperationAt, ReservationAt;
  }

  /** What preparation makes of an intent that was journaled meanwhile. */
  lemma {:induction false} PreparesJournaled(w: World, pid: nat, c: Choice)
    requires pid in w.processes && w.processes[pid].pc == Loaded(false)
    requires StateOf(w.rows, w.processes[pid].request.Effect()).Some?
    ensures var p := w.processes[pid];
            Step(w, pid, c)
              == Goto(w, pid,
                      if && w.rows.generation == p.request.expectedGeneration
                         && TakesForOwn(w.rows, p, c)
                      then Prepared(ExpectedAt(p)) else Done)
  {
    hide Write, Apply, StateOf, OfGeneration;
    var p := w.processes[pid];
    if Apply(w.rows, c.taken, p.request.Prepare(c.at)).Ok? {
      Committed(w.rows, c.taken, p.request.Prepare(c.at));
      JournaledIsReturned(w.rows, c.taken, p.request, c.at);
    }
  }

  /** Exactly when an overlapping call invokes an effect that was journaled after its first read, or
      that it prepared itself: it goes on if the intent is unclaimed, matches, and stands at the
      revision and in the generation that the call expects. */
  lemma {:induction false} OverlapInvokes(w: World, pid: nat, c: Choice)
    requires Durable(w.rows) && pid in w.processes && ReadEarlier(w.processes[pid].pc)
    requires StateOf(w.rows, w.processes[pid].request.Effect()).Some?
    ensures var p := w.processes[pid];
            Execution(w, Turns(pid, c, if p.pc.Loaded? then 4 else 3)).log
              == if GoesOn(w.rows, p, c) then w.log + [p.request.Effect()] else w.log
  {
    hide Durable, Execution, StateOf, OfGeneration, Apply, Step;
    var p := w.processes[pid];
    if p.pc.Prepared? {
      PreparedGoesOn(w, pid, c);
    } else {
      OneTurn(w, pid, c, 4);
      PreparesJournaled(w, pid, c);
      var v := Step(w, pid, c);
      if v.processes[pid].pc.Done? {
        NothingAfterDone(v, pid, c, 3);
      } else {
        PreparedGoesOn(v, pid, c);
      }
    }
  }

  // ---------------------------------------------------------------- a run in which that happens

  const TARGET := PlaybackTarget("tv", "cast")
  const ITEM := QueueEntry("a", ContentRef("youtube", "first", Video), QueueIntent.Pending)
  const NOTHING := Taken({}, {}, {}, {}, {}, {}, {}, {})
  const START := CommandRequest("a", "1", "c", Start, 0, 0)
  const NOW := Choice(NOTHING, 0, true, Failed)

  /** A new queue of one item, without and with its START intent. */
  const FRESH := QueueSnapshot("queue", TARGET, 0, 0, None, false, [ITEM], [], [], Legacy, false,
                               [], [])
  const INTENDED := QueueSnapshot(
    "queue", TARGET, 1, 0, Some("a"), false, [ITEM.(intent := Current)],
    [QueueAttempt("1", "a", Current, 0, None, LocalStart)],
    [JournalCommand("c", "1", Start, ExecutionState.Pending, 0, 0, 0)], Legacy, false, [], [])

  lemma {:induction false} FreshIsCreated()
    ensures Create("queue", TARGET, [ITEM], Legacy) == Ok(FRESH) && Durable(FRESH)
  {
    assert !IsSpace("queue"[0]);
    CreateKeeps("queue", TARGET, [ITEM], Legacy);
  }

  /** The first call's transaction. */
  lemma {:induction false} StartIsJournaled()
    ensures Apply(FRESH, NOTHING, OpStart("a", "1", "c", 0, 0)) == Ok(INTENDED)
    ensures Durable(INTENDED)
  {
    FreshIsCreated();
    hide Durable, ReloadAccepts, RollsBack;
    var op := OpStart("a", "1", "c", 0, 0);
    assert !IsSpace("a"[0]) && !IsSpace("1"[0]) && !IsSpace("c"[0]);
    assert FRESH.items[0] == ITEM;
    assert WithItem([ITEM], "a", Current) == [ITEM.(intent := Current)];
    assert CommandAt([], "c").None? && AttemptAt([], "1").None?;
    assert PendingItem(FRESH.items, "a") && !AnyUnsettledItem(FRESH.items);
    assert Started(FRESH, "a", "1", "c", 0) == INTENDED;
    ApplyKeeps(FRESH, NOTHING, op);
    assert !RollsBack(FRESH, op) by { StartNeverRollsBack(FRESH, op); }
  }

  lemma {:induction false} StartNeverRollsBack(s: QueueSnapshot, op: StoreOp)
    requires op.OpStart? || op.OpDispatch?
    ensures !RollsBack(s, op)
  {
  }

  /** The second call finds this intent in the form in which it would have written it. */
  lemma {:induction false} IntentLooksOwn()
    ensures StateOf(INTENDED, CommandEffect("c")) == Some(ExecutionState.Pending)
    ensures GoesOn(INTENDED, Process(START, Loaded(false)), NOW)
  {
    StartIsJournaled();
    hide Durable, ReloadAccepts, RollsBack;
    var s := INTENDED;
    assert CommandAt(s.commands, "c") == Some(0) && AttemptAt(s.attempts, "1") == Some(0);
    assert s.items[0].itemId == "a" && s.items[0].intent == Current;
    assert Dispatchable(s, s.commands[0]);
    assert !IsSpace("a"[0]) && !IsSpace("1"[0]) && !IsSpace("c"[0]);
    var prepare, claim := START.Prepare(0), START.Claim(0, 1);
    assert Write(s, NOTHING, prepare) == Ok(s);
    assert Write(s, NOTHING, claim).Ok?;
    StartNeverRollsBack(s, prepare);
    StartNeverRollsBack(s, claim);
    ApplyKeeps(s, NOTHING, prepare);
    ApplyKeeps(s, NOTHING, claim);
  }

  /** The events up to the crash: both calls read, the first journals its intent and dies. */
  function Overlap(): seq<Event> {
    [Spawn(0, START), Spawn(1, START), Advance(0, NOW), Advance(1, NOW), Advance(0, NOW), Crash(0)]
  }

  lemma {:induction false} OverlapLeaves()
    ensures Execution(World(FRESH, map[], [], map[]), Overlap())
         == World(INTENDED, map[0 := Process(START, Done), 1 := Process(START, Loaded(false))], [], map[])
  {
    StartIsJournaled();
    hide Durable, Apply;
    var w0 := World(FRESH, map[], [], map[]);
    var e := Overlap();
    assert CommandAt(FRESH.commands, "c").None?;
    assert AfterLoad(FRESH, START) == Loaded(false);
    assert CommandAt(INTENDED.commands, "c") == Some(0);
    assert AfterPrepare(INTENDED, START, false) == Prepared(1);
    var w1 := Next(w0, e[0]);
    var w2 := Next(w1, e[1]);
    var w3 := Next(w2, e[2]);
    var w4 := Next(w3, e[3]);
    var w5 := Next(w4, e[4]);
    var w6 := Next(w5, e[5]);
    assert w6 == World(INTENDED, map[0 := Process(START, Done),
                                     1 := Process(START, Loaded(false))], [], map[]);
    hide Next;
    SixSteps(w0, e, w1, w2, w3, w4, w5, w6);
  }

  lemma {:induction false} SixSteps(w0: World, e: seq<Event>, w1: World, w2: World, w3: World,
                                    w4: World, w5: World, w6: World)
    requires |e| == 6 && w1 == Next(w0, e[0]) && w2 == Next(w1, e[1]) && w3 == Next(w2, e[2])
    requires w4 == Next(w3, e[3]) && w5 == Next(w4, e[4]) && w6 == Next(w5, e[5])
    ensures Execution(w0, e) == w6
  {
    hide Next;
    assert e[1..][1..] == e[2..] && e[2..][1..] == e[3..] && e[3..][1..] == e[4..];
    assert e[4..][1..] == e[5..] && e[5..][1..] == [];
    assert Execution(w5, e[5..]) == w6;
    assert Execution(w4, e[4..]) == w6;
    assert Execution(w3, e[3..]) == w6;
    assert Execution(w2, e[2..]) == w6;
    assert Execution(w1, e[1..]) == w6;
  }

  /** Of two calls for one command that both read the empty journal, the first dies right after it
      journaled the intent, and the second invokes it. */
  lemma {:induction false} OverlappingDuplicateInvokes()
    ensures Create("queue", TARGET, [ITEM], Legacy) == Ok(FRESH)
    ensures Execution(Execution(World(FRESH, map[], [], map[]), Overlap()), Turns(1, NOW, 4)).log
         == [CommandEffect("c")]
  {
    hide Durable, Execution, Turns, GoesOn, StateOf;
    FreshIsCreated();
    StartIsJournaled();
    OverlapLeaves();
    IntentLooksOwn();
    var w := World(INTENDED, map[0 := Process(START, Done), 1 := Process(START, Loaded(false))], [], map[]);
    OverlapInvokes(w, 1, NOW);
    assert [] + [CommandEffect("c")] == [CommandEffect("c")];
  }
}
