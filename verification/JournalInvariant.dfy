/** Every transaction keeps what a reload checks: the reload after a write never has to roll back,
    with exactly two exceptions, each characterized below. */
module JournalInvariant {
  import opened Values
  import opened QueueRecords
  import opened QueueJournal

  /** Rows a database can hold: the keys hold and a reload accepts. */
  predicate Durable(s: QueueSnapshot) {
    Keyed(s) && ReloadAccepts(s)
  }

  // ---------------------------------------------------------------- counting START commands

  lemma {:induction false} StartsAppend(cs: seq<JournalCommand>, c: JournalCommand, id: Id)
    ensures Starts(cs + [c], id)
         == Starts(cs, id) + if c.attemptId == id && c.action.Start? then 1 else 0
  {
    assert (cs + [c])[..|cs|] == cs;
  }

  lemma {:induction false} StartsAbsent(cs: seq<JournalCommand>, id: Id)
    requires forall k :: 0 <= k < |cs| ==> cs[k].attemptId != id
    ensures Starts(cs, id) == 0
  {
    if cs != [] {
      StartsAbsent(cs[..|cs| - 1], id);
    }
  }

  lemma {:induction false} StartsSame(cs: seq<JournalCommand>, ds: seq<JournalCommand>, id: Id)
    requires |cs| == |ds|
    requires forall k :: 0 <= k < |cs| ==>
      cs[k].attemptId == ds[k].attemptId && cs[k].action == ds[k].action
    ensures Starts(cs, id) == Starts(ds, id)
  {
    if cs != [] {
      StartsSame(cs[..|cs| - 1], ds[..|ds| - 1], id);
    }
  }

  // ---------------------------------------------------------------- lookups in changed tables

  /** Rows that keep their identities keep their positions. */
  lemma {:induction false} ItemAtSame(xs: seq<QueueEntry>, ys: seq<QueueEntry>)
    requires ItemKeys(xs) && |xs| == |ys|
    requires forall k :: 0 <= k < |xs| ==> ys[k].itemId == xs[k].itemId
    ensures ItemKeys(ys)
    ensures forall id :: ItemAt(ys, id) == ItemAt(xs, id)
  {
    forall id ensures ItemAt(ys, id) == ItemAt(xs, id) {
      var i, j := ItemAt(xs, id), ItemAt(ys, id);
    }
  }

  lemma {:induction false} AttemptAtSame(xs: seq<QueueAttempt>, ys: seq<QueueAttempt>)
    requires AttemptIds(xs) && |xs| == |ys|
    requires forall k :: 0 <= k < |xs| ==> ys[k].attemptId == xs[k].attemptId
    ensures AttemptIds(ys)
    ensures forall id :: AttemptAt(ys, id) == AttemptAt(xs, id)
  {
    forall id ensures AttemptAt(ys, id) == AttemptAt(xs, id) {
      var i, j := AttemptAt(xs, id), AttemptAt(ys, id);
    }
  }

  /** A new attempt is found at the end; the others stay where they were. */
  lemma {:induction false} AttemptAtAppend(xs: seq<QueueAttempt>, x: QueueAttempt)
    requires AttemptIds(xs) && AttemptAt(xs, x.attemptId).None?
    ensures AttemptIds(xs + [x])
    ensures forall id :: AttemptAt(xs + [x], id)
              == if id == x.attemptId then Some(|xs|) else AttemptAt(xs, id)
  {
    var ys := xs + [x];
    forall id
      ensures AttemptAt(ys, id) == if id == x.attemptId then Some(|xs|) else AttemptAt(xs, id)
    {
      var i, j := AttemptAt(xs, id), AttemptAt(ys, id);
      if i.Some? {
        assert ys[i.value].attemptId == id;
      } else if id == x.attemptId {
        assert ys[|xs|].attemptId == id;
      }
    }
  }

  // ---------------------------------------------------------------- commands only

  /** Appending a command that is not a START. */
  lemma {:induction false} CommandAppended(attempts: seq<QueueAttempt>, cs: seq<JournalCommand>,
                                           c: JournalCommand, generation: int)
    requires CommandKeys(attempts, cs) && StartsOk(attempts, cs) && CommandsOk(cs, generation)
    requires CommandAt(cs, c.commandId).None? && AttemptAt(attempts, c.attemptId).Some?
    requires !c.action.Start? && c.generation <= generation && c.createdAt <= c.updatedAt
    ensures CommandKeys(attempts, cs + [c]) && StartsOk(attempts, cs + [c])
    ensures CommandsOk(cs + [c], generation)
  {
    forall k | 0 <= k < |attempts|
      ensures Starts(cs + [c], attempts[k].attemptId) == Starts(cs, attempts[k].attemptId)
    {
      StartsAppend(cs, c, attempts[k].attemptId);
    }
  }

  /** Commands that only change state, at later times. */
  predicate Moved(cs: seq<JournalCommand>, ds: seq<JournalCommand>) {
    |ds| == |cs| && forall k :: 0 <= k < |ds| ==>
      && cs[k].updatedAt <= ds[k].updatedAt
      && ds[k] == cs[k].(state := ds[k].state, updatedAt := ds[k].updatedAt)
  }

  lemma {:induction false} CommandsMoved(attempts: seq<QueueAttempt>, cs: seq<JournalCommand>,
                                         ds: seq<JournalCommand>, generation: int)
    requires CommandKeys(attempts, cs) && StartsOk(attempts, cs) && CommandsOk(cs, generation)
    requires Moved(cs, ds)
    ensures CommandKeys(attempts, ds) && StartsOk(attempts, ds) && CommandsOk(ds, generation)
  {
    forall k | 0 <= k < |attempts|
      ensures Starts(ds, attempts[k].attemptId) == Starts(cs, attempts[k].attemptId)
    {
      StartsSame(cs, ds, attempts[k].attemptId);
    }
    forall k | 0 <= k < |ds| ensures AttemptAt(attempts, ds[k].attemptId).Some? {
      assert AttemptAt(attempts, cs[k].attemptId).Some?;
    }
  }

  lemma {:induction false} CommandFacts(s: QueueSnapshot)
    requires Durable(s)
    ensures CommandKeys(s.attempts, s.commands) && StartsOk(s.attempts, s.commands)
    ensures CommandsOk(s.commands, s.generation) && CommandText(s.commands) && s.generation >= 0
  {
    hide AttemptKeys, ReservationKeys, OperationKeys, CommandKeys, PositionOk, AttemptsOk,
         StartsOk, CommandsOk, NativeOk;
  }

  predicate CommandText(cs: seq<JournalCommand>) {
    forall k :: 0 <= k < |cs| ==> cs[k].commandId != "" && cs[k].generation >= 0
  }

  /** Rows with other commands, a later revision and a latch. */
  lemma {:induction false} CommandsReplaced(s: QueueSnapshot, cs: seq<JournalCommand>,
                                            canceled: bool)
    requires Durable(s) && CommandKeys(s.attempts, cs) && StartsOk(s.attempts, cs)
    requires CommandsOk(cs, s.generation) && CommandText(cs)
    ensures Durable(Bump(s.(commands := cs, cancellationRequested := canceled)))
  {
    hide AttemptKeys, ReservationKeys, OperationKeys, CommandKeys, PositionOk, AttemptsOk,
         StartsOk, CommandsOk, NativeOk;
  }

  lemma {:induction false} CommandAdded(s: QueueSnapshot, c: JournalCommand, canceled: bool)
    requires Durable(s) && CommandAt(s.commands, c.commandId).None? && c.commandId != ""
    requires AttemptAt(s.attempts, c.attemptId).Some? && !c.action.Start?
    requires c.generation == s.generation && c.createdAt <= c.updatedAt
    ensures Durable(Bump(s.(commands := s.commands + [c], cancellationRequested := canceled)))
  {
    hide Durable, CommandKeys, StartsOk, CommandsOk, CommandAt, AttemptAt;
    CommandFacts(s);
    CommandAppended(s.attempts, s.commands, c, s.generation);
    CommandsReplaced(s, s.commands + [c], canceled);
  }

  lemma {:induction false} StopKeeps(s: QueueSnapshot, taken: Taken, a: Id, c: Id, at: Instant,
                                     rev: int)
    requires Durable(s) && PrepareStop(s, taken, a, c, at, rev).Ok?
    ensures Durable(PrepareStop(s, taken, a, c, at, rev).value)
  {
    hide Durable;
    if PrepareStop(s, taken, a, c, at, rev).value != s {
      CommandAdded(s, NewCommand(s, a, c, Stop, at), true);
    }
  }

  lemma {:induction false} ControlKeeps(s: QueueSnapshot, taken: Taken, a: Id, c: Id,
                                        action: CommandAction, at: Instant, rev: int)
    requires Durable(s) && PrepareControl(s, taken, a, c, action, at, rev).Ok?
    ensures Durable(PrepareControl(s, taken, a, c, action, at, rev).value)
  {
    hide Durable;
    if PrepareControl(s, taken, a, c, action, at, rev).value != s {
      CommandAdded(s, NewCommand(s, a, c, action, at), s.cancellationRequested);
    }
  }

  lemma {:induction false} TransitionKeeps(s: QueueSnapshot, c: Id, state: ExecutionState,
                                           at: Instant, rev: int)
    requires Durable(s) && Transition(s, c, state, at, rev).Ok?
    ensures Durable(Transition(s, c, state, at, rev).value)
  {
    hide Durable, CommandKeys, StartsOk, CommandsOk, Dispatchable;
    var t := Transition(s, c, state, at, rev).value;
    if t != s {
      CommandFacts(s);
      var k := CommandAt(s.commands, c).value;
      CommandIdsDiffer(s, k);
      CommandsMoved(s.attempts, s.commands, t.commands, s.generation);
      CommandsReplaced(s, t.commands, s.cancellationRequested);
    }
  }

  lemma {:induction false} CommandIdsDiffer(s: QueueSnapshot, k: nat)
    requires CommandKeys(s.attempts, s.commands) && k < |s.commands|
    ensures forall n :: 0 <= n < |s.commands| && n != k ==>
      s.commands[n].commandId != s.commands[k].commandId
  {
  }

  /** A latch or a hold alone. */
  lemma {:induction false} LatchKeeps(s: QueueSnapshot, canceled: bool, hold: bool)
    requires Durable(s) && (s.mode.Legacy? ==> hold == s.reconciliationRequired)
    ensures Durable(Bump(s.(cancellationRequested := canceled, reconciliationRequired := hold)))
  {
    hide AttemptKeys, ReservationKeys, OperationKeys, CommandKeys, PositionOk, AttemptsOk,
         StartsOk, CommandsOk, ReservationOk, Provenance;
  }

  // ---------------------------------------------------------------- starting

  /** Selecting a pending item when none is unsettled. */
  lemma {:induction false} ItemSelected(items: seq<QueueEntry>, itemId: Id)
    requires ItemKeys(items) && PendingItem(items, itemId) && !AnyUnsettledItem(items)
    ensures ItemKeys(WithItem(items, itemId, Current))
    ensures PositionOk(WithItem(items, itemId, Current), Some(itemId))
  {
    ItemAtSame(items, WithItem(items, itemId, Current));
  }

  /** Attempts of other items do not notice a change of one item. */
  lemma {:induction false} OtherAttempts(items: seq<QueueEntry>, attempts: seq<QueueAttempt>,
                                         itemId: Id, intent: QueueIntent)
    requires ItemKeys(items)
    requires forall k :: 0 <= k < |attempts| ==>
      AttemptOk(items, attempts[k]) && attempts[k].itemId != itemId
    ensures forall k :: 0 <= k < |attempts| ==>
      AttemptOk(WithItem(items, itemId, intent), attempts[k])
  {
    ItemAtSame(items, WithItem(items, itemId, intent));
  }

  /** An attempt with a new identity and without a decision meets every key. */
  lemma {:induction false} AttemptKeysAdded(items: seq<QueueEntry>, attempts: seq<QueueAttempt>,
                                            a: QueueAttempt)
    requires AttemptKeys(items, attempts) && AttemptAt(attempts, a.attemptId).None?
    requires a.decisionId.None?
    requires forall k :: 0 <= k < |attempts| && a.origin.NativeObserved? ==>
      attempts[k].origin != a.origin
    ensures AttemptKeys(items, attempts + [a])
  {
    hide AttemptAt, ItemKeys;
  }

  /** A pending item has no attempt. */
  lemma {:induction false} Unattempted(items: seq<QueueEntry>, attempts: seq<QueueAttempt>,
                                       current: Option<Id>, itemId: Id)
    requires ItemKeys(items) && AttemptsOk(items, attempts, current)
    requires PendingItem(items, itemId)
    ensures forall k :: 0 <= k < |attempts| ==> attempts[k].itemId != itemId
    ensures ItemAt(items, itemId).Some?
  {
    var i :| 0 <= i < |items| && items[i].itemId == itemId && items[i].intent.Pending?;
    assert ItemAt(items, itemId) == Some(i);
    hide ItemAt;
    forall k | 0 <= k < |attempts| ensures attempts[k].itemId != itemId {
      assert AttemptOk(items, attempts[k]);
    }
  }

  /** A new CURRENT attempt for a pending item. */
  lemma {:induction false} AttemptAdded(items: seq<QueueEntry>, attempts: seq<QueueAttempt>,
                                        current: Option<Id>, a: QueueAttempt)
    requires AttemptKeys(items, attempts) && AttemptsOk(items, attempts, current)
    requires PendingItem(items, a.itemId) && AttemptAt(attempts, a.attemptId).None?
    requires a.intent.Current? && a.decisionId.None?
    requires forall k :: 0 <= k < |attempts| && a.origin.NativeObserved? ==>
      attempts[k].origin != a.origin
    ensures AttemptKeys(WithItem(items, a.itemId, Current), attempts + [a])
    ensures AttemptsOk(WithItem(items, a.itemId, Current), attempts + [a], Some(a.itemId))
  {
    var items' := WithItem(items, a.itemId, Current);
    AttemptKeysAdded(items, attempts, a);
    Unattempted(items, attempts, current, a.itemId);
    hide ItemKeys, ItemAt, AttemptAt, AttemptIds, DecisionsDiffer, PendingItem;
    ItemAtSame(items, items');
    OtherAttempts(items, attempts, a.itemId, Current);
    assert AttemptOk(items', a);
    hide AttemptOk;
  }

  /** The START command of a new local attempt. */
  lemma {:induction false} StartCommandKeys(attempts: seq<QueueAttempt>,
                                            cs: seq<JournalCommand>, a: QueueAttempt,
                                            c: JournalCommand)
    requires CommandKeys(attempts, cs) && CommandAt(cs, c.commandId).None?
    requires c.attemptId == a.attemptId && AttemptAt(attempts, a.attemptId).None?
    requires AttemptIds(attempts)
    ensures CommandKeys(attempts + [a], cs + [c])
    ensures forall k :: 0 <= k < |cs| ==> cs[k].attemptId != a.attemptId
  {
    hide AttemptAt;
    AttemptAtAppend(attempts, a);
    forall k | 0 <= k < |cs| ensures cs[k].attemptId != a.attemptId {
      assert AttemptAt(attempts, cs[k].attemptId).Some?;
    }
  }

  lemma {:induction false} StartsAdded(attempts: seq<QueueAttempt>, cs: seq<JournalCommand>,
                                       a: QueueAttempt, c: JournalCommand)
    requires StartsOk(attempts, cs) && AttemptAt(attempts, a.attemptId).None?
    requires a.origin.LocalStart? && c.action.Start? && c.attemptId == a.attemptId
    requires forall k :: 0 <= k < |cs| ==> cs[k].attemptId != a.attemptId
    ensures StartsOk(attempts + [a], cs + [c])
  {
    hide AttemptAt, Starts;
    forall k | 0 <= k < |attempts|
      ensures Starts(cs + [c], attempts[k].attemptId) == Starts(cs, attempts[k].attemptId)
    {
      StartsAppend(cs, c, attempts[k].attemptId);
    }
    StartsAbsent(cs, a.attemptId);
    StartsAppend(cs, c, a.attemptId);
  }

  lemma {:induction false} StartAdded(items: seq<QueueEntry>, attempts: seq<QueueAttempt>,
                                      cs: seq<JournalCommand>, a: QueueAttempt, c: JournalCommand,
                                      generation: int)
    requires AttemptKeys(items, attempts) && CommandKeys(attempts, cs) && StartsOk(attempts, cs)
    requires CommandsOk(cs, generation)
    requires c.generation <= generation && c.createdAt <= c.updatedAt
    requires AttemptAt(attempts, a.attemptId).None? && CommandAt(cs, c.commandId).None?
    requires a.origin.LocalStart? && c.action.Start? && c.attemptId == a.attemptId
    ensures CommandKeys(attempts + [a], cs + [c]) && StartsOk(attempts + [a], cs + [c])
    ensures CommandsOk(cs + [c], generation)
  {
    hide CommandKeys, StartsOk, AttemptIds, ItemKeys, DecisionsDiffer, AttemptAt, CommandAt;
    StartCommandKeys(attempts, cs, a, c);
    StartsAdded(attempts, cs, a, c);
  }

  /** A reservation follows an attempt. */
  lemma {:induction false} ReservedAfterAttempt(hold: bool, items: seq<QueueEntry>,
                                                attempts: seq<QueueAttempt>,
                                                rs: seq<NativeReservation>,
                                                ops: seq<NativeOperation>, current: Option<Id>,
                                                generation: int)
    requires NativeOk(Native, hold, items, attempts, rs, ops, current, generation)
    ensures rs != [] ==> attempts != []
  {
    if rs != [] {
      assert ReservationOk(items, attempts, ops, current, generation, rs[0]);
    }
  }

  /** The first attempt of a native queue finds no reservation, and legacy queues have none. */
  lemma {:induction false} StartNative(mode: QueueMode, hold: bool, items: seq<QueueEntry>,
                                       attempts: seq<QueueAttempt>, rs: seq<NativeReservation>,
                                       ops: seq<NativeOperation>, current: Option<Id>,
                                       generation: int, items': seq<QueueEntry>, a: QueueAttempt,
                                       current': Option<Id>)
    requires NativeOk(mode, hold, items, attempts, rs, ops, current, generation)
    requires (mode.Native? ==> attempts == []) && a.origin.LocalStart?
    ensures NativeOk(mode, hold, items', attempts + [a], rs, ops, current', generation)
  {
    if mode.Native? {
      ReservedAfterAttempt(hold, items, attempts, rs, ops, current, generation);
    }
  }

  lemma {:induction false} StartText(s: QueueSnapshot, items: seq<QueueEntry>, a: QueueAttempt,
                                     c: JournalCommand, current: Option<Id>)
    requires TextOk(s) && |items| == |s.items|
    requires forall k :: 0 <= k < |items| ==> items[k] == s.items[k].(intent := items[k].intent)
    requires a.attemptId != "" && a.origin.LocalStart? && c.commandId != "" && c.generation >= 0
    ensures TextOk(Bump(s.(items := items, currentItemId := current, attempts := s.attempts + [a],
                           commands := s.commands + [c])))
  {
  }

  lemma {:induction false} StartedKeeps(s: QueueSnapshot, i: Id, a: Id, c: Id, at: Instant)
    requires Durable(s) && a != "" && c != ""
    requires PendingItem(s.items, i) && !AnyUnsettledItem(s.items)
    requires AttemptAt(s.attempts, a).None? && CommandAt(s.commands, c).None?
    requires s.mode.Native? ==> s.attempts == []
    ensures Durable(Started(s, i, a, c, at))
  {
    assert s.generation >= 0;
    assert ItemKeys(s.items);
    hide PendingItem, AnyUnsettledItem, ItemKeys, AttemptKeys, CommandsOk, AttemptAt, CommandAt,
         ItemAt, TextOk, PositionOk, AttemptsOk, StartsOk, CommandKeys, ReservationKeys,
         OperationKeys, NativeOk;
    var t := Started(s, i, a, c, at);
    var added := QueueAttempt(a, i, Current, at, None, LocalStart);
    var start := NewCommand(s, a, c, Start, at);
    StartText(s, t.items, added, start, Some(i));
    ItemSelected(s.items, i);
    AttemptAdded(s.items, s.attempts, s.currentItemId, added);
    StartAdded(s.items, s.attempts, s.commands, added, start, s.generation);
    StartNative(s.mode, s.reconciliationRequired, s.items, s.attempts, s.reservations,
                s.operations, s.currentItemId, s.generation, t.items, added, t.currentItemId);
  }

  lemma {:induction false} StartKeeps(s: QueueSnapshot, taken: Taken, i: Id, a: Id, c: Id,
                                      at: Instant, rev: int)
    requires Durable(s) && PrepareStart(s, taken, i, a, c, at, rev).Ok?
    ensures Durable(PrepareStart(s, taken, i, a, c, at, rev).value)
  {
    hide Durable, Started;
    if PrepareStart(s, taken, i, a, c, at, rev).value != s {
      StartedKeeps(s, i, a, c, at);
    }
  }

  // ---------------------------------------------------------------- settling and recovering

  /** Items and attempts that change in intent and decision only. */
  predicate SameItems(xs: seq<QueueEntry>, ys: seq<QueueEntry>) {
    |xs| == |ys| && forall k :: 0 <= k < |xs| ==> ys[k] == xs[k].(intent := ys[k].intent)
  }

  predicate SameAttempts(xs: seq<QueueAttempt>, ys: seq<QueueAttempt>) {
    |xs| == |ys| && forall k :: 0 <= k < |xs| ==>
      ys[k] == xs[k].(intent := ys[k].intent, decisionId := ys[k].decisionId)
  }

  predicate PendingKept(xs: seq<QueueEntry>, ys: seq<QueueEntry>)
    requires |xs| == |ys|
  {
    forall k :: 0 <= k < |xs| && xs[k].intent.Pending? ==> ys[k].intent.Pending?
  }

  /** A reservation does not look at intents, except that an outstanding one keeps its successor
      pending. */
  lemma {:induction false} ReservationFrame(items: seq<QueueEntry>, attempts: seq<QueueAttempt>,
                                            items': seq<QueueEntry>, attempts': seq<QueueAttempt>,
                                            ops: seq<NativeOperation>, current: Option<Id>,
                                            generation: int, r: NativeReservation)
    requires ItemKeys(items) && AttemptIds(attempts)
    requires SameItems(items, items') && SameAttempts(attempts, attempts')
    requires PendingKept(items, items')
    requires ReservationOk(items, attempts, ops, current, generation, r)
    ensures ReservationOk(items', attempts', ops, current, generation, r)
  {
    ItemAtSame(items, items');
    AttemptAtSame(attempts, attempts');
  }

  lemma {:induction false} NativeFrame(s: QueueSnapshot, hold: bool, items: seq<QueueEntry>,
                                       attempts: seq<QueueAttempt>)
    requires Durable(s)
    requires SameItems(s.items, items) && SameAttempts(s.attempts, attempts)
    requires PendingKept(s.items, items) && (s.mode.Legacy? ==> !hold)
    ensures NativeOk(s.mode, hold, items, attempts, s.reservations, s.operations,
                     s.currentItemId, s.generation)
  {
    hide CommandKeys, ReservationKeys, OperationKeys, TextOk, PositionOk, AttemptsOk, StartsOk,
         CommandsOk, ReservationOk, AttemptAt, ItemAt;
    if s.mode.Native? {
      forall k | 0 <= k < |s.reservations|
        ensures ReservationOk(items, attempts, s.operations, s.currentItemId, s.generation,
                              s.reservations[k])
      {
        ReservationFrame(s.items, s.attempts, items, attempts, s.operations, s.currentItemId,
                         s.generation, s.reservations[k]);
      }
      forall k | 0 <= k < |attempts| && attempts[k].origin.NativeObserved?
        ensures Provenance(s.reservations, attempts[k])
      {
        assert Provenance(s.reservations, s.attempts[k]);
      }
    }
  }

  /** Commands look only at the identities and origins of attempts. */
  lemma {:induction false} CommandFrame(attempts: seq<QueueAttempt>, attempts': seq<QueueAttempt>,
                                        cs: seq<JournalCommand>)
    requires AttemptIds(attempts) && SameAttempts(attempts, attempts')
    requires CommandKeys(attempts, cs) && StartsOk(attempts, cs)
    ensures CommandKeys(attempts', cs) && StartsOk(attempts', cs)
  {
    AttemptAtSame(attempts, attempts');
  }

  /** Settling an item that is not pending. */
  lemma {:induction false} ItemSettled(items: seq<QueueEntry>, current: Option<Id>, itemId: Id,
                                       outcome: QueueIntent)
    requires ItemKeys(items) && PositionOk(items, current) && Settled(outcome)
    requires !PendingItem(items, itemId)
    ensures var items' := WithItem(items, itemId, outcome);
            ItemKeys(items') && PositionOk(items', current) && SameItems(items, items')
            && PendingKept(items, items')
  {
    ItemAtSame(items, WithItem(items, itemId, outcome));
  }

  /** Writing a decision that no other attempt carries. */
  lemma {:induction false} AttemptDecided(attempts: seq<QueueAttempt>, n: nat, outcome: QueueIntent,
                                          decision: Id)
    requires AttemptIds(attempts) && n < |attempts|
    requires DecisionsDiffer(attempts)
    requires forall k :: 0 <= k < |attempts| && k != n ==> attempts[k].decisionId != Some(decision)
    ensures DecisionsDiffer(WithAttempt(attempts, attempts[n].attemptId, outcome, decision))
  {
    assert forall k :: 0 <= k < |attempts| && k != n ==>
      attempts[k].attemptId != attempts[n].attemptId;
  }

  /** Settling one attempt together with its item. */
  lemma {:induction false} AttemptSettled(items: seq<QueueEntry>, attempts: seq<QueueAttempt>,
                                          current: Option<Id>, n: nat, outcome: QueueIntent,
                                          decision: Id)
    requires AttemptKeys(items, attempts) && AttemptsOk(items, attempts, current)
    requires PositionOk(items, current) && n < |attempts| && Settled(outcome)
    requires forall k :: 0 <= k < |attempts| && k != n ==> attempts[k].decisionId != Some(decision)
    ensures var items' := WithItem(items, attempts[n].itemId, outcome);
            var attempts' := WithAttempt(attempts, attempts[n].attemptId, outcome, decision);
            && AttemptKeys(items', attempts') && AttemptsOk(items', attempts', current)
            && PositionOk(items', current)
            && SameItems(items, items') && SameAttempts(attempts, attempts')
            && PendingKept(items, items')
  {
    hide PositionOk, ItemAt, AttemptAt, DecisionsDiffer, ItemKeys;
    var items' := WithItem(items, attempts[n].itemId, outcome);
    var attempts' := WithAttempt(attempts, attempts[n].attemptId, outcome, decision);
    assert AttemptOk(items, attempts[n]);
    NotPending(items, attempts[n]);
    ItemSettled(items, current, attempts[n].itemId, outcome);
    AttemptDecided(attempts, n, outcome, decision);
    ItemAtSame(items, items');
    hide AttemptOk;
    forall k | 0 <= k < |attempts| ensures AttemptOk(items', attempts'[k]) {
      OneSettled(items, attempts, n, k, outcome, decision);
    }
  }

  /** A settlement gives its attempt and the item of it one intent, and touches no other pair. */
  lemma {:induction false} OneSettled(items: seq<QueueEntry>, attempts: seq<QueueAttempt>, n: nat,
                                      k: nat, outcome: QueueIntent, decision: Id)
    requires n < |attempts| && k < |attempts| && Settled(outcome) && ItemKeys(items)
    requires AttemptOk(items, attempts[k])
    requires k != n ==> attempts[k].itemId != attempts[n].itemId
    requires k != n ==> attempts[k].attemptId != attempts[n].attemptId
    ensures AttemptOk(WithItem(items, attempts[n].itemId, outcome),
                      WithAttempt(attempts, attempts[n].attemptId, outcome, decision)[k])
  {
    hide ItemAt;
    ItemAtSame(items, WithItem(items, attempts[n].itemId, outcome));
  }

  lemma {:induction false} NotPending(items: seq<QueueEntry>, a: QueueAttempt)
    requires ItemKeys(items) && AttemptOk(items, a)
    ensures !PendingItem(items, a.itemId)
  {
  }

  lemma {:induction false} SettlementKeeps(s: QueueSnapshot, n: nat, outcome: QueueIntent,
                                           decision: Id)
    requires Durable(s) && n < |s.attempts| && Settled(outcome)
    requires forall k :: 0 <= k < |s.attempts| && k != n ==>
      s.attempts[k].decisionId != Some(decision)
    ensures Durable(Settlement(s, s.attempts[n], outcome, decision))
  {
    hide ItemAt, AttemptAt, CommandsOk, CommandKeys, ReservationKeys, OperationKeys, StartsOk,
         PositionOk, AttemptsOk, NativeOk;
    var t := Settlement(s, s.attempts[n], outcome, decision);
    AttemptSettled(s.items, s.attempts, s.currentItemId, n, outcome, decision);
    CommandFrame(s.attempts, t.attempts, s.commands);
    assert s.mode.Legacy? ==> !s.reconciliationRequired by { LegacyUnheld(s); }
    NativeFrame(s, t.reconciliationRequired, t.items, t.attempts);
  }

  lemma {:induction false} LegacyUnheld(s: QueueSnapshot)
    requires Durable(s)
    ensures s.mode.Legacy? ==> !s.reconciliationRequired
  {
  }

  lemma {:induction false} SettleKeeps(s: QueueSnapshot, taken: Taken, a: Id, outcome: QueueIntent,
                                       d: Id, rev: int)
    requires Durable(s) && SettleAttempt(s, taken, a, outcome, d, rev).Ok?
    ensures Durable(SettleAttempt(s, taken, a, outcome, d, rev).value)
  {
    hide Durable, Settlement;
    if SettleAttempt(s, taken, a, outcome, d, rev).value != s {
      SettlementKeeps(s, AttemptAt(s.attempts, a).value, outcome, d);
    }
  }

  /** Operations that only change state, at later times, and that stay sent once sent. */
  predicate OperationsMoved(os: seq<NativeOperation>, ps: seq<NativeOperation>) {
    |ps| == |os| && forall k :: 0 <= k < |ps| ==>
      && os[k].updatedAt <= ps[k].updatedAt
      && ps[k] == os[k].(state := ps[k].state, updatedAt := ps[k].updatedAt)
  }

  /** Operations that move keep a reservation acceptable, in this or a later generation, unless
      they unsend the enqueue of an adopted one. */
  lemma {:induction false} OperationsFrame(items: seq<QueueEntry>, attempts: seq<QueueAttempt>,
                                           os: seq<NativeOperation>, ps: seq<NativeOperation>,
                                           current: Option<Id>, generation: int, generation': int,
                                           r: NativeReservation)
    requires ReservationOk(items, attempts, os, current, generation, r)
    requires OperationsMoved(os, ps) && generation <= generation'
    ensures EnqueueAt(os, r.reservationId).Some?
    ensures ReservationOk(items, attempts, ps, current, generation', r)
       <==> (r.adoptionDecisionId.Some? ==> Sent(ps[EnqueueAt(os, r.reservationId).value].state))
  {
    var i, j := EnqueueAt(os, r.reservationId), EnqueueAt(ps, r.reservationId);
    assert ps[i.value].reservationId == r.reservationId && ps[i.value].action.PlayNext?;
    assert os[j.value].reservationId == r.reservationId && os[j.value].action.PlayNext?;
    assert i == j;
  }

  lemma {:induction false} NativeMoved(s: QueueSnapshot, ps: seq<NativeOperation>, generation: int,
                                       hold: bool)
    requires Durable(s) && s.mode.Native? && OperationsMoved(s.operations, ps)
    requires s.generation <= generation
    requires forall k :: 0 <= k < |ps| && Sent(s.operations[k].state) ==> Sent(ps[k].state)
    ensures OperationKeys(s.reservations, ps)
    ensures NativeOk(s.mode, hold, s.items, s.attempts, s.reservations, ps, s.currentItemId,
                     generation)
  {
    hide AttemptKeys, CommandKeys, ReservationKeys, TextOk, PositionOk, AttemptsOk, StartsOk,
         CommandsOk, AttemptAt, ItemAt;
    forall k | 0 <= k < |s.reservations|
      ensures ReservationOk(s.items, s.attempts, ps, s.currentItemId, generation,
                            s.reservations[k])
    {
      OperationsFrame(s.items, s.attempts, s.operations, ps, s.currentItemId, s.generation,
                      generation, s.reservations[k]);
    }
    hide ReservationOk;
    forall k | 0 <= k < |ps| ensures ReservationAt(s.reservations, ps[k].reservationId).Some? {
      assert ReservationAt(s.reservations, s.operations[k].reservationId).Some?;
    }
  }

  lemma {:induction false} RecoveredNativeKeeps(s: QueueSnapshot)
    requires Durable(s) && s.mode.Native?
    ensures Durable(RecoveredNative(s))
  {
    hide ItemAt, AttemptAt, CommandKeys, ReservationKeys, OperationKeys, StartsOk, PositionOk,
         AttemptsOk, NativeOk;
    var t := RecoveredNative(s);
    CommandsMoved(s.attempts, s.commands, t.commands, s.generation);
    NativeMoved(s, t.operations, t.generation, true);
  }

  /** A restart turns the current item and its attempt, if any, into ones needing attention. */
  lemma {:induction false} RowsHeld(items: seq<QueueEntry>, attempts: seq<QueueAttempt>,
                                    current: Option<Id>)
    requires AttemptKeys(items, attempts) && AttemptsOk(items, attempts, current)
    requires PositionOk(items, current)
    ensures AttemptKeys(HeldItems(items), HeldAttempts(attempts))
    ensures AttemptsOk(HeldItems(items), HeldAttempts(attempts), current)
    ensures PositionOk(HeldItems(items), current)
    ensures SameAttempts(attempts, HeldAttempts(attempts))
  {
    PositionHeld(items, current);
    KeysHeld(items, attempts);
    hide ItemAt, AttemptAt, PositionOk, AttemptKeys;
    assert ItemKeys(items) by { ItemsOfKeys(items, attempts); }
    ItemAtSame(items, HeldItems(items));
    hide ItemKeys;
    forall k | 0 <= k < |attempts| ensures AttemptOk(HeldItems(items), HeldAttempts(attempts)[k]) {
      assert AttemptOk(items, attempts[k]);
    }
  }

  lemma {:induction false} ItemsOfKeys(items: seq<QueueEntry>, attempts: seq<QueueAttempt>)
    requires AttemptKeys(items, attempts)
    ensures ItemKeys(items)
  {
  }

  lemma {:induction false} KeysHeld(items: seq<QueueEntry>, attempts: seq<QueueAttempt>)
    requires AttemptKeys(items, attempts)
    ensures AttemptKeys(HeldItems(items), HeldAttempts(attempts))
    ensures SameAttempts(attempts, HeldAttempts(attempts))
  {
  }

  lemma {:induction false} PositionHeld(items: seq<QueueEntry>, current: Option<Id>)
    requires ItemKeys(items) && PositionOk(items, current)
    ensures PositionOk(HeldItems(items), current)
  {
    ItemAtSame(items, HeldItems(items));
  }

  lemma {:induction false} RecoveredFacts(s: QueueSnapshot)
    requires TextOk(s) && s.mode.Legacy?
    requires NativeOk(s.mode, s.reconciliationRequired, s.items, s.attempts, s.reservations,
                      s.operations, s.currentItemId, s.generation)
    ensures TextOk(RecoveredLegacy(s))
    ensures var t := RecoveredLegacy(s);
            NativeOk(t.mode, t.reconciliationRequired, t.items, t.attempts, t.reservations,
                     t.operations, t.currentItemId, t.generation)
  {
  }

  lemma {:induction false} RecoveredLegacyKeeps(s: QueueSnapshot)
    requires Durable(s) && s.mode.Legacy?
    ensures Durable(RecoveredLegacy(s))
  {
    var t := RecoveredLegacy(s);
    assert AttemptIds(s.attempts);
    RecoveredFacts(s);
    hide TextOk, NativeOk, AttemptKeys, CommandKeys, ReservationKeys, OperationKeys, StartsOk,
         CommandsOk, PositionOk, AttemptsOk, SameAttempts, AttemptIds;
    RowsHeld(s.items, s.attempts, s.currentItemId);
    CommandsRecovered(s.attempts, t.attempts, s.commands, s.generation);
  }

  /** Commands whose dispatch became uncertain, in the next generation. */
  lemma {:induction false} CommandsRecovered(attempts: seq<QueueAttempt>,
                                             attempts': seq<QueueAttempt>, cs: seq<JournalCommand>,
                                             generation: int)
    requires AttemptIds(attempts) && SameAttempts(attempts, attempts')
    requires CommandKeys(attempts, cs) && StartsOk(attempts, cs) && CommandsOk(cs, generation)
    ensures CommandKeys(attempts', UncertainCommands(cs))
    ensures StartsOk(attempts', UncertainCommands(cs))
    ensures CommandsOk(UncertainCommands(cs), generation + 1)
  {
    hide CommandKeys, StartsOk, AttemptIds, SameAttempts;
    CommandsMoved(attempts, cs, UncertainCommands(cs), generation);
    CommandFrame(attempts, attempts', UncertainCommands(cs));
    Later(UncertainCommands(cs), generation);
  }

  lemma {:induction false} Later(cs: seq<JournalCommand>, generation: int)
    requires CommandsOk(cs, generation)
    ensures CommandsOk(cs, generation + 1)
  {
  }

  lemma {:induction false} RecoverKeeps(s: QueueSnapshot, rev: int)
    requires Durable(s) && Recover(s, rev).Ok?
    ensures Durable(Recover(s, rev).value)
  {
    hide Durable, RecoveredNative, RecoveredLegacy;
    if s.mode.Native? {
      RecoveredNativeKeeps(s);
    } else {
      RecoveredLegacyKeeps(s);
    }
  }

  // ---------------------------------------------------------------- native staging

  lemma {:induction false} OperationAppended(items: seq<QueueEntry>, attempts: seq<QueueAttempt>,
                                             os: seq<NativeOperation>, o: NativeOperation,
                                             current: Option<Id>, generation: int,
                                             r: NativeReservation)
    requires ReservationOk(items, attempts, os, current, generation, r)
    requires o.reservationId == r.reservationId ==>
      && ActionFree(os, r.reservationId, o.action)
      && r.generation <= o.generation <= generation
      && r.createdAt <= o.createdAt <= o.updatedAt
      && (o.scopeAttemptId == r.predecessorAttemptId || o.scopeAttemptId == r.successorAttemptId)
    ensures ReservationOk(items, attempts, os + [o], current, generation, r)
  {
    var ps := os + [o];
    var i, j := EnqueueAt(os, r.reservationId), EnqueueAt(ps, r.reservationId);
    assert ps[i.value] == os[i.value];
    assert j.Some?;
    assert j.value < |os| ==> os[j.value] == ps[j.value];
    assert i == j;
  }

  lemma {:induction false} KeysAppended(rs: seq<NativeReservation>, os: seq<NativeOperation>,
                                        o: NativeOperation)
    requires OperationKeys(rs, os) && OperationAt(os, o.operationId).None?
    requires ReservationAt(rs, o.reservationId).Some?
    requires ActionFree(os, o.reservationId, o.action)
    ensures OperationKeys(rs, os + [o])
  {
  }

  lemma {:induction false} ClearedKeeps(s: QueueSnapshot, k: nat, o: NativeOperation)
    requires Durable(s) && s.mode.Native? && k < |s.reservations|
    requires o.reservationId == s.reservations[k].reservationId && OperationText(o)
    requires OperationAt(s.operations, o.operationId).None?
    requires ActionFree(s.operations, o.reservationId, o.action)
    requires o.generation == s.generation
    requires s.reservations[k].createdAt <= o.createdAt <= o.updatedAt
    requires o.scopeAttemptId == s.reservations[k].predecessorAttemptId
          || o.scopeAttemptId == s.reservations[k].successorAttemptId
    ensures Durable(Cleared(s, o))
  {
    ClearedText(s, o);
    ClearedNative(s, k, o);
    hide TextOk, NativeOk, CommandKeys, StartsOk, CommandsOk, PositionOk, AttemptsOk, AttemptKeys,
         OperationKeys, ReservationKeys, ReservationAt, OperationAt, ActionFree;
    KeysAppended(s.reservations, s.operations, o);
  }

  lemma {:induction false} ClearedText(s: QueueSnapshot, o: NativeOperation)
    requires TextOk(s) && OperationText(o)
    ensures TextOk(Cleared(s, o))
  {
  }

  lemma {:induction false} ClearedNative(s: QueueSnapshot, k: nat, o: NativeOperation)
    requires Durable(s) && s.mode.Native? && k < |s.reservations|
    requires o.reservationId == s.reservations[k].reservationId
    requires ActionFree(s.operations, o.reservationId, o.action)
    requires o.generation == s.generation
    requires s.reservations[k].createdAt <= o.createdAt <= o.updatedAt
    requires o.scopeAttemptId == s.reservations[k].predecessorAttemptId
          || o.scopeAttemptId == s.reservations[k].successorAttemptId
    ensures var t := Cleared(s, o);
            NativeOk(t.mode, t.reconciliationRequired, t.items, t.attempts, t.reservations,
                     t.operations, t.currentItemId, t.generation)
  {
    hide TextOk, CommandKeys, StartsOk, CommandsOk, PositionOk, AttemptsOk, AttemptKeys,
         OperationKeys, EnqueueAt, ActionFree, SuccessorOk, NextItem, Provenance, ItemAt, AttemptAt;
    var t := Cleared(s, o);
    forall n | 0 <= n < |s.reservations|
      ensures ReservationOk(t.items, t.attempts, t.operations, t.currentItemId, t.generation,
                            s.reservations[n])
    {
      assert n != k ==> s.reservations[n].reservationId != s.reservations[k].reservationId;
      assert ReservationOk(s.items, s.attempts, s.operations, s.currentItemId, s.generation,
                           s.reservations[n]);
      assert s.reservations[n].generation <= s.generation;
      hide ReservationOk;
      OperationAppended(s.items, s.attempts, s.operations, o, s.currentItemId, s.generation,
                        s.reservations[n]);
    }
    hide ReservationOk;
  }

  lemma {:induction false} ClearKeeps(s: QueueSnapshot, taken: Taken, r: Id, q: NativeQueueRequest,
                                      at: Instant, rev: int, gen: int)
    requires Durable(s) && q.WellFormed() && PrepareNativeClear(s, taken, r, q, at, rev, gen).Ok?
    ensures Durable(PrepareNativeClear(s, taken, r, q, at, rev, gen).value)
  {
    if PrepareNativeClear(s, taken, r, q, at, rev, gen).value != s {
      var k := ReservationAt(s.reservations, r).value;
      assert ReservationOk(s.items, s.attempts, s.operations, s.currentItemId, s.generation,
                           s.reservations[k]);
      hide Durable, Cleared, ReservationOk;
      ClearedKeeps(s, k, NewOperation(s, r, q, at));
    }
  }

  /** A new reservation: it follows the last attempt and reserves the pending item after it. */
  lemma {:induction false} NewReservationOk(items: seq<QueueEntry>, attempts: seq<QueueAttempt>,
                                            ops: seq<NativeOperation>, current: Option<Id>,
                                            generation: int, r: NativeReservation,
                                            o: NativeOperation)
    requires AttemptIds(attempts) && attempts != []
    requires r.predecessorAttemptId == attempts[|attempts| - 1].attemptId
    requires current == Some(attempts[|attempts| - 1].itemId)
    requires NextItem(items, attempts[|attempts| - 1].itemId, r.successorItemId)
    requires items[ItemAt(items, r.successorItemId).value].intent.Pending?
    requires AttemptAt(attempts, r.successorAttemptId).None?
    requires r.state.Reserved? && r.adoptionDecisionId.None? && r.exitDecisionId.None?
    requires EnqueueOk(o, r) && r.generation == generation && o.reservationId == r.reservationId
    requires o.action.PlayNext? && r.createdAt <= o.createdAt <= o.updatedAt
    requires forall k :: 0 <= k < |ops| ==> ops[k].reservationId != r.reservationId
    ensures ReservationOk(items, attempts, ops + [o], current, generation, r)
  {
    hide ItemAt;
    var all := ops + [o];
    assert all[|ops|] == o;
    assert EnqueueAt(all, r.reservationId) == Some(|ops|);
    assert AttemptAt(attempts, r.predecessorAttemptId) == Some(|attempts| - 1);
  }

  lemma {:induction false} ReservationKeysAppended(rs: seq<NativeReservation>,
                                                   ops: seq<NativeOperation>, r: NativeReservation,
                                                   o: NativeOperation)
    requires OperationKeys(rs, ops) && OperationAt(ops, o.operationId).None?
    requires ReservationAt(rs, r.reservationId).None? && o.reservationId == r.reservationId
    ensures OperationKeys(rs + [r], ops + [o])
  {
    forall k | 0 <= k < |ops|
      ensures ops[k].reservationId != r.reservationId
      ensures ReservationAt(rs + [r], ops[k].reservationId).Some?
    {
      var n := ReservationAt(rs, ops[k].reservationId);
      assert (rs + [r])[n.value].reservationId == ops[k].reservationId;
    }
    assert (rs + [r])[|rs|] == r;
  }

  lemma {:induction false} ProvenanceAppended(rs: seq<NativeReservation>, r: NativeReservation,
                                              a: QueueAttempt)
    requires a.origin.NativeObserved? && Provenance(rs, a)
    ensures Provenance(rs + [r], a)
  {
    var n :| 0 <= n < |rs| && rs[n].reservationId == a.origin.reservationId
      && rs[n].successorAttemptId == a.attemptId && rs[n].adoptionDecisionId.Some?;
    assert (rs + [r])[n] == rs[n];
  }

  lemma {:induction false} NativeStaged(s: QueueSnapshot, taken: Taken, r: NativeReservation,
                                        o: NativeOperation)
    requires s.mode.Native? && ReservationFree(s, taken, r) && !AnyReserved(s.reservations)
    requires OperationKeys(s.reservations, s.operations) && o.reservationId == r.reservationId
    requires NativeOk(s.mode, s.reconciliationRequired, s.items, s.attempts, s.reservations,
                      s.operations, s.currentItemId, s.generation)
    requires ReservationOk(s.items, s.attempts, s.operations + [o], s.currentItemId, s.generation,
                           r)
    ensures NativeOk(s.mode, s.reconciliationRequired, s.items, s.attempts, s.reservations + [r],
                     s.operations + [o], s.currentItemId, s.generation)
  {
    hide ReservationOk, OperationKeys, ReservationAt;
    var rs := s.reservations + [r];
    forall k | 0 <= k < |rs|
      ensures ReservationOk(s.items, s.attempts, s.operations + [o], s.currentItemId,
                            s.generation, rs[k])
    {
      if k < |s.reservations| {
        OperationAppended(s.items, s.attempts, s.operations, o, s.currentItemId, s.generation,
                          s.reservations[k]);
      }
    }
    forall k | 0 <= k < |s.attempts| && s.attempts[k].origin.NativeObserved?
      ensures Provenance(rs, s.attempts[k])
    {
      ProvenanceAppended(s.reservations, r, s.attempts[k]);
    }
  }

  lemma {:induction false} ReservationAppended(s: QueueSnapshot, taken: Taken, r: NativeReservation)
    requires ReservationKeys(s.reservations) && ReservationFree(s, taken, r)
    requires r.adoptionDecisionId.None? && r.exitDecisionId.None?
    ensures ReservationKeys(s.reservations + [r])
    ensures ReservationAt(s.reservations, r.reservationId).None?
  {
  }

  /** The guards of a staging, collected. */
  predicate Staging(s: QueueSnapshot, r: NativeReservation, o: NativeOperation) {
    && s.mode.Native? && s.attempts != [] && !AnyReserved(s.reservations)
    && var source := s.attempts[|s.attempts| - 1];
    && r.predecessorAttemptId == source.attemptId
    && NextItem(s.items, source.itemId, r.successorItemId)
    && s.items[ItemAt(s.items, r.successorItemId).value].intent.Pending?
    && AttemptAt(s.attempts, r.successorAttemptId).None?
    && r.state.Reserved? && r.adoptionDecisionId.None? && r.exitDecisionId.None?
    && EnqueueOk(o, r) && r.generation == s.generation
    && o.reservationId == r.reservationId && o.action.PlayNext?
    && r.createdAt <= o.createdAt <= o.updatedAt
    && OperationAt(s.operations, o.operationId).None?
  }

  /** What a staging relies on in durable rows. */
  lemma {:induction false} StagingRows(s: QueueSnapshot)
    requires Durable(s) && s.attempts != []
    ensures AttemptIds(s.attempts) && ReservationKeys(s.reservations)
    ensures OperationKeys(s.reservations, s.operations) && TextOk(s)
    ensures s.currentItemId == Some(s.attempts[|s.attempts| - 1].itemId)
    ensures NativeOk(s.mode, s.reconciliationRequired, s.items, s.attempts, s.reservations,
                     s.operations, s.currentItemId, s.generation)
  {
    hide AttemptIds, ReservationKeys, OperationKeys, CommandKeys, TextOk, NativeOk, StartsOk,
         CommandsOk, PositionOk;
  }

  /** The staged reservation and its enqueue join the native history. */
  lemma {:induction false} StagedNative(s: QueueSnapshot, taken: Taken, r: NativeReservation,
                                        o: NativeOperation)
    requires Durable(s) && Staging(s, r, o) && ReservationFree(s, taken, r)
    ensures ReservationKeys(s.reservations + [r])
    ensures OperationKeys(s.reservations + [r], s.operations + [o])
    ensures NativeOk(s.mode, s.reconciliationRequired, s.items, s.attempts, s.reservations + [r],
                     s.operations + [o], s.currentItemId, s.generation)
  {
    hide Durable, ItemAt, AttemptAt, AttemptIds, ReservationAt, ReservationKeys, OperationKeys,
         OperationAt, NativeOk, ReservationOk, NextItem, EnqueueOk, TextOk, ReservationFree,
         AnyReserved;
    StagingRows(s);
    ReservationAppended(s, taken, r);
    Unused(s, taken, r);
    NewReservationOk(s.items, s.attempts, s.operations, s.currentItemId, s.generation, r, o);
    NativeStaged(s, taken, r, o);
    ReservationKeysAppended(s.reservations, s.operations, r, o);
  }

  /** Apart from their texts, rows that grow by a reservation and an operation are accepted. */
  lemma {:induction false} StagedAccepts(s: QueueSnapshot, r: NativeReservation,
                                         o: NativeOperation)
    requires Durable(s)
    requires ReservationKeys(s.reservations + [r])
    requires OperationKeys(s.reservations + [r], s.operations + [o])
    requires NativeOk(s.mode, s.reconciliationRequired, s.items, s.attempts, s.reservations + [r],
                      s.operations + [o], s.currentItemId, s.generation)
    ensures Keyed(Staged(s, r, o))
    ensures ReloadAccepts(Staged(s, r, o)) <==> TextOk(Staged(s, r, o))
  {
    hide AttemptKeys, CommandKeys, ReservationKeys, OperationKeys, TextOk, PositionOk, AttemptsOk,
         StartsOk, CommandsOk, NativeOk;
  }

  /** A staging is accepted by its reload exactly when the application identity, which is only
      checked to be present, is not the empty string. */
  lemma {:induction false} StagedKeeps(s: QueueSnapshot, taken: Taken, r: NativeReservation,
                                       o: NativeOperation)
    requires Durable(s) && Staging(s, r, o) && ReservationFree(s, taken, r)
    requires OperationText(o) && ReservationText(r.(applicationId := "a"))
    ensures Keyed(Staged(s, r, o))
    ensures ReloadAccepts(Staged(s, r, o)) <==> r.applicationId != ""
  {
    hide Durable, Staged, Keyed, ReloadAccepts, TextOk, NativeOk, ReservationKeys, OperationKeys,
         ReservationFree, ReservationText, OperationText;
    assert s.attempts != [];
    hide Staging;
    StagingRows(s);
    StagedNative(s, taken, r, o);
    StagedAccepts(s, r, o);
    StagedText(s, r, o);
  }

  /** No operation of a new reservation exists yet. */
  lemma {:induction false} Unused(s: QueueSnapshot, taken: Taken, r: NativeReservation)
    requires OperationKeys(s.reservations, s.operations) && ReservationFree(s, taken, r)
    ensures forall k :: 0 <= k < |s.operations| ==>
      s.operations[k].reservationId != r.reservationId
  {
    forall k | 0 <= k < |s.operations|
      ensures s.operations[k].reservationId != r.reservationId
    {
      assert ReservationAt(s.reservations, s.operations[k].reservationId).Some?;
    }
  }

  lemma {:induction false} StagedText(s: QueueSnapshot, r: NativeReservation, o: NativeOperation)
    requires TextOk(s) && OperationText(o) && ReservationText(r.(applicationId := "a"))
    ensures TextOk(Staged(s, r, o)) <==> r.applicationId != ""
  {
    assert Staged(s, r, o).reservations[|s.reservations|] == r;
  }

  lemma {:induction false} Adjacent(items: seq<QueueEntry>, item: Id, next: Id)
    requires ItemKeys(items) && ItemAt(items, item).Some?
    requires ItemAt(items, item).value + 1 < |items|
    requires items[ItemAt(items, item).value + 1].itemId == next
    requires items[ItemAt(items, item).value].content
          != items[ItemAt(items, item).value + 1].content
    ensures NextItem(items, item, next) && ItemAt(items, next).value == ItemAt(items, item).value + 1
  {
    AdjacentPosition(items, item, next);
  }

  /** The guards on a staging make its reservation join the last item to the next one. */
  lemma {:induction false} StagingGuards(s: QueueSnapshot, taken: Taken, i: Id, r: Id, a: Id,
                                         q: NativeQueueRequest, at: Instant, rev: int, gen: int)
    requires Durable(s) && q.WellFormed()
    requires PrepareNativeSuccessor(s, taken, i, r, a, q, at, rev, gen).Ok?
    requires OperationAt(s.operations, q.operationId).None?
    ensures s.attempts != []
    ensures var row := NewReservation(s, s.attempts[|s.attempts| - 1], i, r, a, q, at);
            var o := NewOperation(s, r, q, at);
            && Staging(s, row, o) && ReservationFree(s, taken, row)
            && OperationText(o) && ReservationText(row.(applicationId := "a"))
            && PrepareNativeSuccessor(s, taken, i, r, a, q, at, rev, gen).value == Staged(s, row, o)
  {
    hide Durable, Staged, ItemKeys, ItemAt, AttemptAt, NextItem, ReservationFree, AnyUnresolved,
         AnyAttention, AnyReserved, OperationAt, StagedAgain, SameOperation, Blank;
    StagingFacts(s);
    EmptyIsBlank();
    var source := s.attempts[|s.attempts| - 1];
    var row := NewReservation(s, source, i, r, a, q, at);
    assert Stageable(s, source, i, a, q) && RequestMatches(s, row, q);
    var index := ItemAt(s.items, source.itemId).value;
    Adjacent(s.items, source.itemId, i);
  }

  lemma {:induction false} EmptyIsBlank()
    ensures Blank("")
  {
  }

  lemma {:induction false} StagingFacts(s: QueueSnapshot)
    requires Durable(s)
    ensures ItemKeys(s.items) && s.generation >= 0
  {
  }

  lemma {:induction false} AdjacentPosition(items: seq<QueueEntry>, item: Id, next: Id)
    requires ItemKeys(items) && ItemAt(items, item).Some?
    requires ItemAt(items, item).value + 1 < |items|
    requires items[ItemAt(items, item).value + 1].itemId == next
    ensures ItemAt(items, next) == Some(ItemAt(items, item).value + 1)
  {
  }

  lemma {:induction false} ReserveKeeps(s: QueueSnapshot, taken: Taken, i: Id, r: Id, a: Id,
                                        q: NativeQueueRequest, at: Instant, rev: int, gen: int)
    requires Durable(s) && q.WellFormed()
    requires PrepareNativeSuccessor(s, taken, i, r, a, q, at, rev, gen).Ok?
    ensures Keyed(PrepareNativeSuccessor(s, taken, i, r, a, q, at, rev, gen).value)
    ensures ReloadAccepts(PrepareNativeSuccessor(s, taken, i, r, a, q, at, rev, gen).value)
       <==> q.scope.applicationId != Some("")
  {
    if OperationAt(s.operations, q.operationId).None? {
      StagingGuards(s, taken, i, r, a, q, at, rev, gen);
      var row := NewReservation(s, s.attempts[|s.attempts| - 1], i, r, a, q, at);
      hide Durable, Staged, Staging, PrepareNativeSuccessor;
      StagedKeeps(s, taken, row, NewOperation(s, r, q, at));
    } else {
      var k := ReservationAt(s.reservations, r).value;
      assert ReservationText(s.reservations[k]);
    }
  }

  // ---------------------------------------------------------------- native outcomes

  /** Recording a refusal for the enqueue of a reservation that was already adopted. */
  predicate UnsendsAdopted(r: NativeReservation, o: NativeOperation, state: ExecutionState) {
    state.Rejected? && o.action.PlayNext? && r.adoptionDecisionId.Some?
  }

  lemma {:induction false} EnqueueUnique(s: QueueSnapshot, k: nat)
    requires OperationKeys(s.reservations, s.operations) && k < |s.operations|
    requires s.operations[k].action.PlayNext?
    ensures EnqueueAt(s.operations, s.operations[k].reservationId) == Some(k)
  {
  }

  /** One operation moves: every reservation stays acceptable, except an adopted one whose
      enqueue is now refused. */
  lemma {:induction false} OperationMovedReservation(s: QueueSnapshot, k: nat, n: nat, m: nat,
                                                     state: ExecutionState, at: Instant)
    requires OperationKeys(s.reservations, s.operations) && ReservationKeys(s.reservations)
    requires k < |s.operations| && n < |s.reservations| && m < |s.reservations|
    requires s.reservations[n].reservationId == s.operations[k].reservationId
    requires s.operations[k].updatedAt <= at
    requires if state.Dispatched? then s.operations[k].state.Pending? else IsOutcome(state)
    requires ReservationOk(s.items, s.attempts, s.operations, s.currentItemId, s.generation,
                           s.reservations[m])
    ensures ReservationOk(s.items, s.attempts,
                          WithOperation(s.operations, s.operations[k].operationId, state, at),
                          s.currentItemId, s.generation, s.reservations[m])
       <==> !(m == n && UnsendsAdopted(s.reservations[n], s.operations[k], state))
  {
    var ps := WithOperation(s.operations, s.operations[k].operationId, state, at);
    assert OperationsMoved(s.operations, ps);
    OperationsFrame(s.items, s.attempts, s.operations, ps, s.currentItemId, s.generation,
                    s.generation, s.reservations[m]);
    var e := EnqueueAt(s.operations, s.reservations[m].reservationId).value;
    EnqueueUnique(s, e);
    assert ps[e].state == if e == k then state else s.operations[e].state;
    assert s.reservations[m].adoptionDecisionId.Some? ==> Sent(s.operations[e].state);
    assert m != n ==> s.reservations[m].reservationId != s.reservations[n].reservationId;
  }

  lemma {:induction false} OperationMovedKeeps(s: QueueSnapshot, k: nat, n: nat,
                                               state: ExecutionState, at: Instant)
    requires Durable(s) && s.mode.Native? && k < |s.operations| && n < |s.reservations|
    requires s.reservations[n].reservationId == s.operations[k].reservationId
    requires s.operations[k].updatedAt <= at
    requires if state.Dispatched? then s.operations[k].state.Pending? else IsOutcome(state)
    ensures var t := OperationMoved(s, s.operations[k].operationId, state, at);
            && Keyed(t)
            && (ReloadAccepts(t) <==>
                  !UnsendsAdopted(s.reservations[n], s.operations[k], state))
  {
    hide ItemAt, AttemptAt, CommandKeys, StartsOk, CommandsOk, PositionOk, AttemptsOk,
         AttemptKeys, ReservationKeys, OperationKeys, ReservationOk, EnqueueAt, ReservationAt;
    var t := OperationMoved(s, s.operations[k].operationId, state, at);
    MovedKeys(s.reservations, s.operations, t.operations);
    forall m | 0 <= m < |s.reservations|
      ensures ReservationOk(t.items, t.attempts, t.operations, t.currentItemId, t.generation,
                            s.reservations[m])
         <==> !(m == n && UnsendsAdopted(s.reservations[n], s.operations[k], state))
    {
      OperationMovedReservation(s, k, n, m, state, at);
    }
  }

  lemma {:induction false} MovedKeys(rs: seq<NativeReservation>, os: seq<NativeOperation>,
                                     ps: seq<NativeOperation>)
    requires OperationKeys(rs, os) && |os| == |ps|
    requires forall k :: 0 <= k < |ps| ==>
      ps[k] == os[k].(state := ps[k].state, updatedAt := ps[k].updatedAt)
    ensures OperationKeys(rs, ps)
  {
    forall k | 0 <= k < |ps| ensures ReservationAt(rs, ps[k].reservationId).Some? {
      assert ReservationAt(rs, os[k].reservationId).Some?;
    }
  }

  /** A native transition is accepted by its reload unless it refuses an adopted enqueue. */
  lemma {:induction false} NativeTransitionKeeps(s: QueueSnapshot, id: Id, state: ExecutionState,
                                                 at: Instant, rev: int, gen: int)
    requires Durable(s) && (state.Dispatched? || IsOutcome(state))
    requires TransitionNative(s, id, state, at, rev, gen).Ok?
    ensures OperationAt(s.operations, id).Some?
    ensures var o := s.operations[OperationAt(s.operations, id).value];
            && ReservationAt(s.reservations, o.reservationId).Some?
            && var r := s.reservations[ReservationAt(s.reservations, o.reservationId).value];
            && var t := TransitionNative(s, id, state, at, rev, gen).value;
            && Keyed(t) && (ReloadAccepts(t) <==> !UnsendsAdopted(r, o, state))
  {
    hide Keyed, ReloadAccepts, OperationMoved, NativeDispatchable, Sent;
    var k := OperationAt(s.operations, id).value;
    var n := ReservationAt(s.reservations, s.operations[k].reservationId).value;
    if s.operations[k].state == state && !state.Dispatched? {
      EnqueueUniqueSent(s, k, n);
      assert !Sent(ExecutionState.Rejected) by { RejectedIsNotSent(); }
    } else {
      hide Durable;
      OperationMovedKeeps(s, k, n, state, at);
    }
  }

  lemma {:induction false} RejectedIsNotSent()
    ensures !Sent(ExecutionState.Rejected)
  {
  }

  /** The enqueue of an adopted reservation is not recorded as refused. */
  lemma {:induction false} EnqueueUniqueSent(s: QueueSnapshot, k: nat, n: nat)
    requires Durable(s) && s.mode.Native? && k < |s.operations| && n < |s.reservations|
    requires s.reservations[n].reservationId == s.operations[k].reservationId
    ensures s.operations[k].action.PlayNext? && s.reservations[n].adoptionDecisionId.Some? ==>
      Sent(s.operations[k].state)
  {
    if s.operations[k].action.PlayNext? {
      EnqueueUnique(s, k);
      assert ReservationOk(s.items, s.attempts, s.operations, s.currentItemId, s.generation,
                           s.reservations[n]);
    }
  }

  // ---------------------------------------------------------------- session exit

  lemma {:induction false} ExitedReservation(items: seq<QueueEntry>, attempts: seq<QueueAttempt>,
                                             ops: seq<NativeOperation>, current: Option<Id>,
                                             generation: int, r: NativeReservation, decision: Id)
    requires ReservationOk(items, attempts, ops, current, generation, r)
    ensures ReservationOk(items, attempts, ops, current, generation,
                          r.(state := SessionExitObserved, exitDecisionId := Some(decision)))
  {
  }

  /** Reservations that keep their identities and adoptions still back attempts and operations. */
  lemma {:induction false} ReservationsRewritten(rs: seq<NativeReservation>,
                                                 rs': seq<NativeReservation>,
                                                 attempts: seq<QueueAttempt>,
                                                 ops: seq<NativeOperation>)
    requires OperationKeys(rs, ops) && |rs| == |rs'|
    requires forall k :: 0 <= k < |attempts| && attempts[k].origin.NativeObserved? ==>
      Provenance(rs, attempts[k])
    requires forall k :: 0 <= k < |rs| ==>
      && rs'[k].reservationId == rs[k].reservationId
      && rs'[k].successorAttemptId == rs[k].successorAttemptId
      && (rs[k].adoptionDecisionId.Some? ==> rs'[k].adoptionDecisionId.Some?)
    ensures OperationKeys(rs', ops)
    ensures forall k :: 0 <= k < |attempts| && attempts[k].origin.NativeObserved? ==>
      Provenance(rs', attempts[k])
  {
    forall n | 0 <= n < |ops| ensures ReservationAt(rs', ops[n].reservationId).Some? {
      var m := ReservationAt(rs, ops[n].reservationId).value;
      assert rs'[m].reservationId == ops[n].reservationId;
    }
    forall n | 0 <= n < |attempts| && attempts[n].origin.NativeObserved?
      ensures Provenance(rs', attempts[n])
    {
      assert Provenance(rs, attempts[n]);
      var m :| 0 <= m < |rs| && rs[m].reservationId == attempts[n].origin.reservationId
        && rs[m].successorAttemptId == attempts[n].attemptId && rs[m].adoptionDecisionId.Some?;
      assert rs'[m].reservationId == rs[m].reservationId;
    }
  }

  lemma {:induction false} ExitedKeeps(s: QueueSnapshot, k: nat, decision: Id)
    requires Durable(s) && s.mode.Native? && k < |s.reservations|
    requires s.reservations[k].exitDecisionId.None?
    requires forall n :: 0 <= n < |s.reservations| ==>
      s.reservations[n].exitDecisionId != Some(decision)
    ensures Durable(Exited(s, s.reservations[k].reservationId, decision))
  {
    hide ItemAt, AttemptAt, EnqueueAt, CommandKeys, StartsOk, CommandsOk, PositionOk, AttemptsOk,
         AttemptKeys, ReservationOk, OperationKeys, Provenance;
    var t := Exited(s, s.reservations[k].reservationId, decision);
    ReservationsRewritten(s.reservations, t.reservations, s.attempts, s.operations);
    forall n | 0 <= n < |t.reservations|
      ensures ReservationOk(t.items, t.attempts, t.operations, t.currentItemId, t.generation,
                            t.reservations[n])
    {
      ExitedReservation(s.items, s.attempts, s.operations, s.currentItemId, s.generation,
                        s.reservations[n], decision);
    }
  }

  lemma {:induction false} ExitKeeps(s: QueueSnapshot, taken: Taken, r: Id, at: Instant, d: Id,
                                     rev: int, gen: int)
    requires Durable(s) && RecordNativeSessionExit(s, taken, r, at, d, rev, gen).Ok?
    ensures Durable(RecordNativeSessionExit(s, taken, r, at, d, rev, gen).value)
  {
    hide Durable, Exited;
    if RecordNativeSessionExit(s, taken, r, at, d, rev, gen).value != s {
      ExitedKeeps(s, ReservationAt(s.reservations, r).value, d);
    }
  }

  // ---------------------------------------------------------------- adoption

  /** A reservation that is not outstanding does not notice a new attempt of another one. */
  lemma {:induction false} BystanderReservation(items: seq<QueueEntry>, attempts: seq<QueueAttempt>,
                                                ops: seq<NativeOperation>, current: Option<Id>,
                                                generation: int, r: NativeReservation,
                                                a: QueueAttempt)
    requires ItemKeys(items) && AttemptIds(attempts) && AttemptAt(attempts, a.attemptId).None?
    requires ReservationOk(items, attempts, ops, current, generation, r)
    requires !r.state.Reserved? && r.successorAttemptId != a.attemptId
    ensures ReservationOk(WithItem(items, a.itemId, Current), attempts + [a], ops,
                          Some(a.itemId), generation, r)
  {
    ItemAtSame(items, WithItem(items, a.itemId, Current));
    AttemptAtAppend(attempts, a);
  }

  /** The adopted reservation is backed by the attempt it authorized. */
  lemma {:induction false} AdoptedReservation(items: seq<QueueEntry>, attempts: seq<QueueAttempt>,
                                              ops: seq<NativeOperation>, current: Option<Id>,
                                              generation: int, r: NativeReservation,
                                              a: QueueAttempt, decision: Id)
    requires ItemKeys(items) && AttemptIds(attempts) && AttemptAt(attempts, a.attemptId).None?
    requires ReservationOk(items, attempts, ops, current, generation, r) && r.state.Reserved?
    requires a.attemptId == r.successorAttemptId && a.itemId == r.successorItemId
    requires a.origin == NativeObserved(r.reservationId)
    requires Sent(ops[EnqueueAt(ops, r.reservationId).value].state)
    ensures ReservationOk(WithItem(items, a.itemId, Current), attempts + [a], ops, Some(a.itemId),
                          generation,
                          r.(state := Adopted, adoptionDecisionId := Some(decision)))
  {
    ItemAtSame(items, WithItem(items, a.itemId, Current));
    AttemptAtAppend(attempts, a);
  }

  /** Selecting the next item when only the settled source could be current. */
  lemma {:induction false} NextSelected(items: seq<QueueEntry>, current: Option<Id>, next: Id)
    requires ItemKeys(items) && PositionOk(items, current) && PendingItem(items, next)
    requires forall k :: 0 <= k < |items| ==> !items[k].intent.Current?
    ensures PositionOk(WithItem(items, next, Current), Some(next))
  {
    ItemAtSame(items, WithItem(items, next, Current));
  }

  /** The source of an adoption: settled as needing attention unless it was settled already. */
  function SourceSettled(s: QueueSnapshot, decisionId: Id): QueueSnapshot
    requires s.attempts != []
  {
    var source := s.attempts[|s.attempts| - 1];
    if source.intent.Current? || source.intent.NeedsAttention? then
      Settlement(s, source, NeedsAttention, SourceDecision(source, decisionId))
    else s
  }

  lemma {:induction false} SourceSettledKeeps(s: QueueSnapshot, taken: Taken, r: NativeReservation,
                                              decisionId: Id)
    requires Durable(s) && s.attempts != []
    requires AdoptionFree(s, taken, r, s.attempts[|s.attempts| - 1], decisionId)
    ensures Durable(SourceSettled(s, decisionId))
    ensures forall k :: 0 <= k < |s.items| ==>
      !SourceSettled(s, decisionId).items[k].intent.Current?
  {
    var n := |s.attempts| - 1;
    var source := s.attempts[n];
    LastAttemptOk(s);
    OthersDiffer(s, source, decisionId);
    hide Durable, AdoptionFree;
    if source.intent.Current? || source.intent.NeedsAttention? {
      SettlementKeeps(s, n, NeedsAttention, SourceDecision(source, decisionId));
    }
  }

  /** Only the item of the last attempt can be current. */
  lemma {:induction false} LastAttemptOk(s: QueueSnapshot)
    requires Durable(s) && s.attempts != []
    ensures forall k :: 0 <= k < |s.items| && s.items[k].intent.Current? ==>
      s.items[k].itemId == s.attempts[|s.attempts| - 1].itemId
    ensures forall k :: 0 <= k < |s.items| && s.items[k].itemId == s.attempts[|s.attempts| - 1].itemId ==>
      s.items[k].intent == s.attempts[|s.attempts| - 1].intent
  {
    hide StartsOk, CommandsOk, NativeOk, TextOk, CommandKeys, ReservationKeys, OperationKeys;
    assert AttemptOk(s.items, s.attempts[|s.attempts| - 1]);
  }

  lemma {:induction false} OthersDiffer(s: QueueSnapshot, source: QueueAttempt, decisionId: Id)
    requires Durable(s) && s.attempts != [] && source == s.attempts[|s.attempts| - 1]
    requires source.intent.Current? || source.intent.NeedsAttention? ==>
      forall k :: 0 <= k < |s.attempts| && s.attempts[k].attemptId != source.attemptId ==>
        s.attempts[k].decisionId != Some(SourceDecision(source, decisionId))
    ensures source.intent.Current? || source.intent.NeedsAttention? ==>
      forall k :: 0 <= k < |s.attempts| - 1 ==>
        s.attempts[k].decisionId != Some(SourceDecision(source, decisionId))
  {
    hide ReloadAccepts;
  }

  /** An observed attempt comes without any command. */
  lemma {:induction false} ObservedAdded(attempts: seq<QueueAttempt>, cs: seq<JournalCommand>,
                                         a: QueueAttempt)
    requires AttemptIds(attempts) && CommandKeys(attempts, cs) && StartsOk(attempts, cs)
    requires AttemptAt(attempts, a.attemptId).None? && a.origin.NativeObserved?
    ensures CommandKeys(attempts + [a], cs) && StartsOk(attempts + [a], cs)
  {
    AttemptAtAppend(attempts, a);
    forall k | 0 <= k < |cs| ensures cs[k].attemptId != a.attemptId {
      assert AttemptAt(attempts, cs[k].attemptId).Some?;
    }
    StartsAbsent(cs, a.attemptId);
  }

  function Successor(r: NativeReservation, at: Instant): QueueAttempt {
    QueueAttempt(r.successorAttemptId, r.successorItemId, Current, at, None,
                 NativeObserved(r.reservationId))
  }

  /** What an adoption relies on in durable rows. */
  lemma {:induction false} AdoptableRows(u: QueueSnapshot, k: nat)
    requires Durable(u) && u.mode.Native? && k < |u.reservations|
    requires u.reservations[k].state.Reserved?
    ensures ItemKeys(u.items) && AttemptIds(u.attempts) && ReservationKeys(u.reservations)
    ensures AttemptAt(u.attempts, u.reservations[k].successorAttemptId).None?
    ensures forall n :: 0 <= n < |u.reservations| ==>
      && ReservationOk(u.items, u.attempts, u.operations, u.currentItemId, u.generation,
                       u.reservations[n])
      && (n != k ==> !u.reservations[n].state.Reserved?)
  {
    hide ItemAt, AttemptAt, EnqueueAt, CommandKeys, StartsOk, CommandsOk, PositionOk, AttemptsOk,
         OperationKeys, Provenance, TextOk, ReservationKeys, ItemKeys, AttemptIds, NextItem,
         EnqueueOk, OperationsOk;
    assert ReservationOk(u.items, u.attempts, u.operations, u.currentItemId, u.generation,
                         u.reservations[k]);
    assert forall i, j :: 0 <= i < j < |u.reservations| ==>
      !(u.reservations[i].state.Reserved? && u.reservations[j].state.Reserved?);
  }

  lemma {:induction false} ReservationsDiffer(rs: seq<NativeReservation>, k: nat)
    requires ReservationKeys(rs) && k < |rs|
    ensures forall n :: 0 <= n < |rs| && n != k ==>
      && rs[n].reservationId != rs[k].reservationId
      && rs[n].successorAttemptId != rs[k].successorAttemptId
  {
  }

  lemma {:induction false} AdoptedReservations(u: QueueSnapshot, k: nat, at: Instant, decision: Id)
    requires Durable(u) && u.mode.Native? && k < |u.reservations|
    requires u.reservations[k].state.Reserved?
    requires EnqueueAt(u.operations, u.reservations[k].reservationId).Some?
    requires Sent(u.operations[EnqueueAt(u.operations, u.reservations[k].reservationId).value].state)
    ensures var r := u.reservations[k];
            var rs := WithAdoption(u.reservations, r.reservationId, decision);
            var attempts := u.attempts + [Successor(r, at)];
            && (forall n :: 0 <= n < |rs| ==>
                  ReservationOk(WithItem(u.items, r.successorItemId, Current), attempts,
                                u.operations, Some(r.successorItemId), u.generation, rs[n]))
            && (forall i, j :: 0 <= i < j < |rs| ==>
                  !(rs[i].state.Reserved? && rs[j].state.Reserved?))
  {
    var r := u.reservations[k];
    var a := Successor(r, at);
    var rs := WithAdoption(u.reservations, r.reservationId, decision);
    hide Durable, ItemAt, AttemptAt, EnqueueAt, ReservationOk, ItemKeys, AttemptIds,
         ReservationKeys, Sent, WithItem;
    AdoptableRows(u, k);
    ReservationsDiffer(u.reservations, k);
    forall n | 0 <= n < |rs|
      ensures ReservationOk(WithItem(u.items, r.successorItemId, Current), u.attempts + [a],
                            u.operations, Some(r.successorItemId), u.generation, rs[n])
    {
      if n == k {
        AdoptedReservation(u.items, u.attempts, u.operations, u.currentItemId, u.generation, r, a,
                           decision);
      } else {
        BystanderReservation(u.items, u.attempts, u.operations, u.currentItemId, u.generation,
                             u.reservations[n], a);
      }
    }
  }

  lemma {:induction false} AdoptionProvenance(rs: seq<NativeReservation>,
                                              attempts: seq<QueueAttempt>,
                                              ops: seq<NativeOperation>, k: nat, at: Instant,
                                              decision: Id)
    requires OperationKeys(rs, ops) && k < |rs|
    requires forall n :: 0 <= n < |attempts| && attempts[n].origin.NativeObserved? ==>
      Provenance(rs, attempts[n])
    ensures var rs' := WithAdoption(rs, rs[k].reservationId, decision);
            var all := attempts + [Successor(rs[k], at)];
            && OperationKeys(rs', ops)
            && forall n :: 0 <= n < |all| && all[n].origin.NativeObserved? ==>
                 Provenance(rs', all[n])
  {
    var rs' := WithAdoption(rs, rs[k].reservationId, decision);
    ReservationsRewritten(rs, rs', attempts, ops);
    assert rs'[k].adoptionDecisionId == Some(decision);
    assert Provenance(rs', Successor(rs[k], at));
  }

  lemma {:induction false} AdoptionKeys(rs: seq<NativeReservation>, k: nat, decision: Id)
    requires ReservationKeys(rs) && k < |rs|
    requires forall n :: 0 <= n < |rs| ==> rs[n].adoptionDecisionId != Some(decision)
    ensures ReservationKeys(WithAdoption(rs, rs[k].reservationId, decision))
  {
    assert forall n :: 0 <= n < |rs| && n != k ==> rs[n].reservationId != rs[k].reservationId;
  }

  lemma {:induction false} AdoptionText(u: QueueSnapshot, k: nat, at: Instant, decision: Id,
                                        hold: bool)
    requires TextOk(u) && k < |u.reservations|
    ensures TextOk(u.(
      reconciliationRequired := hold,
      attempts := u.attempts + [Successor(u.reservations[k], at)],
      items := WithItem(u.items, u.reservations[k].successorItemId, Current),
      currentItemId := Some(u.reservations[k].successorItemId),
      reservations := WithAdoption(u.reservations, u.reservations[k].reservationId, decision)))
  {
    assert ReservationText(u.reservations[k]);
  }

  /** The rows an adoption writes on top of its settled source. */
  function AdoptedRows(u: QueueSnapshot, k: nat, at: Instant, decision: Id, hold: bool)
    : QueueSnapshot
    requires k < |u.reservations|
  {
    u.(reconciliationRequired := hold,
       attempts := u.attempts + [Successor(u.reservations[k], at)],
       items := WithItem(u.items, u.reservations[k].successorItemId, Current),
       currentItemId := Some(u.reservations[k].successorItemId),
       reservations := WithAdoption(u.reservations, u.reservations[k].reservationId, decision))
  }

  lemma {:induction false} AdoptedNative(u: QueueSnapshot, k: nat, at: Instant, decision: Id,
                                         hold: bool)
    requires Durable(u) && u.mode.Native? && k < |u.reservations|
    requires u.reservations[k].state.Reserved?
    requires EnqueueAt(u.operations, u.reservations[k].reservationId).Some?
    requires Sent(u.operations[EnqueueAt(u.operations, u.reservations[k].reservationId).value].state)
    ensures var t := AdoptedRows(u, k, at, decision, hold);
            && NativeOk(t.mode, t.reconciliationRequired, t.items, t.attempts, t.reservations,
                        t.operations, t.currentItemId, t.generation)
            && OperationKeys(t.reservations, t.operations)
  {
    AdoptedReservations(u, k, at, decision);
    hide TextOk, ItemAt, AttemptAt, EnqueueAt, CommandsOk, ReservationOk, Provenance, PositionOk,
         AttemptsOk, AttemptIds, ItemKeys, CommandKeys, ReservationKeys, OperationKeys, StartsOk,
         PendingItem, AttemptKeys;
    AdoptionProvenance(u.reservations, u.attempts, u.operations, k, at, decision);
  }

  lemma {:induction false} AdoptedRowsKeep(u: QueueSnapshot, k: nat, at: Instant, decision: Id,
                                           hold: bool)
    requires Durable(u) && u.mode.Native? && k < |u.reservations|
    requires u.reservations[k].state.Reserved?
    requires EnqueueAt(u.operations, u.reservations[k].reservationId).Some?
    requires Sent(u.operations[EnqueueAt(u.operations, u.reservations[k].reservationId).value].state)
    requires PendingItem(u.items, u.reservations[k].successorItemId)
    requires AttemptAt(u.attempts, u.reservations[k].successorAttemptId).None?
    requires forall n :: 0 <= n < |u.items| ==> !u.items[n].intent.Current?
    requires forall n :: 0 <= n < |u.attempts| ==>
      u.attempts[n].origin != NativeObserved(u.reservations[k].reservationId)
    requires forall n :: 0 <= n < |u.reservations| ==>
      u.reservations[n].adoptionDecisionId != Some(decision)
    ensures Durable(AdoptedRows(u, k, at, decision, hold))
  {
    var t := AdoptedRows(u, k, at, decision, hold);
    var a := Successor(u.reservations[k], at);
    hide NativeOk, AttemptKeys, TextOk, ItemAt, AttemptAt, EnqueueAt, CommandsOk, ReservationOk, Provenance, PositionOk,
         AttemptsOk, AttemptIds, ItemKeys, CommandKeys, ReservationKeys, OperationKeys, StartsOk,
         PendingItem, WithItem, WithAdoption;
    AdoptionText(u, k, at, decision, hold);
    AdoptedNative(u, k, at, decision, hold);
    NextSelected(u.items, u.currentItemId, a.itemId);
    AttemptAdded(u.items, u.attempts, u.currentItemId, a);
    ObservedAdded(u.attempts, u.commands, a);
    AdoptionKeys(u.reservations, k, decision);
  }

  lemma {:induction false} AdoptionKeeps(s: QueueSnapshot, taken: Taken, k: nat, at: Instant,
                                         decision: Id)
    requires Durable(s) && s.mode.Native? && k < |s.reservations|
    requires s.reservations[k].state.Reserved?
    requires EnqueueAt(s.operations, s.reservations[k].reservationId).Some?
    requires Sent(s.operations[EnqueueAt(s.operations, s.reservations[k].reservationId).value].state)
    requires s.attempts != []
    requires AdoptionFree(s, taken, s.reservations[k], s.attempts[|s.attempts| - 1], decision)
    ensures Durable(Adoption(s, s.reservations[k], s.attempts[|s.attempts| - 1], at, decision))
  {
    var r := s.reservations[k];
    var u := SourceSettled(s, decision);
    var t := Adoption(s, r, s.attempts[|s.attempts| - 1], at, decision);
    RevisionFact(s);
    SourceSettledKeeps(s, taken, r, decision);
    AdoptionInTwo(s, k, at, decision);
    SourceKeepsOthers(s, taken, r, decision);
    hide Durable, AdoptedRows, PendingItem, EnqueueAt, AttemptAt, AttemptIds, Adoption, AdoptionFree,
         SourceSettled, Sent;
    OutstandingSuccessor(u, k);
    AdoptedRowsKeep(u, k, at, decision, t.reconciliationRequired);
    DurableRevision(AdoptedRows(u, k, at, decision, t.reconciliationRequired), t.revision);
  }

  lemma {:induction false} RevisionFact(s: QueueSnapshot)
    requires Durable(s)
    ensures s.revision >= 0
  {
  }

  /** Settling the source leaves everything else as an adoption needs it. */
  lemma {:induction false} SourceKeepsOthers(s: QueueSnapshot, taken: Taken, r: NativeReservation,
                                             d: Id)
    requires s.attempts != [] && AdoptionFree(s, taken, r, s.attempts[|s.attempts| - 1], d)
    ensures var u := SourceSettled(s, d);
            && u.mode == s.mode && u.reservations == s.reservations && u.operations == s.operations
            && (forall n :: 0 <= n < |u.attempts| ==>
                  u.attempts[n].origin != NativeObserved(r.reservationId))
            && (forall n :: 0 <= n < |u.reservations| ==>
                  u.reservations[n].adoptionDecisionId != Some(d))
  {
    hide AttemptAt;
  }

  /** An adoption settles its source and then writes its own rows. */
  lemma {:induction false} AdoptionInTwo(s: QueueSnapshot, k: nat, at: Instant, decision: Id)
    requires s.mode.Native? && s.attempts != [] && k < |s.reservations|
    ensures var t := Adoption(s, s.reservations[k], s.attempts[|s.attempts| - 1], at, decision);
            && t.revision == s.revision + 1
            && SourceSettled(s, decision).reservations == s.reservations
            && t == AdoptedRows(SourceSettled(s, decision), k, at, decision,
                                t.reconciliationRequired).(revision := t.revision)
  {
    var t := Adoption(s, s.reservations[k], s.attempts[|s.attempts| - 1], at, decision);
    var v := AdoptedRows(SourceSettled(s, decision), k, at, decision, t.reconciliationRequired);
    assert t.items == v.items;
    assert t.attempts == v.attempts;
    assert t.reservations == v.reservations;
    assert t == v.(revision := t.revision);
  }

  lemma {:induction false} DurableRevision(s: QueueSnapshot, revision: int)
    requires Durable(s) && revision >= 0
    ensures Durable(s.(revision := revision))
  {
  }

  lemma {:induction false} OutstandingSuccessor(s: QueueSnapshot, k: nat)
    requires Durable(s) && s.mode.Native? && k < |s.reservations|
    requires s.reservations[k].state.Reserved?
    ensures PendingItem(s.items, s.reservations[k].successorItemId)
    ensures AttemptAt(s.attempts, s.reservations[k].successorAttemptId).None?
  {
    var r := s.reservations[k];
    assert ReservationOk(s.items, s.attempts, s.operations, s.currentItemId, s.generation, r);
    assert s.items[ItemAt(s.items, r.successorItemId).value].intent.Pending?;
  }

  lemma {:induction false} AdoptKeeps(s: QueueSnapshot, taken: Taken, r: Id,
                                      observed: SessionSnapshot, now: Monotonic, at: Instant, d: Id,
                                      rev: int, gen: int)
    requires Durable(s) && AdoptNativeSuccessor(s, taken, r, observed, now, at, d, rev, gen).Ok?
    ensures Durable(AdoptNativeSuccessor(s, taken, r, observed, now, at, d, rev, gen).value)
  {
    hide Durable, Adoption, QualifiedProgress, AdoptionFree, ObservedMatches;
    if AdoptNativeSuccessor(s, taken, r, observed, now, at, d, rev, gen).value != s {
      AdoptionKeeps(s, taken, ReservationAt(s.reservations, r).value, at, d);
    }
  }

  // ---------------------------------------------------------------- every transaction

  /** The two transactions whose guards pass but whose reload refuses: staging for an application
      whose identity is the empty string, and recording that the receiver refused an enqueue whose
      successor was already adopted. */
  predicate RollsBack(s: QueueSnapshot, op: StoreOp) {
    match op
    case OpReserve(_, _, _, request, _, _, _) => request.scope.applicationId == Some("")
    case OpNativeOutcome(id, outcome, _, _, _) =>
      && outcome.Rejected?
      && OperationAt(s.operations, id).Some?
      && var o := s.operations[OperationAt(s.operations, id).value];
      && o.action.PlayNext?
      && ReservationAt(s.reservations, o.reservationId).Some?
      && s.reservations[ReservationAt(s.reservations, o.reservationId).value].adoptionDecisionId.Some?
    case _ => false
  }

  /** From rows that a reload accepts, every transaction whose guards pass writes rows that the
      next reload accepts again, except exactly the two of `RollsBack`. */
  lemma {:induction false} WriteIsAccepted(s: QueueSnapshot, taken: Taken, op: StoreOp)
    requires Durable(s) && op.WellFormed() && Write(s, taken, op).Ok?
    ensures Keyed(Write(s, taken, op).value)
    ensures ReloadAccepts(Write(s, taken, op).value) <==> !RollsBack(s, op)
  {
    hide PrepareStart, PrepareStop, PrepareControl, Transition, SettleAttempt, Recover, Hold,
         PrepareNativeSuccessor, PrepareNativeClear, TransitionNative, AdoptNativeSuccessor,
         RecordNativeSessionExit, Keyed, ReloadAccepts, CancelQueue;
    match op
    case OpStart(i, a, c, at, rev) => StartKeeps(s, taken, i, a, c, at, rev);
    case OpStop(a, c, at, rev) => StopKeeps(s, taken, a, c, at, rev);
    case OpControl(a, c, action, at, rev) => ControlKeeps(s, taken, a, c, action, at, rev);
    case OpCancel(rev) => CancelKeeps(s, rev);
    case OpDispatch(c, at, rev) => TransitionKeeps(s, c, ExecutionState.Dispatched, at, rev);
    case OpOutcome(c, outcome, at, rev) => TransitionKeeps(s, c, outcome, at, rev);
    case OpSettle(a, intent, d, rev) => SettleKeeps(s, taken, a, intent, d, rev);
    case OpRecover(rev) => RecoverKeeps(s, rev);
    case OpHold(rev) => HoldKeeps(s, rev);
    case OpReserve(i, r, a, q, at, rev, gen) => ReserveKeeps(s, taken, i, r, a, q, at, rev, gen);
    case OpClear(r, q, at, rev, gen) => ClearKeeps(s, taken, r, q, at, rev, gen);
    case OpNativeDispatch(o, at, rev, gen) =>
      NativeTransitionKeeps(s, o, ExecutionState.Dispatched, at, rev, gen);
    case OpNativeOutcome(o, outcome, at, rev, gen) =>
      NativeTransitionKeeps(s, o, outcome, at, rev, gen);
    case OpAdopt(r, observed, now, at, d, rev, gen) =>
      AdoptKeeps(s, taken, r, observed, now, at, d, rev, gen);
    case OpExit(r, at, d, rev, gen) => ExitKeeps(s, taken, r, at, d, rev, gen);
  }

  lemma {:induction false} CancelKeeps(s: QueueSnapshot, rev: int)
    requires Durable(s) && CancelQueue(s, rev).Ok?
    ensures Durable(CancelQueue(s, rev).value)
  {
    hide Durable;
    LatchKeeps(s, true, s.reconciliationRequired);
  }

  lemma {:induction false} HoldKeeps(s: QueueSnapshot, rev: int)
    requires Durable(s) && Hold(s, rev).Ok?
    ensures Durable(Hold(s, rev).value)
  {
    hide Durable;
    if Hold(s, rev).value != s {
      LatchKeeps(s, s.cancellationRequested, true);
    }
  }

  /** A committed transaction leaves durable rows; the guards alone decide whether it commits. */
  lemma {:induction false} ApplyKeeps(s: QueueSnapshot, taken: Taken, op: StoreOp)
    requires Durable(s) && op.WellFormed()
    ensures Apply(s, taken, op).Ok? ==> Durable(Apply(s, taken, op).value)
    ensures Apply(s, taken, op) == if RollsBack(s, op) && Write(s, taken, op).Ok? then Err(Refused)
                                   else Write(s, taken, op)
    ensures ReloadAccepts(s)
  {
    hide Write, Keyed, ReloadAccepts, RollsBack;
    if Write(s, taken, op).Ok? {
      WriteIsAccepted(s, taken, op);
    }
  }

  lemma {:induction false} CreateKeeps(id: Id, target: PlaybackTarget, items: seq<QueueEntry>,
                                       mode: QueueMode)
    requires WellFormedQueue(target, items) && Create(id, target, items, mode).Ok?
    ensures Durable(Create(id, target, items, mode).value)
  {
  }
}
