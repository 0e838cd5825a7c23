/** Concrete inputs for the two transactions that pass every guard and are then rolled back. */
module RolledBackWrites {
  import opened Values
  import opened QueueRecords
  import opened QueueJournal
  import opened JournalInvariant

  const TARGET := PlaybackTarget("tv", "cast")
  const FIRST := ContentRef("youtube", "a", Video)
  const SECOND := ContentRef("youtube", "b", Video)
  const NOTHING_TAKEN := Taken({}, {}, {}, {}, {}, {}, {}, {})

  function Request(application: Id): NativeQueueRequest {
    NativeQueueRequest("o", PlayNext,
      PlaybackScope(PlaybackRequest("q", "1", "a", FIRST, TARGET), "s", "c", 0.0,
                    Some(application)),
      "p", Some(SECOND))
  }

  const START_COMMAND := JournalCommand("k", "1", Start, ExecutionState.Acknowledged, 0, 0, 0)

  /** A native queue of two items whose first item is playing. */
  const PLAYING_FIRST := QueueSnapshot(
    "queue", TARGET, 3, 0, Some("a"), false,
    [QueueEntry("a", FIRST, Current), QueueEntry("b", SECOND, QueueIntent.Pending)],
    [QueueAttempt("1", "a", Current, 0, None, LocalStart)],
    [START_COMMAND], Native, false, [], [])

  lemma {:induction false} ItemPositions(items: seq<QueueEntry>)
    requires |items| == 2 && items[0].itemId == "a" && items[1].itemId == "b"
    ensures ItemAt(items, "a") == Some(0) && ItemAt(items, "b") == Some(1)
  {
    assert items[..1] == [items[0]] && items[..1][..0] == [];
    assert ItemAt(items[..1], "a") == Some(0);
    assert ItemAt(items[..1], "b") == None;
  }

  lemma {:induction false} PlayingFirstIsKeyed()
    ensures Keyed(PLAYING_FIRST)
  {
    assert AttemptAt(PLAYING_FIRST.attempts, "1") == Some(0);
  }

  lemma {:induction false} PlayingFirstIsDurable()
    ensures Durable(PLAYING_FIRST)
  {
    var s := PLAYING_FIRST;
    PlayingFirstIsKeyed();
    hide Keyed, AttemptAt;
    StartsAppend([], START_COMMAND, "1");
    assert [] + [START_COMMAND] == s.commands;
    ItemPositions(s.items);
    hide ItemAt;
  }

  /** Staging for an application named by the empty string passes every guard; the reload then
      refuses the row it wrote. */
  lemma {:induction false} EmptyApplicationRollsBack()
    ensures Durable(PLAYING_FIRST)
    ensures var op := OpReserve("b", "r", "2", Request(""), 0, 3, 0);
            && op.WellFormed()
            && Write(PLAYING_FIRST, NOTHING_TAKEN, op).Ok?
            && Apply(PLAYING_FIRST, NOTHING_TAKEN, op) == Err(Refused)
  {
    PlayingFirstIsDurable();
    EmptyApplicationPasses();
    hide Durable, Write, Apply;
    ApplyRefuses(PLAYING_FIRST, OpReserve("b", "r", "2", Request(""), 0, 3, 0));
  }

  /** The guards on the staging. */
  lemma {:induction false} StagingIsGuarded()
    ensures var s := PLAYING_FIRST;
            var r := NewReservation(s, s.attempts[0], "b", "r", "2", Request(""), 0);
            && Stageable(s, s.attempts[0], "b", "2", Request(""))
            && RequestMatches(s, r, Request(""))
            && ReservationFree(s, NOTHING_TAKEN, r)
            && ItemAt(s.items, "a") == Some(0)
  {
    var s := PLAYING_FIRST;
    ItemPositions(s.items);
    assert AttemptAt(s.attempts, "1") == Some(0) && AttemptAt(s.attempts, "2") == None;
    hide ItemAt, AttemptAt;
  }

  lemma {:induction false} EmptyApplicationPasses()
    ensures Write(PLAYING_FIRST, NOTHING_TAKEN, OpReserve("b", "r", "2", Request(""), 0, 3, 0)).Ok?
  {
    StagingIsGuarded();
    hide Stageable, RequestMatches, ReservationFree, ItemAt, AttemptAt;
    assert !IsSpace("r"[0]) && !IsSpace("b"[0]) && !IsSpace("2"[0]) && !IsSpace("o"[0]);
  }

  lemma {:induction false} ApplyRefuses(s: QueueSnapshot, op: StoreOp)
    requires Durable(s) && op.WellFormed() && Write(s, NOTHING_TAKEN, op).Ok? && RollsBack(s, op)
    ensures Apply(s, NOTHING_TAKEN, op) == Err(Refused)
  {
    WriteIsAccepted(s, NOTHING_TAKEN, op);
    hide Durable, Write, ReloadAccepts;
  }

  const RESERVATION := NativeReservation("r", "1", "b", "2", "youtube", "s", "p", 0, 0, Adopted,
                                         Some("adopted"), None)
  const ENQUEUE := NativeOperation("o", "r", PlayNext, ExecutionState.Dispatched, 0, 0, 0, "1",
                                   "c", "p")

  /** The same queue after its second item was adopted, before the enqueue's receipt arrived. */
  const PLAYING_SECOND := QueueSnapshot(
    "queue", TARGET, 9, 0, Some("b"), false,
    [QueueEntry("a", FIRST, QueueIntent.Finished), QueueEntry("b", SECOND, Current)],
    [QueueAttempt("1", "a", QueueIntent.Finished, 0, Some("finished"), LocalStart),
     QueueAttempt("2", "b", Current, 0, None, NativeObserved("r"))],
    [START_COMMAND], Native, false, [RESERVATION], [ENQUEUE])

  lemma {:induction false} PlayingSecondIsKeyed()
    ensures Keyed(PLAYING_SECOND)
  {
    var s := PLAYING_SECOND;
    AttemptPositions();
    hide AttemptAt;
    assert ReservationAt(s.reservations, "r") == Some(0);
  }

  lemma {:induction false} PlayingSecondIsDurable()
    ensures Durable(PLAYING_SECOND)
  {
    var s := PLAYING_SECOND;
    PlayingSecondIsKeyed();
    hide Keyed;
    StartsAppend([], START_COMMAND, "1");
    StartsAppend([], START_COMMAND, "2");
    assert [] + [START_COMMAND] == s.commands;
    ItemPositions(s.items);
    AdoptedReservationIsOk();
    hide ItemAt, ReservationOk;
    assert s.reservations[0] == RESERVATION;
    assert Provenance(s.reservations, s.attempts[1]);
  }

  lemma {:induction false} AttemptPositions()
    ensures var s := PLAYING_SECOND;
            AttemptAt(s.attempts, "1") == Some(0) && AttemptAt(s.attempts, "2") == Some(1)
  {
    var s := PLAYING_SECOND;
    assert s.attempts[..1] == [s.attempts[0]] && s.attempts[..1][..0] == [];
    assert AttemptAt(s.attempts[..1], "1") == Some(0);
    assert AttemptAt(s.attempts[..1], "2") == None;
  }

  lemma {:induction false} AdoptedReservationIsOk()
    ensures var s := PLAYING_SECOND;
            ReservationOk(s.items, s.attempts, s.operations, s.currentItemId, s.generation,
                          RESERVATION)
  {
    var s := PLAYING_SECOND;
    ItemPositions(s.items);
    AttemptPositions();
    hide AttemptAt;
    assert s.operations == [ENQUEUE] && ENQUEUE.reservationId == "r" && ENQUEUE.action.PlayNext?;
    assert s.operations[..0] == [] && EnqueueAt([], "r") == None;
    assert EnqueueAt(s.operations, "r") == Some(0);
    assert EnqueueOk(ENQUEUE, RESERVATION) && OperationsOk(s.operations, 0, RESERVATION);
    assert NextItem(s.items, "a", "b");
  }

  /** A refusal that arrives after the successor was seen playing cannot be recorded. */
  lemma {:induction false} LateRefusalRollsBack()
    ensures Durable(PLAYING_SECOND)
    ensures var op := OpNativeOutcome("o", ExecutionState.Rejected, 0, 9, 0);
            && op.WellFormed()
            && Write(PLAYING_SECOND, NOTHING_TAKEN, op).Ok?
            && Apply(PLAYING_SECOND, NOTHING_TAKEN, op) == Err(Refused)
  {
    var s := PLAYING_SECOND;
    var op := OpNativeOutcome("o", ExecutionState.Rejected, 0, 9, 0);
    PlayingSecondIsDurable();
    hide Durable, OperationMoved;
    assert s.operations[0] == ENQUEUE && s.reservations[0] == RESERVATION;
    assert OperationAt(s.operations, "o") == Some(0) && ReservationAt(s.reservations, "r") == Some(0);
    ApplyRefuses(s, op);
  }
}
