/** Durable queue intent and command history, and the native-queue requests it journals. */
module QueueRecords {
  import opened Values

  datatype QueueMode = Legacy | Native

  datatype QueueIntent = Pending | Current | Finished | Skipped | Stopped | NeedsAttention

  datatype ExecutionState = Pending | Dispatched | Acknowledged | Rejected | Uncertain

  datatype ReservationState = Reserved | Adopted | SessionExitObserved

  datatype NativeQueueAction = PlayNext | Clear

  datatype QueueEntry = QueueEntry(itemId: Id, content: ContentRef, intent: QueueIntent)

  /** An attempt is local unless the database holds a provenance row for it. */
  datatype AttemptOrigin = LocalStart | NativeObserved(reservationId: Id)

  datatype QueueAttempt = QueueAttempt(
    attemptId: Id, itemId: Id, intent: QueueIntent, createdAt: Instant,
    decisionId: Option<Id>, origin: AttemptOrigin)

  datatype JournalCommand = JournalCommand(
    commandId: Id, attemptId: Id, action: CommandAction, state: ExecutionState,
    generation: int, createdAt: Instant, updatedAt: Instant)

  datatype NativeReservation = NativeReservation(
    reservationId: Id, predecessorAttemptId: Id, successorItemId: Id, successorAttemptId: Id,
    applicationId: Id, sessionId: Id, predecessorPlaybackId: Id, generation: int,
    createdAt: Instant, state: ReservationState, adoptionDecisionId: Option<Id>,
    exitDecisionId: Option<Id>)

  datatype NativeOperation = NativeOperation(
    operationId: Id, reservationId: Id, action: NativeQueueAction, state: ExecutionState,
    generation: int, createdAt: Instant, updatedAt: Instant, scopeAttemptId: Id,
    connectionGeneration: Id, playbackId: Id)

  datatype QueueSnapshot = QueueSnapshot(
    queueId: Id, target: PlaybackTarget, revision: int, generation: int,
    currentItemId: Option<Id>, cancellationRequested: bool, items: seq<QueueEntry>,
    attempts: seq<QueueAttempt>, commands: seq<JournalCommand>, mode: QueueMode,
    reconciliationRequired: bool, reservations: seq<NativeReservation>,
    operations: seq<NativeOperation>)

  datatype NativeQueueRequest = NativeQueueRequest(
    operationId: Id, action: NativeQueueAction, scope: PlaybackScope, playbackId: Id,
    successor: Option<ContentRef>)
  {
    /** What the constructors of a request and of its scope refuse to build. */
    predicate WellFormed() {
      && operationId != "" && playbackId != ""
      && (action.PlayNext? <==> successor.Some?)
      && scope.sessionId != "" && scope.connectionGeneration != ""
      && scope.request.attemptId != ""
    }
  }

  /** Work whose remote effect is not settled. */
  predicate Unresolved(state: ExecutionState) {
    state.Pending? || state.Dispatched? || state.Uncertain?
  }

  /** Work that may have reached the receiver and was not refused by it. */
  predicate Sent(state: ExecutionState) {
    state.Dispatched? || state.Acknowledged? || state.Uncertain?
  }

  function ItemAt(items: seq<QueueEntry>, id: Id): (found: Option<nat>)
    ensures found.Some? ==> found.value < |items| && items[found.value].itemId == id
    ensures found.None? ==> forall k :: 0 <= k < |items| ==> items[k].itemId != id
  {
    if items == [] then None else
    var last := items[|items| - 1];
    match ItemAt(items[..|items| - 1], id)
    case Some(k) => Some(k)
    case None => if last.itemId == id then Some(|items| - 1) else None
  }

  function AttemptAt(attempts: seq<QueueAttempt>, id: Id): (found: Option<nat>)
    ensures found.Some? ==> found.value < |attempts| && attempts[found.value].attemptId == id
    ensures found.None? ==> forall k :: 0 <= k < |attempts| ==> attempts[k].attemptId != id
  {
    if attempts == [] then None else
    var last := attempts[|attempts| - 1];
    match AttemptAt(attempts[..|attempts| - 1], id)
    case Some(k) => Some(k)
    case None => if last.attemptId == id then Some(|attempts| - 1) else None
  }

  function CommandAt(commands: seq<JournalCommand>, id: Id): (found: Option<nat>)
    ensures found.Some? ==> found.value < |commands| && commands[found.value].commandId == id
    ensures found.None? ==> forall k :: 0 <= k < |commands| ==> commands[k].commandId != id
  {
    if commands == [] then None else
    var last := commands[|commands| - 1];
    match CommandAt(commands[..|commands| - 1], id)
    case Some(k) => Some(k)
    case None => if last.commandId == id then Some(|commands| - 1) else None
  }

  function ReservationAt(reservations: seq<NativeReservation>, id: Id): (found: Option<nat>)
    ensures found.Some? ==>
      found.value < |reservations| && reservations[found.value].reservationId == id
    ensures found.None? ==>
      forall k :: 0 <= k < |reservations| ==> reservations[k].reservationId != id
  {
    if reservations == [] then None else
    var last := reservations[|reservations| - 1];
    match ReservationAt(reservations[..|reservations| - 1], id)
    case Some(k) => Some(k)
    case None => if last.reservationId == id then Some(|reservations| - 1) else None
  }

  function OperationAt(operations: seq<NativeOperation>, id: Id): (found: Option<nat>)
    ensures found.Some? ==>
      found.value < |operations| && operations[found.value].operationId == id
    ensures found.None? ==>
      forall k :: 0 <= k < |operations| ==> operations[k].operationId != id
  {
    if operations == [] then None else
    var last := operations[|operations| - 1];
    match OperationAt(operations[..|operations| - 1], id)
    case Some(k) => Some(k)
    case None => if last.operationId == id then Some(|operations| - 1) else None
  }

  /** The enqueue of a reservation. */
  function EnqueueAt(operations: seq<NativeOperation>, reservationId: Id): (found: Option<nat>)
    ensures found.Some? ==>
      && found.value < |operations|
      && operations[found.value].reservationId == reservationId
      && operations[found.value].action.PlayNext?
    ensures found.None? ==>
      forall k :: 0 <= k < |operations| ==>
        !(operations[k].reservationId == reservationId && operations[k].action.PlayNext?)
  {
    if operations == [] then None else
    var last := operations[|operations| - 1];
    match EnqueueAt(operations[..|operations| - 1], reservationId)
    case Some(k) => Some(k)
    case None => if last.reservationId == reservationId && last.action.PlayNext? then Some(|operations| - 1) else None
  }

  /** How many START commands name an attempt. */
  function Starts(commands: seq<JournalCommand>, attemptId: Id): nat {
    if commands == [] then 0
    else
      var last := commands[|commands| - 1];
      Starts(commands[..|commands| - 1], attemptId)
      + (if last.attemptId == attemptId && last.action.Start? then 1 else 0)
  }
}
