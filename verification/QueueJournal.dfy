/** The queue journal: the check that every reload runs, and each transaction as a function from
    the rows it reads to the rows it would write.  A transaction either refuses, returns the rows
    unchanged (an identity it has already journaled), or returns changed rows with a higher
    revision.  `QueueStore` performs the same transactions statement by statement. */
module QueueJournal {
  import opened Values
  import opened QueueRecords

  // ---------------------------------------------------------------- identities and keys

  /** Keys that are unique across the whole database and held by the rows of other queues. */
  datatype Taken = Taken(
    attempts: set<Id>, commands: set<Id>, decisions: set<Id>, reservations: set<Id>,
    successors: set<Id>, operations: set<Id>, adoptions: set<Id>, exits: set<Id>)

  predicate DecisionFree(attempts: seq<QueueAttempt>, id: Id) {
    forall k :: 0 <= k < |attempts| ==> attempts[k].decisionId != Some(id)
  }

  /** The primary keys, unique constraints and references of one queue's rows. */
  predicate Keyed(s: QueueSnapshot) {
    && AttemptKeys(s.items, s.attempts)
    && CommandKeys(s.attempts, s.commands)
    && ReservationKeys(s.reservations)
    && OperationKeys(s.reservations, s.operations)
  }

  predicate ItemKeys(items: seq<QueueEntry>) {
    forall i, j :: 0 <= i < j < |items| ==> items[i].itemId != items[j].itemId
  }

  predicate AttemptIds(attempts: seq<QueueAttempt>) {
    forall i, j :: 0 <= i < j < |attempts| ==> attempts[i].attemptId != attempts[j].attemptId
  }

  predicate AttemptKeys(items: seq<QueueEntry>, attempts: seq<QueueAttempt>) {
    && ItemKeys(items)
    && AttemptIds(attempts)
    && DecisionsDiffer(attempts)
    && (forall i, j :: 0 <= i < j < |attempts| && attempts[i].origin.NativeObserved? ==>
          attempts[i].origin != attempts[j].origin)
  }

  predicate DecisionsDiffer(attempts: seq<QueueAttempt>) {
    forall i, j :: 0 <= i < j < |attempts| && attempts[i].decisionId.Some? ==>
      attempts[i].decisionId != attempts[j].decisionId
  }

  predicate CommandKeys(attempts: seq<QueueAttempt>, commands: seq<JournalCommand>) {
    && (forall i, j :: 0 <= i < j < |commands| ==> commands[i].commandId != commands[j].commandId)
    && (forall i :: 0 <= i < |commands| ==> AttemptAt(attempts, commands[i].attemptId).Some?)
  }

  predicate ReservationKeys(rs: seq<NativeReservation>) {
    forall i, j :: 0 <= i < j < |rs| ==>
      && rs[i].reservationId != rs[j].reservationId
      && rs[i].predecessorAttemptId != rs[j].predecessorAttemptId
      && rs[i].successorItemId != rs[j].successorItemId
      && rs[i].successorAttemptId != rs[j].successorAttemptId
      && (rs[i].adoptionDecisionId.Some? ==> rs[i].adoptionDecisionId != rs[j].adoptionDecisionId)
      && (rs[i].exitDecisionId.Some? ==> rs[i].exitDecisionId != rs[j].exitDecisionId)
  }

  predicate OperationKeys(rs: seq<NativeReservation>, ops: seq<NativeOperation>) {
    && (forall i, j :: 0 <= i < j < |ops| ==>
          && ops[i].operationId != ops[j].operationId
          && (ops[i].reservationId == ops[j].reservationId ==> ops[i].action != ops[j].action))
    && (forall i :: 0 <= i < |ops| ==> ReservationAt(rs, ops[i].reservationId).Some?)
  }

  // ---------------------------------------------------------------- the reload check

  /** Rows that a reload accepts.  A write is committed only if its own reload accepts. */
  predicate ReloadAccepts(s: QueueSnapshot) {
    && TextOk(s)
    && PositionOk(s.items, s.currentItemId)
    && AttemptsOk(s.items, s.attempts, s.currentItemId)
    && StartsOk(s.attempts, s.commands)
    && CommandsOk(s.commands, s.generation)
    && NativeOk(s.mode, s.reconciliationRequired, s.items, s.attempts, s.reservations,
                s.operations, s.currentItemId, s.generation)
  }

  /** Every mandatory string column is nonempty and every counter is nonnegative. */
  predicate TextOk(s: QueueSnapshot) {
    && s.target.deviceId != "" && s.target.route != "" && s.revision >= 0 && s.generation >= 0
    && (forall k :: 0 <= k < |s.items| ==>
          s.items[k].itemId != "" && s.items[k].content.provider != ""
          && s.items[k].content.contentId != "")
    && (forall k :: 0 <= k < |s.attempts| ==>
          s.attempts[k].attemptId != ""
          && (s.attempts[k].origin.NativeObserved? ==> s.attempts[k].origin.reservationId != ""))
    && (forall k :: 0 <= k < |s.commands| ==>
          s.commands[k].commandId != "" && s.commands[k].generation >= 0)
    && (forall k :: 0 <= k < |s.reservations| ==> ReservationText(s.reservations[k]))
    && (forall k :: 0 <= k < |s.operations| ==> OperationText(s.operations[k]))
  }

  predicate ReservationText(r: NativeReservation) {
    && r.reservationId != "" && r.successorItemId != "" && r.successorAttemptId != ""
    && r.applicationId != "" && r.sessionId != "" && r.predecessorPlaybackId != ""
    && r.generation >= 0
  }

  predicate OperationText(o: NativeOperation) {
    && o.operationId != "" && o.scopeAttemptId != "" && o.connectionGeneration != ""
    && o.playbackId != "" && o.generation >= 0
  }

  predicate PositionOk(items: seq<QueueEntry>, current: Option<Id>) {
    && items != []
    && (forall i, j :: 0 <= i < j < |items| ==>
          !(items[i].intent.Current? && items[j].intent.Current?))
    && (forall i :: 0 <= i < |items| && items[i].intent.Current? ==>
          current == Some(items[i].itemId))
    && (current.Some? ==> ItemAt(items, current.value).Some?)
  }

  predicate AttemptsOk(items: seq<QueueEntry>, attempts: seq<QueueAttempt>, current: Option<Id>) {
    && (forall i, j :: 0 <= i < j < |attempts| ==> attempts[i].itemId != attempts[j].itemId)
    && (attempts != [] ==> current == Some(attempts[|attempts| - 1].itemId))
    && (forall k :: 0 <= k < |attempts| ==> AttemptOk(items, attempts[k]))
  }

  /** A local attempt has one START command and an observed one has none. */
  predicate StartsOk(attempts: seq<QueueAttempt>, commands: seq<JournalCommand>) {
    forall k :: 0 <= k < |attempts| ==>
      Starts(commands, attempts[k].attemptId) == if attempts[k].origin.LocalStart? then 1 else 0
  }

  predicate AttemptOk(items: seq<QueueEntry>, a: QueueAttempt) {
    && ItemAt(items, a.itemId).Some?
    && items[ItemAt(items, a.itemId).value].intent == a.intent
    && !a.intent.Pending?
    && (a.intent.Current? ==> a.decisionId.None?)
  }

  predicate CommandsOk(commands: seq<JournalCommand>, generation: int) {
    forall k :: 0 <= k < |commands| ==>
      commands[k].generation <= generation && commands[k].createdAt <= commands[k].updatedAt
  }

  predicate NativeOk(mode: QueueMode, hold: bool, items: seq<QueueEntry>,
                     attempts: seq<QueueAttempt>, rs: seq<NativeReservation>,
                     ops: seq<NativeOperation>, current: Option<Id>, generation: int) {
    if mode.Legacy? then
      && rs == [] && ops == [] && !hold
      && (forall k :: 0 <= k < |attempts| ==> attempts[k].origin.LocalStart?)
    else
      && (forall i, j :: 0 <= i < j < |rs| ==> !(rs[i].state.Reserved? && rs[j].state.Reserved?))
      && (forall k :: 0 <= k < |rs| ==>
            ReservationOk(items, attempts, ops, current, generation, rs[k]))
      && (forall k :: 0 <= k < |attempts| && attempts[k].origin.NativeObserved? ==>
            Provenance(rs, attempts[k]))
  }

  /** A native attempt is backed by the reservation that authorized it. */
  predicate Provenance(rs: seq<NativeReservation>, a: QueueAttempt)
    requires a.origin.NativeObserved?
  {
    exists k :: 0 <= k < |rs|
      && rs[k].reservationId == a.origin.reservationId
      && rs[k].successorAttemptId == a.attemptId
      && rs[k].adoptionDecisionId.Some?
  }

  /** A reservation joins the attempt it follows to the next item, through exactly one enqueue. */
  predicate ReservationOk(items: seq<QueueEntry>, attempts: seq<QueueAttempt>,
                          ops: seq<NativeOperation>, current: Option<Id>, generation: int,
                          r: NativeReservation) {
    && r.generation <= generation
    && AttemptAt(attempts, r.predecessorAttemptId).Some?
    && EnqueueAt(ops, r.reservationId).Some?
    && var source := attempts[AttemptAt(attempts, r.predecessorAttemptId).value];
    && var enqueue := ops[EnqueueAt(ops, r.reservationId).value];
    && NextItem(items, source.itemId, r.successorItemId)
    && EnqueueOk(enqueue, r)
    && OperationsOk(ops, generation, r)
    && (r.state.Reserved? ==> OutstandingOk(items, current, source, r))
    && (r.state.Adopted? ==> r.adoptionDecisionId.Some?)
    && (r.state.SessionExitObserved? <==> r.exitDecisionId.Some?)
    && SuccessorOk(attempts, enqueue.state, r)
  }

  /** `next` is the item right after `item`, with different content. */
  predicate NextItem(items: seq<QueueEntry>, item: Id, next: Id) {
    && ItemAt(items, item).Some? && ItemAt(items, next).Some?
    && ItemAt(items, next).value == ItemAt(items, item).value + 1
    && items[ItemAt(items, item).value].content != items[ItemAt(items, next).value].content
  }

  predicate EnqueueOk(enqueue: NativeOperation, r: NativeReservation) {
    && enqueue.scopeAttemptId == r.predecessorAttemptId
    && enqueue.generation == r.generation
    && enqueue.playbackId == r.predecessorPlaybackId
  }

  /** The operations of a reservation have different actions (so it has one enqueue) and are
      scoped to the predecessor or the successor, in a generation and at a time that follow it. */
  predicate OperationsOk(ops: seq<NativeOperation>, generation: int, r: NativeReservation) {
    && (forall i, j ::
          0 <= i < j < |ops| && ops[i].reservationId == ops[j].reservationId == r.reservationId ==>
          ops[i].action != ops[j].action)
    && (forall k :: 0 <= k < |ops| && ops[k].reservationId == r.reservationId ==>
          && r.generation <= ops[k].generation <= generation
          && r.createdAt <= ops[k].createdAt <= ops[k].updatedAt
          && (ops[k].scopeAttemptId == r.predecessorAttemptId
              || ops[k].scopeAttemptId == r.successorAttemptId))
  }

  predicate OutstandingOk(items: seq<QueueEntry>, current: Option<Id>, source: QueueAttempt,
                          r: NativeReservation) {
    && r.adoptionDecisionId.None?
    && current == Some(source.itemId)
    && ItemAt(items, r.successorItemId).Some?
    && items[ItemAt(items, r.successorItemId).value].intent.Pending?
  }

  /** The successor's attempt exists exactly when the reservation was adopted, and only after the
      enqueue was sent. */
  predicate SuccessorOk(attempts: seq<QueueAttempt>, enqueue: ExecutionState,
                        r: NativeReservation) {
    var successor := AttemptAt(attempts, r.successorAttemptId);
    if r.adoptionDecisionId.None? then successor.None?
    else
      && successor.Some?
      && attempts[successor.value].itemId == r.successorItemId
      && attempts[successor.value].origin == NativeObserved(r.reservationId)
      && Sent(enqueue)
  }

  // ---------------------------------------------------------------- row updates

  function Bump(s: QueueSnapshot): QueueSnapshot {
    s.(revision := s.revision + 1)
  }

  function WithItem(items: seq<QueueEntry>, id: Id, intent: QueueIntent): (r: seq<QueueEntry>)
    ensures |r| == |items|
    ensures forall k :: 0 <= k < |items| ==>
      r[k] == if items[k].itemId == id then items[k].(intent := intent) else items[k]
  {
    seq(|items|, k requires 0 <= k < |items| =>
      if items[k].itemId == id then items[k].(intent := intent) else items[k])
  }

  function WithAttempt(attempts: seq<QueueAttempt>, id: Id, intent: QueueIntent, decision: Id)
    : (r: seq<QueueAttempt>)
    ensures |r| == |attempts|
    ensures forall k :: 0 <= k < |attempts| ==>
      r[k] == if attempts[k].attemptId == id
              then attempts[k].(intent := intent, decisionId := Some(decision)) else attempts[k]
  {
    seq(|attempts|, k requires 0 <= k < |attempts| =>
      if attempts[k].attemptId == id
      then attempts[k].(intent := intent, decisionId := Some(decision)) else attempts[k])
  }

  function WithCommand(commands: seq<JournalCommand>, id: Id, state: ExecutionState, at: Instant)
    : (r: seq<JournalCommand>)
    ensures |r| == |commands|
    ensures forall k :: 0 <= k < |commands| ==>
      r[k] == if commands[k].commandId == id
              then commands[k].(state := state, updatedAt := at) else commands[k]
  {
    seq(|commands|, k requires 0 <= k < |commands| =>
      if commands[k].commandId == id
      then commands[k].(state := state, updatedAt := at) else commands[k])
  }

  function WithOperation(ops: seq<NativeOperation>, id: Id, state: ExecutionState, at: Instant)
    : (r: seq<NativeOperation>)
    ensures |r| == |ops|
    ensures forall k :: 0 <= k < |ops| ==>
      r[k] == if ops[k].operationId == id
              then ops[k].(state := state, updatedAt := at) else ops[k]
  {
    seq(|ops|, k requires 0 <= k < |ops| =>
      if ops[k].operationId == id then ops[k].(state := state, updatedAt := at) else ops[k])
  }

  function WithAdoption(rs: seq<NativeReservation>, id: Id, decision: Id)
    : (r: seq<NativeReservation>)
    ensures |r| == |rs|
    ensures forall k :: 0 <= k < |rs| ==>
      r[k] == if rs[k].reservationId == id
              then rs[k].(state := Adopted, adoptionDecisionId := Some(decision)) else rs[k]
  {
    seq(|rs|, k requires 0 <= k < |rs| =>
      if rs[k].reservationId == id
      then rs[k].(state := Adopted, adoptionDecisionId := Some(decision)) else rs[k])
  }

  function WithExit(rs: seq<NativeReservation>, id: Id, decision: Id)
    : (r: seq<NativeReservation>)
    ensures |r| == |rs|
    ensures forall k :: 0 <= k < |rs| ==>
      r[k] == if rs[k].reservationId == id
              then rs[k].(state := SessionExitObserved, exitDecisionId := Some(decision)) else rs[k]
  {
    seq(|rs|, k requires 0 <= k < |rs| =>
      if rs[k].reservationId == id
      then rs[k].(state := SessionExitObserved, exitDecisionId := Some(decision)) else rs[k])
  }

  function HeldItems(items: seq<QueueEntry>): (r: seq<QueueEntry>)
    ensures |r| == |items|
    ensures forall k :: 0 <= k < |items| ==>
      r[k] == if items[k].intent.Current? then items[k].(intent := NeedsAttention) else items[k]
  {
    seq(|items|, k requires 0 <= k < |items| =>
      if items[k].intent.Current? then items[k].(intent := NeedsAttention) else items[k])
  }

  function HeldAttempts(attempts: seq<QueueAttempt>): (r: seq<QueueAttempt>)
    ensures |r| == |attempts|
    ensures forall k :: 0 <= k < |attempts| ==>
      r[k] == if attempts[k].intent.Current? then attempts[k].(intent := NeedsAttention)
              else attempts[k]
  {
    seq(|attempts|, k requires 0 <= k < |attempts| =>
      if attempts[k].intent.Current? then attempts[k].(intent := NeedsAttention) else attempts[k])
  }

  function UncertainCommands(commands: seq<JournalCommand>): (r: seq<JournalCommand>)
    ensures |r| == |commands|
    ensures forall k :: 0 <= k < |commands| ==>
      r[k] == if commands[k].state.Dispatched?
              then commands[k].(state := ExecutionState.Uncertain) else commands[k]
  {
    seq(|commands|, k requires 0 <= k < |commands| =>
      if commands[k].state.Dispatched?
      then commands[k].(state := ExecutionState.Uncertain) else commands[k])
  }

  function UncertainOperations(ops: seq<NativeOperation>): (r: seq<NativeOperation>)
    ensures |r| == |ops|
    ensures forall k :: 0 <= k < |ops| ==>
      r[k] == if ops[k].state.Dispatched? then ops[k].(state := ExecutionState.Uncertain)
              else ops[k]
  {
    seq(|ops|, k requires 0 <= k < |ops| =>
      if ops[k].state.Dispatched? then ops[k].(state := ExecutionState.Uncertain) else ops[k])
  }

  // ---------------------------------------------------------------- ordinary transactions

  /** Items that `_insert` accepts for a new queue. */
  predicate NewItems(items: seq<QueueEntry>) {
    && items != []
    && ItemKeys(items)
    && (forall k :: 0 <= k < |items| ==> items[k].intent.Pending?)
  }

  /** What the constructors of a target, an entry and a content reference refuse to build. */
  predicate WellFormedQueue(target: PlaybackTarget, items: seq<QueueEntry>) {
    && target.deviceId != "" && target.route != ""
    && (forall k :: 0 <= k < |items| ==>
          items[k].itemId != "" && items[k].content.provider != ""
          && items[k].content.contentId != "")
  }

  function Create(queueId: Id, target: PlaybackTarget, items: seq<QueueEntry>, mode: QueueMode)
    : Result<QueueSnapshot>
  {
    if Blank(queueId) || !NewItems(items) then Err(Malformed)
    else Ok(QueueSnapshot(queueId, target, 0, 0, None, false, items, [], [], mode, false, [], []))
  }

  function NewCommand(s: QueueSnapshot, attemptId: Id, commandId: Id, action: CommandAction,
                      at: Instant): JournalCommand {
    JournalCommand(commandId, attemptId, action, ExecutionState.Pending, s.generation, at, at)
  }

  /** Whether a command identity is already journaled for this intent. */
  function Duplicate(s: QueueSnapshot, commandId: Id, attemptId: Id, action: CommandAction)
    : Result<bool>
  {
    match CommandAt(s.commands, commandId)
    case None => Ok(false)
    case Some(k) =>
      if s.commands[k].attemptId != attemptId || s.commands[k].action != action
      then Err(Refused) else Ok(true)
  }

  predicate AnyUnsettledItem(items: seq<QueueEntry>) {
    exists k :: 0 <= k < |items| && (items[k].intent.Current? || items[k].intent.NeedsAttention?)
  }

  predicate PendingItem(items: seq<QueueEntry>, itemId: Id) {
    exists k :: 0 <= k < |items| && items[k].itemId == itemId && items[k].intent.Pending?
  }

  function PrepareStart(s: QueueSnapshot, taken: Taken, itemId: Id, attemptId: Id, commandId: Id,
                        at: Instant, revision: int): Result<QueueSnapshot>
  {
    if Blank(itemId) || Blank(attemptId) || Blank(commandId) then Err(Malformed) else
    match Duplicate(s, commandId, attemptId, Start)
    case Err(fault) => Err(fault)
    case Ok(true) =>
      (match AttemptAt(s.attempts, attemptId)
       case Some(k) => if s.attempts[k].itemId == itemId then Ok(s) else Err(Refused)
       case None => Err(Refused))
    case Ok(false) =>
      if s.revision != revision then Err(Conflict)
      else if s.mode.Native? && (s.attempts != [] || s.reconciliationRequired) then Err(Refused)
      else if s.cancellationRequested || AnyUnsettledItem(s.items) then Err(Refused)
      else if !PendingItem(s.items, itemId) then Err(Refused)
      else if AttemptAt(s.attempts, attemptId).Some? || attemptId in taken.attempts
              || commandId in taken.commands then Err(Refused)
      else Ok(Started(s, itemId, attemptId, commandId, at))
  }

  /** The rows a start writes. */
  function Started(s: QueueSnapshot, itemId: Id, attemptId: Id, commandId: Id, at: Instant)
    : QueueSnapshot
  {
    Bump(s.(
      items := WithItem(s.items, itemId, Current),
      currentItemId := Some(itemId),
      attempts := s.attempts + [QueueAttempt(attemptId, itemId, Current, at, None, LocalStart)],
      commands := s.commands + [NewCommand(s, attemptId, commandId, Start, at)]))
  }

  predicate Stoppable(s: QueueSnapshot, attemptId: Id) {
    exists k :: 0 <= k < |s.attempts| && s.attempts[k].attemptId == attemptId
      && s.currentItemId == Some(s.attempts[k].itemId)
      && (s.attempts[k].intent.Current? || s.attempts[k].intent.Finished?)
  }

  function PrepareStop(s: QueueSnapshot, taken: Taken, attemptId: Id, commandId: Id, at: Instant,
                       revision: int): Result<QueueSnapshot>
  {
    if Blank(commandId) then Err(Malformed) else
    match Duplicate(s, commandId, attemptId, Stop)
    case Err(fault) => Err(fault)
    case Ok(true) => Ok(s)
    case Ok(false) =>
      if s.revision != revision then Err(Conflict)
      else if !Stoppable(s, attemptId) then Err(Refused)
      else if commandId in taken.commands then Err(Refused)
      else Ok(Bump(s.(
        cancellationRequested := true,
        commands := s.commands + [NewCommand(s, attemptId, commandId, Stop, at)])))
  }

  predicate AnyUnresolved(commands: seq<JournalCommand>) {
    exists k :: 0 <= k < |commands| && Unresolved(commands[k].state)
  }

  predicate Has(commands: seq<JournalCommand>, attemptId: Id, action: CommandAction) {
    exists k :: 0 <= k < |commands| && commands[k].attemptId == attemptId
      && commands[k].action == action
  }

  predicate AnyReserved(rs: seq<NativeReservation>) {
    exists k :: 0 <= k < |rs| && rs[k].state.Reserved?
  }

  function PrepareControl(s: QueueSnapshot, taken: Taken, attemptId: Id, commandId: Id,
                          action: CommandAction, at: Instant, revision: int)
    : Result<QueueSnapshot>
  {
    if action.Start? || action.Stop? || Blank(commandId) then Err(Malformed) else
    match Duplicate(s, commandId, attemptId, action)
    case Err(fault) => Err(fault)
    case Ok(true) => Ok(s)
    case Ok(false) =>
      if s.revision != revision then Err(Conflict)
      else if action.Release? && AnyReserved(s.reservations) then Err(Refused)
      else if s.cancellationRequested || s.attempts == [] then Err(Refused)
      else
        var last := s.attempts[|s.attempts| - 1];
        if || last.attemptId != attemptId
           || s.currentItemId != Some(last.itemId)
           || last.intent != (if action.Release? then QueueIntent.Finished else Current)
           || (action.Release? && (last.decisionId == None || last.decisionId == Some("")))
           || AnyUnresolved(s.commands)
        then Err(Refused)
        else if action.Release? && Has(s.commands, attemptId, Release) then Err(Refused)
        else if commandId in taken.commands then Err(Refused)
        else Ok(Bump(s.(
          commands := s.commands + [NewCommand(s, attemptId, commandId, action, at)])))
  }

  function CancelQueue(s: QueueSnapshot, revision: int): Result<QueueSnapshot> {
    if s.revision != revision then Err(Conflict)
    else if s.cancellationRequested then Ok(s)
    else Ok(Bump(s.(cancellationRequested := true)))
  }

  /** The attempt a command may be dispatched for: the last one, still selected and unresolved
      (or just finished, for a stop or a release). */
  predicate Dispatchable(s: QueueSnapshot, c: JournalCommand) {
    && s.attempts != []
    && var last := s.attempts[|s.attempts| - 1];
    && last.attemptId == c.attemptId
    && s.currentItemId == Some(last.itemId)
    && (match c.action
        case Release => last.intent.Finished?
        case Stop => last.intent.Current? || last.intent.Finished?
        case _ => last.intent.Current?)
    && (exists k :: 0 <= k < |s.items| && s.items[k].itemId == last.itemId
          && s.items[k].intent == last.intent)
  }

  function Transition(s: QueueSnapshot, commandId: Id, state: ExecutionState, at: Instant,
                      revision: int): Result<QueueSnapshot>
  {
    match CommandAt(s.commands, commandId)
    case None => Err(Refused)
    case Some(k) =>
      var c := s.commands[k];
      if s.revision != revision || c.generation != s.generation then Err(Conflict)
      else if c.state == state && !state.Dispatched? then Ok(s)
      else if state.Dispatched? && !c.state.Pending? then Err(Refused)
      else if state.Dispatched? && !c.action.Stop? && s.cancellationRequested then Err(Refused)
      else if state.Dispatched? && !Dispatchable(s, c) then Err(Refused)
      else if !state.Dispatched? && !c.state.Dispatched? && !c.state.Uncertain? then Err(Refused)
      else if at < c.updatedAt then Err(Malformed)
      else Ok(Bump(s.(commands := WithCommand(s.commands, commandId, state, at))))
  }

  function MarkDispatched(s: QueueSnapshot, commandId: Id, at: Instant, revision: int)
    : Result<QueueSnapshot>
  {
    Transition(s, commandId, ExecutionState.Dispatched, at, revision)
  }

  predicate IsOutcome(state: ExecutionState) {
    state.Acknowledged? || state.Rejected? || state.Uncertain?
  }

  function RecordOutcome(s: QueueSnapshot, commandId: Id, outcome: ExecutionState, at: Instant,
                         revision: int): Result<QueueSnapshot>
  {
    if !IsOutcome(outcome) then Err(Malformed)
    else Transition(s, commandId, outcome, at, revision)
  }

  predicate Settled(intent: QueueIntent) {
    intent.Finished? || intent.Skipped? || intent.Stopped? || intent.NeedsAttention?
  }

  function SettleAttempt(s: QueueSnapshot, taken: Taken, attemptId: Id, outcome: QueueIntent,
                         decisionId: Id, revision: int): Result<QueueSnapshot>
  {
    if Blank(decisionId) || !Settled(outcome) then Err(Malformed) else
    match AttemptAt(s.attempts, attemptId)
    case None => Err(Refused)
    case Some(k) =>
      var a := s.attempts[k];
      if a.decisionId == Some(decisionId) && a.intent == outcome then Ok(s)
      else if s.revision != revision then Err(Conflict)
      else if a.decisionId.Some? || !(a.intent.Current? || a.intent.NeedsAttention?)
      then Err(Refused)
      else if outcome.Finished? && Has(s.commands, attemptId, Stop) then Err(Refused)
      else if decisionId in taken.decisions || !DecisionFree(s.attempts, decisionId)
      then Err(Refused)
      else Ok(Settlement(s, a, outcome, decisionId))
  }

  /** The rows a settlement writes.  A native queue holds instead of canceling when it needs
      attention. */
  function Settlement(s: QueueSnapshot, a: QueueAttempt, outcome: QueueIntent, decisionId: Id)
    : QueueSnapshot
  {
    var attention := s.mode.Native? && outcome.NeedsAttention?;
    Bump(s.(
      attempts := WithAttempt(s.attempts, a.attemptId, outcome, decisionId),
      items := WithItem(s.items, a.itemId, outcome),
      reconciliationRequired := s.reconciliationRequired || attention,
      cancellationRequested := s.cancellationRequested
        || (!attention && (outcome.Stopped? || outcome.NeedsAttention?))))
  }

  predicate OwnsUnresolved(s: QueueSnapshot) {
    || (exists k :: 0 <= k < |s.attempts| && s.attempts[k].intent.Current?)
    || (exists k :: 0 <= k < |s.commands| && s.commands[k].generation == s.generation
          && Unresolved(s.commands[k].state))
  }

  function Recover(s: QueueSnapshot, revision: int): Result<QueueSnapshot> {
    if s.revision != revision then Err(Conflict)
    else if s.mode.Native? then
      if s.attempts == [] && s.reservations == [] then Ok(s) else Ok(RecoveredNative(s))
    else if !OwnsUnresolved(s) then Ok(s)
    else Ok(RecoveredLegacy(s))
  }

  /** A native recovery fences the old owner and holds; the selected item stays CURRENT. */
  function RecoveredNative(s: QueueSnapshot): QueueSnapshot {
    Bump(s.(
      generation := s.generation + 1,
      reconciliationRequired := true,
      commands := UncertainCommands(s.commands),
      operations := UncertainOperations(s.operations)))
  }

  /** A legacy recovery fences the old owner, cancels, and hands the current item to a human. */
  function RecoveredLegacy(s: QueueSnapshot): QueueSnapshot {
    Bump(s.(
      generation := s.generation + 1,
      cancellationRequested := true,
      items := HeldItems(s.items),
      attempts := HeldAttempts(s.attempts),
      commands := UncertainCommands(s.commands)))
  }

  // ---------------------------------------------------------------- native transactions

  function Fence(s: QueueSnapshot, revision: int, generation: int): Option<Fault> {
    if !s.mode.Native? then Some(Refused)
    else if generation != s.generation || revision != s.revision then Some(Conflict)
    else None
  }

  function Hold(s: QueueSnapshot, revision: int): Result<QueueSnapshot> {
    match Fence(s, revision, s.generation)
    case Some(fault) => Err(fault)
    case None =>
      if s.reconciliationRequired then Ok(s) else Ok(Bump(s.(reconciliationRequired := true)))
  }

  /** A request addresses the item, target, application and session of its reservation. */
  predicate RequestMatches(s: QueueSnapshot, r: NativeReservation, request: NativeQueueRequest) {
    && AttemptAt(s.attempts, r.predecessorAttemptId).Some?
    && var source := s.attempts[AttemptAt(s.attempts, r.predecessorAttemptId).value];
    && var current := request.scope.request;
    && var expected := if current.attemptId == source.attemptId then source.itemId
                       else r.successorItemId;
    && ItemAt(s.items, expected).Some?
    && var item := s.items[ItemAt(s.items, expected).value];
    && (current.attemptId == source.attemptId || current.attemptId == r.successorAttemptId)
    && current.queueItemId == item.itemId
    && current.content == item.content
    && current.target == s.target
    && request.scope.applicationId == Some(r.applicationId)
    && request.scope.sessionId == r.sessionId
    && (request.action.PlayNext? ==>
          && current.attemptId == source.attemptId
          && request.playbackId == r.predecessorPlaybackId
          && ItemAt(s.items, r.successorItemId).Some?
          && request.successor == Some(s.items[ItemAt(s.items, r.successorItemId).value].content))
  }

  function NewOperation(s: QueueSnapshot, reservationId: Id, request: NativeQueueRequest,
                        at: Instant): NativeOperation {
    NativeOperation(request.operationId, reservationId, request.action, ExecutionState.Pending,
                    s.generation, at, at, request.scope.request.attemptId,
                    request.scope.connectionGeneration, request.playbackId)
  }

  function NewReservation(s: QueueSnapshot, source: QueueAttempt, successorItemId: Id,
                          reservationId: Id, successorAttemptId: Id, request: NativeQueueRequest,
                          at: Instant): NativeReservation
    requires request.scope.applicationId.Some?
  {
    NativeReservation(reservationId, source.attemptId, successorItemId, successorAttemptId,
                      request.scope.applicationId.value, request.scope.sessionId,
                      request.playbackId, s.generation, at, Reserved, None, None)
  }

  /** A staging request that was journaled before: the same reservation, in this generation. */
  function StagedAgain(s: QueueSnapshot, existing: NativeOperation, successorItemId: Id,
                       reservationId: Id, successorAttemptId: Id, request: NativeQueueRequest,
                       generation: int): Result<QueueSnapshot>
  {
    match ReservationAt(s.reservations, reservationId)
    case None => Err(Refused)
    case Some(k) =>
      var r := s.reservations[k];
      if !RequestMatches(s, r, request) then Err(Refused)
      else if || existing.reservationId != reservationId || existing.action != request.action
              || r.successorItemId != successorItemId
              || r.successorAttemptId != successorAttemptId
              || existing.connectionGeneration != request.scope.connectionGeneration
              || existing.generation != generation || s.generation != generation
      then Err(Conflict)
      else Ok(s)
  }

  predicate AnyAttention(items: seq<QueueEntry>) {
    exists k :: 0 <= k < |items| && items[k].intent.NeedsAttention?
  }

  /** The guards on the predecessor and on the next item. */
  predicate Stageable(s: QueueSnapshot, source: QueueAttempt, successorItemId: Id,
                      successorAttemptId: Id, request: NativeQueueRequest) {
    && ItemAt(s.items, source.itemId).Some?
    && var index := ItemAt(s.items, source.itemId).value;
    && source.intent.Current?
    && source.attemptId == request.scope.request.attemptId
    && index + 1 < |s.items|
    && s.items[index + 1].itemId == successorItemId
    && s.items[index + 1].intent.Pending?
    && !AnyAttention(s.items)
    && !AnyUnresolved(s.commands)
    && AttemptAt(s.attempts, successorAttemptId).None?
  }

  /** The unique constraints of `native_reservations`. */
  predicate ReservationFree(s: QueueSnapshot, taken: Taken, r: NativeReservation) {
    && r.reservationId !in taken.reservations && r.successorAttemptId !in taken.successors
    && (forall k :: 0 <= k < |s.reservations| ==>
          && s.reservations[k].reservationId != r.reservationId
          && s.reservations[k].predecessorAttemptId != r.predecessorAttemptId
          && s.reservations[k].successorItemId != r.successorItemId
          && s.reservations[k].successorAttemptId != r.successorAttemptId)
  }

  function PrepareNativeSuccessor(s: QueueSnapshot, taken: Taken, successorItemId: Id,
                                  reservationId: Id, successorAttemptId: Id,
                                  request: NativeQueueRequest, at: Instant, revision: int,
                                  generation: int): Result<QueueSnapshot>
  {
    if || Blank(reservationId) || Blank(successorItemId) || Blank(successorAttemptId)
       || Blank(request.operationId) || !request.action.PlayNext?
       || request.scope.applicationId.None?
    then Err(Malformed) else
    match OperationAt(s.operations, request.operationId)
    case Some(k) =>
      StagedAgain(s, s.operations[k], successorItemId, reservationId, successorAttemptId, request,
                  generation)
    case None =>
      match Fence(s, revision, generation)
      case Some(fault) => Err(fault)
      case None =>
        if || s.cancellationRequested || s.reconciliationRequired || AnyReserved(s.reservations)
           || s.attempts == []
        then Err(Refused) else
        var source := s.attempts[|s.attempts| - 1];
        if at < source.createdAt then Err(Malformed)
        else if !Stageable(s, source, successorItemId, successorAttemptId, request)
        then Err(Refused) else
        var r := NewReservation(s, source, successorItemId, reservationId, successorAttemptId,
                                request, at);
        var index := ItemAt(s.items, source.itemId).value;
        if !RequestMatches(s, r, request) then Err(Refused)
        else if source.itemId == successorItemId
                || Some(s.items[index].content) == request.successor then Err(Refused)
        else if !ReservationFree(s, taken, r) || request.operationId in taken.operations
        then Err(Refused)
        else Ok(Staged(s, r, NewOperation(s, reservationId, request, at)))
  }

  /** The rows a reservation writes: itself and its enqueue. */
  function Staged(s: QueueSnapshot, r: NativeReservation, o: NativeOperation): QueueSnapshot {
    Bump(s.(reservations := s.reservations + [r], operations := s.operations + [o]))
  }

  predicate SameOperation(s: QueueSnapshot, existing: NativeOperation, reservationId: Id,
                          request: NativeQueueRequest, generation: int) {
    && existing.reservationId == reservationId && existing.action == request.action
    && existing.scopeAttemptId == request.scope.request.attemptId
    && existing.connectionGeneration == request.scope.connectionGeneration
    && existing.playbackId == request.playbackId
    && existing.generation == generation && s.generation == generation
  }

  /** `UNIQUE (reservation_id, action)`. */
  predicate ActionFree(ops: seq<NativeOperation>, reservationId: Id, action: NativeQueueAction) {
    forall k :: 0 <= k < |ops| ==> !(ops[k].reservationId == reservationId && ops[k].action == action)
  }

  function PrepareNativeClear(s: QueueSnapshot, taken: Taken, reservationId: Id,
                              request: NativeQueueRequest, at: Instant, revision: int,
                              generation: int): Result<QueueSnapshot>
  {
    if !request.action.Clear? then Err(Malformed) else
    match ReservationAt(s.reservations, reservationId)
    case None => Err(Refused)
    case Some(k) =>
      var r := s.reservations[k];
      if !RequestMatches(s, r, request) then Err(Refused) else
      match OperationAt(s.operations, request.operationId)
      case Some(o) =>
        if SameOperation(s, s.operations[o], reservationId, request, generation) then Ok(s)
        else Err(Conflict)
      case None =>
        match Fence(s, revision, generation)
        case Some(fault) => Err(fault)
        case None =>
          if !s.cancellationRequested || r.state.SessionExitObserved? then Err(Refused)
          else if at < r.createdAt then Err(Malformed)
          else if request.operationId in taken.operations
                  || !ActionFree(s.operations, reservationId, request.action) then Err(Refused)
          else Ok(Cleared(s, NewOperation(s, reservationId, request, at)))
  }

  /** The row a clear writes. */
  function Cleared(s: QueueSnapshot, o: NativeOperation): QueueSnapshot {
    Bump(s.(operations := s.operations + [o]))
  }

  /** What a native operation still needs when it is claimed for dispatch. */
  predicate NativeDispatchable(s: QueueSnapshot, r: NativeReservation, o: NativeOperation) {
    match o.action
    case PlayNext =>
      && !s.cancellationRequested && !s.reconciliationRequired && r.state.Reserved?
      && s.attempts != []
      && s.attempts[|s.attempts| - 1].attemptId == r.predecessorAttemptId
      && s.attempts[|s.attempts| - 1].intent.Current?
    case Clear =>
      s.cancellationRequested && !r.state.SessionExitObserved?
  }

  function TransitionNative(s: QueueSnapshot, operationId: Id, state: ExecutionState, at: Instant,
                            revision: int, generation: int): Result<QueueSnapshot>
  {
    match Fence(s, revision, generation)
    case Some(fault) => Err(fault)
    case None =>
      match OperationAt(s.operations, operationId)
      case None => Err(Refused)
      case Some(k) =>
        var o := s.operations[k];
        match ReservationAt(s.reservations, o.reservationId)
        case None => Err(Refused)
        case Some(n) =>
          if o.generation != s.generation then Err(Conflict)
          else if at < o.updatedAt then Err(Malformed)
          else if o.state == state && !state.Dispatched? then Ok(s)
          else if state.Dispatched?
                  && (!o.state.Pending? || !NativeDispatchable(s, s.reservations[n], o))
          then Err(Refused)
          else if !state.Dispatched? && !o.state.Dispatched? && !o.state.Uncertain?
          then Err(Refused)
          else Ok(OperationMoved(s, operationId, state, at))
  }

  /** The rows an operation's transition writes; uncertainty also holds the queue. */
  function OperationMoved(s: QueueSnapshot, operationId: Id, state: ExecutionState, at: Instant)
    : QueueSnapshot
  {
    Bump(s.(
      operations := WithOperation(s.operations, operationId, state, at),
      reconciliationRequired := s.reconciliationRequired || state.Uncertain?))
  }

  function RecordNativeOutcome(s: QueueSnapshot, operationId: Id, outcome: ExecutionState,
                               at: Instant, revision: int, generation: int)
    : Result<QueueSnapshot>
  {
    if !IsOutcome(outcome) then Err(Malformed)
    else TransitionNative(s, operationId, outcome, at, revision, generation)
  }

  /** The observation names the reserved item, attempt, target, application and session. */
  predicate ObservedMatches(s: QueueSnapshot, r: NativeReservation, item: QueueEntry,
                            observed: SessionSnapshot) {
    && observed.scope.request.target == s.target
    && observed.scope.request.content == item.content
    && observed.scope.request.queueItemId == item.itemId
    && observed.scope.request.attemptId == r.successorAttemptId
    && observed.scope.applicationId == Some(r.applicationId)
    && observed.scope.sessionId == r.sessionId
  }

  /** The playback evidence an adoption demands: confirmed, fresh, explicit, ad-free progress of
      the exact content, in the session and connection of its scope. */
  predicate QualifiedProgress(observed: SessionSnapshot, target: PlaybackTarget,
                              content: ContentRef, now: Monotonic) {
    && observed.evidence.receiverPlaybackConfirmed
    && observed.hasConfirmedPlayback
    && !observed.ownershipLost
    && !observed.stopRequested
    && observed.latest.Some?
    && var latest := observed.latest.value;
    && latest.target == target
    && latest.content == Some(content)
    && latest.sessionId == Some(observed.scope.sessionId)
    && latest.applicationId == observed.scope.applicationId
    && latest.connectionGeneration == observed.scope.connectionGeneration
    && latest.playbackId.Some?
    && latest.position.Some?
    && !latest.connectionReset
    && latest.sessionActive.None?
    && latest.identityUpdate.Explicit?
    && latest.state.Playing?
    && latest.adActive == Some(false)
    && latest.monotonic > observed.scope.startedMonotonic
    && Fresh(now, latest.monotonic, 5.0)
  }

  /** The decision recorded for a predecessor that was never seen to finish. */
  function SourceDecision(source: QueueAttempt, decisionId: Id): Id {
    if source.decisionId.Some? && source.decisionId.value != "" then source.decisionId.value
    else "native-unobserved-" + decisionId
  }

  /** The rows an adoption writes. */
  function Adoption(s: QueueSnapshot, r: NativeReservation, source: QueueAttempt, at: Instant,
                    decisionId: Id): QueueSnapshot
  {
    var unobserved := source.intent.Current? || source.intent.NeedsAttention?;
    var attempts :=
      if unobserved then
        WithAttempt(s.attempts, source.attemptId, NeedsAttention, SourceDecision(source, decisionId))
      else s.attempts;
    var items :=
      if unobserved then WithItem(s.items, source.itemId, NeedsAttention) else s.items;
    Bump(s.(
      reconciliationRequired := s.reconciliationRequired || !source.intent.Finished?,
      attempts := attempts + [QueueAttempt(r.successorAttemptId, r.successorItemId, Current, at,
                                           None, NativeObserved(r.reservationId))],
      items := WithItem(items, r.successorItemId, Current),
      currentItemId := Some(r.successorItemId),
      reservations := WithAdoption(s.reservations, r.reservationId, decisionId)))
  }

  /** The unique constraints an adoption meets: attempt, decision and adoption identities. */
  predicate AdoptionFree(s: QueueSnapshot, taken: Taken, r: NativeReservation,
                         source: QueueAttempt, decisionId: Id) {
    && r.successorAttemptId !in taken.attempts
    && AttemptAt(s.attempts, r.successorAttemptId).None?
    && decisionId !in taken.adoptions
    && (forall k :: 0 <= k < |s.reservations| ==>
          s.reservations[k].adoptionDecisionId != Some(decisionId))
    && (forall k :: 0 <= k < |s.attempts| ==>
          s.attempts[k].origin != NativeObserved(r.reservationId))
    && (source.intent.Current? || source.intent.NeedsAttention? ==>
          && SourceDecision(source, decisionId) !in taken.decisions
          && (forall k :: 0 <= k < |s.attempts| && s.attempts[k].attemptId != source.attemptId ==>
                s.attempts[k].decisionId != Some(SourceDecision(source, decisionId))))
  }

  function AdoptNativeSuccessor(s: QueueSnapshot, taken: Taken, reservationId: Id,
                                observed: SessionSnapshot, now: Monotonic, at: Instant,
                                decisionId: Id, revision: int, generation: int)
    : Result<QueueSnapshot>
  {
    if Blank(decisionId) then Err(Malformed)
    else if s.generation != generation then Err(Conflict) else
    match ReservationAt(s.reservations, reservationId)
    case None => Err(Refused)
    case Some(k) =>
      var r := s.reservations[k];
      if ItemAt(s.items, r.successorItemId).None? then Err(Refused) else
      var item := s.items[ItemAt(s.items, r.successorItemId).value];
      if !ObservedMatches(s, r, item, observed) then Err(Refused)
      else if r.adoptionDecisionId.Some? then
        if r.adoptionDecisionId.value != decisionId then Err(Refused) else Ok(s)
      else
        match Fence(s, revision, generation)
        case Some(fault) => Err(fault)
        case None =>
          if EnqueueAt(s.operations, reservationId).None? then Err(Refused) else
          var enqueue := s.operations[EnqueueAt(s.operations, reservationId).value];
          if || !r.state.Reserved? || !Sent(enqueue.state)
             || !QualifiedProgress(observed, s.target, item.content, now)
          then Err(Refused)
          else if at < r.createdAt then Err(Malformed)
          else if || s.attempts == []
                  || s.attempts[|s.attempts| - 1].attemptId != r.predecessorAttemptId
          then Err(Refused)
          else
            var source := s.attempts[|s.attempts| - 1];
            if !AdoptionFree(s, taken, r, source, decisionId) then Err(Refused)
            else Ok(Adoption(s, r, source, at, decisionId))
  }

  function RecordNativeSessionExit(s: QueueSnapshot, taken: Taken, reservationId: Id, at: Instant,
                                   decisionId: Id, revision: int, generation: int)
    : Result<QueueSnapshot>
  {
    if Blank(decisionId) then Err(Malformed) else
    match ReservationAt(s.reservations, reservationId)
    case None => Err(Refused)
    case Some(k) =>
      var r := s.reservations[k];
      match Fence(s, revision, generation)
      case Some(fault) => Err(fault)
      case None =>
        if r.exitDecisionId.Some? then
          if r.exitDecisionId.value != decisionId then Err(Refused) else Ok(s)
        else if !s.cancellationRequested then Err(Refused)
        else if at < r.createdAt then Err(Malformed)
        else if || decisionId in taken.exits
                || (exists n :: 0 <= n < |s.reservations|
                      && s.reservations[n].exitDecisionId == Some(decisionId))
        then Err(Refused)
        else Ok(Exited(s, reservationId, decisionId))
  }

  /** The row a session exit writes. */
  function Exited(s: QueueSnapshot, reservationId: Id, decisionId: Id): QueueSnapshot {
    Bump(s.(reservations := WithExit(s.reservations, reservationId, decisionId)))
  }

  // ---------------------------------------------------------------- all transactions together

  datatype StoreOp =
    | OpStart(itemId: Id, attemptId: Id, commandId: Id, at: Instant, revision: int)
    | OpStop(attemptId: Id, commandId: Id, at: Instant, revision: int)
    | OpControl(attemptId: Id, commandId: Id, action: CommandAction, at: Instant, revision: int)
    | OpCancel(revision: int)
    | OpDispatch(commandId: Id, at: Instant, revision: int)
    | OpOutcome(commandId: Id, outcome: ExecutionState, at: Instant, revision: int)
    | OpSettle(attemptId: Id, intent: QueueIntent, decisionId: Id, revision: int)
    | OpRecover(revision: int)
    | OpHold(revision: int)
    | OpReserve(successorItemId: Id, reservationId: Id, successorAttemptId: Id,
                request: NativeQueueRequest, at: Instant, revision: int, generation: int)
    | OpClear(reservationId: Id, request: NativeQueueRequest, at: Instant, revision: int,
              generation: int)
    | OpNativeDispatch(operationId: Id, at: Instant, revision: int, generation: int)
    | OpNativeOutcome(operationId: Id, outcome: ExecutionState, at: Instant, revision: int,
                      generation: int)
    | OpAdopt(reservationId: Id, observed: SessionSnapshot, now: Monotonic, at: Instant,
              decisionId: Id, revision: int, generation: int)
    | OpExit(reservationId: Id, at: Instant, decisionId: Id, revision: int, generation: int)
  {
    /** Arguments that their own constructors would have let through. */
    predicate WellFormed() {
      (OpReserve? || OpClear?) ==> request.WellFormed()
    }
  }

  /** The rows a transaction would write, before its reload checks them. */
  function Write(s: QueueSnapshot, taken: Taken, op: StoreOp): Result<QueueSnapshot> {
    match op
    case OpStart(i, a, c, at, rev) => PrepareStart(s, taken, i, a, c, at, rev)
    case OpStop(a, c, at, rev) => PrepareStop(s, taken, a, c, at, rev)
    case OpControl(a, c, action, at, rev) => PrepareControl(s, taken, a, c, action, at, rev)
    case OpCancel(rev) => CancelQueue(s, rev)
    case OpDispatch(c, at, rev) => MarkDispatched(s, c, at, rev)
    case OpOutcome(c, outcome, at, rev) => RecordOutcome(s, c, outcome, at, rev)
    case OpSettle(a, intent, d, rev) => SettleAttempt(s, taken, a, intent, d, rev)
    case OpRecover(rev) => Recover(s, rev)
    case OpHold(rev) => Hold(s, rev)
    case OpReserve(i, r, a, q, at, rev, gen) =>
      PrepareNativeSuccessor(s, taken, i, r, a, q, at, rev, gen)
    case OpClear(r, q, at, rev, gen) => PrepareNativeClear(s, taken, r, q, at, rev, gen)
    case OpNativeDispatch(o, at, rev, gen) =>
      TransitionNative(s, o, ExecutionState.Dispatched, at, rev, gen)
    case OpNativeOutcome(o, outcome, at, rev, gen) =>
      RecordNativeOutcome(s, o, outcome, at, rev, gen)
    case OpAdopt(r, observed, now, at, d, rev, gen) =>
      AdoptNativeSuccessor(s, taken, r, observed, now, at, d, rev, gen)
    case OpExit(r, at, d, rev, gen) => RecordNativeSessionExit(s, taken, r, at, d, rev, gen)
  }

  /** A transaction: the first read and the reload after a write must both accept their rows. */
  function Apply(s: QueueSnapshot, taken: Taken, op: StoreOp): Result<QueueSnapshot> {
    if !ReloadAccepts(s) then Err(Refused) else
    match Write(s, taken, op)
    case Err(fault) => Err(fault)
    case Ok(t) => if ReloadAccepts(t) then Ok(t) else Err(Refused)
  }
}
