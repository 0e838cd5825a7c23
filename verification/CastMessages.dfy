/** Untrusted Cast JSON becomes scalar events.  Nothing is carried forward from earlier messages,
    and a field without its documented shape is unknown.  An exit of the receiver is believed only
    as the answer to the poll that asked for it. */
module CastMessages {
  import opened Values
  import M = MetadataStructure

  /** A decoded JSON value, with its names and scalars; `Float(None)` is not finite. */
  datatype Wire =
    | Null
    | Bool(flag: bool)
    | Integer(number: int)
    | Float(seconds: Option<real>)
    | Text(text: string)
    | List(elements: seq<Wire>)
    | Object(fields: map<string, Wire>)

  type Shape = M.Shape

  datatype FailureKind = InvalidReceiverStatus | LoadFailed | LaunchError

  /** The first media status of a message, with the shapes of the wire fields that are judged. */
  datatype MediaFields = MediaFields(
    mediaSessionId: Option<int>, contentId: Option<string>, playerState: Option<string>,
    position: Option<real>, duration: Option<real>, idleReason: Option<string>,
    adBreak: Option<bool>, pauseSupported: Option<bool>, customState: Option<int>,
    customShape: Option<Shape>, statusCount: Option<nat>, media: Option<Shape>,
    mediaContentId: Option<Shape>, extendedStatus: Option<Shape>, extendedMedia: Option<Shape>,
    extendedContentId: Option<Shape>, breakStatus: Option<Shape>)

  /** An explicit empty media status. */
  const EMPTY_MEDIA := MediaFields(None, None, None, None, None, None, None, None, None, None, None,
                                   None, None, None, None, None, None)

  datatype RawEvent =
    | Reset
    | Receiver(appId: Option<Id>, appSessionId: Option<Id>, appName: Option<Id>)
    | Media(fields: MediaFields)
    | Failure(kind: FailureKind)
  {
    /** What an observation can be built from: an exit names no session, and positions and
        durations are not negative. */
    predicate WellFormed() {
      match this
      case Receiver(appId, appSessionId, _) => appId.None? ==> appSessionId.None?
      case Media(m) =>
        && (m.position.Some? ==> m.position.value >= 0.0)
        && (m.duration.Some? ==> m.duration.value >= 0.0)
      case _ => true
    }
  }

  // ---------------------------------------------------------------- fields

  /** A missing field and an explicit null are the same here. */
  function Field(value: Wire, name: string): Wire {
    if value.Object? && name in value.fields then value.fields[name] else Null
  }

  function First(value: Wire): Wire {
    if value.List? && value.elements != [] then value.elements[0] else Null
  }

  function TextOf(value: Wire): Option<string> {
    if value.Text? && value.text != "" then Some(value.text) else None
  }

  function BooleanOf(value: Wire): Option<bool> {
    if value.Bool? then Some(value.flag) else None
  }

  function IntegerOf(value: Wire): Option<int> {
    if value.Integer? then Some(value.number) else None
  }

  function PowerOfTwo(k: nat): nat {
    if k == 0 then 1 else 2 * PowerOfTwo(k - 1)
  }

  /** An integer that rounds to no finite double. */
  predicate Overflows(n: int) {
    n >= PowerOfTwo(1024) - PowerOfTwo(970) || -n >= PowerOfTwo(1024) - PowerOfTwo(970)
  }

  function SecondsOf(value: Wire): Option<real> {
    match value
    case Integer(n) => if Overflows(n) || n < 0 then None else Some(n as real)
    case Float(seconds) => if seconds.Some? && seconds.value >= 0.0 then seconds else None
    case _ => None
  }

  function Choice(value: Wire, choices: set<string>): Option<string> {
    if value.Text? && value.text in choices then Some(value.text) else None
  }

  const PLAYER_STATES := {"IDLE", "PLAYING", "PAUSED", "BUFFERING", "LOADING"}
  const IDLE_REASONS := {"CANCELLED", "INTERRUPTED", "FINISHED", "ERROR"}

  /** Reported break activity; its absence does not establish that there is no ad. */
  function AdBreak(status: Wire): Option<bool> {
    var current := Field(status, "breakStatus");
    if || TextOf(Field(current, "breakId")).Some? || TextOf(Field(current, "breakClipId")).Some?
       || SecondsOf(Field(current, "currentBreakTime")).Some?
       || SecondsOf(Field(current, "currentBreakClipTime")).Some?
    then Some(true) else None
  }

  function PauseSupported(status: Wire): Option<bool> {
    var commands := IntegerOf(Field(status, "supportedMediaCommands"));
    if commands.Some? && commands.value >= 0 then Some(commands.value % 2 == 1) else None
  }

  function FieldShape(parent: Wire, name: string, valid: Wire -> bool): Shape {
    if !parent.Object? then M.Unavailable
    else if name !in parent.fields then M.Absent
    else if parent.fields[name].Null? then M.NullShape
    else if valid(parent.fields[name]) then M.Valid
    else M.Invalid
  }

  predicate Int32(value: Wire) {
    value.Integer? && -0x8000_0000 <= value.number < 0x8000_0000
  }

  // ---------------------------------------------------------------- messages

  function MediaEvent(data: Wire): RawEvent {
    var statuses := Field(data, "status");
    if statuses.List? && statuses.elements == [] then Media(EMPTY_MEDIA)
    else
      var status := First(statuses);
      var extended := Field(status, "extendedStatus");
      var direct := Field(status, "media");
      var media := if direct.Null? then Field(extended, "media") else direct;
      var sessionId := IntegerOf(Field(status, "mediaSessionId"));
      var custom := Field(status, "customData");
      var customShape := FieldShape(custom, "playerState", value => Int32(value));
      var isObject := (value: Wire) => value.Object?;
      var isText := (value: Wire) => TextOf(value).Some?;
      Media(MediaFields(
        if sessionId.Some? && sessionId.value >= 0 then sessionId else None,
        TextOf(Field(media, "contentId")),
        Choice(Field(status, "playerState"), PLAYER_STATES),
        SecondsOf(Field(status, "currentTime")),
        SecondsOf(Field(media, "duration")),
        Choice(Field(status, "idleReason"), IDLE_REASONS),
        AdBreak(status),
        PauseSupported(status),
        if customShape.Valid? then IntegerOf(Field(custom, "playerState")) else None,
        Some(customShape),
        if statuses.List? then Some(|statuses.elements|) else None,
        Some(FieldShape(status, "media", isObject)),
        Some(FieldShape(direct, "contentId", isText)),
        Some(FieldShape(status, "extendedStatus", isObject)),
        Some(FieldShape(extended, "media", isObject)),
        Some(FieldShape(Field(extended, "media"), "contentId", isText)),
        Some(FieldShape(status, "breakStatus", isObject))))
  }

  /** The reply without applications to a poll of our own, with all the metadata of an idle
      receiver. */
  predicate SolicitedIdle(data: Wire, requestId: Option<int>) {
    && requestId.Some? && requestId.value > 0
    && IntegerOf(Field(data, "requestId")) == requestId
    && var status := Field(data, "status");
    && status.Object? && "applications" !in status.fields
    && var volume := Field(status, "volume");
    && Field(status, "userEq").Object?
    && SecondsOf(Field(volume, "level")).Some? && SecondsOf(Field(volume, "level")).value <= 1.0
    && BooleanOf(Field(volume, "muted")).Some?
    && ("isActiveInput" in status.fields ==> status.fields["isActiveInput"].Bool?)
    && ("isStandBy" in status.fields ==> status.fields["isStandBy"].Bool?)
  }

  /** Applications that are present must be identified. */
  function ReceiverEvent(data: Wire, requestId: Option<int>): RawEvent {
    var status := Field(data, "status");
    var apps := Field(status, "applications");
    var app := First(apps);
    var appId := TextOf(Field(app, "appId"));
    var sessionId := TextOf(Field(app, "sessionId"));
    if || !status.Object?
       || (!apps.List? && !SolicitedIdle(data, requestId))
       || (apps.List? && apps.elements != [] && (appId.None? || sessionId.None?))
    then Failure(InvalidReceiverStatus)
    else Receiver(appId, sessionId, TextOf(Field(app, "displayName")))
  }

  function NormalizeMessage(data: Wire, requestId: Option<int>): Option<RawEvent> {
    var kind := TextOf(Field(data, "type"));
    if kind == Some("MEDIA_STATUS") then Some(MediaEvent(data))
    else if kind == Some("RECEIVER_STATUS") then Some(ReceiverEvent(data, requestId))
    else if kind == Some("LOAD_FAILED") then Some(Failure(LoadFailed))
    else if kind == Some("LAUNCH_ERROR") then Some(Failure(LaunchError))
    else None
  }

  // ---------------------------------------------------------------- polls and their answers

  /** A poll for the receiver's status; its identity is assigned while it is sent. */
  datatype Poll = Poll(requestId: Option<int>, deadline: Monotonic)

  /** Whether a message answers the pending poll, which it then uses up. */
  function Matched(pending: Option<Poll>, data: Wire, at: Monotonic): (Option<Poll>, Option<int>) {
    if pending.None? || at >= pending.value.deadline then (None, None)
    else if !data.Object? || Field(data, "type") != Text("RECEIVER_STATUS") then (pending, None)
    else
      var requestId := pending.value.requestId;
      if || requestId.None? || requestId.value <= 0
         || IntegerOf(Field(data, "requestId")) != requestId
      then (pending, None) else (None, requestId)
  }

  /** One message: the poll that is still pending, and the event that is queued. */
  function Received(pending: Option<Poll>, data: Wire, at: Monotonic)
    : (Option<Poll>, Option<RawEvent>)
  {
    var (rest, requestId) := Matched(pending, data, at);
    var event := NormalizeMessage(data, requestId);
    if event.Some? && event.value.Receiver? && event.value.appId.None? && requestId.None?
    then (rest, Some(Failure(InvalidReceiverStatus)))
    else (rest, event)
  }

  /** What the callbacks of a connection can ever queue. */
  ghost predicate Delivered(raw: RawEvent) {
    || raw.Reset?
    || exists pending: Option<Poll>, data: Wire, at: Monotonic ::
         Received(pending, data, at).1 == Some(raw)
  }

  /** Whatever arrives on the wire, the event it becomes can be observed. */
  lemma {:induction false} EveryMessageIsWellFormed(pending: Option<Poll>, data: Wire,
                                                    at: Monotonic)
    ensures var event := Received(pending, data, at).1;
            event.Some? ==> event.value.WellFormed()
  {
    hide Overflows;
    var requestId := Matched(pending, data, at).1;
    hide Matched, SolicitedIdle;
    MediaIsWellFormed(data);
    ReceiverIsWellFormed(data, requestId);
    hide MediaEvent, ReceiverEvent;
  }

  lemma {:induction false} MediaIsWellFormed(data: Wire)
    ensures MediaEvent(data).Media? && MediaEvent(data).WellFormed()
  {
    hide Overflows, FieldShape, AdBreak, PauseSupported, Choice;
  }

  /** A receiver that names a session names its application, and without an application there is
      neither. */
  lemma {:induction false} ReceiverIsWellFormed(data: Wire, requestId: Option<int>)
    ensures var event := ReceiverEvent(data, requestId);
            && event.WellFormed()
            && (event.Receiver? ==> (event.appId.None? <==> event.appSessionId.None?))
  {
    hide SolicitedIdle;
  }

  lemma {:induction false} DeliveredIsWellFormed(raw: RawEvent)
    requires Delivered(raw)
    ensures raw.WellFormed()
  {
    hide Received;
    if !raw.Reset? {
      var pending: Option<Poll>, data: Wire, at: Monotonic :|
        Received(pending, data, at).1 == Some(raw);
      EveryMessageIsWellFormed(pending, data, at);
    }
  }

  /** An exit is only ever the answer to the pending poll, in time, and uses the poll up. */
  lemma {:induction false} ExitAnswersPoll(pending: Option<Poll>, data: Wire, at: Monotonic)
    requires var event := Received(pending, data, at).1;
             event.Some? && event.value.Receiver? && event.value.appId.None?
    ensures pending.Some? && at < pending.value.deadline
    ensures pending.value.requestId.Some? && pending.value.requestId.value > 0
    ensures Field(data, "requestId") == Integer(pending.value.requestId.value)
    ensures Received(pending, data, at).0.None?
  {
    hide NormalizeMessage;
  }

  // ---------------------------------------------------------------- every run of callbacks

  datatype Callback =
    | Ask(deadline: Monotonic)
    | Assign(requestId: int)
    | Retire
    | Disconnect(reset: bool)
    | Message(polled: bool, data: Wire, at: Monotonic)

  /** The observer of the receiver, and the queue it shares with the observer of the media, which
      never polls. */
  datatype Observer = Observer(pending: Option<Poll>, asked: nat, queued: seq<RawEvent>)

  /** A new poll supersedes the old one; retirement and every change of the connection drop it. */
  function Called(o: Observer, c: Callback): Observer {
    match c
    case Ask(deadline) => o.(pending := Some(Poll(None, deadline)), asked := o.asked + 1)
    case Assign(requestId) =>
      if o.pending.Some? then o.(pending := Some(o.pending.value.(requestId := Some(requestId))))
      else o
    case Retire => o.(pending := None)
    case Disconnect(reset) =>
      o.(pending := None, queued := if reset then o.queued + [Reset] else o.queued)
    case Message(polled, data, at) =>
      var (rest, event) := Received(if polled then o.pending else None, data, at);
      o.(pending := if polled then rest else o.pending,
         queued := if event.Some? then o.queued + [event.value] else o.queued)
  }

  function Callbacks(callbacks: seq<Callback>): Observer {
    if callbacks == [] then Observer(None, 0, [])
    else Called(Callbacks(callbacks[..|callbacks| - 1]), callbacks[|callbacks| - 1])
  }

  /** How many exits are among these events. */
  function Exits(events: seq<RawEvent>): nat {
    if events == [] then 0
    else
      var last := events[|events| - 1];
      Exits(events[..|events| - 1]) + if last.Receiver? && last.appId.None? then 1 else 0
  }

  /** Over every run of polls, replies, disconnections and messages: only delivered events are
      queued, and each poll is answered by at most one exit. */
  lemma {:induction false} PollsAnswerOnce(callbacks: seq<Callback>)
    ensures var o := Callbacks(callbacks);
            && (forall k :: 0 <= k < |o.queued| ==> Delivered(o.queued[k]))
            && Exits(o.queued) + (if o.pending.Some? then 1 else 0) <= o.asked
  {
    hide Received, Delivered;
    if callbacks != [] {
      var before := Callbacks(callbacks[..|callbacks| - 1]);
      PollsAnswerOnce(callbacks[..|callbacks| - 1]);
      CalledOnce(before, callbacks[|callbacks| - 1]);
    }
  }

  lemma {:induction false} QueuedOnce(events: seq<RawEvent>, raw: RawEvent)
    requires Delivered(raw) && forall k :: 0 <= k < |events| ==> Delivered(events[k])
    ensures forall k :: 0 <= k < |events + [raw]| ==> Delivered((events + [raw])[k])
    ensures Exits(events + [raw])
         == Exits(events) + if raw.Receiver? && raw.appId.None? then 1 else 0
  {
    hide Delivered;
    assert (events + [raw])[..|events|] == events;
  }

  lemma {:induction false} CalledOnce(o: Observer, c: Callback)
    requires forall k :: 0 <= k < |o.queued| ==> Delivered(o.queued[k])
    requires Exits(o.queued) + (if o.pending.Some? then 1 else 0) <= o.asked
    ensures var u := Called(o, c);
            && (forall k :: 0 <= k < |u.queued| ==> Delivered(u.queued[k]))
            && Exits(u.queued) + (if u.pending.Some? then 1 else 0) <= u.asked
  {
    hide Received, Exits;
    match c {
      case Disconnect(reset) => QueuedOnce(o.queued, Reset);
      case Message(polled, data, at) =>
        var pending := if polled then o.pending else None;
        PollOnlyGoes(pending, data, at);
        var event := Received(pending, data, at).1;
        if event.Some? {
          assert Delivered(event.value);
          QueuedOnce(o.queued, event.value);
          if event.value.Receiver? && event.value.appId.None? {
            ExitAnswersPoll(pending, data, at);
          }
        }
      case _ =>
    }
  }

  lemma {:induction false} PollOnlyGoes(pending: Option<Poll>, data: Wire, at: Monotonic)
    ensures Received(pending, data, at).0 in {None, pending}
  {
    hide NormalizeMessage;
  }
}
