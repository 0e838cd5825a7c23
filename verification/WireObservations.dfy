/** What an observation says in terms of the message on the wire and of the newest status of the
    receiver: every field that the evidence policy reads. */
module WireObservations {
  import opened Values
  import opened CastMessages
  import opened CastBackend
  import M = MetadataStructure
  import Notation = DecisionMaterial

  // ---------------------------------------------------------------- fields of the message

  /** The first status of the message, if it lists one. */
  function StatusOf(data: Wire): Wire {
    First(Field(data, "status"))
  }

  /** The media of a status: its own, or that of the extended status when it has none. */
  function MediaOf(data: Wire): Wire {
    if Field(StatusOf(data), "media") != Null then Field(StatusOf(data), "media")
    else Field(Field(StatusOf(data), "extendedStatus"), "media")
  }

  predicate Says(value: Wire, name: string, text: string) {
    Field(value, name) == Text(text)
  }

  /** The value measures this many seconds, and anything else measures nothing. */
  predicate Measures(value: Wire, seconds: Option<real>) {
    match seconds
    case Some(x) =>
      && 0.0 <= x
      && (value == Float(Some(x))
          || (value.Integer? && x == value.number as real && !Overflows(value.number)))
    case None =>
      !(value.Float? && value.seconds.Some? && value.seconds.value >= 0.0)
      && !(value.Integer? && value.number >= 0 && !Overflows(value.number))
  }

  /** The message numbers its media session. */
  predicate Numbers(data: Wire, id: int) {
    Field(StatusOf(data), "mediaSessionId") == Integer(id) && id >= 0
  }

  predicate HasSession(data: Wire) {
    Field(StatusOf(data), "mediaSessionId").Integer?
    && Field(StatusOf(data), "mediaSessionId").number >= 0
  }

  /** The video that the message names: its content identity, unless that is a URL or empty. */
  predicate NamesVideo(data: Wire, urlVideo: Option<Id>, video: Id) {
    && video != ""
    && Field(MediaOf(data), "contentId").Text?
    && var id := Field(MediaOf(data), "contentId").text;
       id != "" && (if IsUrl(id) then urlVideo == Some(video) else id == video)
  }

  /** The status reports break activity. */
  predicate ReportsBreak(data: Wire) {
    var current := Field(StatusOf(data), "breakStatus");
    || (Field(current, "breakId").Text? && Field(current, "breakId").text != "")
    || (Field(current, "breakClipId").Text? && Field(current, "breakClipId").text != "")
    || !Measures(Field(current, "currentBreakTime"), None)
    || !Measures(Field(current, "currentBreakClipTime"), None)
  }

  // ---------------------------------------------------------------- the receiver

  /** The newest status is at most five seconds older than the event. */
  predicate Near(receiver: Option<ReceiverStatus>, at: Monotonic) {
    receiver.Some? && receiver.value.monotonic <= at <= receiver.value.monotonic + 5.0
  }

  function CodeOf(data: Wire): Wire {
    Field(Field(StatusOf(data), "customData"), "playerState")
  }

  /** A single numbered status of the YouTube receiver carries a code of 32 bits. */
  predicate Codes(receiver: Option<ReceiverStatus>, at: Monotonic, data: Wire) {
    && Near(receiver, at) && receiver.value.appId == Some(YOUTUBE_APPLICATION_ID)
    && Field(data, "status").List? && |Field(data, "status").elements| == 1
    && HasSession(data)
    && CodeOf(data).Integer? && -0x8000_0000 <= CodeOf(data).number < 0x8000_0000
  }

  predicate NoBreakField(data: Wire) {
    StatusOf(data).Object? && "breakStatus" !in StatusOf(data).fields
  }

  predicate NoIdleReason(data: Wire) {
    forall reason :: reason in IDLE_REASONS ==> !Says(StatusOf(data), "idleReason", reason)
  }

  /** The code agrees with the standard fields, which show no break. */
  predicate Consistent(data: Wire, code: int, phase: ContentPhase) {
    && NoBreakField(data)
    && match code
       case 0 => phase.Finished? && Says(StatusOf(data), "playerState", "IDLE")
                 && Says(StatusOf(data), "idleReason", "FINISHED")
       case 1 => phase.Playing? && Says(StatusOf(data), "playerState", "PLAYING")
                 && NoIdleReason(data)
       case 2 => phase.Paused? && Says(StatusOf(data), "playerState", "PAUSED")
                 && NoIdleReason(data)
       case 3 => phase.Buffering? && Says(StatusOf(data), "playerState", "BUFFERING")
                 && NoIdleReason(data)
       case _ => false
  }

  /** The provider claims this phase. */
  predicate Claims(receiver: Option<ReceiverStatus>, at: Monotonic, data: Wire,
                   phase: ContentPhase) {
    && Codes(receiver, at, data)
    && var code := CodeOf(data).number;
       if 1080 <= code < 1086 then phase.Ad? else Consistent(data, code, phase)
  }

  /** The provider claims that content plays, waits or is over. */
  predicate ClaimsContent(receiver: Option<ReceiverStatus>, at: Monotonic, data: Wire) {
    || Claims(receiver, at, data, ContentPhase.Playing)
    || Claims(receiver, at, data, ContentPhase.Paused)
    || Claims(receiver, at, data, ContentPhase.Buffering)
    || Claims(receiver, at, data, ContentPhase.Finished)
  }

  // ---------------------------------------------------------------- the observation

  /** The status lists its supported commands, as the bits of a number. */
  predicate ListsCommands(status: Wire) {
    Field(status, "supportedMediaCommands").Integer?
    && Field(status, "supportedMediaCommands").number >= 0
  }

  /** What the player does, how far it is, and whether it can pause. */
  predicate ShowsPlayer(data: Wire, o: PlaybackObservation) {
    var status := StatusOf(data);
    && (o.state.Playing? <==> Says(status, "playerState", "PLAYING"))
    && (o.state.Paused? <==> Says(status, "playerState", "PAUSED"))
    && (o.state.Buffering? <==> Says(status, "playerState", "BUFFERING"))
    && (o.state.Idle? <==> Says(status, "playerState", "IDLE"))
    && !o.state.Ended? && !o.state.Stopped?
    && (o.idleReason == Some(IdleReason.Finished) <==> Says(status, "idleReason", "FINISHED"))
    && (o.idleReason == Some(Canceled) <==> Says(status, "idleReason", "CANCELLED"))
    && (o.idleReason == Some(IdleReason.Error) <==> Says(status, "idleReason", "ERROR"))
    && Measures(Field(status, "currentTime"), o.position)
    && Measures(Field(MediaOf(data), "duration"), o.duration)
    && (o.pauseSupported.Some? <==> ListsCommands(status))
    && (o.pauseSupported == Some(true)
        <==> ListsCommands(status) && Field(status, "supportedMediaCommands").number % 2 == 1)
  }

  /** Whose media it is: of the newest status of the receiver while that is near, by the number of
      the media session, and of a video only on a YouTube receiver. */
  ghost predicate ShowsIdentity(receiver: Option<ReceiverStatus>, data: Wire, urlVideo: Option<Id>,
                                o: PlaybackObservation) {
    var near := Near(receiver, o.monotonic);
    && o.sessionId == (if near then receiver.value.appSessionId else None)
    && o.applicationId == (if near then receiver.value.appId else None)
    && (o.playbackId.Some? <==> HasSession(data))
    && (forall id :: Numbers(data, id) ==> o.playbackId == Some(Notation.Str(id)))
    && (o.content.Some? <==>
          && near && receiver.value.appName == Some("YouTube") && HasSession(data)
          && exists video :: NamesVideo(data, urlVideo, video))
    && (o.content.Some? ==>
          NamesVideo(data, urlVideo, o.content.value.contentId)
          && o.content.value.provider == "youtube" && o.content.value.kind.Video?)
  }

  /** Whether an ad plays: the provider's claim decides, then a reported break. */
  predicate ShowsAd(receiver: Option<ReceiverStatus>, data: Wire, o: PlaybackObservation) {
    var at := o.monotonic;
    var content := ClaimsContent(receiver, at, data);
    && (o.adActive == Some(true)
        <==> Claims(receiver, at, data, ContentPhase.Ad) || (!content && ReportsBreak(data)))
    && (o.adActive == Some(false) <==> content)
    && (o.providerEvidence.Some? <==> Field(data, "status") != List([]))
    && (o.providerEvidence.Some? ==>
          && o.providerEvidence.value.source == YOUTUBE_STATE_SOURCE
          && forall phase: ContentPhase :: !phase.Unknown? ==>
               (o.providerEvidence.value.phase == phase <==> Claims(receiver, at, data, phase)))
  }

  /** How the identity came: spelled out by the media of the status or, when it has none, by its
      extended status; left out altogether; or neither. */
  ghost predicate ShowsUpdate(data: Wire, o: PlaybackObservation) {
    var status := StatusOf(data);
    var extended := Field(status, "extendedStatus");
    var spelled :=
      if Absent(status, "media") then
        extended.Object? && NonEmptyText(Field(extended, "media"), "contentId")
      else NonEmptyText(Field(status, "media"), "contentId");
    && (o.identityUpdate.Explicit? <==> o.content.Some? && spelled)
    && (o.identityUpdate.Omitted?
        <==> !o.identityUpdate.Explicit?
             && (Field(data, "status") != List([])
                 && Absent(status, "media") && Absent(status, "extendedStatus")))
  }

  predicate Absent(value: Wire, name: string) {
    value.Object? && name !in value.fields
  }

  predicate NonEmptyText(value: Wire, name: string) {
    value.Object? && Field(value, name).Text? && Field(value, name).text != ""
  }

  ghost predicate Shows(receiver: Option<ReceiverStatus>, data: Wire, urlVideo: Option<Id>,
                        o: PlaybackObservation) {
    && ShowsPlayer(data, o) && ShowsIdentity(receiver, data, urlVideo, o)
    && ShowsAd(receiver, data, o) && ShowsUpdate(data, o)
    && o.source == "cast_media" && o.sessionActive.None? && !o.connectionReset
  }

  // ---------------------------------------------------------------- what the adapter makes of it

  /** The fields of a message. */
  function FieldsOf(data: Wire): MediaFields {
    if MediaEvent(data).Media? then MediaEvent(data).fields else EMPTY_MEDIA
  }

  lemma {:induction false} SecondsMeasure(value: Wire)
    ensures Measures(value, SecondsOf(value))
    ensures SecondsOf(value).Some? <==> !Measures(value, None)
  {
    hide Overflows;
  }

  lemma {:induction false} FieldsOfPlayer(data: Wire)
    ensures var m := FieldsOf(data);
            && m.playerState == Choice(Field(StatusOf(data), "playerState"), PLAYER_STATES)
            && m.idleReason == Choice(Field(StatusOf(data), "idleReason"), IDLE_REASONS)
            && Measures(Field(StatusOf(data), "currentTime"), m.position)
            && Measures(Field(MediaOf(data), "duration"), m.duration)
            && (m.adBreak == Some(true) <==> ReportsBreak(data)) && m.adBreak != Some(false)
            && m.pauseSupported == PauseSupported(StatusOf(data))
  {
    hide Overflows, Choice, FieldShape, PauseSupported, Measures, SecondsOf;
    SecondsMeasure(Field(StatusOf(data), "currentTime"));
    SecondsMeasure(Field(MediaOf(data), "duration"));
    SecondsMeasure(Field(Field(StatusOf(data), "breakStatus"), "currentBreakTime"));
    SecondsMeasure(Field(Field(StatusOf(data), "breakStatus"), "currentBreakClipTime"));
    NothingIsKnown();
  }

  lemma {:induction false} NothingIsKnown()
    ensures Measures(Null, None) && SecondsOf(Null).None?
    ensures forall choices :: Choice(Null, choices) == None
    ensures PauseSupported(Null).None?
  {
  }

  lemma {:induction false} ChoiceSays(value: Wire, choices: set<string>, text: string)
    ensures Choice(value, choices) == Some(text) <==> text in choices && value == Text(text)
  {
  }

  lemma {:induction false} StatesAreSaid(data: Wire)
    ensures var state := StateOf(FieldsOf(data).playerState);
            var status := StatusOf(data);
            && (state.Playing? <==> Says(status, "playerState", "PLAYING"))
            && (state.Paused? <==> Says(status, "playerState", "PAUSED"))
            && (state.Buffering? <==> Says(status, "playerState", "BUFFERING"))
            && (state.Idle? <==> Says(status, "playerState", "IDLE"))
            && !state.Ended? && !state.Stopped?
  {
    hide FieldsOf, Choice, MediaOf;
    FieldsOfPlayer(data);
    var value := Field(StatusOf(data), "playerState");
    ChoiceSays(value, PLAYER_STATES, "PLAYING");
    ChoiceSays(value, PLAYER_STATES, "PAUSED");
    ChoiceSays(value, PLAYER_STATES, "BUFFERING");
    ChoiceSays(value, PLAYER_STATES, "IDLE");
  }

  lemma {:induction false} ReasonsAreSaid(data: Wire)
    ensures var reason := ReasonOf(FieldsOf(data).idleReason);
            var status := StatusOf(data);
            && (reason == Some(IdleReason.Finished) <==> Says(status, "idleReason", "FINISHED"))
            && (reason == Some(Canceled) <==> Says(status, "idleReason", "CANCELLED"))
            && (reason == Some(IdleReason.Error) <==> Says(status, "idleReason", "ERROR"))
  {
    hide FieldsOf, Choice, MediaOf;
    FieldsOfPlayer(data);
    var value := Field(StatusOf(data), "idleReason");
    ChoiceSays(value, IDLE_REASONS, "FINISHED");
    ChoiceSays(value, IDLE_REASONS, "CANCELLED");
    ChoiceSays(value, IDLE_REASONS, "CANCELED");
    ChoiceSays(value, IDLE_REASONS, "ERROR");
  }

  lemma {:induction false} PauseIsListed(status: Wire)
    ensures PauseSupported(status).Some? <==> ListsCommands(status)
    ensures PauseSupported(status) == Some(true)
        <==> ListsCommands(status) && Field(status, "supportedMediaCommands").number % 2 == 1
  {
  }

  lemma {:induction false} PlayerIsShown(s: State, base: PlaybackObservation, data: Wire,
                                         urlVideo: Option<Id>)
    ensures ShowsPlayer(data, MediaObservation(s, base, FieldsOf(data), urlVideo))
  {
    hide MediaEvent, FieldsOf, VideoId, Provider, AdState, IsExplicit, Measures, MediaOf, StateOf,
         ReasonOf, Choice, Says, PauseSupported, ListsCommands;
    FieldsOfPlayer(data);
    PauseIsListed(StatusOf(data));
    StatesAreSaid(data);
    ReasonsAreSaid(data);
  }

  lemma {:induction false} FieldsOfIdentity(data: Wire)
    ensures var m := FieldsOf(data);
            && (m.mediaSessionId.Some? <==> HasSession(data))
            && (m.mediaSessionId.Some? ==> Numbers(data, m.mediaSessionId.value))
            && m.contentId == TextOf(Field(MediaOf(data), "contentId"))
  {
    hide Choice, FieldShape, PauseSupported, SecondsOf, AdBreak;
  }

  lemma {:induction false} VideoIsNamed(contentId: Wire, urlVideo: Option<Id>, data: Wire)
    requires contentId == Field(MediaOf(data), "contentId")
    ensures var video := VideoId(TextOf(contentId), urlVideo);
            && (video.Some? && video.value != "" ==> NamesVideo(data, urlVideo, video.value))
            && (forall v :: NamesVideo(data, urlVideo, v) ==> video == Some(v) && v != "")
  {
    hide MediaOf, IsUrl;
  }

  lemma {:induction false} NearIsCorrelated(s: State, at: Monotonic)
    ensures Correlated(s, at) <==> Near(s.receiver, at)
  {
  }

  lemma {:induction false} IdentityIsShown(s: State, base: PlaybackObservation, data: Wire,
                                           urlVideo: Option<Id>)
    ensures ShowsIdentity(s.receiver, data, urlVideo,
                          MediaObservation(s, base, FieldsOf(data), urlVideo))
  {
    hide MediaEvent, FieldsOf, VideoId, Provider, AdState, IsExplicit, MediaOf, NamesVideo,
         Correlated, Near;
    FieldsOfIdentity(data);
    VideoIsNamed(Field(MediaOf(data), "contentId"), urlVideo, data);
    NearIsCorrelated(s, base.monotonic);
  }

  lemma {:induction false} FieldsOfUpdate(data: Wire)
    ensures var m := FieldsOf(data);
            var status := StatusOf(data);
            var extended := Field(status, "extendedStatus");
            && (IsExplicit(m)
                <==> if Absent(status, "media") then
                       extended.Object? && NonEmptyText(Field(extended, "media"), "contentId")
                     else NonEmptyText(Field(status, "media"), "contentId"))
            && (m.media == m.extendedStatus == Some(M.Absent)
                <==> Field(data, "status") != List([])
                     && Absent(status, "media") && Absent(status, "extendedStatus"))
  {
    hide Choice, PauseSupported, SecondsOf, AdBreak;
  }

  lemma {:induction false} UpdateIsShown(s: State, base: PlaybackObservation, data: Wire,
                                         urlVideo: Option<Id>)
    ensures ShowsUpdate(data, MediaObservation(s, base, FieldsOf(data), urlVideo))
  {
    hide MediaEvent, FieldsOf, VideoId, Provider, AdState, IsExplicit, NonEmptyText, Absent;
    FieldsOfUpdate(data);
  }

  lemma {:induction false} FieldsOfProvider(data: Wire)
    ensures var m := FieldsOf(data);
            && (m.customShape.Some? <==> Field(data, "status") != List([]))
            && (m.statusCount == Some(1)
                <==> Field(data, "status").List? && |Field(data, "status").elements| == 1)
            && (m.customShape == Some(M.Valid) && m.customState.Some?
                <==> CodeOf(data).Integer? && -0x8000_0000 <= CodeOf(data).number < 0x8000_0000)
            && (m.customState.Some? ==>
                  CodeOf(data).Integer? && m.customState.value == CodeOf(data).number)
            && (m.breakStatus == Some(M.Absent) ==> NoBreakField(data))
            && (NoBreakField(data) && Field(data, "status") != List([]) ==>
                  m.breakStatus == Some(M.Absent))
  {
    hide Choice, PauseSupported, SecondsOf, AdBreak;
  }

  lemma {:induction false} ReasonIsGiven(data: Wire)
    ensures Choice(Field(StatusOf(data), "idleReason"), IDLE_REASONS).None? <==> NoIdleReason(data)
    ensures NoBreakField(data) ==> !ReportsBreak(data)
  {
    NothingIsKnown();
  }

  lemma {:induction false} StateIsSaid(data: Wire)
    ensures var m := FieldsOf(data);
            && (m.playerState == Some("IDLE") <==> Says(StatusOf(data), "playerState", "IDLE"))
            && (m.playerState == Some("PLAYING")
                <==> Says(StatusOf(data), "playerState", "PLAYING"))
            && (m.playerState == Some("PAUSED") <==> Says(StatusOf(data), "playerState", "PAUSED"))
            && (m.playerState == Some("BUFFERING")
                <==> Says(StatusOf(data), "playerState", "BUFFERING"))
            && (m.idleReason == Some("FINISHED")
                <==> Says(StatusOf(data), "idleReason", "FINISHED"))
  {
    hide FieldsOf, MediaOf;
    FieldsOfPlayer(data);
  }

  /** The application that a status with a media session is correlated with. */
  function ApplicationOf(receiver: Option<ReceiverStatus>, at: Monotonic, data: Wire): Option<Id> {
    if Near(receiver, at) && HasSession(data) then receiver.value.appId else None
  }

  /** The decoded phase is the one the provider claims, or unknown when it claims none. */
  lemma {:induction false} PhaseIsClaimed(receiver: Option<ReceiverStatus>, at: Monotonic,
                                          data: Wire)
    ensures var phase := InterpretPlayerState(FieldsOf(data),
                                              ApplicationOf(receiver, at, data));
            forall other: ContentPhase :: !other.Unknown? ==>
              (phase == other <==> Claims(receiver, at, data, other))
  {
    hide MediaEvent, FieldsOf, Near, HasSession, NoBreakField, NoIdleReason, Choice, ReportsBreak;
    FieldsOfPlayer(data);
    StateIsSaid(data);
    FieldsOfProvider(data);
    ReasonIsGiven(data);
  }

  lemma {:induction false} ClaimsNeedStatus(receiver: Option<ReceiverStatus>, at: Monotonic,
                                            data: Wire, phase: ContentPhase)
    ensures Claims(receiver, at, data, phase) ==> Field(data, "status") != List([])
    ensures Field(data, "status") == List([]) ==> !ReportsBreak(data)
  {
    hide Near, HasSession, Consistent;
    NothingIsKnown();
  }

  lemma {:induction false} ProviderIsClaimed(s: State, base: PlaybackObservation, data: Wire)
    ensures var provider := Provider(s, base, FieldsOf(data));
            && (provider.Some? <==> Field(data, "status") != List([]))
            && (provider.Some? ==>
                  && provider.value.source == YOUTUBE_STATE_SOURCE
                  && forall phase: ContentPhase :: !phase.Unknown? ==>
                       (provider.value.phase == phase
                        <==> Claims(s.receiver, base.monotonic, data, phase)))
  {
    hide MediaEvent, FieldsOf, Correlated, Near, HasSession, Claims, InterpretPlayerState;
    NearIsCorrelated(s, base.monotonic);
    FieldsOfProvider(data);
    FieldsOfIdentity(data);
    PhaseIsClaimed(s.receiver, base.monotonic, data);
  }

  lemma {:induction false} AdIsShown(s: State, base: PlaybackObservation, data: Wire,
                                     urlVideo: Option<Id>)
    ensures ShowsAd(s.receiver, data, MediaObservation(s, base, FieldsOf(data), urlVideo))
  {
    hide MediaEvent, FieldsOf, VideoId, IsExplicit, Correlated, Near, Claims, Provider,
         ReportsBreak;
    FieldsOfPlayer(data);
    ProviderIsClaimed(s, base, data);
    forall phase {
      ClaimsNeedStatus(s.receiver, base.monotonic, data, phase);
    }
  }

  /** The observation of a media message shows the message and the receiver's newest status. */
  lemma {:induction false} MediaShows(s: State, base: PlaybackObservation, data: Wire,
                                      urlVideo: Option<Id>)
    requires base.sessionActive.None? && !base.connectionReset
    ensures Shows(s.receiver, data, urlVideo, MediaObservation(s, base, FieldsOf(data), urlVideo))
  {
    hide MediaEvent, FieldsOf, ShowsPlayer, ShowsIdentity, ShowsAd, ShowsUpdate;
    PlayerIsShown(s, base, data, urlVideo);
    IdentityIsShown(s, base, data, urlVideo);
    AdIsShown(s, base, data, urlVideo);
    UpdateIsShown(s, base, data, urlVideo);
  }

  // ---------------------------------------------------------------- every event of a batch

  /** A receiver status, as an observation of ownership only. */
  predicate ShowsReceiver(raw: RawEvent, o: PlaybackObservation)
    requires raw.Receiver?
  {
    && o.applicationId == raw.appId && o.sessionId == raw.appSessionId
    && (o.sessionActive == Some(true) <==> raw.appId.Some?)
    && (o.sessionActive == Some(false) <==> raw.appId.None?)
    && o.source == "receiver_status" && !o.connectionReset && ShowsNoMedia(o)
  }

  predicate ShowsNoMedia(o: PlaybackObservation) {
    && o.content.None? && o.playbackId.None? && o.state == PlayerState.Unknown
    && o.position.None? && o.duration.None? && o.adActive.None? && o.idleReason.None?
    && o.providerEvidence.None? && o.identityUpdate.Unknown? && o.pauseSupported.None?
  }

  /** A broken connection or a failure, which says nothing about the session. */
  predicate ShowsNothing(reset: bool, o: PlaybackObservation) {
    && o.connectionReset == reset && o.applicationId.None? && o.sessionId.None?
    && o.sessionActive.None? && ShowsNoMedia(o)
  }

  /** What the observation of an event says, given the newest status of the receiver. */
  ghost predicate Reports(receiver: Option<ReceiverStatus>, a: Arrival, o: PlaybackObservation) {
    match a.raw
    case Reset => ShowsNothing(true, o)
    case Failure(_) => ShowsNothing(false, o)
    case Receiver(_, _, _) => ShowsReceiver(a.raw, o)
    case Media(m) =>
      forall data: Wire :: m == FieldsOf(data) ==> Shows(receiver, data, a.urlVideo, o)
  }

  predicate Labeled(target: PlaybackTarget, generation: Id, a: Arrival, o: PlaybackObservation) {
    && o.target == target && o.connectionGeneration == generation
    && o.observedAt == a.observedAt && a.instant == Some(o.monotonic)
  }

  lemma {:induction false} OutcomeReports(s: State, target: PlaybackTarget, a: Arrival)
    requires Accepts(s.lastEventTime, a) && Outcome(s, target, a).Translated?
    ensures var o := Outcome(s, target, a).observation;
            Reports(s.receiver, a, o) && Labeled(target, s.generation, a, o)
  {
    hide Shows, MediaObservation, FieldsOf, Accepts;
    assert a.instant.Some? by { AcceptedHasInstant(s.lastEventTime, a); }
    MediaKeepsLabel(s, target, a);
    if a.raw.Media? {
      var u := s.(lastEventTime := a.instant, sequence := s.sequence + 1);
      var base := Base(u, target, a);
      forall data: Wire | a.raw.fields == FieldsOf(data)
        ensures Shows(s.receiver, data, a.urlVideo, Outcome(s, target, a).observation)
      {
        MediaShows(u, base, data, a.urlVideo);
      }
    }
  }

  lemma {:induction false} AcceptedHasInstant(last: Option<Monotonic>, a: Arrival)
    requires Accepts(last, a)
    ensures a.instant.Some?
  {
  }

  lemma {:induction false} MediaKeepsLabel(s: State, target: PlaybackTarget, a: Arrival)
    requires a.instant.Some?
    ensures a.raw.Media? ==>
      var u := s.(lastEventTime := a.instant, sequence := s.sequence + 1);
      Labeled(target, s.generation, a,
              MediaObservation(u, Base(u, target, a), a.raw.fields, a.urlVideo))
  {
    hide VideoId, Provider, AdState, IsExplicit;
  }

  // ---------------------------------------------------------------- which event a message becomes

  /** The message is a status of the receiver that answers the pending poll in time. */
  predicate Answers(pending: Option<Poll>, data: Wire, at: Monotonic) {
    && pending.Some? && at < pending.value.deadline
    && pending.value.requestId.Some? && pending.value.requestId.value > 0
    && Says(data, "type", "RECEIVER_STATUS")
    && Field(data, "requestId") == Integer(pending.value.requestId.value)
  }

  /** The first application of a receiver status, which has an identity and a session. */
  predicate Runs(data: Wire, appId: Id, sessionId: Id) {
    var status := Field(data, "status");
    var app := First(Field(status, "applications"));
    && Says(data, "type", "RECEIVER_STATUS") && status.Object?
    && Says(app, "appId", appId) && appId != ""
    && Says(app, "sessionId", sessionId) && sessionId != ""
  }

  /** All the metadata of an idle receiver, and no applications. */
  predicate IdleStatus(status: Wire) {
    && Absent(status, "applications")
    && Field(status, "userEq").Object?
    && SecondsOf(Field(Field(status, "volume"), "level")).Some?
    && SecondsOf(Field(Field(status, "volume"), "level")).value <= 1.0
    && Field(Field(status, "volume"), "muted").Bool?
    && (Absent(status, "isActiveInput") || Field(status, "isActiveInput").Bool?)
    && (Absent(status, "isStandBy") || Field(status, "isStandBy").Bool?)
  }

  /** The answer to a poll that no application is running. */
  predicate RunsNothing(pending: Option<Poll>, data: Wire, at: Monotonic) {
    var status := Field(data, "status");
    && Answers(pending, data, at) && status.Object?
    && (Field(status, "applications") == List([]) || IdleStatus(status))
  }

  lemma {:induction false} MatchedAnswers(pending: Option<Poll>, data: Wire, at: Monotonic)
    ensures var (rest, requestId) := Matched(pending, data, at);
            && (requestId.Some? <==> Answers(pending, data, at))
            && (requestId.Some? ==> requestId == pending.value.requestId)
            && rest == (if pending.Some? && at < pending.value.deadline
                           && !Answers(pending, data, at) then pending else None)
  {
  }

  lemma {:induction false} IdleIsSolicited(pending: Option<Poll>, data: Wire, at: Monotonic)
    requires Field(data, "status").Object?
    ensures Answers(pending, data, at) ==>
      (SolicitedIdle(data, pending.value.requestId) <==> IdleStatus(Field(data, "status")))
    ensures !SolicitedIdle(data, None)
  {
    hide SecondsOf;
  }

  lemma {:induction false} ReceiverBecomes(data: Wire, requestId: Option<int>)
    requires Says(data, "type", "RECEIVER_STATUS")
    ensures var event := ReceiverEvent(data, requestId);
            var status := Field(data, "status");
            && (event.Receiver? || event == Failure(InvalidReceiverStatus))
            && (forall app: Id, session: Id ::
                  (event.Receiver? && event.appId == Some(app)
                   && event.appSessionId == Some(session))
                  <==> Runs(data, app, session))
            && (event.Receiver? && event.appId.Some? ==> event.appSessionId.Some?)
            && (event.Receiver? && event.appId.None?
                <==> status.Object?
                     && (Field(status, "applications") == List([])
                         || (!Field(status, "applications").List?
                             && SolicitedIdle(data, requestId))))
  {
    hide SolicitedIdle;
  }

  lemma {:induction false} NothingRuns(pending: Option<Poll>, data: Wire, at: Monotonic)
    requires Says(data, "type", "RECEIVER_STATUS")
    ensures var requestId := Matched(pending, data, at).1;
            var event := ReceiverEvent(data, requestId);
            (requestId.Some? && event.Receiver? && event.appId.None?
             <==> RunsNothing(pending, data, at))
  {
    hide ReceiverEvent, Matched, SolicitedIdle, Answers;
    MatchedAnswers(pending, data, at);
    ReceiverBecomes(data, Matched(pending, data, at).1);
    if Field(data, "status").Object? {
      IdleIsSolicited(pending, data, at);
    }
  }

  lemma {:induction false} ReceiverMessage(pending: Option<Poll>, data: Wire, at: Monotonic)
    requires Says(data, "type", "RECEIVER_STATUS")
    ensures var event := Received(pending, data, at).1;
            && event.Some? && (event.value.Receiver? || event == Some(Failure(InvalidReceiverStatus)))
            && (forall app: Id, session: Id ::
                  (&& event.value.Receiver?
                   && event.value.appId == Some(app) && event.value.appSessionId == Some(session))
                  <==> Runs(data, app, session))
            && (event.value.Receiver? && event.value.appId.Some? ==>
                  event.value.appSessionId.Some?)
            && (event.value.Receiver? && event.value.appId.None?
                <==> RunsNothing(pending, data, at))
  {
    hide MediaEvent, ReceiverEvent, Matched, SolicitedIdle, RunsNothing, Runs;
    var requestId := Matched(pending, data, at).1;
    NothingRuns(pending, data, at);
    ReceiverBecomes(data, requestId);
  }

  lemma {:induction false} ReceiverSays(pending: Option<Poll>, data: Wire, at: Monotonic)
    ensures RunsNothing(pending, data, at) ==> Says(data, "type", "RECEIVER_STATUS")
    ensures forall app: Id, session: Id ::
      Runs(data, app, session) ==> Says(data, "type", "RECEIVER_STATUS")
  {
    hide IdleStatus;
  }

  /** What a message becomes, given the poll that is pending, and what is left of the poll. */
  lemma {:induction false} MessageBecomes(pending: Option<Poll>, data: Wire, at: Monotonic)
    ensures var (rest, event) := Received(pending, data, at);
            && (event.Some? && event.value.Media? <==> Says(data, "type", "MEDIA_STATUS"))
            && (event.Some? && event.value.Media? ==> event.value.fields == FieldsOf(data))
            && (event == Some(Failure(LoadFailed)) <==> Says(data, "type", "LOAD_FAILED"))
            && (event == Some(Failure(LaunchError)) <==> Says(data, "type", "LAUNCH_ERROR"))
            && (forall app: Id, session: Id ::
                  (&& event.Some? && event.value.Receiver?
                   && event.value.appId == Some(app) && event.value.appSessionId == Some(session))
                  <==> Runs(data, app, session))
            && (event.Some? && event.value.Receiver? && event.value.appId.None?
                <==> RunsNothing(pending, data, at))
            && (event == Some(Failure(InvalidReceiverStatus))
                <==> && Says(data, "type", "RECEIVER_STATUS") && !RunsNothing(pending, data, at)
                     && forall app: Id, session: Id :: !Runs(data, app, session))
            && event != Some(Reset)
            && rest == (if pending.Some? && at < pending.value.deadline
                           && !Answers(pending, data, at) then pending else None)
  {
    hide MediaEvent, ReceiverEvent, Matched, SolicitedIdle, RunsNothing, Runs, Answers;
    MatchedAnswers(pending, data, at);
    ReceiverSays(pending, data, at);
    if Says(data, "type", "RECEIVER_STATUS") {
      ReceiverMessage(pending, data, at);
    } else {
      MediaIsWellFormed(data);
    }
  }

  // ---------------------------------------------------------------- the newest status

  /** What the backend knows of the receiver is forgotten or replaced. */
  predicate ChangesStatus(raw: RawEvent) {
    raw.Reset? || raw.Receiver? || (raw.Failure? && raw.kind.InvalidReceiverStatus?)
  }

  /** Among the first `k` events, event `i` is the status of the receiver that still stands. */
  predicate StatusAt(accepted: seq<Arrival>, k: nat, i: nat) {
    && i < k <= |accepted| && accepted[i].raw.Receiver? && accepted[i].instant.Some?
    && forall j :: i < j < k ==> !ChangesStatus(accepted[j].raw)
  }

  function StatusFrom(a: Arrival): ReceiverStatus
    requires a.raw.Receiver? && a.instant.Some?
  {
    ReceiverStatus(a.raw.appId, a.raw.appSessionId, a.raw.appName, a.instant.value)
  }

  predicate Stands(accepted: seq<Arrival>, k: nat, receiver: Option<ReceiverStatus>) {
    match receiver
    case None => forall i: nat :: i < k ==> !StatusAt(accepted, k, i)
    case Some(r) => exists i: nat :: i < k && StatusAt(accepted, k, i) && StatusFrom(accepted[i]) == r
  }

  /** The generation that the last reset among the first `k` events has begun. */
  predicate InGeneration(first: Id, accepted: seq<Arrival>, k: nat, generation: Id)
    requires k <= |accepted|
  {
    || (generation == first && forall j :: 0 <= j < k ==> !accepted[j].raw.Reset?)
    || exists i :: 0 <= i < k && accepted[i].raw.Reset? && accepted[i].nextGeneration == generation
         && forall j :: i < j < k ==> !accepted[j].raw.Reset?
  }

  /** Observation `k` of a life is what event `k` reports. */
  ghost predicate ReportedAt(target: PlaybackTarget, first: Id, accepted: seq<Arrival>, k: nat,
                             o: PlaybackObservation)
    requires k < |accepted|
  {
    && (exists generation: Id :: InGeneration(first, accepted, k, generation)
          && Labeled(target, generation, accepted[k], o))
    && (exists receiver :: Stands(accepted, k, receiver) && Reports(receiver, accepted[k], o))
  }

  lemma {:induction false} StatusExtends(accepted: seq<Arrival>, a: Arrival,
                                         receiver: Option<ReceiverStatus>)
    requires Stands(accepted, |accepted|, receiver) && a.instant.Some?
    ensures Stands(accepted + [a], |accepted|, receiver)
    ensures !ChangesStatus(a.raw) ==> Stands(accepted + [a], |accepted| + 1, receiver)
    ensures a.raw.Receiver? ==> Stands(accepted + [a], |accepted| + 1, Some(StatusFrom(a)))
    ensures a.raw.Reset? || (a.raw.Failure? && a.raw.kind.InvalidReceiverStatus?) ==>
      Stands(accepted + [a], |accepted| + 1, None)
  {
    hide ChangesStatus;
    var n, all := |accepted|, accepted + [a];
    assert ChangesStatus(a.raw) <==>
      a.raw.Reset? || a.raw.Receiver? || (a.raw.Failure? && a.raw.kind.InvalidReceiverStatus?)
    by { ChangesMeans(a.raw); }
    assert forall j :: 0 <= j < n ==> all[j] == accepted[j];
    assert all[n] == a;
    forall i: nat | i < n
      ensures StatusAt(all, n, i) <==> StatusAt(accepted, n, i)
      ensures StatusAt(all, n + 1, i) <==> StatusAt(accepted, n, i) && !ChangesStatus(a.raw)
    {
    }
    if receiver.Some? {
      var i: nat :| i < n && StatusAt(accepted, n, i) && StatusFrom(accepted[i]) == receiver.value;
      assert StatusAt(all, n, i) && all[i] == accepted[i];
      if !ChangesStatus(a.raw) {
        assert StatusAt(all, n + 1, i);
      }
    } else if !ChangesStatus(a.raw) {
      var m := n + 1;
      forall i: nat | i < m ensures !StatusAt(all, m, i) {
        assert i < n ==> !StatusAt(accepted, n, i);
      }
    }
    if a.raw.Receiver? {
      assert StatusAt(all, n + 1, n);
    }
  }

  lemma {:induction false} ChangesMeans(raw: RawEvent)
    ensures ChangesStatus(raw)
        <==> raw.Reset? || raw.Receiver? || (raw.Failure? && raw.kind.InvalidReceiverStatus?)
  {
  }

  lemma {:induction false} GenerationExtends(first: Id, accepted: seq<Arrival>, a: Arrival,
                                             generation: Id)
    requires InGeneration(first, accepted, |accepted|, generation)
    ensures InGeneration(first, accepted + [a], |accepted|, generation)
    ensures InGeneration(first, accepted + [a], |accepted| + 1,
                         if a.raw.Reset? then a.nextGeneration else generation)
  {
    var n, all := |accepted|, accepted + [a];
    assert forall j :: 0 <= j < n ==> all[j] == accepted[j];
    assert all[n] == a;
    if exists i :: 0 <= i < n && accepted[i].raw.Reset? && accepted[i].nextGeneration == generation
         && forall j :: i < j < n ==> !accepted[j].raw.Reset?
    {
      var i :| 0 <= i < n && accepted[i].raw.Reset? && accepted[i].nextGeneration == generation
        && forall j :: i < j < n ==> !accepted[j].raw.Reset?;
      assert all[i].raw.Reset? && all[i].nextGeneration == generation;
    }
  }

  lemma {:induction false} OutcomeKnows(s: State, target: PlaybackTarget, a: Arrival)
    requires Ordered(s) && Accepts(s.lastEventTime, a) && a.raw.WellFormed()
    ensures a.instant.Some?
    ensures var t := Outcome(s, target, a);
            && t.Translated?
            && t.state.generation == (if a.raw.Reset? then a.nextGeneration else s.generation)
            && t.state.receiver
               == (if a.raw.Receiver? then Some(StatusFrom(a))
                   else if ChangesStatus(a.raw) then None else s.receiver)
  {
    hide MediaObservation;
    NeverDropped(s, target, a);
  }

  /** What holds after a batch in which nothing raised. */
  ghost predicate Told(target: PlaybackTarget, first: Id, accepted: seq<Arrival>,
                       n: Normalization) {
    && |n.result| == |accepted|
    && InGeneration(first, accepted, |accepted|, n.state.generation)
    && Stands(accepted, |accepted|, n.state.receiver)
    && forall k :: 0 <= k < |accepted| ==> ReportedAt(target, first, accepted, k, n.result[k])
  }

  lemma {:induction false} ReportedExtends(target: PlaybackTarget, first: Id,
                                           accepted: seq<Arrival>, a: Arrival, k: nat,
                                           o: PlaybackObservation)
    requires k < |accepted| && ReportedAt(target, first, accepted, k, o)
    ensures ReportedAt(target, first, accepted + [a], k, o)
  {
    hide Reports, Labeled, ChangesStatus;
    var all := accepted + [a];
    assert all[k] == accepted[k] && forall j :: 0 <= j < k ==> all[j] == accepted[j];
    var generation: Id :| InGeneration(first, accepted, k, generation)
      && Labeled(target, generation, accepted[k], o);
    assert InGeneration(first, all, k, generation);
    var receiver :| Stands(accepted, k, receiver) && Reports(receiver, accepted[k], o);
    forall i: nat | i < k ensures StatusAt(all, k, i) <==> StatusAt(accepted, k, i) {
    }
    if receiver.Some? {
      var i: nat :| i < k && StatusAt(accepted, k, i) && StatusFrom(accepted[i]) == receiver.value;
      assert StatusAt(all, k, i) && all[i] == accepted[i];
    }
    assert Stands(all, k, receiver);
  }

  /** One more accepted event. */
  lemma {:induction false} ToldExtends(readOnly: bool, target: PlaybackTarget, first: Id,
                                       accepted: seq<Arrival>, n: Normalization, a: Arrival)
    requires Told(target, first, accepted, n) && Ordered(n.state)
    requires Accepts(n.state.lastEventTime, a) && a.raw.WellFormed()
    ensures Told(target, first, accepted + [a], NormalizedOne(readOnly, target, n, a))
  {
    hide Outcome, Accepts, Ordered, Stands, InGeneration, Reports, Labeled, ReportedAt,
         ChangesStatus, IdentityHistory.Remembered;
    OutcomeKnows(n.state, target, a);
    OutcomeReports(n.state, target, a);
    ChangesMeans(a.raw);
    StatusExtends(accepted, a, n.state.receiver);
    GenerationExtends(first, accepted, a, n.state.generation);
    var o := Outcome(n.state, target, a).observation;
    var all := accepted + [a];
    forall k | 0 <= k < |accepted| ensures ReportedAt(target, first, all, k, n.result[k]) {
      ReportedExtends(target, first, accepted, a, k, n.result[k]);
    }
    assert ReportedAt(target, first, all, |accepted|, o) by {
      LastReported(target, first, all, n.state, o);
    }
  }

  lemma {:induction false} LastReported(target: PlaybackTarget, first: Id, all: seq<Arrival>,
                                        s: State, o: PlaybackObservation)
    requires all != []
    requires InGeneration(first, all, |all| - 1, s.generation)
    requires Stands(all, |all| - 1, s.receiver)
    requires Reports(s.receiver, all[|all| - 1], o)
    requires Labeled(target, s.generation, all[|all| - 1], o)
    ensures ReportedAt(target, first, all, |all| - 1, o)
  {
    hide Reports, Labeled, Stands, InGeneration;
  }

  lemma {:induction false} BatchTold(readOnly: bool, target: PlaybackTarget,
                                     generation: Generation, arrivals: seq<Arrival>)
    requires AllDelivered(arrivals)
    ensures var n := Normalized(readOnly, target, Started(generation), arrivals);
            && !n.raised && Ordered(n.state)
            && n.state.lastEventTime == LastInstant(None, AcceptedArrivals(None, arrivals))
            && Told(target, generation, AcceptedArrivals(None, arrivals), n)
    decreases |arrivals|
  {
    hide NumbersFrom, AllWellFormed, Accepts, Told, NormalizedOne, Delivered, Ordered;
    var s := Started(generation);
    assert Ordered(s) by { StartedIsOrdered(generation); }
    DeliveredNeverRaises(readOnly, target, s, arrivals);
    BatchIsNumbered(readOnly, target, s, arrivals);
    if arrivals == [] {
      NothingTold(target, generation, s);
    } else {
      var front, a := arrivals[..|arrivals| - 1], arrivals[|arrivals| - 1];
      BatchTold(readOnly, target, generation, front);
      var n := Normalized(readOnly, target, s, front);
      if Accepts(n.state.lastEventTime, a) {
        assert Delivered(arrivals[|arrivals| - 1].raw);
        DeliveredIsWellFormed(a.raw);
        ToldExtends(readOnly, target, generation, AcceptedArrivals(None, front), n, a);
      } else {
        SkipsUnaccepted(readOnly, target, n, a);
      }
    }
  }

  lemma {:induction false} StartedIsOrdered(generation: Generation)
    ensures Ordered(Started(generation))
  {
  }

  lemma {:induction false} NothingTold(target: PlaybackTarget, first: Id, s: State)
    requires s.generation == first && s.receiver.None?
    ensures Told(target, first, [], Normalization(s, [], false))
  {
  }

  /** Over the whole life of a backend, whatever the connection delivers in whatever calls:
      observation `k` shows the message of accepted event `k`, the newest status of the receiver
      that still stood then, and the generation of the last reset before it. */
  lemma {:induction false} LifeReports(readOnly: bool, target: PlaybackTarget,
                                       generation: Generation, calls: seq<seq<Arrival>>, k: nat)
    requires AllDelivered(Flattened(calls))
    requires k < |AcceptedArrivals(None, Flattened(calls))|
    ensures var life := Lived(readOnly, target, Started(generation), calls);
            var accepted := AcceptedArrivals(None, Flattened(calls));
            && |life.observations| == |accepted|
            && ReportedAt(target, generation, accepted, k, life.observations[k])
  {
    hide Normalized, Delivered, AcceptedArrivals, ReportedAt, Ordered, Stands, InGeneration, Lived;
    StartedIsOrdered(generation);
    CallsCompose(readOnly, target, Started(generation), calls);
    BatchTold(readOnly, target, generation, Flattened(calls));
  }

  // ---------------------------------------------------------------- which events are accepted

  /** A finite instant that is not in the future. */
  predicate Dated(a: Arrival) {
    a.instant.Some? && a.instant.value <= a.clock
  }

  predicate Later(x: Arrival, y: Arrival) {
    x.instant.Some? && y.instant.Some? && x.instant.value < y.instant.value
  }

  predicate Rising(accepted: seq<Arrival>) {
    && (forall k :: 0 <= k < |accepted| ==> Dated(accepted[k]))
    && (forall j, k :: 0 <= j < k < |accepted| ==> Later(accepted[j], accepted[k]))
  }

  /** An event is accepted exactly when it is dated and later than everything accepted before. */
  lemma {:induction false} AcceptsExactly(arrivals: seq<Arrival>, a: Arrival)
    ensures var before := AcceptedArrivals(None, arrivals);
            && Rising(before)
            && AcceptedArrivals(None, arrivals + [a])
               == if Dated(a) && forall k :: 0 <= k < |before| ==> Later(before[k], a)
                  then before + [a] else before
  {
    hide Rising;
    assert (arrivals + [a])[..|arrivals|] == arrivals;
    AcceptedRise(arrivals);
    LatestDecides(AcceptedArrivals(None, arrivals), a);
  }

  /** Being later than the last accepted event is being later than all of them. */
  lemma {:induction false} LatestDecides(before: seq<Arrival>, a: Arrival)
    requires Rising(before)
    ensures Accepts(LastInstant(None, before), a)
        <==> Dated(a) && forall k :: 0 <= k < |before| ==> Later(before[k], a)
    ensures Accepts(LastInstant(None, before), a) ==> Rising(before + [a])
  {
    if Accepts(LastInstant(None, before), a) {
      forall k | 0 <= k < |before| ensures Later(before[k], a) {
        assert k < |before| - 1 ==> Later(before[k], before[|before| - 1]);
        assert Dated(before[|before| - 1]);
      }
    }
    if before != [] && Dated(a) && forall k :: 0 <= k < |before| ==> Later(before[k], a) {
      assert Later(before[|before| - 1], a);
    }
  }

  lemma {:induction false} AcceptedRise(arrivals: seq<Arrival>)
    ensures Rising(AcceptedArrivals(None, arrivals))
    decreases |arrivals|
  {
    hide Rising, Accepts;
    if arrivals == [] {
      assert Rising([]) by { NothingRises(); }
    } else {
      AcceptedRise(arrivals[..|arrivals| - 1]);
      LatestDecides(AcceptedArrivals(None, arrivals[..|arrivals| - 1]), arrivals[|arrivals| - 1]);
    }
  }

  lemma {:induction false} NothingRises()
    ensures Rising([])
  {
  }
}
