/** The Cast adapter: raw events become numbered observations, and the identities they name are
    remembered in compacted form. */
module CastBackend {
  import opened Values
  import opened CastMessages
  import opened IdentityHistory
  import M = MetadataStructure
  import Notation = DecisionMaterial

  const YOUTUBE_STATE_SOURCE := "youtube.remote.4fd832e7:status.customData.playerState"

  /** A fresh random identity, which is never empty. */
  type Generation = id: Id | id != "" witness "0"

  /** A raw event with its instant (if it has a finite one), the clock and calendar at the time it
      is looked at, the generation that a reset would start, and the video that its content names
      if that is a URL. */
  datatype Arrival = Arrival(
    raw: RawEvent, instant: Option<Monotonic>, clock: Monotonic, observedAt: Instant,
    nextGeneration: Generation, urlVideo: Option<Id>)

  datatype ReceiverStatus = ReceiverStatus(
    appId: Option<Id>, appSessionId: Option<Id>, appName: Option<Id>, monotonic: Monotonic)

  datatype State = State(
    generation: Generation, sequence: nat, lastEventTime: Option<Monotonic>,
    receiver: Option<ReceiverStatus>, media: Option<PlaybackObservation>,
    identities: seq<PlaybackObservation>)

  datatype Translation =
    | Translated(state: State, observation: PlaybackObservation)
    | Dropped(state: State)
    | Raised(state: State)

  function Base(s: State, target: PlaybackTarget, a: Arrival): PlaybackObservation
    requires a.instant.Some?
  {
    PlaybackObservation(target, s.generation, s.sequence, a.observedAt, a.instant.value, None, None,
      PlayerState.Unknown, None, None, None, None, "receiver", None, None, None, false, None,
      IdentityUpdate.Unknown, None)
  }

  predicate Correlated(s: State, at: Monotonic) {
    s.receiver.Some? && Fresh(at, s.receiver.value.monotonic, 5.0)
  }

  // ---------------------------------------------------------------- media fields

  predicate IsUrl(contentId: string) {
    exists k :: 0 <= k < |contentId| - 2
      && contentId[k] == ':' && contentId[k + 1] == '/' && contentId[k + 2] == '/'
  }

  /** The video that a content identity names: itself, unless it is a URL. */
  function VideoId(contentId: Option<string>, urlVideo: Option<Id>): Option<Id> {
    if contentId.None? || contentId.value == "" then None
    else if IsUrl(contentId.value) then urlVideo
    else contentId
  }

  function StateOf(playerState: Option<string>): PlayerState {
    if playerState == Some("PLAYING") then PlayerState.Playing
    else if playerState == Some("PAUSED") then PlayerState.Paused
    else if playerState == Some("BUFFERING") then PlayerState.Buffering
    else if playerState == Some("IDLE") then PlayerState.Idle
    else PlayerState.Unknown
  }

  function ReasonOf(idleReason: Option<string>): Option<IdleReason> {
    if idleReason == Some("FINISHED") then Some(IdleReason.Finished)
    else if idleReason == Some("CANCELLED") || idleReason == Some("CANCELED") then Some(Canceled)
    else if idleReason == Some("ERROR") then Some(IdleReason.Error)
    else None
  }

  /** The standard player state that a reviewed code must agree with, and the phase it means. */
  function ReviewedState(code: int): Option<(string, ContentPhase)> {
    match code
    case 0 => Some(("IDLE", ContentPhase.Finished))
    case 1 => Some(("PLAYING", ContentPhase.Playing))
    case 2 => Some(("PAUSED", ContentPhase.Paused))
    case 3 => Some(("BUFFERING", ContentPhase.Buffering))
    case _ => None
  }

  /** A reviewed code of the YouTube receiver, consistent with the standard fields. */
  function InterpretPlayerState(m: MediaFields, applicationId: Option<Id>): ContentPhase {
    if || applicationId != Some(YOUTUBE_APPLICATION_ID) || m.statusCount != Some(1)
       || m.customShape != Some(M.Valid) || m.customState.None?
    then ContentPhase.Unknown
    else
      var code := m.customState.value;
      var expected := ReviewedState(code);
      if 1080 <= code < 1086 then ContentPhase.Ad
      else if && expected.Some? && m.playerState == Some(expected.value.0)
              && m.idleReason == (if code == 0 then Some("FINISHED") else None)
              && m.breakStatus == Some(M.Absent) && m.adBreak != Some(true)
      then expected.value.1
      else ContentPhase.Unknown
  }

  function Provider(s: State, base: PlaybackObservation, m: MediaFields): Option<ProviderEvidence> {
    if m.customShape.None? then None
    else
      var applicationId := if Correlated(s, base.monotonic) && m.mediaSessionId.Some?
                           then s.receiver.value.appId else None;
      Some(ProviderEvidence(YOUTUBE_STATE_SOURCE, InterpretPlayerState(m, applicationId)))
  }

  /** Whether an ad plays: a decoded phase decides, except that an unknown one only keeps a
      positive report. */
  function AdState(reported: Option<bool>, provider: Option<ProviderEvidence>): Option<bool> {
    if provider.None? then reported
    else if provider.value.phase.Ad? then Some(true)
    else if !provider.value.phase.Unknown? then Some(false)
    else if reported != Some(true) then None
    else reported
  }

  /** The media fields themselves carried the identity, directly or in the extended status. */
  predicate IsExplicit(m: MediaFields) {
    || (m.media == Some(M.Valid) && m.mediaContentId == Some(M.Valid))
    || (m.media == Some(M.Absent) && m.extendedStatus == Some(M.Valid)
        && m.extendedMedia == Some(M.Valid) && m.extendedContentId == Some(M.Valid))
  }

  function MediaObservation(s: State, base: PlaybackObservation, m: MediaFields,
                            urlVideo: Option<Id>): PlaybackObservation
  {
    var correlated := Correlated(s, base.monotonic);
    var video := VideoId(m.contentId, urlVideo);
    var content :=
      if && video.Some? && video.value != "" && correlated
         && s.receiver.value.appName == Some("YouTube") && m.mediaSessionId.Some?
      then Some(ContentRef("youtube", video.value, Video)) else None;
    var provider := Provider(s, base, m);
    base.(
      sessionId := if correlated then s.receiver.value.appSessionId else None,
      applicationId := if correlated then s.receiver.value.appId else None,
      content := content,
      playbackId := if m.mediaSessionId.Some? then Some(Notation.Str(m.mediaSessionId.value))
                    else None,
      state := StateOf(m.playerState), position := m.position, duration := m.duration,
      adActive := AdState(m.adBreak, provider),
      identityUpdate := if content.Some? && IsExplicit(m) then IdentityUpdate.Explicit
                        else if m.media == m.extendedStatus == Some(M.Absent) then Omitted
                        else IdentityUpdate.Unknown,
      providerEvidence := provider, pauseSupported := m.pauseSupported,
      idleReason := ReasonOf(m.idleReason), source := "cast_media")
  }

  // ---------------------------------------------------------------- events

  /** One event; an observation that its constructor refuses raises, after what was stored. */
  function Translate(s: State, base: PlaybackObservation, a: Arrival): Translation {
    match a.raw
    case Reset =>
      Translated(s.(generation := a.nextGeneration, receiver := None, media := None,
                    identities := []),
                 base.(connectionReset := true))
    case Receiver(appId, appSessionId, appName) =>
      if s.receiver.Some? && base.monotonic <= s.receiver.value.monotonic then Dropped(s)
      else
        var same := s.receiver.Some? && s.receiver.value.appId == appId
          && s.receiver.value.appSessionId == appSessionId;
        var t := s.(receiver := Some(ReceiverStatus(appId, appSessionId, appName, base.monotonic)),
                    media := if same then s.media else None);
        var o := base.(sessionId := appSessionId, applicationId := appId,
                       sessionActive := Some(appId.Some?), source := "receiver_status");
        if o.WellFormed() then Translated(t, o) else Raised(t)
    case Media(m) =>
      var o := MediaObservation(s, base, m, a.urlVideo);
      if !o.WellFormed() then Raised(s)
      else if s.media.Some? && o.monotonic <= s.media.value.monotonic then Dropped(s)
      else Translated(s.(media := Some(o)), o)
    case Failure(kind) =>
      Translated(if kind.InvalidReceiverStatus? then s.(receiver := None) else s, base)
  }

  /** The event has a finite instant, not in the future, after every event so far. */
  predicate Accepts(last: Option<Monotonic>, a: Arrival) {
    && a.instant.Some?
    && a.clock - a.instant.value >= 0.0
    && (last.Some? ==> a.instant.value > last.value)
  }

  /** An accepted event takes the next number, whatever becomes of it. */
  function Outcome(s: State, target: PlaybackTarget, a: Arrival): Translation
    requires Accepts(s.lastEventTime, a)
  {
    var u := s.(lastEventTime := a.instant, sequence := s.sequence + 1);
    Translate(u, Base(u, target, a), a)
  }

  /** What normalizing a batch leaves: the state, the observations so far, and whether it raised. */
  datatype Normalization = Normalization(
    state: State, result: seq<PlaybackObservation>, raised: bool)

  function NormalizedOne(readOnly: bool, target: PlaybackTarget, n: Normalization, a: Arrival)
    : Normalization
  {
    if !Accepts(n.state.lastEventTime, a) then n
    else
      match Outcome(n.state, target, a)
      case Dropped(t) => n.(state := t)
      case Raised(t) => n.(state := t, raised := true)
      case Translated(t, o) =>
        n.(state := if readOnly then t else t.(identities := Remembered(t.identities, o)),
           result := n.result + [o])
  }

  function Normalized(readOnly: bool, target: PlaybackTarget, s: State, arrivals: seq<Arrival>)
    : Normalization
  {
    if arrivals == [] then Normalization(s, [], false)
    else
      var before := Normalized(readOnly, target, s, arrivals[..|arrivals| - 1]);
      if before.raised then before
      else NormalizedOne(readOnly, target, before, arrivals[|arrivals| - 1])
  }

  function Started(generation: Generation): State {
    State(generation, 0, None, None, None, [])
  }

  // ---------------------------------------------------------------- gap-free numbering

  /** The accepted arrivals: a question of times only. */
  function AcceptedArrivals(last: Option<Monotonic>, arrivals: seq<Arrival>): seq<Arrival> {
    if arrivals == [] then []
    else
      var before := AcceptedArrivals(last, arrivals[..|arrivals| - 1]);
      var a := arrivals[|arrivals| - 1];
      if Accepts(LastInstant(last, before), a) then before + [a] else before
  }

  /** Nothing remembered is newer than the last event. */
  predicate Ordered(s: State) {
    && (s.receiver.Some? ==>
          s.lastEventTime.Some? && s.receiver.value.monotonic <= s.lastEventTime.value)
    && (s.media.Some? ==>
          s.lastEventTime.Some? && s.media.value.monotonic <= s.lastEventTime.value)
  }

  /** One observation for each of these arrivals, numbered on from the state, in their order. */
  predicate NumbersFrom(s: State, accepted: seq<Arrival>, result: seq<PlaybackObservation>) {
    && |result| == |accepted|
    && (forall k :: 0 <= k < |result| ==>
          && result[k].sequence == s.sequence + 1 + k
          && accepted[k].instant == Some(result[k].monotonic))
    && (forall k :: 0 < k < |result| ==> result[k - 1].monotonic < result[k].monotonic)
    && (result != [] && s.lastEventTime.Some? ==> s.lastEventTime.value < result[0].monotonic)
  }

  predicate AllWellFormed(accepted: seq<Arrival>) {
    forall k :: 0 <= k < |accepted| ==> accepted[k].raw.WellFormed()
  }

  function LastInstant(last: Option<Monotonic>, accepted: seq<Arrival>): Option<Monotonic> {
    if accepted == [] then last else accepted[|accepted| - 1].instant
  }

  /** An accepted event is never dropped for being older than what is cached: it yields its
      observation, or raises because it is ill-formed. */
  lemma {:induction false} NeverDropped(s: State, target: PlaybackTarget, a: Arrival)
    requires Ordered(s) && Accepts(s.lastEventTime, a)
    ensures var t := Outcome(s, target, a);
            && (t.Translated? <==> a.raw.WellFormed()) && (t.Raised? <==> !a.raw.WellFormed())
            && Ordered(t.state) && t.state.sequence == s.sequence + 1
            && t.state.lastEventTime == a.instant
            && (t.Translated? ==>
                  t.observation.sequence == s.sequence + 1
                  && t.observation.monotonic == a.instant.value)
  {
  }

  /** Over every batch of any transport: exactly one observation per accepted event, numbered
      without a gap and with strictly increasing times, unless an ill-formed event raises, which
      loses the rest of the batch and exactly its own number. */
  lemma {:induction false} BatchIsNumbered(readOnly: bool, target: PlaybackTarget, s: State,
                                              arrivals: seq<Arrival>)
    requires Ordered(s)
    ensures var n := Normalized(readOnly, target, s, arrivals);
            var accepted := AcceptedArrivals(s.lastEventTime, arrivals);
            && Ordered(n.state)
            && (n.raised <==> !AllWellFormed(accepted))
            && |n.result| <= |accepted|
            && NumbersFrom(s, accepted[..|n.result|], n.result)
            && n.state.sequence == s.sequence + |n.result| + (if n.raised then 1 else 0)
            && (!n.raised ==>
                  |n.result| == |accepted|
                  && n.state.lastEventTime == LastInstant(s.lastEventTime, accepted))
    decreases |arrivals|
  {
    hide Translate, Ordered, Base, Accepts, NumbersFrom, AllWellFormed, NormalizedOne;
    if arrivals == [] {
      NothingNumbered(s);
    } else {
      var front, a := arrivals[..|arrivals| - 1], arrivals[|arrivals| - 1];
      BatchIsNumbered(readOnly, target, s, front);
      var n := Normalized(readOnly, target, s, front);
      var accepted := AcceptedArrivals(s.lastEventTime, front);
      AllWellFormedAppends(accepted, a);
      if n.raised {
        assert (accepted + [a])[..|n.result|] == accepted[..|n.result|];
      } else {
        assert accepted[..|n.result|] == accepted;
        if Accepts(n.state.lastEventTime, a) {
          OneMore(readOnly, target, s, n, accepted, a);
          assert (accepted + [a])[..|accepted| + 1] == accepted + [a];
          assert (accepted + [a])[..|accepted|] == accepted;
        } else {
          SkipsUnaccepted(readOnly, target, n, a);
        }
      }
    }
  }

  lemma {:induction false} NothingNumbered(s: State)
    ensures NumbersFrom(s, [], []) && AllWellFormed([])
  {
  }

  lemma {:induction false} AllWellFormedAppends(accepted: seq<Arrival>, a: Arrival)
    ensures AllWellFormed(accepted + [a]) <==> AllWellFormed(accepted) && a.raw.WellFormed()
  {
    var all := accepted + [a];
    assert all[|accepted|] == a;
    assert forall k :: 0 <= k < |accepted| ==> all[k] == accepted[k];
  }

  lemma {:induction false} SkipsUnaccepted(readOnly: bool, target: PlaybackTarget, n: Normalization,
                                           a: Arrival)
    requires !Accepts(n.state.lastEventTime, a)
    ensures NormalizedOne(readOnly, target, n, a) == n
  {
  }

  /** Numbering goes on by one. */
  lemma {:induction false} NumbersOn(s: State, accepted: seq<Arrival>,
                                     result: seq<PlaybackObservation>, a: Arrival,
                                     o: PlaybackObservation)
    requires NumbersFrom(s, accepted, result)
    requires o.sequence == s.sequence + |result| + 1 && a.instant == Some(o.monotonic)
    requires Accepts(LastInstant(s.lastEventTime, accepted), a)
    ensures NumbersFrom(s, accepted + [a], result + [o])
  {
    var as', os := accepted + [a], result + [o];
    assert as'[|accepted|] == a && os[|result|] == o;
    assert forall k :: 0 <= k < |accepted| ==> as'[k] == accepted[k] && os[k] == result[k];
    if result != [] {
      assert accepted[|accepted| - 1].instant == Some(result[|result| - 1].monotonic);
    }
  }

  /** One accepted arrival yields one observation, or raises. */
  lemma {:induction false} NormalizedAccepted(readOnly: bool, target: PlaybackTarget,
                                              n: Normalization, a: Arrival)
    requires Ordered(n.state) && !n.raised && Accepts(n.state.lastEventTime, a)
    ensures var m := NormalizedOne(readOnly, target, n, a);
            && Ordered(m.state) && (m.raised <==> !a.raw.WellFormed())
            && m.state.sequence == n.state.sequence + 1 && m.state.lastEventTime == a.instant
            && (m.raised ==> m.result == n.result)
            && (!m.raised ==>
                  |m.result| == |n.result| + 1
                  && m.result == n.result + [m.result[|n.result|]]
                  && m.result[|n.result|].sequence == n.state.sequence + 1
                  && a.instant == Some(m.result[|n.result|].monotonic))
  {
    assert a.instant.Some?;
    hide Outcome, Accepts, Ordered, Remembered;
    NeverDropped(n.state, target, a);
    var translation := Outcome(n.state, target, a);
    if translation.Translated? {
      IdentitiesDoNotMatter(translation.state,
                            Remembered(translation.state.identities, translation.observation));
    }
  }

  lemma {:induction false} OneMore(readOnly: bool, target: PlaybackTarget, s: State,
                                   n: Normalization, accepted: seq<Arrival>, a: Arrival)
    requires Ordered(n.state) && !n.raised && NumbersFrom(s, accepted, n.result)
    requires n.state.sequence == s.sequence + |n.result| && |n.result| == |accepted|
    requires n.state.lastEventTime == LastInstant(s.lastEventTime, accepted)
    requires Accepts(n.state.lastEventTime, a)
    ensures var m := NormalizedOne(readOnly, target, n, a);
            && Ordered(m.state) && (m.raised <==> !a.raw.WellFormed())
            && m.state.sequence == s.sequence + |accepted| + 1
            && m.state.lastEventTime == a.instant
            && (m.raised ==> m.result == n.result)
            && (!m.raised ==>
                  |m.result| == |accepted| + 1 && NumbersFrom(s, accepted + [a], m.result))
  {
    hide NumbersFrom, Accepts, Ordered, NormalizedOne;
    NormalizedAccepted(readOnly, target, n, a);
    var m := NormalizedOne(readOnly, target, n, a);
    if !m.raised {
      NumbersOn(s, accepted, n.result, a, m.result[|n.result|]);
    }
  }

  lemma {:induction false} IdentitiesDoNotMatter(s: State, identities: seq<PlaybackObservation>)
    ensures Ordered(s.(identities := identities)) <==> Ordered(s)
  {
  }

  /** After a batch that did not raise, a second one goes on as if both were one. */
  lemma {:induction false} BatchesCompose(readOnly: bool, target: PlaybackTarget, s: State,
                                          first: seq<Arrival>, second: seq<Arrival>)
    requires !Normalized(readOnly, target, s, first).raised
    ensures var a := Normalized(readOnly, target, s, first);
            var b := Normalized(readOnly, target, a.state, second);
            Normalized(readOnly, target, s, first + second) == b.(result := a.result + b.result)
    decreases |second|
  {
    hide Accepts, Translate, Base;
    var a := Normalized(readOnly, target, s, first);
    if second == [] {
      assert first + second == first;
    } else {
      var front, last := second[..|second| - 1], second[|second| - 1];
      BatchesCompose(readOnly, target, s, first, front);
      assert (first + second)[..|first + second| - 1] == first + front;
      var b := Normalized(readOnly, target, a.state, front);
      if !b.raised {
        OneAppends(readOnly, target, b, last, a.result);
      }
    }
  }

  lemma {:induction false} OneAppends(readOnly: bool, target: PlaybackTarget, n: Normalization,
                                      a: Arrival, before: seq<PlaybackObservation>)
    ensures NormalizedOne(readOnly, target, n.(result := before + n.result), a)
         == NormalizedOne(readOnly, target, n, a).(
              result := before + NormalizedOne(readOnly, target, n, a).result)
  {
    hide Accepts, Outcome;
    if Accepts(n.state.lastEventTime, a) {
      var translation := Outcome(n.state, target, a);
      if translation.Translated? {
        assert before + n.result + [translation.observation]
            == before + (n.result + [translation.observation]);
      }
    }
  }

  // ---------------------------------------------------------------- the whole life

  /** What a sequence of calls leaves: the state, every observation, and how many calls raised. */
  datatype Life = Life(state: State, observations: seq<PlaybackObservation>, raises: nat)

  function Lived(readOnly: bool, target: PlaybackTarget, s: State, calls: seq<seq<Arrival>>): Life {
    if calls == [] then Life(s, [], 0)
    else
      var before := Lived(readOnly, target, s, calls[..|calls| - 1]);
      var n := Normalized(readOnly, target, before.state, calls[|calls| - 1]);
      Life(n.state, before.observations + n.result, before.raises + if n.raised then 1 else 0)
  }

  function Flattened(calls: seq<seq<Arrival>>): seq<Arrival> {
    if calls == [] then [] else Flattened(calls[..|calls| - 1]) + calls[|calls| - 1]
  }

  /** Every event came from the callbacks of the connection. */
  ghost predicate AllDelivered(arrivals: seq<Arrival>) {
    forall k :: 0 <= k < |arrivals| ==> Delivered(arrivals[k].raw)
  }

  /** Nothing that was delivered raises. */
  lemma {:induction false} DeliveredNeverRaises(readOnly: bool, target: PlaybackTarget, s: State,
                                                arrivals: seq<Arrival>)
    requires Ordered(s) && AllDelivered(arrivals)
    ensures !Normalized(readOnly, target, s, arrivals).raised
  {
    hide Delivered, Ordered, NumbersFrom;
    BatchIsNumbered(readOnly, target, s, arrivals);
    AcceptedDelivered(s.lastEventTime, arrivals);
    forall k | 0 <= k < |AcceptedArrivals(s.lastEventTime, arrivals)|
      ensures AcceptedArrivals(s.lastEventTime, arrivals)[k].raw.WellFormed()
    {
      DeliveredIsWellFormed(AcceptedArrivals(s.lastEventTime, arrivals)[k].raw);
    }
  }

  lemma {:induction false} AcceptedDelivered(last: Option<Monotonic>, arrivals: seq<Arrival>)
    requires AllDelivered(arrivals)
    ensures AllDelivered(AcceptedArrivals(last, arrivals))
    decreases |arrivals|
  {
    hide Delivered, Accepts;
    if arrivals != [] {
      AcceptedDelivered(last, arrivals[..|arrivals| - 1]);
    }
  }

  /** However the events are cut into calls, the calls do what one call does with all of them. */
  lemma {:induction false} CallsCompose(readOnly: bool, target: PlaybackTarget, s: State,
                                        calls: seq<seq<Arrival>>)
    requires Ordered(s) && AllDelivered(Flattened(calls))
    ensures var n := Normalized(readOnly, target, s, Flattened(calls));
            Lived(readOnly, target, s, calls) == Life(n.state, n.result, 0) && !n.raised
    decreases |calls|
  {
    hide Delivered, Ordered, Normalized;
    DeliveredNeverRaises(readOnly, target, s, Flattened(calls));
    if calls != [] {
      var front, last := calls[..|calls| - 1], calls[|calls| - 1];
      assert forall k :: 0 <= k < |Flattened(front)| ==> Flattened(front)[k] == Flattened(calls)[k];
      CallsCompose(readOnly, target, s, front);
      BatchesCompose(readOnly, target, s, Flattened(front), last);
    } else {
      NothingDone(readOnly, target, s);
    }
  }

  lemma {:induction false} NothingDone(readOnly: bool, target: PlaybackTarget, s: State)
    ensures Normalized(readOnly, target, s, []) == Normalization(s, [], false)
  {
  }

  /** Over the whole life of a backend, whatever the connection delivers and however it is cut into
      calls: no call raises, every accepted event yields its observation, and the observations are
      numbered 1, 2, 3, ... with strictly increasing times. */
  lemma {:induction false} NumberingIsGapFree(readOnly: bool, target: PlaybackTarget,
                                              generation: Generation, calls: seq<seq<Arrival>>)
    requires AllDelivered(Flattened(calls))
    ensures var life := Lived(readOnly, target, Started(generation), calls);
            var accepted := AcceptedArrivals(None, Flattened(calls));
            && life.raises == 0
            && |life.observations| == |accepted| == life.state.sequence
            && (forall k :: 0 <= k < |accepted| ==>
                  && life.observations[k].sequence == k + 1
                  && accepted[k].instant == Some(life.observations[k].monotonic))
            && (forall k :: 0 < k < |accepted| ==>
                  life.observations[k - 1].monotonic < life.observations[k].monotonic)
  {
    hide Normalized, Delivered, AcceptedArrivals, AllWellFormed;
    var s := Started(generation);
    CallsCompose(readOnly, target, s, calls);
    BatchIsNumbered(readOnly, target, s, Flattened(calls));
    var accepted := AcceptedArrivals(s.lastEventTime, Flattened(calls));
    assert accepted[..|accepted|] == accepted;
  }

  /** Observations in increasing order of number and time, none ahead of the state. */
  predicate Trails(s: State, os: seq<PlaybackObservation>) {
    && (forall k :: 0 < k < |os| ==>
          os[k - 1].sequence < os[k].sequence && os[k - 1].monotonic < os[k].monotonic)
    && (os != [] ==>
          && os[|os| - 1].sequence <= s.sequence
          && s.lastEventTime.Some? && os[|os| - 1].monotonic <= s.lastEventTime.value)
  }

  lemma {:induction false} TrailsOn(s: State, os: seq<PlaybackObservation>, t: State,
                                    o: PlaybackObservation)
    requires Trails(s, os) && t.sequence == s.sequence + 1 && t.lastEventTime.Some?
    requires s.lastEventTime.Some? ==> s.lastEventTime.value < t.lastEventTime.value
    ensures Trails(t, os)
    ensures o.sequence == t.sequence && o.monotonic == t.lastEventTime.value ==> Trails(t, os + [o])
  {
  }

  lemma {:induction false} TrailsOneMore(readOnly: bool, target: PlaybackTarget, n: Normalization,
                                         a: Arrival, before: seq<PlaybackObservation>)
    requires Ordered(n.state) && Trails(n.state, before + n.result)
    ensures var m := NormalizedOne(readOnly, target, n, a);
            Ordered(m.state) && Trails(m.state, before + m.result)
  {
    hide Outcome, Ordered, Remembered, Trails;
    if Accepts(n.state.lastEventTime, a) {
      NeverDropped(n.state, target, a);
      var translation := Outcome(n.state, target, a);
      hide Accepts;
      if translation.Translated? {
        var o := translation.observation;
        var t := if readOnly then translation.state
                 else translation.state.(identities := Remembered(translation.state.identities, o));
        IdentitiesDoNotMatter(translation.state, Remembered(translation.state.identities, o));
        TrailsOn(n.state, before + n.result, t, o);
        assert before + (n.result + [o]) == (before + n.result) + [o];
      } else {
        TrailsOn(n.state, before + n.result, translation.state, Base(n.state, target, a));
      }
    }
  }

  lemma {:induction false} BatchTrails(readOnly: bool, target: PlaybackTarget, s: State,
                                       arrivals: seq<Arrival>, before: seq<PlaybackObservation>)
    requires Ordered(s) && Trails(s, before)
    ensures var n := Normalized(readOnly, target, s, arrivals);
            Ordered(n.state) && Trails(n.state, before + n.result)
    decreases |arrivals|
  {
    hide Ordered, Trails, NormalizedOne;
    assert before + [] == before;
    if arrivals != [] {
      var front := arrivals[..|arrivals| - 1];
      BatchTrails(readOnly, target, s, front, before);
      TrailsOneMore(readOnly, target, Normalized(readOnly, target, s, front),
                    arrivals[|arrivals| - 1], before);
    }
  }

  /** Any transport at all: over a whole life, calls that raised included, numbers and times only
      increase, and each call that raised costs exactly one number. */
  lemma {:induction false} NumbersOnlyIncrease(readOnly: bool, target: PlaybackTarget, s: State,
                                               calls: seq<seq<Arrival>>)
    requires Ordered(s)
    ensures var life := Lived(readOnly, target, s, calls);
            && Ordered(life.state) && Trails(life.state, life.observations)
            && life.state.sequence == s.sequence + |life.observations| + life.raises
    decreases |calls|
  {
    hide Ordered, Trails, Normalized, NumbersFrom, AllWellFormed, AcceptedArrivals;
    if calls == [] {
      NothingTrails(s);
    } else {
      NumbersOnlyIncrease(readOnly, target, s, calls[..|calls| - 1]);
      var before := Lived(readOnly, target, s, calls[..|calls| - 1]);
      BatchTrails(readOnly, target, before.state, calls[|calls| - 1], before.observations);
      BatchIsNumbered(readOnly, target, before.state, calls[|calls| - 1]);
    }
  }

  lemma {:induction false} NothingTrails(s: State)
    ensures Trails(s, [])
  {
  }

  // ---------------------------------------------------------------- the identities remembered

  /** Every observation since the last reset, in full. */
  function SeenOne(target: PlaybackTarget, s: State, seen: seq<PlaybackObservation>, a: Arrival)
    : seq<PlaybackObservation>
  {
    if !Accepts(s.lastEventTime, a) then seen
    else
      match Outcome(s, target, a)
      case Translated(_, o) => (if a.raw.Reset? then [] else seen) + [o]
      case _ => seen
  }

  function SeenAll(target: PlaybackTarget, s: State, seen: seq<PlaybackObservation>,
                   arrivals: seq<Arrival>): seq<PlaybackObservation>
  {
    if arrivals == [] then seen
    else
      var front := arrivals[..|arrivals| - 1];
      var before := Normalized(false, target, s, front);
      if before.raised then SeenAll(target, s, seen, front)
      else SeenOne(target, before.state, SeenAll(target, s, seen, front), arrivals[|arrivals| - 1])
  }

  /** The compacted identities stand for the full history, which is increasing and not ahead. */
  predicate Remembers(s: State, seen: seq<PlaybackObservation>) {
    && s.identities == RememberedAll(seen) && Increasing(seen)
    && (seen != [] ==>
          s.lastEventTime.Some? && seen[|seen| - 1].monotonic <= s.lastEventTime.value)
  }

  lemma {:induction false} RemembersOneMore(target: PlaybackTarget, n: Normalization,
                                            seen: seq<PlaybackObservation>, a: Arrival)
    requires Ordered(n.state) && Remembers(n.state, seen)
    ensures Remembers(NormalizedOne(false, target, n, a).state, SeenOne(target, n.state, seen, a))
  {
    hide Ordered, Outcome, Remembered, RememberedAll, Increasing;
    if Accepts(n.state.lastEventTime, a) {
      NeverDropped(n.state, target, a);
      KeepsIdentities(n.state, target, a);
      var translation := Outcome(n.state, target, a);
      if translation.Translated? {
        NothingRemembered();
        RemembersAppended(if a.raw.Reset? then [] else seen, translation.state.identities,
                          translation.observation);
      }
    }
  }

  lemma {:induction false} NothingRemembered()
    ensures Increasing([]) && RememberedAll([]) == []
  {
  }

  lemma {:induction false} RemembersAppended(seen: seq<PlaybackObservation>,
                                             identities: seq<PlaybackObservation>,
                                             o: PlaybackObservation)
    requires Increasing(seen) && identities == RememberedAll(seen)
    requires seen != [] ==> seen[|seen| - 1].monotonic < o.monotonic
    ensures Increasing(seen + [o]) && Remembered(identities, o) == RememberedAll(seen + [o])
  {
    hide Remembered;
    assert (seen + [o])[..|seen|] == seen;
  }

  /** A translation leaves the remembered identities alone, except that a reset forgets them. */
  lemma {:induction false} KeepsIdentities(s: State, target: PlaybackTarget, a: Arrival)
    requires Accepts(s.lastEventTime, a)
    ensures Outcome(s, target, a).state.identities == if a.raw.Reset? then [] else s.identities
    ensures a.raw.Reset? ==> Outcome(s, target, a).Translated?
  {
    hide MediaObservation;
  }

  lemma {:induction false} RemembersAll(target: PlaybackTarget, s: State,
                                        seen: seq<PlaybackObservation>, arrivals: seq<Arrival>)
    requires Ordered(s) && Remembers(s, seen)
    ensures Remembers(Normalized(false, target, s, arrivals).state,
                      SeenAll(target, s, seen, arrivals))
    ensures Ordered(Normalized(false, target, s, arrivals).state)
    decreases |arrivals|
  {
    hide Remembers, Ordered, NormalizedOne, SeenOne, NumbersFrom, AllWellFormed, Accepts;
    BatchIsNumbered(false, target, s, arrivals);
    if arrivals != [] {
      var front := arrivals[..|arrivals| - 1];
      RemembersAll(target, s, seen, front);
      RemembersOneMore(target, Normalized(false, target, s, front),
                       SeenAll(target, s, seen, front), arrivals[|arrivals| - 1]);
    }
  }

  /** The same over the calls of a whole life, those that raised included. */
  function SeenLife(target: PlaybackTarget, s: State, calls: seq<seq<Arrival>>)
    : seq<PlaybackObservation>
  {
    if calls == [] then []
    else
      var front := calls[..|calls| - 1];
      SeenAll(target, Lived(false, target, s, front).state, SeenLife(target, s, front),
              calls[|calls| - 1])
  }

  lemma {:induction false} RemembersLife(target: PlaybackTarget, s: State,
                                         calls: seq<seq<Arrival>>)
    requires Ordered(s) && Remembers(s, [])
    ensures Ordered(Lived(false, target, s, calls).state)
    ensures Remembers(Lived(false, target, s, calls).state, SeenLife(target, s, calls))
    decreases |calls|
  {
    hide Ordered, Remembers, Normalized, SeenAll;
    if calls != [] {
      var front := calls[..|calls| - 1];
      RemembersLife(target, s, front);
      RemembersAll(target, Lived(false, target, s, front).state, SeenLife(target, s, front),
                   calls[|calls| - 1]);
    }
  }

  /** Whatever was delivered in whatever calls, even after one that raised, an effect guard that
      queries the compacted identities gets the answer that everything seen since the last reset
      gives, for every scope and every boundary. */
  lemma {:induction false} GuardsSeeEveryTakeover(target: PlaybackTarget, generation: Generation,
                                                  calls: seq<seq<Arrival>>, scope: PlaybackScope,
                                                  boundary: Monotonic)
    ensures var s := Lived(false, target, Started(generation), calls).state;
            && |s.identities| <= 6
            && (Takeover(s.identities, scope, boundary)
                <==> Takeover(SeenLife(target, Started(generation), calls), scope, boundary))
  {
    hide Takeover;
    RemembersLife(target, Started(generation), calls);
    HistoryAnswersSame(SeenLife(target, Started(generation), calls), scope, boundary);
  }

  // ---------------------------------------------------------------- the adapter object

  class CastBackend {
    const target: PlaybackTarget
    const readOnly: bool
    var generation: Generation
    var sequence: nat
    var lastEventTime: Option<Monotonic>
    var receiver: Option<ReceiverStatus>
    var media: Option<PlaybackObservation>
    var identityHistory: seq<PlaybackObservation>

    /** The state as a value. */
    function View(): State
      reads this
    {
      State(generation, sequence, lastEventTime, receiver, media, identityHistory)
    }

    constructor (target: PlaybackTarget, readOnly: bool, generation: Generation)
      ensures this.target == target && this.readOnly == readOnly
      ensures View() == Started(generation) && Ordered(View()) && Remembers(View(), [])
    {
      this.target, this.readOnly, this.generation := target, readOnly, generation;
      this.sequence, this.lastEventTime := 0, None;
      this.receiver, this.media, this.identityHistory := None, None, [];
    }

    /** The newest two different values of a field, searched from the end. */
    static method FieldWitnesses(candidates: seq<PlaybackObservation>, field: Field)
      returns (kept: set<nat>)
      ensures kept == Witnesses(candidates, field)
    {
      var values: seq<FieldValue> := [];
      kept := {};
      var index := |candidates|;
      while index > 0
        invariant 0 <= index <= |candidates| && |values| <= 1
        invariant values == [] ==> kept == {} && forall k :: index <= k < |candidates| ==>
                                                   !Differs(candidates[k], field, None)
        invariant |values| == 1 ==>
          && Newest(candidates, |candidates|, field, None).Some?
          && var newest := Newest(candidates, |candidates|, field, None).value;
          && index <= newest && kept == {newest}
          && FieldOf(candidates[newest], field) == Some(values[0])
          && forall k :: index <= k < |candidates| ==>
               !Differs(candidates[k], field, Some(values[0]))
      {
        index := index - 1;
        var value := FieldOf(candidates[index], field);
        if value.Some? && value.value !in values {
          NewestAt(candidates, index, field, if values == [] then None else Some(values[0]));
          values := values + [value.value];
          kept := kept + {index};
          if |values| == 2 {
            return;
          }
        }
      }
      NothingNewer(candidates, field, None);
      if |values| == 1 {
        NothingNewer(candidates, field, Some(values[0]));
      }
    }

    /** Retains the witnesses that any takeover query may need. */
    method RememberIdentity(observation: PlaybackObservation)
      modifies this`identityHistory
      ensures identityHistory == Remembered(old(identityHistory), observation)
      ensures |identityHistory| <= 6
    {
      var candidates := identityHistory + [observation];
      var kept: set<nat> := {};
      var session := FieldWitnesses(candidates, Session);
      var application := FieldWitnesses(candidates, Application);
      var content := FieldWitnesses(candidates, Content);
      kept := session + application + content;
      identityHistory := Select(candidates, kept, |candidates|);
      SixSuffice(candidates);
    }

    /** Numbers and translates one event; an ill-formed one raises. */
    method NormalizeOne(event: Arrival, ghost result: seq<PlaybackObservation>)
      returns (observation: Option<PlaybackObservation>, raised: bool)
      modifies this
      ensures NormalizedOne(readOnly, target, Normalization(old(View()), result, false), event)
           == Normalization(
                View(),
                if observation.Some? then result + [observation.value] else result, raised)
    {
      if !Accepts(lastEventTime, event) {
        return None, false;
      }
      lastEventTime := event.instant;
      sequence := sequence + 1;
      TranslationKeepsOrder(View(), target, event);
      var translation := Translate(View(), Base(View(), target, event), event);
      generation, receiver, media, identityHistory :=
        translation.state.generation, translation.state.receiver, translation.state.media,
        translation.state.identities;
      assert View() == translation.state;
      match translation {
        case Translated(_, o) =>
          if !readOnly {
            RememberIdentity(o);
          }
          return Some(o), false;
        case Dropped(_) => return None, false;
        case Raised(_) => return None, true;
      }
    }

    /** Numbers and translates a batch; an ill-formed event raises in the middle of it. */
    method Normalize(arrivals: seq<Arrival>) returns (r: Result<seq<PlaybackObservation>>)
      modifies this
      ensures var n := Normalized(readOnly, target, old(View()), arrivals);
              View() == n.state && r == if n.raised then Err(Malformed) else Ok(n.result)
    {
      ghost var start := View();
      var result := [];
      for i := 0 to |arrivals|
        invariant Normalized(readOnly, target, start, arrivals[..i])
               == Normalization(View(), result, false)
      {
        assert arrivals[..i + 1][..i] == arrivals[..i];
        var observation, raised := NormalizeOne(arrivals[i], result);
        if raised {
          RaisedStays(readOnly, target, start, arrivals, i + 1);
          return Err(Malformed);
        }
        if observation.Some? {
          result := result + [observation.value];
        }
      }
      assert arrivals[..|arrivals|] == arrivals;
      r := Ok(result);
    }
  }

  lemma {:induction false} NewestAt(history: seq<PlaybackObservation>, index: nat, field: Field,
                                    excluded: Option<FieldValue>)
    requires index < |history| && Differs(history[index], field, excluded)
    requires forall k :: index < k < |history| ==> !Differs(history[k], field, excluded)
    ensures Newest(history, |history|, field, excluded) == Some(index)
  {
  }

  lemma {:induction false} NothingNewer(history: seq<PlaybackObservation>, field: Field,
                                        excluded: Option<FieldValue>)
    ensures (forall k :: 0 <= k < |history| ==> !Differs(history[k], field, excluded))
       <==> Newest(history, |history|, field, excluded).None?
  {
  }

  /** A translation changes neither the numbering nor the last time. */
  lemma {:induction false} TranslationKeepsOrder(s: State, target: PlaybackTarget, a: Arrival)
    requires a.instant.Some?
    ensures var u := Translate(s, Base(s, target, a), a).state;
            u.sequence == s.sequence && u.lastEventTime == s.lastEventTime
  {
    hide MediaObservation;
  }

  /** Once a batch has raised, the rest of it is lost. */
  lemma {:induction false} RaisedStays(readOnly: bool, target: PlaybackTarget, s: State,
                                       arrivals: seq<Arrival>, i: nat)
    requires i <= |arrivals| && Normalized(readOnly, target, s, arrivals[..i]).raised
    ensures Normalized(readOnly, target, s, arrivals)
         == Normalized(readOnly, target, s, arrivals[..i])
    decreases |arrivals|
  {
    if i == |arrivals| {
      assert arrivals[..i] == arrivals;
    } else {
      assert arrivals[..|arrivals| - 1][..i] == arrivals[..i];
      RaisedStays(readOnly, target, s, arrivals[..|arrivals| - 1], i);
    }
  }
}
