/**
 * The message-handling logic of the media websocket handler (`telnyx_media`
 * in app/main.py), as pure functions over the sequence of decoded messages
 * the telephony channel delivers, and the lemmas about them.
 *
 * The handler waits for a `start` frame, opens the realtime model channel,
 * sends one `session.update`, relays every `media` payload as an
 * `input_audio_buffer.append` until `stop` or `callEnded`, and finally closes
 * the model channel (when it was opened) and then the telephony channel.
 * Every outbound action is recorded, in order, in one trace of `Effect`s.
 */
module MediaRelay {
  import opened Wrappers

  /** A decoded telephony message, told apart by its `event` field. */
  datatype InboundMessage =
    | Start(streamId: Option<string>)   // "start"; the top-level `stream_id`, if any
    | Media(payload: Option<string>)    // "media"; `media.payload`, absent when the message lacks it
    | Stop                              // "stop"
    | CallEnded                         // "callEnded"
    | Other                             // any other `event`, or none

  /** The `session` object of the `session.update` command. */
  datatype SessionConfig = SessionConfig(
    sessionType: string,
    outputModalities: seq<string>,
    inputFormat: string,
    transcriptionModel: string,
    turnDetection: string)

  /** A transcription-only session: no output modalities, PCMU input, whisper-1, semantic VAD. */
  const TranscriptionSession: SessionConfig :=
    SessionConfig("realtime", [], "audio/pcmu", "whisper-1", "semantic_vad")

  const RealtimeUri: string := "wss://api.openai.com/v1/realtime?model=gpt-realtime"

  /** The `Authorization` header sent when the model channel is opened. */
  function Authorization(apiKey: string): string {
    "Bearer " + apiKey
  }

  /** A command sent on the model channel. */
  datatype ModelCommand =
    | SessionUpdate(session: SessionConfig)   // "session.update"
    | AppendAudio(audio: string)              // "input_audio_buffer.append"

  /** An outbound action of the handler, in the order it happens. */
  datatype Effect =
    | OpenModel(uri: string, authorization: string)
    | SendModel(command: ModelCommand)
    | CloseModel
    | CloseTelephony

  /**
   * How the handler finished: a `stop` or `callEnded` message, the telephony channel running
   * dry (its disconnect), or one of the two exceptions that escape it: a
   * failed model connection, or a `media` message without `media.payload`.
   */
  datatype EndReason = StopOrCallEnded | InboundClosed | ConnectFailed | MissingPayload

  /** Messages that leave the relay loop: `stop`, `callEnded`, and a media message whose payload lookup fails. */
  predicate EndsRelay(m: InboundMessage) {
    m.Stop? || m.CallEnded? || m == Media(None)
  }

  /** The position of the first `start` message, if there is one. */
  function FindStart(ms: seq<InboundMessage>): (r: Option<nat>)
    ensures r.Some? ==> r.value < |ms| && ms[r.value].Start?
    ensures forall j | 0 <= j < |ms| && (r.None? || j < r.value) :: !ms[j].Start?
  {
    if ms == [] then None
    else if ms[0].Start? then Some(0)
    else
      match FindStart(ms[1..])
      case None => None
      case Some(k) => Some(k + 1)
  }

  /** The position of the first message that leaves the relay loop, or `|ms|`. */
  function FirstExit(ms: seq<InboundMessage>): (k: nat)
    ensures k <= |ms|
    ensures k < |ms| ==> EndsRelay(ms[k])
    ensures forall j | 0 <= j < k :: !EndsRelay(ms[j])
  {
    if ms == [] then 0
    else if EndsRelay(ms[0]) then 0
    else 1 + FirstExit(ms[1..])
  }

  /** What the relay loop forwards (the audio of each append, in order) and why it stops. */
  datatype RelayResult = RelayResult(audio: seq<string>, end: EndReason)

  /** The relay loop over the messages that follow the start frame. */
  function Relay(ms: seq<InboundMessage>): RelayResult {
    if ms == [] then RelayResult([], InboundClosed)
    else
      match ms[0]
      case Media(Some(p)) =>
        var rest := Relay(ms[1..]);
        RelayResult([p] + rest.audio, rest.end)
      case Media(None) => RelayResult([], MissingPayload)
      case Stop => RelayResult([], StopOrCallEnded)
      case CallEnded => RelayResult([], StopOrCallEnded)
      case _ => Relay(ms[1..])
  }

  /** The payloads of the media messages of `ms`, in order; every other kind contributes nothing. */
  function MediaPayloads(ms: seq<InboundMessage>): seq<string> {
    if ms == [] then []
    else
      (match ms[0] case Media(Some(p)) => [p] case _ => [])
      + MediaPayloads(ms[1..])
  }

  /** One append command per forwarded payload, in the same order. */
  function Appended(audio: seq<string>): seq<Effect> {
    seq(|audio|, i requires 0 <= i < |audio| => SendModel(AppendAudio(audio[i])))
  }

  /** What one run of the handler produces. */
  datatype SessionResult = SessionResult(streamId: Option<string>, effects: seq<Effect>, end: EndReason)

  /**
   * The whole handler for the messages `inbound` the telephony channel
   * delivers. `connectOk` says whether opening the model channel succeeds, and
   * `apiKey` stands for `OPENAI_API_KEY`.
   */
  function Session(inbound: seq<InboundMessage>, connectOk: bool, apiKey: string): SessionResult {
    match FindStart(inbound)
    case None => SessionResult(None, [CloseTelephony], InboundClosed)
    case Some(k) =>
      var streamId := inbound[k].streamId;
      if !connectOk then
        SessionResult(streamId, [CloseTelephony], ConnectFailed)
      else
        var relay := Relay(inbound[k + 1..]);
        SessionResult(
          streamId,
          [OpenModel(RealtimeUri, Authorization(apiKey)), SendModel(SessionUpdate(TranscriptionSession))]
          + Appended(relay.audio)
          + [CloseModel, CloseTelephony],
          relay.end)
  }

  /** Whether the handler gets as far as opening the model channel. */
  predicate Connects(inbound: seq<InboundMessage>, connectOk: bool) {
    FindStart(inbound).Some? && connectOk
  }

  /** The messages the relay loop reads: everything after the first start frame. */
  function AfterStart(inbound: seq<InboundMessage>): seq<InboundMessage>
    requires FindStart(inbound).Some?
  {
    inbound[FindStart(inbound).value + 1..]
  }

  // ---------------------------------------------------------------------
  // The relay loop
  // ---------------------------------------------------------------------

  /** Payload extraction keeps receipt order: it distributes over concatenation. */
  lemma {:induction false} MediaPayloadsAppend(a: seq<InboundMessage>, b: seq<InboundMessage>)
    ensures MediaPayloads(a + b) == MediaPayloads(a) + MediaPayloads(b)
  {
    if a == [] {
      assert a + b == b;
    } else {
      assert (a + b)[1..] == a[1..] + b;
      MediaPayloadsAppend(a[1..], b);
    }
  }

  /** The payload of the `i`-th message, when it is a media message, sits unchanged at its own place among the payloads. */
  lemma MediaPayloadAt(ms: seq<InboundMessage>, i: nat)
    requires i < |ms| && ms[i].Media? && ms[i].payload.Some?
    ensures |MediaPayloads(ms[..i])| < |MediaPayloads(ms)|
    ensures MediaPayloads(ms)[|MediaPayloads(ms[..i])|] == ms[i].payload.value
  {
    assert ms == ms[..i] + [ms[i]] + ms[i + 1..];
    MediaPayloadsAppend(ms[..i] + [ms[i]], ms[i + 1..]);
    MediaPayloadsAppend(ms[..i], [ms[i]]);
    assert MediaPayloads([ms[i]]) == [ms[i].payload.value] by {
      assert [ms[i]][1..] == [];
    }
  }

  /**
   * The relay loop forwards exactly the payloads of the media messages before
   * the first message that leaves it, unchanged and in receipt order, and
   * stops for the reason that message (or the end of the channel) gives.
   */
  lemma {:induction false} RelayForwardsMediaBeforeExit(ms: seq<InboundMessage>)
    ensures Relay(ms).audio == MediaPayloads(ms[..FirstExit(ms)])
    ensures FirstExit(ms) == |ms| ==> Relay(ms).end == InboundClosed
    ensures FirstExit(ms) < |ms| && ms[FirstExit(ms)].Media? ==> Relay(ms).end == MissingPayload
    ensures FirstExit(ms) < |ms| && !ms[FirstExit(ms)].Media? ==> Relay(ms).end == StopOrCallEnded
  {
    if ms != [] && !EndsRelay(ms[0]) {
      RelayForwardsMediaBeforeExit(ms[1..]);
      var k := FirstExit(ms[1..]);
      assert ms[..1 + k] == [ms[0]] + ms[1..][..k];
      MediaPayloadsAppend([ms[0]], ms[1..][..k]);
      assert [ms[0]][1..] == [];
    }
  }

  /** Nothing after the first message that leaves the relay loop is forwarded. */
  lemma {:induction false} RelayIgnoresAfterExit(ms: seq<InboundMessage>, tail: seq<InboundMessage>)
    requires FirstExit(ms) < |ms|
    ensures Relay(ms + tail) == Relay(ms)
  {
    if !EndsRelay(ms[0]) {
      assert (ms + tail)[1..] == ms[1..] + tail;
      RelayIgnoresAfterExit(ms[1..], tail);
    }
  }

  /** Messages that are neither media nor a stop condition produce nothing. */
  lemma RelaySkipsOtherKinds(m: InboundMessage, ms: seq<InboundMessage>)
    requires !m.Media? && !EndsRelay(m)
    ensures Relay([m] + ms) == Relay(ms)
  {
  }

  // ---------------------------------------------------------------------
  // The start-wait phase
  // ---------------------------------------------------------------------

  /** A message other than `start` that arrives while waiting for the start frame changes nothing. */
  lemma SessionSkipsOne(m: InboundMessage, ms: seq<InboundMessage>, connectOk: bool, apiKey: string)
    requires !m.Start?
    ensures Session([m] + ms, connectOk, apiKey) == Session(ms, connectOk, apiKey)
  {
  }

  /** Waiting for the start frame skips every other message, `stop` and `callEnded` included. */
  lemma {:induction false} SessionSkipsUntilStart(pre: seq<InboundMessage>, ms: seq<InboundMessage>, connectOk: bool, apiKey: string)
    requires forall j | 0 <= j < |pre| :: !pre[j].Start?
    ensures Session(pre + ms, connectOk, apiKey) == Session(ms, connectOk, apiKey)
  {
    if pre != [] {
      assert pre + ms == [pre[0]] + (pre[1..] + ms);
      SessionSkipsOne(pre[0], pre[1..] + ms, connectOk, apiKey);
      SessionSkipsUntilStart(pre[1..], ms, connectOk, apiKey);
    } else {
      assert pre + ms == ms;
    }
  }

  /**
   * The stream id is the top-level `stream_id` of the first start frame (absent
   * when that frame has none); later start frames neither rebind it nor end the
   * relay, and the relay reads exactly the messages after the first start.
   */
  lemma BindsFirstStreamId(pre: seq<InboundMessage>, sid: Option<string>, rest: seq<InboundMessage>, connectOk: bool, apiKey: string)
    requires forall j | 0 <= j < |pre| :: !pre[j].Start?
    ensures var s := Session(pre + [Start(sid)] + rest, connectOk, apiKey);
      && s.streamId == sid
      && (connectOk ==> s.end == Relay(rest).end && AudioSent(s.effects) == Relay(rest).audio)
  {
    assert pre + [Start(sid)] + rest == pre + ([Start(sid)] + rest);
    SessionSkipsUntilStart(pre, [Start(sid)] + rest, connectOk, apiKey);
    assert ([Start(sid)] + rest)[1..] == rest;
    if connectOk {
      SessionAudio(Relay(rest).audio, apiKey);
    }
  }

  // ---------------------------------------------------------------------
  // The effect trace
  // ---------------------------------------------------------------------

  /** The audio of the append commands of an effect trace, in order. */
  function AudioSent(effects: seq<Effect>): seq<string> {
    if effects == [] then []
    else
      (match effects[0] case SendModel(AppendAudio(a)) => [a] case _ => [])
      + AudioSent(effects[1..])
  }

  lemma {:induction false} AudioSentAppend(a: seq<Effect>, b: seq<Effect>)
    ensures AudioSent(a + b) == AudioSent(a) + AudioSent(b)
  {
    if a == [] {
      assert a + b == b;
    } else {
      assert (a + b)[1..] == a[1..] + b;
      AudioSentAppend(a[1..], b);
    }
  }

  lemma {:induction false} AudioSentAppended(audio: seq<string>)
    ensures AudioSent(Appended(audio)) == audio
  {
    if audio != [] {
      assert Appended(audio)[1..] == Appended(audio[1..]);
      AudioSentAppended(audio[1..]);
    }
  }

  /** The append commands of a connected session carry exactly the relayed audio. */
  lemma SessionAudio(audio: seq<string>, apiKey: string)
    ensures AudioSent([OpenModel(RealtimeUri, Authorization(apiKey)), SendModel(SessionUpdate(TranscriptionSession))]
                      + Appended(audio) + [CloseModel, CloseTelephony]) == audio
  {
    var head := [OpenModel(RealtimeUri, Authorization(apiKey)), SendModel(SessionUpdate(TranscriptionSession))];
    AudioSentAppend(head + Appended(audio), [CloseModel, CloseTelephony]);
    AudioSentAppend(head, Appended(audio));
    AudioSentAppended(audio);
    assert AudioSent(head) == [] by {
      assert head[1..][1..] == [];
    }
    assert AudioSent([CloseModel, CloseTelephony]) == [] by {
      assert [CloseModel, CloseTelephony][1..][1..] == [];
    }
  }

  /**
   * Each media message after the start frame and before the first stop
   * condition gives exactly one append, with its payload unchanged, in
   * receipt order; nothing else is appended.
   */
  lemma SessionForwardsMedia(inbound: seq<InboundMessage>, connectOk: bool, apiKey: string)
    requires Connects(inbound, connectOk)
    ensures var after := AfterStart(inbound);
      AudioSent(Session(inbound, connectOk, apiKey).effects) == MediaPayloads(after[..FirstExit(after)])
  {
    var after := AfterStart(inbound);
    RelayForwardsMediaBeforeExit(after);
    SessionAudio(Relay(after).audio, apiKey);
  }

  /**
   * A connected session sends exactly one `session.update`, right after opening
   * the model channel and before every append; an unconnected one sends nothing
   * on the model channel.
   */
  lemma SessionUpdateOnceFirst(inbound: seq<InboundMessage>, connectOk: bool, apiKey: string)
    ensures var e := Session(inbound, connectOk, apiKey).effects;
      && (Connects(inbound, connectOk) ==>
            && e[0] == OpenModel(RealtimeUri, Authorization(apiKey))
            && e[1] == SendModel(SessionUpdate(TranscriptionSession))
            && (forall i | 0 <= i < |e| && e[i].SendModel? && e[i].command.SessionUpdate? :: i == 1)
            && (forall i | 0 <= i < |e| && e[i].SendModel? && e[i].command.AppendAudio? :: 1 < i))
      && (!Connects(inbound, connectOk) ==> forall i | 0 <= i < |e| :: !e[i].SendModel?)
  {
  }

  /**
   * Teardown: the telephony channel is always closed, once, as the very last
   * action; the model channel is closed exactly when it was opened, once,
   * right before the telephony channel and after every command sent on it;
   * the model channel is opened at most once, as the first action.
   */
  lemma TeardownOrder(inbound: seq<InboundMessage>, connectOk: bool, apiKey: string)
    ensures var e := Session(inbound, connectOk, apiKey).effects;
      && |e| > 0 && e[|e| - 1] == CloseTelephony
      && (forall i | 0 <= i < |e| - 1 :: e[i] != CloseTelephony)
      && (CloseModel in e <==> Connects(inbound, connectOk))
      && (exists i | 0 <= i < |e| :: e[i].OpenModel?) == Connects(inbound, connectOk)
      && (forall i | 0 <= i < |e| && e[i].OpenModel? :: i == 0)
      && (Connects(inbound, connectOk) ==>
            && e[|e| - 2] == CloseModel
            && (forall i | 0 <= i < |e| && e[i] == CloseModel :: i == |e| - 2)
            && (forall i | 0 <= i < |e| && e[i].SendModel? :: i < |e| - 2))
  {
    if Connects(inbound, connectOk) {
      var e := Session(inbound, connectOk, apiKey).effects;
      assert e[0].OpenModel?;
    }
  }

  /**
   * The two early exits: without a start frame the stream id stays unbound, only
   * the telephony channel is closed and the handler ends as the channel does;
   * after a start frame a failed model connection ends it with `ConnectFailed`,
   * having closed only the telephony channel.
   */
  lemma SessionEarlyExits(inbound: seq<InboundMessage>, connectOk: bool, apiKey: string)
    ensures FindStart(inbound).None? ==>
      Session(inbound, connectOk, apiKey) == SessionResult(None, [CloseTelephony], InboundClosed)
    ensures FindStart(inbound).Some? && !connectOk ==>
      && Session(inbound, connectOk, apiKey).end == ConnectFailed
      && Session(inbound, connectOk, apiKey).effects == [CloseTelephony]
  {
  }
}
