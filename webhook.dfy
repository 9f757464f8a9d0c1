/**
 * The call-control webhook router (`telnyx_webhook` in app/main.py).
 *
 * The HTTP request is taken as an already decoded event; the two call-control
 * requests it would make are returned, in order, as values instead of being
 * posted, and the JSON reply is returned as a `Reply`.
 */
module Webhook {
  import opened Wrappers

  /** `data.payload` of a webhook event: only `call_control_id` is read. */
  datatype Payload = Payload(callControlId: Option<string>)

  /** `data` of a webhook event: `event_type` and `payload` are read. */
  datatype Data = Data(eventType: Option<string>, payload: Option<Payload>)

  /** A decoded webhook event; `data` may be missing. */
  datatype Event = Event(data: Option<Data>)

  /** The body of the `streaming_start` call-control command. */
  datatype StreamingBody = StreamingBody(
    streamUrl: string,
    streamTrack: string,
    bidirectionalMode: string,
    bidirectionalCodec: string)

  /** One call-control request: `telnyx_cmd(call_control_id, command, api_key, body)`. */
  datatype CallCommand = CallCommand(
    callControlId: string,
    command: string,
    apiKey: string,
    body: Option<StreamingBody>)

  datatype Status = Ignored | Ok {
    /** The value of the `status` field of the JSON reply. */
    function Text(): string {
      match this
      case Ignored => "ignored"
      case Ok => "ok"
    }
  }

  /** What the handler does: the call-control commands it issues, in order, and its reply. */
  datatype Reply = Reply(status: Status, commands: seq<CallCommand>)

  const CallInitiated: string := "call.initiated"
  const AnswerCommand: string := "answer"
  const StreamingStartCommand: string := "streaming_start"

  /** `event.get("data", {}).get("event_type")` */
  function EventType(e: Event): Option<string> {
    match e.data
    case None => None
    case Some(d) => d.eventType
  }

  /** `event.get("data", {}).get("payload", {}).get("call_control_id")` */
  function CallControlId(e: Event): Option<string> {
    match e.data
    case None => None
    case Some(d) =>
      match d.payload
      case None => None
      case Some(p) => p.callControlId
  }

  /** Python truthiness of the call control id: absent and empty both count as missing. */
  predicate HasCallControlId(e: Event) {
    CallControlId(e).Some? && CallControlId(e).value != ""
  }

  /** The media websocket the call is told to stream to. */
  function StreamUrl(publicDomain: string): string {
    "wss://" + publicDomain + "/telnyx_media"
  }

  /** The body sent with `streaming_start`. */
  function StreamingStartBody(publicDomain: string): StreamingBody {
    StreamingBody(StreamUrl(publicDomain), "inbound_track", "rtp", "PCMU")
  }

  /**
   * Routes one webhook event. `publicDomain` and `telnyxApiKey` stand for the
   * configuration constants `PUBLIC_DOMAIN` and `TELNYX_API_KEY`.
   */
  function Route(e: Event, publicDomain: string, telnyxApiKey: string): (r: Reply)
    ensures r.status == Ignored <==> !HasCallControlId(e)
    ensures r.status == Ignored ==> r.commands == []
    ensures r.commands != [] <==> HasCallControlId(e) && EventType(e) == Some(CallInitiated)
    ensures forall c | c in r.commands ::
      c.callControlId == CallControlId(e).value && c.apiKey == telnyxApiKey
  {
    if !HasCallControlId(e) then
      Reply(Ignored, [])
    else
      var id := CallControlId(e).value;
      if EventType(e) == Some(CallInitiated) then
        Reply(Ok, [CallCommand(id, AnswerCommand, telnyxApiKey, None),
                   CallCommand(id, StreamingStartCommand, telnyxApiKey,
                               Some(StreamingStartBody(publicDomain)))])
      else
        Reply(Ok, [])
  }

  /** An event without a usable call control id is ignored and issues nothing. */
  lemma IgnoredWithoutCallControlId(e: Event, publicDomain: string, telnyxApiKey: string)
    requires !HasCallControlId(e)
    ensures Route(e, publicDomain, telnyxApiKey) == Reply(Ignored, [])
    ensures Route(e, publicDomain, telnyxApiKey).status.Text() == "ignored"
  {
  }

  /**
   * `call.initiated` with an id answers the call and then starts streaming to
   * the media endpoint of the public domain, inbound track, RTP mode, PCMU.
   */
  lemma InitiatedAnswersThenStreams(e: Event, publicDomain: string, telnyxApiKey: string)
    requires HasCallControlId(e) && EventType(e) == Some(CallInitiated)
    ensures var r := Route(e, publicDomain, telnyxApiKey);
      && r.status.Text() == "ok"
      && |r.commands| == 2
      && r.commands[0].command == "answer" && r.commands[0].body == None
      && r.commands[1].command == "streaming_start"
      && r.commands[1].body.Some?
      && r.commands[1].body.value.streamTrack == "inbound_track"
      && r.commands[1].body.value.bidirectionalMode == "rtp"
      && r.commands[1].body.value.bidirectionalCodec == "PCMU"
      && r.commands[1].body.value.streamUrl == "wss://" + publicDomain + "/telnyx_media"
  {
  }

  /** Any other event type with an id is acknowledged with "ok" and issues nothing. */
  lemma OtherEventsAcknowledged(e: Event, publicDomain: string, telnyxApiKey: string)
    requires HasCallControlId(e) && EventType(e) != Some(CallInitiated)
    ensures Route(e, publicDomain, telnyxApiKey) == Reply(Ok, [])
    ensures Route(e, publicDomain, telnyxApiKey).status.Text() == "ok"
  {
  }
}
