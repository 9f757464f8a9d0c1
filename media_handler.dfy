/**
 * The media websocket handler (`telnyx_media` in app/main.py) in the form the
 * source has: the mutable locals `stream_id` and `openai_ws` become fields of a
 * session object, the two receive loops become `while` loops over the decoded
 * messages, and every send and close is appended to the `effects` trace.
 * `Handle` is proved to produce exactly `MediaRelay.Session`.
 */
module MediaHandler {
  import opened Wrappers
  import opened MediaRelay

  class MediaSession {
    /** `stream_id`: unbound (`None`) until the start frame, then that frame's top-level `stream_id`. */
    var streamId: Option<string>
    /** Whether `openai_ws` holds a connection. */
    var modelOpen: bool
    var modelClosed: bool
    var telephonyClosed: bool
    /** The outbound actions so far, in order. */
    var effects: seq<Effect>

    /** A session as the handler starts it: nothing bound, nothing open, nothing sent. */
    predicate Initial()
      reads this
    {
      streamId == None && !modelOpen && !modelClosed && !telephonyClosed && effects == []
    }

    constructor ()
      ensures Initial()
    {
      streamId := None;
      modelOpen := false;
      modelClosed := false;
      telephonyClosed := false;
      effects := [];
    }

    /**
     * The start-wait loop: skips every message until the first `start`, binds
     * the stream id from it and returns the position of the next message; when
     * the channel runs dry first it returns `None` and binds nothing.
     */
    method AwaitStart(inbound: seq<InboundMessage>) returns (next: Option<nat>)
      modifies this`streamId
      ensures next == (match FindStart(inbound) case None => None case Some(k) => Some(k + 1))
      ensures streamId == (match FindStart(inbound) case None => old(streamId) case Some(k) => inbound[k].streamId)
    {
      var i := 0;
      while i < |inbound|
        invariant 0 <= i <= |inbound|
        invariant forall j | 0 <= j < i :: !inbound[j].Start?
        invariant streamId == old(streamId)
      {
        if inbound[i].Start? {
          streamId := inbound[i].streamId;
          return Some(i + 1);
        }
        i := i + 1;
      }
      return None;
    }

    /** Opens the model channel with the bearer credential, when the connection succeeds. */
    method OpenModelChannel(connectOk: bool, apiKey: string)
      modifies this`modelOpen, this`effects
      ensures modelOpen == (old(modelOpen) || connectOk)
      ensures effects == old(effects) + (if connectOk then [OpenModel(RealtimeUri, Authorization(apiKey))] else [])
    {
      if connectOk {
        modelOpen := true;
        effects := effects + [OpenModel(RealtimeUri, Authorization(apiKey))];
      }
    }

    /** Configures the transcription-only session. */
    method SendSessionUpdate()
      requires modelOpen && !modelClosed
      modifies this`effects
      ensures effects == old(effects) + [SendModel(SessionUpdate(TranscriptionSession))]
    {
      effects := effects + [SendModel(SessionUpdate(TranscriptionSession))];
    }

    /**
     * The relay loop over the messages from position `from` on: one append
     * per media payload, leaving at `stop`, `callEnded`, a media message
     * without payload, or the end of the channel.
     */
    method Pump(inbound: seq<InboundMessage>, from: nat) returns (end: EndReason)
      requires from <= |inbound|
      requires modelOpen && !modelClosed
      modifies this`effects
      ensures effects == old(effects) + Appended(Relay(inbound[from..]).audio)
      ensures end == Relay(inbound[from..]).end
    {
      var i := from;
      ghost var sent: seq<string> := [];
      while i < |inbound|
        invariant from <= i <= |inbound|
        invariant effects == old(effects) + Appended(sent)
        invariant Relay(inbound[from..]) == RelayResult(sent + Relay(inbound[i..]).audio, Relay(inbound[i..]).end)
      {
        assert inbound[i..][1..] == inbound[i + 1..];
        match inbound[i]
        case Media(Some(p)) =>
          effects := effects + [SendModel(AppendAudio(p))];
          assert Appended(sent + [p]) == Appended(sent) + [SendModel(AppendAudio(p))];
          sent := sent + [p];
          i := i + 1;
        case Media(None) =>
          return MissingPayload;
        case Stop =>
          return StopOrCallEnded;
        case CallEnded =>
          return StopOrCallEnded;
        case _ =>
          i := i + 1;
      }
      assert Appended(sent + []) == Appended(sent);
      return InboundClosed;
    }

    /** The `finally` block: closes the model channel if it was opened, then always the telephony channel. */
    method Teardown()
      modifies this`modelClosed, this`telephonyClosed, this`effects
      ensures modelClosed == (old(modelClosed) || modelOpen)
      ensures telephonyClosed
      ensures effects == old(effects) + (if modelOpen then [CloseModel] else []) + [CloseTelephony]
    {
      if modelOpen {
        effects := effects + [CloseModel];
        modelClosed := true;
      }
      effects := effects + [CloseTelephony];
      telephonyClosed := true;
    }

    /**
     * One run of the handler over the messages the telephony channel delivers.
     * `connectOk` says whether opening the model channel succeeds.
     */
    method Handle(inbound: seq<InboundMessage>, connectOk: bool, apiKey: string) returns (end: EndReason)
      requires Initial()
      modifies this
      ensures effects == Session(inbound, connectOk, apiKey).effects
      ensures streamId == Session(inbound, connectOk, apiKey).streamId
      ensures end == Session(inbound, connectOk, apiKey).end
      ensures telephonyClosed
      ensures modelClosed == modelOpen == Connects(inbound, connectOk)
    {
      var next := AwaitStart(inbound);
      if next.None? {
        Teardown();
        return InboundClosed;
      }
      OpenModelChannel(connectOk, apiKey);
      if !connectOk {
        Teardown();
        return ConnectFailed;
      }
      SendSessionUpdate();
      end := Pump(inbound, next.value);
      Teardown();
    }
  }
}
