# Telnyx ↔ realtime-model call relay, modelled in Dafny

This project models the message routing of a small service that answers
Telnyx phone calls and streams their audio to OpenAI's realtime API for
transcription (`app/main.py`). It has two parts:

- **The call-control webhook** (`telnyx_webhook`). It takes a decoded event.
  It decides whether to ignore it, which call-control commands to issue and in
  what order, and the body of the `streaming_start` command. Module `Webhook`
  models it as one function, `Route`, over a record.
- **The media websocket handler** (`telnyx_media`). It waits for the `start`
  frame and binds `stream_id` from it. Then it opens the model channel and
  sends one `session.update`. It relays each `media` payload as an
  `input_audio_buffer.append` until `stop` or `callEnded`. Finally it closes
  the model channel, if it was opened, and then the telephony channel.
  - Module `MediaRelay` states this as pure functions over the sequence of
    decoded messages: `FindStart`, `Relay` and `Session`. Every outbound
    action goes, in order, into one trace of `Effect`s.
  - Its lemmas prove the routing properties of that trace.
  - Module `MediaHandler` holds the imperative form. Class `MediaSession`
    has the fields `streamId`, `modelOpen`, `modelClosed`, `telephonyClosed`
    and `effects`. Its loops mirror the source's two receive loops.
    `Handle` is proved to produce exactly `Session`'s trace, stream id and
    end reason.
- **The model-side reader** (`read_openai_events`). It logs the transcripts
  of completed input-audio transcriptions. Module `Transcripts` models it as
  a filter, `TranscriptLog`, plus the loop method `ReadModelEvents`.

Inputs that come from the outside world are parameters:
- the messages each channel delivers: a finite sequence, whose end stands
  for the channel's disconnect;
- whether `websockets.connect` succeeds (`connectOk`);
- the configuration constants `PUBLIC_DOMAIN`, `TELNYX_API_KEY` and
  `OPENAI_API_KEY`.

Where the code and the repository's description differ, the model follows the
code:
- The code reads `stream_id` from the top level of the start message, never
  from `start.stream_id`. It never uses it afterwards.
- A `stop` or `callEnded` that arrives before `start` does not end the wait.
  It is skipped like any other message.
- The code has no barge-in handling, no audio-delta playback and no tool
  calls. The session is transcription only (no output modalities) and sends no
  greeting `response.create`.
- The streaming codec is PCMU.

A `media` message without `media.payload` raises `KeyError` in the source.
That exception escapes the handler after the `finally` block has closed both
channels. The model keeps this path: `Media(None)` ends the relay with
`MissingPayload`. A failed model connection ends it with `ConnectFailed`,
and then only the telephony channel is closed.

## Model

| member | source | states |
|---|---|---|
| `Webhook.Route` | app/main.py:37-60 | The event is ignored exactly when its call control id is absent or empty, and then nothing is issued; commands are issued exactly for `call.initiated` with an id; every command is addressed to the event's call and carries the Telnyx key |
| `Webhook.EventType` | app/main.py:40-42 | No contract: `data.event_type`, absent when `data` or the field is missing; used by `Route` and its lemmas |
| `Webhook.CallControlId` | app/main.py:40-43 | No contract: `data.payload.call_control_id`, absent when any level is missing; used by `Route` and its lemmas |
| `Webhook.HasCallControlId` | app/main.py:45 | No contract: Python truthiness of the id (present and non-empty); described by `Route` and `IgnoredWithoutCallControlId` |
| `Webhook.StreamUrl` | app/main.py:51 | No contract: the media stream URL `wss://<domain>/telnyx_media`; described by `InitiatedAnswersThenStreams` |
| `Webhook.StreamingStartBody` | app/main.py:51-57 | No contract: the `streaming_start` body; described by `InitiatedAnswersThenStreams` |
| `Webhook.Status.Text` | app/main.py:46-60 | No contract: the reply's `status` string, "ignored" or "ok"; used by `IgnoredWithoutCallControlId`, `InitiatedAnswersThenStreams` and `OtherEventsAcknowledged` |
| `Webhook.IgnoredWithoutCallControlId` | app/main.py:40-46 | Without a call control id the reply is status "ignored" and no command is issued |
| `Webhook.InitiatedAnswersThenStreams` | app/main.py:48-58 | `call.initiated` with an id issues exactly two commands, `answer` (no body) then `streaming_start`, whose body is track `inbound_track`, mode `rtp`, codec `PCMU`, and URL `wss://` + public domain + `/telnyx_media`; the reply is "ok" |
| `Webhook.OtherEventsAcknowledged` | app/main.py:48-60 | Any other event type with an id issues nothing and replies "ok" |
| `Transcripts.Logged` | app/main.py:114-119 | One event yields a line exactly when it is a completed transcription with a non-empty transcript, and the line is that transcript |
| `Transcripts.TranscriptLog` | app/main.py:111-119 | No contract: the reader's filter over model events; described by `TranscriptLogAppend`, `TranscriptLogSound` and `TranscriptLogComplete`, and `ReadModelEvents` is proved equal to it |
| `Transcripts.ReadModelEvents` | app/main.py:111-119 | The reader loop logs exactly `TranscriptLog` of the events it reads |
| `Transcripts.TranscriptLogAppend` | app/main.py:112-119 | The log of two consecutive event streams is the first's log followed by the second's (arrival order kept) |
| `Transcripts.TranscriptLogSound` | app/main.py:116-119 | Every logged line is non-empty and is the transcript of some completed-transcription event |
| `Transcripts.TranscriptLogComplete` | app/main.py:116-119 | Every completed-transcription event with a non-empty transcript has its transcript logged |
| `MediaRelay.RealtimeUri` | app/main.py:84 | No contract: the realtime model URI; used by `Session` and `MediaSession.OpenModelChannel`, and pinned by `SessionUpdateOnceFirst` |
| `MediaRelay.Authorization` | app/main.py:85 | No contract: the bearer `Authorization` header; used by `Session` and `MediaSession.OpenModelChannel`, and pinned by `SessionUpdateOnceFirst` |
| `MediaRelay.TranscriptionSession` | app/main.py:90-107 | No contract: the `session` object of `session.update` (realtime, no output modalities, audio/pcmu, whisper-1, semantic_vad); used by `Session` and `MediaSession.SendSessionUpdate` |
| `MediaRelay.EndsRelay` | app/main.py:131-139 | No contract: the messages that leave the relay loop (`stop`, `callEnded`, and a media message whose payload lookup fails); used by `FirstExit` and the relay lemmas |
| `MediaRelay.FindStart` | app/main.py:77-81 | The wait loop stops at a `start` message and no earlier message is a `start`; without one, no message is |
| `MediaRelay.FirstExit` | app/main.py:130-139 | The relay loop leaves at the first `stop`, `callEnded` or payload-less media message, and at no earlier message |
| `MediaRelay.Relay` | app/main.py:130-139 | No contract: the relay loop after the start frame; described by `RelayForwardsMediaBeforeExit`, `RelayIgnoresAfterExit` and `RelaySkipsOtherKinds`, and `MediaSession.Pump` is proved equal to it |
| `MediaRelay.Appended` | app/main.py:133-136 | No contract: one `input_audio_buffer.append` per forwarded payload, in order; used by `Session` and `MediaSession.Pump`, and described by `SessionForwardsMedia` |
| `MediaRelay.MediaPayloads` | app/main.py:130-136 | No contract and no counterpart in the source: the reference definition (payloads of the media messages) that `RelayForwardsMediaBeforeExit` compares `Relay` with |
| `MediaRelay.MediaPayloadsAppend` | app/main.py:130-136 | Payload extraction distributes over concatenation, so it keeps receipt order |
| `MediaRelay.MediaPayloadAt` | app/main.py:130-136 | Each media message's payload appears unchanged at its own position among the extracted payloads |
| `MediaRelay.RelayForwardsMediaBeforeExit` | app/main.py:130-139 | The relay appends exactly the payloads of the media messages before the first stop condition, unchanged and in order; the end reason is stop, missing payload or channel end accordingly |
| `MediaRelay.RelayIgnoresAfterExit` | app/main.py:138-139 | Messages after the first stop condition change nothing the relay does |
| `MediaRelay.RelaySkipsOtherKinds` | app/main.py:130-139 | A message that is neither media nor a stop condition produces no output |
| `MediaRelay.SessionSkipsOne` | app/main.py:77-81 | One non-`start` message before the start frame, `stop` included, does not change the session |
| `MediaRelay.SessionSkipsUntilStart` | app/main.py:77-81 | Any run of non-`start` messages before the start frame, `stop`/`callEnded` included, does not change the session |
| `MediaRelay.BindsFirstStreamId` | app/main.py:77-81 | The stream id is the top-level `stream_id` of the first start frame (possibly absent); later start frames do not rebind it, and the relay reads exactly what follows the first start |
| `MediaRelay.Session` | app/main.py:65-147 | No contract: the whole handler; described by `SessionSkipsUntilStart`, `BindsFirstStreamId`, `SessionForwardsMedia`, `SessionUpdateOnceFirst`, `TeardownOrder` and `SessionEarlyExits`, and `MediaSession.Handle` is proved equal to it |
| `MediaRelay.AudioSent` | app/main.py:133-136 | No contract and no counterpart in the source: reads the appended audio back out of an effect trace, for `SessionForwardsMedia` and `BindsFirstStreamId` |
| `MediaRelay.Connects` | app/main.py:77-87 | No contract and no counterpart in the source: whether a run gets as far as opening the model channel; used by the session lemmas and `MediaSession.Handle` |
| `MediaRelay.AfterStart` | app/main.py:77-81 | No contract and no counterpart in the source: the messages after the first start frame, which the relay loop reads; used by `SessionForwardsMedia` |
| `MediaRelay.SessionForwardsMedia` | app/main.py:77-139 | The append commands of a connected session carry exactly the payloads of the media messages between the start frame and the first stop condition, unchanged and in receipt order |
| `MediaRelay.SessionUpdateOnceFirst` | app/main.py:84-136 | A connected session opens the model channel with the realtime URI and bearer key, then sends exactly one `session.update`, before every append; an unconnected one sends nothing to the model |
| `MediaRelay.TeardownOrder` | app/main.py:144-147 | The telephony channel is closed exactly once, as the last action; the model channel is closed exactly when it was opened, once, right before the telephony channel and after every command sent on it; the model channel is opened at most once, as the first action |
| `MediaRelay.SessionEarlyExits` | app/main.py:77-87 | Without a start frame the stream id stays unbound, only the telephony channel is closed and the end is `InboundClosed`; after a start frame, a failed connection ends in `ConnectFailed` with only the telephony channel closed |
| `MediaHandler.MediaSession.Initial` | app/main.py:72-73 | No contract: the state the handler starts from (no stream id, no channel open or closed, nothing sent); established by the constructor and required by `Handle` |
| `MediaHandler.MediaSession.constructor` | app/main.py:72-73 | A new session has no stream id, no open or closed channel and no effects |
| `MediaHandler.MediaSession.AwaitStart` | app/main.py:77-81 | The wait loop returns the position after the first `start` and binds its stream id, or returns none and binds nothing |
| `MediaHandler.MediaSession.OpenModelChannel` | app/main.py:84-87 | On success the model channel is open and the open action, with the realtime URI and bearer header, is recorded |
| `MediaHandler.MediaSession.SendSessionUpdate` | app/main.py:89-109 | The transcription-only `session.update` (no output modalities, PCMU input, whisper-1, semantic VAD) is appended to the trace |
| `MediaHandler.MediaSession.Pump` | app/main.py:130-139 | The relay loop appends exactly `Relay`'s commands to the trace and returns its end reason |
| `MediaHandler.MediaSession.Teardown` | app/main.py:144-147 | The model channel is closed only if open, then the telephony channel always |
| `MediaHandler.MediaSession.Handle` | app/main.py:65-147 | One run produces exactly `Session`'s effects, stream id and end reason; the telephony channel ends closed, and the model channel ends closed exactly when it was opened |

## Left out

- FastAPI setup, CORS, the `/health` endpoint, and websocket accept, receive and send. These are transport. Messages are taken as already decoded values, and sequence exhaustion stands for a disconnect.
- JSON encoding and decoding. Malformed JSON, non-object messages and ill-typed fields are not modelled. Optional fields are `Option<string>`.
- Python truthiness of `call_control_id` is modelled for strings only: absent, or `""`. Non-string JSON values are out of scope with decoding.
- The `KeyError` of a missing `media.payload` is modelled as the `MissingPayload` exit. The exception's propagation to the web framework is not modelled.
- `websockets.connect` is reduced to a success flag. Its failure propagates out of the handler as `ConnectFailed`.
- Sends that fail, and closes that raise, are not modelled. Every send and close is taken to succeed.
- `asyncio.create_task` and the reader's concurrency with the relay loop are not modelled. The reader is a separate filter over the model channel's events. The model also does not capture that the task is never cancelled at teardown.
- `Transcripts.ReadModelEvents`: its output is the transcript text, not the formatted log line `[TRANSCRIPT] …`. A `json.loads` failure, which would end the reader task, is not modelled.
- `telnyx_cmd` (app/utils/telnyx_http.py) is not part of this model. It is a POST whose URL is built from the call id and the command; `Route` returns the commands as values instead.
- app/agent_config.py is not part of this model. It holds the terminal banner and static configuration that `app/main.py` does not use. The names `app/main.py` imports from it are parameters.
- Logging is not modelled.
