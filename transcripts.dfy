/**
 * The model-side reader of `telnyx_media` (`read_openai_events` in app/main.py):
 * of all events arriving from the realtime model channel, it logs the transcript
 * of every completed input-audio transcription whose transcript is non-empty.
 */
module Transcripts {
  import opened Wrappers

  /** A decoded model-channel event: its `type` and its `transcript`, either possibly absent. */
  datatype ModelEvent = ModelEvent(eventType: Option<string>, transcript: Option<string>)

  const TranscriptionCompleted: string := "conversation.item.input_audio_transcription.completed"

  /** The line one event contributes: its transcript when it is a completed transcription with a non-empty one. */
  function Logged(e: ModelEvent): (r: seq<string>)
    ensures |r| <= 1
    ensures r != [] <==> e.eventType == Some(TranscriptionCompleted) && e.transcript.Some? && e.transcript.value != ""
    ensures r != [] ==> r[0] == e.transcript.value
  {
    if e.eventType == Some(TranscriptionCompleted) then
      match e.transcript
      case Some(t) => if t != "" then [t] else []
      case None => []
    else
      []
  }

  /** The transcripts logged for a stream of model events, in arrival order. */
  function TranscriptLog(events: seq<ModelEvent>): seq<string> {
    if events == [] then []
    else TranscriptLog(events[..|events| - 1]) + Logged(events[|events| - 1])
  }

  /** The reader loop: one pass over the model events, logging as it goes. */
  method ReadModelEvents(events: seq<ModelEvent>) returns (logged: seq<string>)
    ensures logged == TranscriptLog(events)
  {
    logged := [];
    var i := 0;
    while i < |events|
      invariant 0 <= i <= |events|
      invariant logged == TranscriptLog(events[..i])
    {
      var e := events[i];
      if e.eventType == Some(TranscriptionCompleted) {
        var t := if e.transcript.Some? then e.transcript.value else "";
        if t != "" {
          logged := logged + [t];
        }
      }
      assert events[..i + 1][..i] == events[..i];
      i := i + 1;
    }
    assert events[..i] == events;
  }

  /** Logging distributes over concatenation: the log keeps the arrival order. */
  lemma {:induction false} TranscriptLogAppend(a: seq<ModelEvent>, b: seq<ModelEvent>)
    ensures TranscriptLog(a + b) == TranscriptLog(a) + TranscriptLog(b)
    decreases |b|
  {
    if b == [] {
      assert a + b == a;
    } else {
      var b' := b[..|b| - 1];
      assert (a + b)[..|a + b| - 1] == a + b';
      TranscriptLogAppend(a, b');
    }
  }

  /** Every logged line is the non-empty transcript of some completed-transcription event. */
  lemma {:induction false} TranscriptLogSound(events: seq<ModelEvent>, t: string)
    requires t in TranscriptLog(events)
    ensures t != ""
    ensures exists i | 0 <= i < |events| :: events[i] == ModelEvent(Some(TranscriptionCompleted), Some(t))
  {
    var last := |events| - 1;
    var prefix := events[..last];
    if t in TranscriptLog(prefix) {
      TranscriptLogSound(prefix, t);
      var i :| 0 <= i < |prefix| && prefix[i] == ModelEvent(Some(TranscriptionCompleted), Some(t));
      assert events[i] == prefix[i];
    } else {
      assert t in Logged(events[last]);
      assert events[last] == ModelEvent(Some(TranscriptionCompleted), Some(t));
    }
  }

  /** Every completed-transcription event with a non-empty transcript is logged. */
  lemma TranscriptLogComplete(events: seq<ModelEvent>, i: nat)
    requires i < |events|
    requires events[i].eventType == Some(TranscriptionCompleted)
    requires events[i].transcript.Some? && events[i].transcript.value != ""
    ensures events[i].transcript.value in TranscriptLog(events)
  {
  }
}
