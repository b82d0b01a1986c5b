/** The websocket event logger: one log line per event, an emoji per event type,
    a direction icon, and a cursor-up rewrite when the same event type repeats. */
module LogUtils {
  import opened Wrappers
  import opened Strings
  import opened Json

  /** The emoji for each known event type. */
  const EventEmojis: map<string, string> := map[
      "session.update" := "\U{1f6e0}\U{fe0f}",
      "session.created" := "\U{1f50c}",
      "session.updated" := "\U{1f504}",
      "input_audio_buffer.append" := "\U{1f3a4}",
      "input_audio_buffer.commit" := "\U{2705}",
      "input_audio_buffer.speech_started" := "\U{1f5e3}\U{fe0f}",
      "input_audio_buffer.speech_stopped" := "\U{1f92b}",
      "input_audio_buffer.cleared" := "\U{1f9f9}",
      "input_audio_buffer.committed" := "\U{1f4e8}",
      "conversation.item.create" := "\U{1f4e5}",
      "conversation.item.delete" := "\U{1f5d1}\U{fe0f}",
      "conversation.item.truncate" := "\U{2702}\U{fe0f}",
      "conversation.item.created" := "\U{1f4e4}",
      "conversation.item.deleted" := "\U{1f5d1}\U{fe0f}",
      "conversation.item.truncated" := "\U{2702}\U{fe0f}",
      "response.create" := "\U{27a1}\U{fe0f}",
      "response.created" := "\U{1f4dd}",
      "response.output_item.added" := "\U{2795}",
      "response.output_item.done" := "\U{2705}",
      "response.text.delta" := "\U{270d}\U{fe0f}",
      "response.text.done" := "\U{1f4dd}",
      "response.audio.delta" := "\U{1f50a}",
      "response.audio.done" := "\U{1f507}",
      "response.done" := "\U{2714}\U{fe0f}",
      "response.cancel" := "\U{26d4}",
      "response.function_call_arguments.delta" := "\U{1f4e5}",
      "response.function_call_arguments.done" := "\U{1f4e5}",
      "rate_limits.updated" := "\U{23f3}",
      "error" := "\U{274c}",
      "conversation.item.input_audio_transcription.completed" := "\U{1f4dd}",
      "conversation.item.input_audio_transcription.failed" := "\U{26a0}\U{fe0f}"
    ]

  const UnknownEmoji := "\U{2753}"
  const OutIcon := "\U{2b06}\U{fe0f} - Out"
  const InIcon := "\U{2b07}\U{fe0f} - In"

  /** The escape sequence that moves the cursor up one line. */
  const CursorUp := "\U{1b}[F"

  /** What the logger writes: raw text to stdout, a flush, or one logger.info line. */
  datatype Output = StdoutWrite(text: string) | StdoutFlush | LogInfo(message: string)

  /** `event.get("type", "Unknown")`. */
  function EventType(event: Object): Json {
    Get(event, "type", JStr("Unknown"))
  }

  /** A value a Python dict lookup accepts as a key: lists and dicts are unhashable. */
  predicate Hashable(v: Json) {
    !v.JArr? && !v.JObj?
  }

  /** `event_emojis.get(event_type, "❓")`: the table entry for a known type, the
      question mark for any other hashable value, a TypeError for a list or dict. */
  function Emoji(eventType: Json): (r: Result<string, PyException>)
    ensures r.Failure? <==> !Hashable(eventType)
    ensures r.Failure? ==> r.error == TypeError
    ensures r.Success? && eventType.JStr? && eventType.s in EventEmojis ==>
              r.value == EventEmojis[eventType.s]
    ensures r.Success? && !(eventType.JStr? && eventType.s in EventEmojis) ==>
              r.value == UnknownEmoji
  {
    if !Hashable(eventType) then Failure(TypeError)
    else if eventType.JStr? && eventType.s in EventEmojis then Success(EventEmojis[eventType.s])
    else Success(UnknownEmoji)
  }

  /** The direction icon: "Out" exactly when the direction is "outgoing" in any case. */
  function Icon(direction: string): (r: string)
    ensures r == OutIcon <==> Lower(direction) == "outgoing"
    ensures r == InIcon <==> Lower(direction) != "outgoing"
  {
    if Lower(direction) == "outgoing" then OutIcon else InIcon
  }

  /** Python's `==` on two decoded values: as structural equality, except that
      `True == 1` and `False == 0`. */
  predicate PyEq(a: Json, b: Json) {
    if a.JBool? && b.JNum? then b.n == (if a.b then 1 else 0)
    else if a.JNum? && b.JBool? then a.n == (if b.b then 1 else 0)
    else a == b
  }

  /** The outcome of one call: what is written and the remembered type afterwards. */
  datatype LogStep = LogStep(output: seq<Output>, lastEventType: Json)

  /** One call of the logger from remembered type `last`. */
  function LogLines(last: Json, direction: string, event: Object, codec: Codec)
    : Result<LogStep, PyException>
  {
    var eventType := EventType(event);
    match Emoji(eventType)
    case Failure(e) => Failure(e)
    case Success(emoji) =>
      var message := emoji + " " + Icon(direction) + " " + Display(codec, eventType);
      var rewrite := if PyEq(eventType, last)
                     then [StdoutWrite(CursorUp), StdoutWrite("\r"), StdoutFlush]
                     else [];
      Success(LogStep(rewrite + [LogInfo(message)], eventType))
  }

  /** The line logged and the rewrite rule: a call succeeds exactly when the type is
      hashable; it then logs `emoji + " " + icon + " " + type`, preceded by the
      cursor-up sequence exactly when the type equals the remembered one, and
      remembers this call's type. */
  lemma LogLinesShape(last: Json, direction: string, event: Object, codec: Codec)
    ensures var r := LogLines(last, direction, event, codec);
            var t := EventType(event);
            && (r.Success? <==> Hashable(t))
            && (r.Failure? ==> r.error == TypeError)
            && (r.Success? ==>
                  && r.value.lastEventType == t
                  && |r.value.output| >= 1
                  && Last(r.value.output) == LogInfo(Emoji(t).value + " " + Icon(direction) + " " +
                                                     Display(codec, t))
                  && (PyEq(t, last) <==> |r.value.output| == 4)
                  && (PyEq(t, last) ==> r.value.output[..3] ==
                                          [StdoutWrite(CursorUp), StdoutWrite("\r"), StdoutFlush]))
  {
  }

  /** An event without a `type` is logged as "Unknown" with the question mark. */
  lemma {:induction false} MissingTypeIsUnknown(last: Json, direction: string, event: Object, codec: Codec)
    requires "type" !in event
    ensures var r := LogLines(last, direction, event, codec);
            r.Success? && Last(r.value.output) == LogInfo(UnknownEmoji + " " + Icon(direction) + " Unknown")
  {
    UnknownIsNotKnown();
  }

  lemma UnknownIsNotKnown()
    ensures "Unknown" !in EventEmojis
  {
    assert forall k :: k in EventEmojis ==> |k| != 7;
  }

  /** Logging two events of the same type in a row rewrites the line the second time. */
  lemma {:induction false} RepeatRewritesLine(last: Json, d1: string, e1: Object, d2: string, e2: Object, codec: Codec)
    requires LogLines(last, d1, e1, codec).Success?
    requires EventType(e1) == EventType(e2)
    ensures var r1 := LogLines(last, d1, e1, codec);
            var r2 := LogLines(r1.value.lastEventType, d2, e2, codec);
            r2.Success? && r2.value.output[0] == StdoutWrite(CursorUp)
  {
    var t := EventType(e1);
    assert PyEq(t, t);
  }

  /** The logger's module-level state, `_last_event_type`. */
  class WsEventLogger {
    var lastEventType: Json

    /** At import time the remembered type is None. */
    constructor ()
      ensures lastEventType == JNull
    {
      lastEventType := JNull;
    }

    /** `log_ws_event(direction, event)`. On a TypeError nothing is written and the
        remembered type is unchanged. */
    method LogWsEvent(direction: string, event: Object, codec: Codec)
        returns (r: Result<seq<Output>, PyException>)
      modifies this
      ensures var spec := LogLines(old(lastEventType), direction, event, codec);
              && (spec.Success? ==> r == Success(spec.value.output) && lastEventType == spec.value.lastEventType)
              && (spec.Failure? ==> r == Failure(spec.error) && lastEventType == old(lastEventType))
    {
      var eventType := EventType(event);
      var emoji := Emoji(eventType);
      if emoji.Failure? {
        return Failure(emoji.error);
      }
      var icon := Icon(direction);
      var message := emoji.value + " " + icon + " " + Display(codec, eventType);
      var out: seq<Output> := [];
      if PyEq(eventType, lastEventType) {
        out := out + [StdoutWrite(CursorUp)];
        out := out + [StdoutWrite("\r")];
        out := out + [StdoutFlush];
        assert out == [StdoutWrite(CursorUp), StdoutWrite("\r"), StdoutFlush];
      }
      out := out + [LogInfo(message)];
      lastEventType := eventType;
      r := Success(out);
    }
  }
}
