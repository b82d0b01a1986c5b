/** The realtime session event processor, `process_ws_messages`: one loop that
    receives websocket messages in order, decodes each into an event, and reacts to
    it by driving the microphone, the playback, the visual indicator and the
    function-call accumulator, and by sending messages back.

    The step for one message is the function `Receive`; the loop is the method
    `ProcessWsMessages`, proved equal to the function `Run`. Everything the code
    does to its collaborators is an entry of an ordered effect log. */
module WebsocketHandler {
  import opened Wrappers
  import opened Strings
  import opened Json
  import LogUtils

  // ------------------------------------------------------------------ inputs

  /** One result of `websocket.recv()`: a text message, handled at clock reading
      `now`, or the ConnectionClosed exception. */
  datatype Inbound = Received(message: string, now: int) | ConnectionClosed

  /** What constructing a tool with the arguments and awaiting its `run()` gives:
      a value, or an exception with its `str()`. */
  datatype ToolOutcome = Returned(value: Json) | Failed(message: string)

  /** A tool class: its `__name__` and what calling it does. */
  datatype Tool = Tool(name: string, behaviour: Json -> ToolOutcome)

  // ------------------------------------------------------------------ outputs

  datatype Effect =
    | LogEvent(direction: string, event: Object)   // log_ws_event(direction, event)
    | MicStartReceiving                           // mic.start_receiving()
    | MicStopReceiving                            // mic.stop_receiving()
    | MicStartRecording                           // mic.start_recording()
    | MicStopRecording                            // mic.stop_recording()
    | SetActive(active: bool)                     // visual_interface.set_active(active)
    | Send(message: Json)                         // websocket.send(json.dumps(message))
    | PlayAudioChunk(chunk: seq<byte>)            // audio_player.play_audio_chunk(chunk, ...)
    | StopPlayback                                // audio_player.stop_playback(...)
    | PrintAssistant(text: string)                // print(text, end="")
    | LogRuntime(name: string, duration: int)     // log_runtime(name, duration)
    | ClosePlayer                                 // audio_player.close()

  // ------------------------------------------------------------------ state

  /** The loop's local variables. */
  datatype Session = Session(
    assistantReply: string,
    functionCall: Option<Object>,
    functionCallArgs: string,
    responseStartTime: Option<int>)

  const Initial := Session("", None, "", None)

  /** How the handling of one message ends: go on, `break` out of the loop after an
      unhandled error event, or an exception the loop does not catch. */
  datatype Control = Continue | Stop(errorMessage: Json) | Raise(exception: PyException)

  datatype StepResult = StepResult(session: Session, effects: seq<Effect>, control: Control)

  /** Why the loop is no longer running: still waiting on `recv()` when the inbound
      messages run out, the connection closed, an unhandled error event, or an
      exception that propagates out of the function. */
  datatype Exit = Waiting | Closed | UnhandledError(message: Json) | Raised(exception: PyException)

  datatype Outcome = Outcome(effects: seq<Effect>, session: Session, exit: Exit)

  // ------------------------------------------------------------------ wire strings

  const ResponseCreated := "response.created"
  const OutputItemAdded := "response.output_item.added"
  const ArgumentsDelta := "response.function_call_arguments.delta"
  const ArgumentsDone := "response.function_call_arguments.done"
  const TextDelta := "response.text.delta"
  const AudioDelta := "response.audio.delta"
  const ResponseDone := "response.done"
  const RateLimitsUpdated := "rate_limits.updated"
  const ErrorEvent := "error"
  const SpeechStarted := "input_audio_buffer.speech_started"
  const SpeechStopped := "input_audio_buffer.speech_stopped"

  const BufferIsEmpty := "buffer is empty"
  const ActiveResponse := "Conversation already has an active response"

  const ResponseCreate := JObj(map["type" := JStr("response.create")])

  // ------------------------------------------------------------------ function calls

  /** The arguments a completed call is made with: `{}` for an empty buffer or one
      that is not JSON, the decoded buffer otherwise. */
  function CallArguments(buffer: string, codec: Codec): Json {
    if buffer == "" then JObj(map[])
    else match codec.loads(buffer)
         case None => JObj(map[])
         case Some(v) => v
  }

  predicate NameMatches(t: Tool, name: string) {
    Lower(t.name) == Lower(name)
  }

  /** `next(t for t in tools if t.__name__.lower() == name.lower())`, as an index. */
  function FindTool(tools: seq<Tool>, name: string): (k: Option<nat>)
    ensures k.Some? ==> k.value < |tools| && NameMatches(tools[k.value], name) &&
                        forall j :: 0 <= j < k.value ==> !NameMatches(tools[j], name)
    ensures k.None? ==> forall j :: 0 <= j < |tools| ==> !NameMatches(tools[j], name)
    decreases |tools|
  {
    if tools == [] then None
    else if NameMatches(tools[0], name) then Some(0)
    else match FindTool(tools[1..], name)
         case None => None
         case Some(k) => Some(k + 1)
  }

  function ErrorResult(text: string): Json {
    JObj(map["error" := JStr(text)])
  }

  function NotFound(name: string): Json {
    ErrorResult("Function '" + name + "' not found.")
  }

  function ToolFailed(name: string, message: string): Json {
    ErrorResult("Function '" + name + "' failed: " + message)
  }

  /** The `result` of a completed call. With no tools the generator never looks at
      the name; otherwise a name that is not a string has no `.lower()`. */
  function ToolResult(name: Json, args: Json, codec: Codec, tools: seq<Tool>): Result<Json, PyException> {
    if tools == [] then Success(NotFound(Display(codec, name)))
    else if !name.JStr? then Failure(AttributeError)
    else match FindTool(tools, name.s)
         case None => Success(NotFound(name.s))
         case Some(k) =>
           match tools[k].behaviour(args)
           case Returned(v) => Success(v)
           case Failed(m) => Success(ToolFailed(name.s, m))
  }

  /** The `conversation.item.create` message that returns a result. */
  function FunctionCallOutput(callId: Json, output: string): Object {
    map["type" := JStr("conversation.item.create"),
        "item" := JObj(map["type" := JStr("function_call_output"),
                           "call_id" := callId,
                           "output" := JStr(output)])]
  }

  /** `response.function_call_arguments.done` with a pending call. */
  function CompleteCall(s: Session, codec: Codec, tools: seq<Tool>): StepResult
    requires s.functionCall.Some?
  {
    var call := s.functionCall.value;
    var name := Get(call, "name", JNull);
    var callId := Get(call, "call_id", JNull);
    match ToolResult(name, CallArguments(s.functionCallArgs, codec), codec, tools)
    case Failure(e) => StepResult(s, [], Raise(e))
    case Success(result) =>
      var output := FunctionCallOutput(callId, codec.dumps(result));
      StepResult(s.(functionCall := None, functionCallArgs := ""),
                 [LogEvent("outgoing", output), Send(JObj(output)), Send(ResponseCreate)],
                 Continue)
  }

  // ------------------------------------------------------------------ errors

  /** Python's `needle in container` for a decoded value: a substring test on a
      string, membership on a list or among a dict's keys, a TypeError otherwise. */
  function PyIn(needle: string, container: Json): (r: Result<bool, PyException>)
    ensures r.Failure? <==> !(container.JStr? || container.JArr? || container.JObj?)
    ensures r.Failure? ==> r.error.TypeError?
  {
    match container
    case JStr(s) => Success(Contains(s, needle))
    case JArr(xs) => Success(JStr(needle) in xs)
    case JObj(m) => Success(needle in m)
    case _ => Failure(TypeError)
  }

  /** The `error` event: the two known messages are ignored, any other ends the loop. */
  function HandleError(s: Session, event: Object): StepResult {
    match Get(event, "error", JObj(map[]))
    case JObj(err) =>
      var message := Get(err, "message", JStr(""));
      (match PyIn(BufferIsEmpty, message)
       case Failure(e) => StepResult(s, [], Raise(e))
       case Success(true) => StepResult(s, [], Continue)
       case Success(false) =>
         match PyIn(ActiveResponse, message)
         case Failure(e) => StepResult(s, [], Raise(e))
         case Success(true) => StepResult(s, [], Continue)
         case Success(false) => StepResult(s, [], Stop(message)))
    case _ => StepResult(s, [], Raise(AttributeError))
  }

  // ------------------------------------------------------------------ one event

  /** The branch of the `if`/`elif` chain taken for a decoded event. */
  function Handle(s: Session, event: Object, now: int, codec: Codec, tools: seq<Tool>): (r: StepResult)
    ensures ClosePlayer !in r.effects
  {
    var t := Get(event, "type", JNull);
    if t == JStr(ResponseCreated) then
      StepResult(s, [MicStartReceiving, SetActive(true)], Continue)
    else if t == JStr(OutputItemAdded) then
      match Get(event, "item", JObj(map[]))
      case JObj(item) =>
        if Get(item, "type", JNull) == JStr("function_call")
        then StepResult(s.(functionCall := Some(item), functionCallArgs := ""), [], Continue)
        else StepResult(s, [], Continue)
      case _ => StepResult(s, [], Raise(AttributeError))
    else if t == JStr(ArgumentsDelta) then
      match Get(event, "delta", JStr(""))
      case JStr(d) => StepResult(s.(functionCallArgs := s.functionCallArgs + d), [], Continue)
      case _ => StepResult(s, [], Raise(TypeError))
    else if t == JStr(ArgumentsDone) then
      if s.functionCall.Some? then CompleteCall(s, codec, tools)
      else StepResult(s, [], Continue)
    else if t == JStr(TextDelta) then
      match Get(event, "delta", JStr(""))
      case JStr(d) => StepResult(s.(assistantReply := s.assistantReply + d),
                                 [PrintAssistant("Assistant: " + d)], Continue)
      case _ => StepResult(s, [], Raise(TypeError))
    else if t == JStr(AudioDelta) then
      if "delta" !in event then StepResult(s, [], Raise(KeyError))
      else match event["delta"]
           case JStr(text) =>
             (match codec.b64decode(text)
              case None => StepResult(s, [], Raise(Base64Error))
              case Some(chunk) => StepResult(s, [PlayAudioChunk(chunk)], Continue))
           case _ => StepResult(s, [], Raise(TypeError))
    else if t == JStr(ResponseDone) then
      var timing := if s.responseStartTime.Some?
                    then [LogRuntime("realtime_api_response", now - s.responseStartTime.value)]
                    else [];
      StepResult(s.(assistantReply := "", responseStartTime := None),
                 timing + [StopPlayback, MicStopReceiving, SetActive(false), MicStartRecording],
                 Continue)
    else if t == JStr(RateLimitsUpdated) then
      StepResult(s, [MicStartRecording], Continue)
    else if t == JStr(ErrorEvent) then
      HandleError(s, event)
    else if t == JStr(SpeechStarted) then
      StepResult(s, [SetActive(true)], Continue)
    else if t == JStr(SpeechStopped) then
      StepResult(s.(responseStartTime := Some(now)), [MicStopRecording, SetActive(false)], Continue)
    else
      StepResult(s, [], Continue)
  }

  /** One turn of the loop on a received message: `json.loads`, `log_ws_event`,
      then the branch for the event's type. A message that is not JSON, an event
      that is not an object, or a list or dict as its type raises. */
  function Receive(s: Session, message: string, now: int, codec: Codec, tools: seq<Tool>): StepResult {
    match codec.loads(message)
    case None => StepResult(s, [], Raise(JSONDecodeError))
    case Some(v) =>
      if !v.JObj? then StepResult(s, [], Raise(AttributeError))
      else if !LogUtils.Hashable(LogUtils.EventType(v.fields)) then StepResult(s, [], Raise(TypeError))
      else
        var r := Handle(s, v.fields, now, codec, tools);
        r.(effects := [LogEvent("incoming", v.fields)] + r.effects)
  }

  // ------------------------------------------------------------------ the loop

  /** The loop from session `s` over the remaining inbound messages. A `break`
      (connection closed, unhandled error) is followed by `audio_player.close()`;
      an uncaught exception leaves the function without it. */
  function Run(s: Session, inbound: seq<Inbound>, codec: Codec, tools: seq<Tool>): Outcome
    decreases |inbound|
  {
    if inbound == [] then Outcome([], s, Waiting)
    else match inbound[0]
      case ConnectionClosed => Outcome([ClosePlayer], s, Closed)
      case Received(message, now) =>
        var r := Receive(s, message, now, codec, tools);
        match r.control
        case Continue =>
          var rest := Run(r.session, inbound[1..], codec, tools);
          Outcome(r.effects + rest.effects, rest.session, rest.exit)
        case Stop(m) => Outcome(r.effects + [ClosePlayer], r.session, UnhandledError(m))
        case Raise(e) => Outcome(r.effects, r.session, Raised(e))
  }

  /** `Run` on a non-empty inbound sequence, one message at a time. */
  lemma RunHead(s: Session, inbound: seq<Inbound>, codec: Codec, tools: seq<Tool>)
    requires inbound != []
    ensures inbound[0].ConnectionClosed? ==> Run(s, inbound, codec, tools) == Outcome([ClosePlayer], s, Closed)
    ensures inbound[0].Received? ==>
              var r := Receive(s, inbound[0].message, inbound[0].now, codec, tools);
              var whole := Run(s, inbound, codec, tools);
              var rest := Run(r.session, inbound[1..], codec, tools);
              && (r.control.Continue? ==> whole.effects == r.effects + rest.effects && whole.exit == rest.exit &&
                                          whole.session == rest.session)
              && (r.control.Stop? ==> whole.effects == r.effects + [ClosePlayer] &&
                                      whole.exit == UnhandledError(r.control.errorMessage))
              && (r.control.Raise? ==> whole.effects == r.effects && whole.exit == Raised(r.control.exception))
  {
  }

  /** The loop invariant while running: what the loop has logged so far, followed by
      the run from session `s` over the messages still to come, is the whole run. */
  ghost predicate Pending(whole: Outcome, effects: seq<Effect>, s: Session, rest: seq<Inbound>, codec: Codec, tools: seq<Tool>) {
    var o := Run(s, rest, codec, tools);
    whole.effects == effects + o.effects && whole.exit == o.exit
  }

  lemma PendingContinue(whole: Outcome, effects: seq<Effect>, s: Session, rest: seq<Inbound>, codec: Codec, tools: seq<Tool>)
    requires rest != [] && rest[0].Received? && Pending(whole, effects, s, rest, codec, tools)
    requires Receive(s, rest[0].message, rest[0].now, codec, tools).control.Continue?
    ensures var r := Receive(s, rest[0].message, rest[0].now, codec, tools);
            Pending(whole, effects + r.effects, r.session, rest[1..], codec, tools)
  {
    RunHead(s, rest, codec, tools);
    var r := Receive(s, rest[0].message, rest[0].now, codec, tools);
    var o := Run(r.session, rest[1..], codec, tools);
    Assoc(effects, r.effects, o.effects);
  }

  lemma PendingBreak(whole: Outcome, effects: seq<Effect>, s: Session, rest: seq<Inbound>, codec: Codec, tools: seq<Tool>)
    requires rest != [] && Pending(whole, effects, s, rest, codec, tools)
    ensures rest[0].ConnectionClosed? ==> whole.effects == effects + [ClosePlayer] && whole.exit == Closed
    ensures rest[0].Received? ==>
              var r := Receive(s, rest[0].message, rest[0].now, codec, tools);
              && (r.control.Stop? ==> whole.effects == effects + r.effects + [ClosePlayer] &&
                                      whole.exit == UnhandledError(r.control.errorMessage))
              && (r.control.Raise? ==> whole.effects == effects + r.effects &&
                                       whole.exit == Raised(r.control.exception))
  {
    RunHead(s, rest, codec, tools);
    if rest[0].Received? {
      var r := Receive(s, rest[0].message, rest[0].now, codec, tools);
      Assoc(effects, r.effects, [ClosePlayer]);
    }
  }

  /** `process_ws_messages(websocket, mic, visual_interface, tools)`. */
  method ProcessWsMessages(inbound: seq<Inbound>, codec: Codec, tools: seq<Tool>)
      returns (effects: seq<Effect>, exit: Exit)
    ensures effects == Run(Initial, inbound, codec, tools).effects
    ensures exit == Run(Initial, inbound, codec, tools).exit
  {
    var assistantReply := "";
    var functionCall: Option<Object> := None;
    var functionCallArgs := "";
    var responseStartTime: Option<int> := None;
    effects := [];
    exit := Waiting;
    var running := true;
    var i := 0;
    ghost var whole := Run(Initial, inbound, codec, tools);
    DropNone(inbound);
    while running && i < |inbound|
      invariant 0 <= i <= |inbound|
      invariant running ==>
        Pending(whole, effects, Session(assistantReply, functionCall, functionCallArgs, responseStartTime),
                inbound[i..], codec, tools) && exit == Waiting
      invariant !running ==> whole.effects == effects + [ClosePlayer] && whole.exit == exit
      decreases |inbound| - i, running
    {
      var s := Session(assistantReply, functionCall, functionCallArgs, responseStartTime);
      PendingBreak(whole, effects, s, inbound[i..], codec, tools);
      DropHead(inbound, i);
      if inbound[i].ConnectionClosed? {
        exit := Closed;
        running := false;
      } else {
        var r := Receive(s, inbound[i].message, inbound[i].now, codec, tools);
        if r.control.Continue? {
          PendingContinue(whole, effects, s, inbound[i..], codec, tools);
        }
        effects := effects + r.effects;
        assistantReply, functionCall := r.session.assistantReply, r.session.functionCall;
        functionCallArgs, responseStartTime := r.session.functionCallArgs, r.session.responseStartTime;
        assert Session(assistantReply, functionCall, functionCallArgs, responseStartTime) == r.session;
        if r.control.Raise? {
          return effects, Raised(r.control.exception);
        } else if r.control.Stop? {
          exit := UnhandledError(r.control.errorMessage);
          running := false;
        } else {
          i := i + 1;
        }
      }
    }
    if !running {
      effects := effects + [ClosePlayer];
    } else {
      DropAll(inbound);
    }
  }

  lemma DropNone<T>(s: seq<T>)
    ensures s[0..] == s
  {
  }

  lemma DropHead<T>(s: seq<T>, i: nat)
    requires i < |s|
    ensures s[i..][0] == s[i] && s[i..][1..] == s[i + 1..]
  {
  }

  lemma DropAll<T>(s: seq<T>)
    ensures s[|s|..] == []
  {
  }

  // ------------------------------------------------------------------ properties

  /** `message` decodes to the event object `ev`, whose type is the string `t`. */
  predicate IsEvent(codec: Codec, message: string, ev: Object, t: string) {
    codec.loads(message) == Some(JObj(ev)) && Get(ev, "type", JNull) == JStr(t)
  }

  /** `response.output_item.added`: a `function_call` item replaces the pending call,
      even one that is still open, and empties the argument buffer; any other item
      changes nothing. */
  lemma OutputItemAddedReplacesCall(s: Session, message: string, now: int, codec: Codec, tools: seq<Tool>, ev: Object)
    requires IsEvent(codec, message, ev, OutputItemAdded)
    requires Get(ev, "item", JObj(map[])).JObj?
    ensures var r := Receive(s, message, now, codec, tools);
            var item := Get(ev, "item", JObj(map[])).fields;
            && r.control == Continue
            && r.effects == [LogEvent("incoming", ev)]
            && (Get(item, "type", JNull) == JStr("function_call") ==>
                  r.session == s.(functionCall := Some(item), functionCallArgs := ""))
            && (Get(item, "type", JNull) != JStr("function_call") ==> r.session == s)
  {
  }

  /** `response.function_call_arguments.delta` appends its `delta` (missing: ""),
      whether or not a call is pending. */
  lemma ArgumentDeltaAppends(s: Session, message: string, now: int, codec: Codec, tools: seq<Tool>, ev: Object, d: string)
    requires IsEvent(codec, message, ev, ArgumentsDelta)
    requires Get(ev, "delta", JStr("")) == JStr(d)
    ensures var r := Receive(s, message, now, codec, tools);
            r.control == Continue && r.effects == [LogEvent("incoming", ev)] &&
            r.session == s.(functionCallArgs := s.functionCallArgs + d)
  {
  }

  /** An inbound message that is an argument delta carrying `d`. */
  predicate IsDeltaMessage(codec: Codec, m: Inbound, d: string) {
    m.Received? &&
    match codec.loads(m.message)
    case Some(JObj(ev)) => Get(ev, "type", JNull) == JStr(ArgumentsDelta) && Get(ev, "delta", JStr("")) == JStr(d)
    case _ => false
  }

  /** A run of argument deltas leaves the loop waiting, with the buffer extended by
      the concatenation of the deltas in arrival order and the pending call as it was. */
  lemma {:induction false} ArgumentsAccumulate(s: Session, inbound: seq<Inbound>, ds: seq<string>, codec: Codec, tools: seq<Tool>)
    requires |inbound| == |ds|
    requires forall i :: 0 <= i < |inbound| ==> IsDeltaMessage(codec, inbound[i], ds[i])
    ensures var o := Run(s, inbound, codec, tools);
            o.exit == Waiting && o.session == s.(functionCallArgs := s.functionCallArgs + Join(ds, ""))
    decreases |inbound|
  {
    if inbound != [] {
      assert IsDeltaMessage(codec, inbound[0], ds[0]);
      var ev := codec.loads(inbound[0].message).value.fields;
      ArgumentDeltaAppends(s, inbound[0].message, inbound[0].now, codec, tools, ev, ds[0]);
      var s' := s.(functionCallArgs := s.functionCallArgs + ds[0]);
      RunHead(s, inbound, codec, tools);
      DeltasTail(codec, inbound, ds);
      ArgumentsAccumulate(s', inbound[1..], ds[1..], codec, tools);
      JoinNoSep(ds);
      Assoc(s.functionCallArgs, ds[0], Join(ds[1..], ""));
    }
  }

  lemma DeltasTail(codec: Codec, inbound: seq<Inbound>, ds: seq<string>)
    requires |inbound| == |ds| > 0
    requires forall i :: 0 <= i < |inbound| ==> IsDeltaMessage(codec, inbound[i], ds[i])
    ensures forall i :: 0 <= i < |inbound[1..]| ==> IsDeltaMessage(codec, inbound[1..][i], ds[1..][i])
  {
    forall i | 0 <= i < |inbound[1..]|
      ensures IsDeltaMessage(codec, inbound[1..][i], ds[1..][i])
    {
      assert inbound[1..][i] == inbound[i + 1] && ds[1..][i] == ds[i + 1];
    }
  }

  /** An event whose `item` is a `function_call`: the one event that opens a call. */
  predicate OpensCall(ev: Object) {
    Get(ev, "type", JNull) == JStr(OutputItemAdded) &&
    match Get(ev, "item", JObj(map[]))
    case JObj(item) => Get(item, "type", JNull) == JStr("function_call")
    case _ => false
  }

  /** A message whose event neither opens a call, nor carries argument text, nor
      (with a call pending) completes one. A message that does not decode to an
      object qualifies: it raises before any branch. */
  predicate LeavesCall(codec: Codec, message: string, pending: bool) {
    match codec.loads(message)
    case Some(JObj(ev)) =>
      !OpensCall(ev) && Get(ev, "type", JNull) != JStr(ArgumentsDelta) &&
      !(pending && Get(ev, "type", JNull) == JStr(ArgumentsDone))
    case _ => true
  }

  /** Every other event leaves the pending call and its argument buffer as they
      were, whether it continues, stops or raises. */
  lemma CallUntouched(s: Session, message: string, now: int, codec: Codec, tools: seq<Tool>)
    requires LeavesCall(codec, message, s.functionCall.Some?)
    ensures var r := Receive(s, message, now, codec, tools);
            r.session.functionCall == s.functionCall && r.session.functionCallArgs == s.functionCallArgs
  {
  }

  /** The argument text a message carries: the `delta` of an argument delta. */
  function ArgumentText(codec: Codec, m: Inbound): Option<string> {
    if !m.Received? then None
    else match codec.loads(m.message)
      case Some(JObj(ev)) =>
        if Get(ev, "type", JNull) != JStr(ArgumentsDelta) then None
        else (match Get(ev, "delta", JStr(""))
              case JStr(d) => Some(d)
              case _ => None)
      case _ => None
  }

  /** The argument texts of a run of messages, in arrival order. */
  function ArgumentTexts(codec: Codec, ms: seq<Inbound>): seq<string>
    decreases |ms|
  {
    if ms == [] then []
    else (match ArgumentText(codec, ms[0]) case Some(d) => [d] case None => []) + ArgumentTexts(codec, ms[1..])
  }

  /** A message that may arrive while a call is open without closing it: received,
      neither a new `function_call` item nor a `done`, and continuing the loop. */
  predicate KeepsCallOpen(codec: Codec, tools: seq<Tool>, m: Inbound) {
    && m.Received?
    && Receive(Initial, m.message, m.now, codec, tools).control.Continue?
    && match codec.loads(m.message)
       case Some(JObj(ev)) => !OpensCall(ev) && Get(ev, "type", JNull) != JStr(ArgumentsDone)
       case _ => true
  }

  /** One such message, from any session: the loop goes on, the pending call stays,
      and the buffer grows by the message's argument text, if any. */
  lemma KeepsCallOpenStep(s: Session, m: Inbound, codec: Codec, tools: seq<Tool>)
    requires KeepsCallOpen(codec, tools, m)
    ensures var r := Receive(s, m.message, m.now, codec, tools);
            && r.control.Continue?
            && r.session.functionCall == s.functionCall
            && r.session.functionCallArgs ==
                 s.functionCallArgs + (match ArgumentText(codec, m) case Some(d) => d case None => "")
  {
    var v := codec.loads(m.message);
    if v.Some? && v.value.JObj? && Get(v.value.fields, "type", JNull) == JStr(ArgumentsDelta) {
      match Get(v.value.fields, "delta", JStr(""))
      case JStr(d) =>
        ArgumentDeltaAppends(s, m.message, m.now, codec, tools, v.value.fields, d);
      case _ =>
    } else {
      CallUntouched(s, m.message, m.now, codec, tools);
      EmptyRight(s.functionCallArgs);
    }
  }

  /** A run of messages that keep the call open leaves the loop waiting, the pending
      call as it was, and the buffer extended by the run's argument texts in order. */
  lemma {:induction false} CallStaysOpen(s: Session, rest: seq<Inbound>, codec: Codec, tools: seq<Tool>)
    requires forall i :: 0 <= i < |rest| ==> KeepsCallOpen(codec, tools, rest[i])
    ensures var o := Run(s, rest, codec, tools);
            && o.exit == Waiting
            && o.session.functionCall == s.functionCall
            && o.session.functionCallArgs == s.functionCallArgs + Join(ArgumentTexts(codec, rest), "")
    decreases |rest|
  {
    if rest == [] {
      EmptyRight(s.functionCallArgs);
    } else {
      var m := rest[0];
      KeepsTail(codec, tools, rest);
      KeepsCallOpenStep(s, m, codec, tools);
      RunHead(s, rest, codec, tools);
      var r := Receive(s, m.message, m.now, codec, tools);
      CallStaysOpen(r.session, rest[1..], codec, tools);
      JoinPiece(s.functionCallArgs, ArgumentText(codec, m), ArgumentTexts(codec, rest[1..]));
    }
  }

  lemma KeepsTail(codec: Codec, tools: seq<Tool>, rest: seq<Inbound>)
    requires rest != []
    requires forall i :: 0 <= i < |rest| ==> KeepsCallOpen(codec, tools, rest[i])
    ensures KeepsCallOpen(codec, tools, rest[0])
    ensures forall i :: 0 <= i < |rest[1..]| ==> KeepsCallOpen(codec, tools, rest[1..][i])
  {
    forall i | 0 <= i < |rest[1..]|
      ensures KeepsCallOpen(codec, tools, rest[1..][i])
    {
      assert rest[1..][i] == rest[i + 1];
    }
  }

  lemma JoinPiece(pre: string, x: Option<string>, tail: seq<string>)
    ensures (pre + (match x case Some(d) => d case None => "")) + Join(tail, "") ==
            pre + Join((match x case Some(d) => [d] case None => []) + tail, "")
  {
    match x
    case Some(d) =>
      JoinNoSep([d] + tail);
      assert ([d] + tail)[1..] == tail;
      Assoc(pre, d, Join(tail, ""));
    case None =>
      EmptyRight(pre);
      assert [] + tail == tail;
  }

  /** After a `function_call` item opens a call, the buffer is exactly the in-order
      concatenation of the argument deltas received since, whatever other events
      arrive between them, as long as none opens or completes a call. */
  lemma ArgumentsSinceReset(s: Session, added: Inbound, ev: Object, rest: seq<Inbound>,
                            codec: Codec, tools: seq<Tool>)
    requires added.Received? && IsEvent(codec, added.message, ev, OutputItemAdded)
    requires Get(ev, "item", JObj(map[])).JObj?
    requires Get(Get(ev, "item", JObj(map[])).fields, "type", JNull) == JStr("function_call")
    requires forall i :: 0 <= i < |rest| ==> KeepsCallOpen(codec, tools, rest[i])
    ensures var o := Run(s, [added] + rest, codec, tools);
            o.exit == Waiting &&
            o.session.functionCall == Some(Get(ev, "item", JObj(map[])).fields) &&
            o.session.functionCallArgs == Join(ArgumentTexts(codec, rest), "")
  {
    var inbound := [added] + rest;
    OutputItemAddedReplacesCall(s, added.message, added.now, codec, tools, ev);
    RunHead(s, inbound, codec, tools);
    assert inbound[1..] == rest;
    var item := Get(ev, "item", JObj(map[])).fields;
    CallStaysOpen(s.(functionCall := Some(item), functionCallArgs := ""), rest, codec, tools);
    assert "" + Join(ArgumentTexts(codec, rest), "") == Join(ArgumentTexts(codec, rest), "");
  }

  /** `response.function_call_arguments.done` with no pending call sends nothing
      and changes nothing. */
  lemma DoneWithoutCallIsNoOp(s: Session, message: string, now: int, codec: Codec, tools: seq<Tool>, ev: Object)
    requires IsEvent(codec, message, ev, ArgumentsDone)
    requires s.functionCall.None?
    ensures var r := Receive(s, message, now, codec, tools);
            r.control == Continue && r.effects == [LogEvent("incoming", ev)] && r.session == s
  {
  }

  /** Tool resolution: the result comes from the first tool whose lower-cased name
      equals the lower-cased function name; no such tool gives the not-found error,
      a failing tool the failed error. A name that is not a string raises as soon as
      there is a tool to compare it with; with no tools it is simply not found. */
  lemma ToolResolution(name: Json, args: Json, codec: Codec, tools: seq<Tool>)
    ensures tools == [] ==> ToolResult(name, args, codec, tools) == Success(NotFound(Display(codec, name)))
    ensures tools != [] && !name.JStr? ==> ToolResult(name, args, codec, tools) == Failure(AttributeError)
    ensures name.JStr? && (forall j :: 0 <= j < |tools| ==> !NameMatches(tools[j], name.s)) ==>
              ToolResult(name, args, codec, tools) ==
                Success(ErrorResult("Function '" + name.s + "' not found."))
    ensures forall k :: 0 <= k < |tools| && name.JStr? && NameMatches(tools[k], name.s) &&
                        (forall j :: 0 <= j < k ==> !NameMatches(tools[j], name.s)) ==>
              ToolResult(name, args, codec, tools) ==
                match tools[k].behaviour(args)
                case Returned(v) => Success(v)
                case Failed(m) => Success(ErrorResult("Function '" + name.s + "' failed: " + m))
  {
    if name.JStr? {
      forall k | 0 <= k < |tools| && NameMatches(tools[k], name.s) &&
                 (forall j :: 0 <= j < k ==> !NameMatches(tools[j], name.s))
        ensures FindTool(tools, name.s) == Some(k)
      {
        FindToolFirst(tools, name.s, k);
      }
    }
  }

  /** The first matching tool is the one found. */
  lemma {:induction false} FindToolFirst(tools: seq<Tool>, name: string, k: nat)
    requires k < |tools| && NameMatches(tools[k], name)
    requires forall j :: 0 <= j < k ==> !NameMatches(tools[j], name)
    ensures FindTool(tools, name) == Some(k)
    decreases k
  {
    if k > 0 {
      FindToolFirst(tools[1..], name, k - 1);
    }
  }

  /** `response.function_call_arguments.done` with a pending call: the tool is called
      with the decoded buffer (`{}` when empty or not JSON); exactly two messages are
      sent, a `function_call_output` item carrying the pending `call_id` and the
      serialised result, then `response.create`; the call and the buffer are cleared. */
  lemma DoneWithCallSendsOutput(s: Session, message: string, now: int, codec: Codec, tools: seq<Tool>, ev: Object)
    requires IsEvent(codec, message, ev, ArgumentsDone)
    requires s.functionCall.Some?
    ensures var r := Receive(s, message, now, codec, tools);
            var name := Get(s.functionCall.value, "name", JNull);
            var callId := Get(s.functionCall.value, "call_id", JNull);
            var args := if s.functionCallArgs == "" || codec.loads(s.functionCallArgs).None? then JObj(map[])
                        else codec.loads(s.functionCallArgs).value;
            var result := ToolResult(name, args, codec, tools);
            && (result.Failure? ==> r.control == Raise(result.error) && r.session == s)
            && (result.Success? ==>
                  var output := FunctionCallOutput(callId, codec.dumps(result.value));
                  && r.control == Continue
                  && r.effects == [LogEvent("incoming", ev), LogEvent("outgoing", output),
                                   Send(JObj(output)), Send(ResponseCreate)]
                  && r.session == s.(functionCall := None, functionCallArgs := ""))
  {
  }

  /** An `error` event whose message names an empty buffer or an already active
      response is ignored: no state change, nothing sent. Any other string message
      ends the loop. */
  lemma ErrorClassification(s: Session, message: string, now: int, codec: Codec, tools: seq<Tool>, ev: Object, m: string)
    requires IsEvent(codec, message, ev, ErrorEvent)
    requires Get(ev, "error", JObj(map[])).JObj?
    requires Get(Get(ev, "error", JObj(map[])).fields, "message", JStr("")) == JStr(m)
    ensures var r := Receive(s, message, now, codec, tools);
            && r.effects == [LogEvent("incoming", ev)]
            && r.session == s
            && (Contains(m, BufferIsEmpty) || Contains(m, ActiveResponse) ==> r.control == Continue)
            && (!Contains(m, BufferIsEmpty) && !Contains(m, ActiveResponse) ==> r.control == Stop(JStr(m)))
  {
    assert Handle(s, ev, now, codec, tools) == HandleError(s, ev);
  }

  lemma {:induction false} ReceiveNeverCloses(s: Session, message: string, now: int, codec: Codec, tools: seq<Tool>)
    ensures ClosePlayer !in Receive(s, message, now, codec, tools).effects
  {
    match codec.loads(message)
    case None =>
    case Some(v) =>
      if v.JObj? && LogUtils.Hashable(LogUtils.EventType(v.fields)) {
        var h := Handle(s, v.fields, now, codec, tools);
        assert Receive(s, message, now, codec, tools).effects == [LogEvent("incoming", v.fields)] + h.effects;
      }
  }

  /** `audio_player.close()` appears exactly once, as the last effect, when the loop
      ended by `break`, and not at all otherwise. */
  predicate ClosedOnceAtEnd(effects: seq<Effect>, exit: Exit) {
    && multiset(effects)[ClosePlayer] == (if exit.Closed? || exit.UnhandledError? then 1 else 0)
    && (exit.Closed? || exit.UnhandledError? ==> effects != [] && Last(effects) == ClosePlayer)
  }

  lemma ClosedOnceAfterStep(prefix: seq<Effect>, rest: seq<Effect>, exit: Exit)
    requires ClosePlayer !in prefix && ClosedOnceAtEnd(rest, exit)
    ensures ClosedOnceAtEnd(prefix + rest, exit)
  {
    assert multiset(prefix + rest) == multiset(prefix) + multiset(rest);
    if rest != [] {
      assert Last(prefix + rest) == Last(rest);
    }
  }

  lemma ClosedOnceAtBreak(prefix: seq<Effect>, exit: Exit)
    requires ClosePlayer !in prefix && (exit.Closed? || exit.UnhandledError?)
    ensures ClosedOnceAtEnd(prefix + [ClosePlayer], exit)
  {
    assert multiset(prefix + [ClosePlayer]) == multiset(prefix) + multiset([ClosePlayer]);
  }

  lemma ClosedOnceAtRaise(prefix: seq<Effect>, e: PyException)
    requires ClosePlayer !in prefix
    ensures ClosedOnceAtEnd(prefix, Raised(e))
  {
  }

  /** `audio_player.close()` runs exactly once, as the last effect, when the loop
      ends by `break` (connection closed or an unhandled error event), and never
      when an exception escapes or the loop is still waiting. */
  lemma {:induction false} CloseRunsOnceAfterLoop(s: Session, inbound: seq<Inbound>, codec: Codec, tools: seq<Tool>)
    ensures var o := Run(s, inbound, codec, tools); ClosedOnceAtEnd(o.effects, o.exit)
    decreases |inbound|
  {
    if inbound == [] {
    } else if inbound[0].ConnectionClosed? {
      RunHead(s, inbound, codec, tools);
      ClosedOnceAtBreak([], Closed);
    } else {
      RunHead(s, inbound, codec, tools);
      var r := Receive(s, inbound[0].message, inbound[0].now, codec, tools);
      ReceiveNeverCloses(s, inbound[0].message, inbound[0].now, codec, tools);
      match r.control
      case Continue =>
        CloseRunsOnceAfterLoop(r.session, inbound[1..], codec, tools);
        var rest := Run(r.session, inbound[1..], codec, tools);
        ClosedOnceAfterStep(r.effects, rest.effects, rest.exit);
      case Stop(m) =>
        ClosedOnceAtBreak(r.effects, UnhandledError(m));
      case Raise(e) =>
        ClosedOnceAtRaise(r.effects, e);
    }
  }

  /** The audio-state events: `response.created` starts receiving and lights the
      indicator; `response.done` stops playback, clears the text reply, stops
      receiving, darkens the indicator and starts recording, in that order, after
      logging the latency when a start time was set, and then forgets the start time;
      `rate_limits.updated` starts recording; `speech_started` lights the indicator;
      `speech_stopped` stops recording, darkens the indicator and records the time. */
  lemma AudioStateEvents(s: Session, message: string, now: int, codec: Codec, tools: seq<Tool>, ev: Object)
    requires codec.loads(message) == Some(JObj(ev))
    ensures var r := Receive(s, message, now, codec, tools);
            && (Get(ev, "type", JNull) == JStr(ResponseCreated) ==>
                  r.effects == [LogEvent("incoming", ev), MicStartReceiving, SetActive(true)] &&
                  r.session == s && r.control == Continue)
            && (Get(ev, "type", JNull) == JStr(ResponseDone) ==>
                  r.effects == [LogEvent("incoming", ev)] +
                               (if s.responseStartTime.Some?
                                then [LogRuntime("realtime_api_response", now - s.responseStartTime.value)]
                                else []) +
                               [StopPlayback, MicStopReceiving, SetActive(false), MicStartRecording] &&
                  r.session == s.(assistantReply := "", responseStartTime := None) && r.control == Continue)
            && (Get(ev, "type", JNull) == JStr(RateLimitsUpdated) ==>
                  r.effects == [LogEvent("incoming", ev), MicStartRecording] &&
                  r.session == s && r.control == Continue)
            && (Get(ev, "type", JNull) == JStr(SpeechStarted) ==>
                  r.effects == [LogEvent("incoming", ev), SetActive(true)] &&
                  r.session == s && r.control == Continue)
            && (Get(ev, "type", JNull) == JStr(SpeechStopped) ==>
                  r.effects == [LogEvent("incoming", ev), MicStopRecording, SetActive(false)] &&
                  r.session == s.(responseStartTime := Some(now)) && r.control == Continue)
  {
  }

  /** The last step of the round trip: `done` with the Echo call pending. */
  lemma EchoCompletes(codec: Codec, m4: string, echo: Tool)
    requires codec.loads(m4) == Some(JObj(map["type" := JStr(ArgumentsDone)]))
    requires codec.loads("{\"x\":5}") == Some(JObj(map["x" := JNum(5)]))
    requires echo.name == "echo" && forall a :: echo.behaviour(a) == Returned(a)
    ensures var item := map["type" := JStr("function_call"), "name" := JStr("Echo"), "call_id" := JStr("1")];
            var s3 := Initial.(functionCall := Some(item), functionCallArgs := "{\"x\":5}");
            var r4 := Receive(s3, m4, 3, codec, [echo]);
            var output := FunctionCallOutput(JStr("1"), codec.dumps(JObj(map["x" := JNum(5)])));
            && r4.control == Continue && r4.session == Initial
            && |r4.effects| == 4 && r4.effects[2..] == [Send(JObj(output)), Send(ResponseCreate)]
  {
    var tools := [echo];
    var item := map["type" := JStr("function_call"), "name" := JStr("Echo"), "call_id" := JStr("1")];
    var args := JObj(map["x" := JNum(5)]);
    var s3 := Initial.(functionCall := Some(item), functionCallArgs := "{\"x\":5}");
    assert Lower("echo") == Lower("Echo");
    assert NameMatches(echo, "Echo");
    ToolResolution(JStr("Echo"), args, codec, tools);
    DoneWithCallSendsOutput(s3, m4, 3, codec, tools, map["type" := JStr(ArgumentsDone)]);
    assert ToolResult(JStr("Echo"), args, codec, tools) == Success(args);
  }

  /** Four messages that each let the loop go on: the run is the four steps' effects
      in order, and ends waiting in the last step's session. */
  lemma FourSteps(s0: Session, m1: string, m2: string, m3: string, m4: string, codec: Codec, tools: seq<Tool>)
    requires var r1 := Receive(s0, m1, 0, codec, tools);
             var r2 := Receive(r1.session, m2, 1, codec, tools);
             var r3 := Receive(r2.session, m3, 2, codec, tools);
             var r4 := Receive(r3.session, m4, 3, codec, tools);
             r1.control == Continue && r2.control == Continue && r3.control == Continue && r4.control == Continue
    ensures var r1 := Receive(s0, m1, 0, codec, tools);
            var r2 := Receive(r1.session, m2, 1, codec, tools);
            var r3 := Receive(r2.session, m3, 2, codec, tools);
            var r4 := Receive(r3.session, m4, 3, codec, tools);
            var o := Run(s0, [Received(m1, 0), Received(m2, 1), Received(m3, 2), Received(m4, 3)], codec, tools);
            o.exit == Waiting && o.session == r4.session &&
            o.effects == r1.effects + (r2.effects + (r3.effects + r4.effects))
  {
    var r1 := Receive(s0, m1, 0, codec, tools);
    var r2 := Receive(r1.session, m2, 1, codec, tools);
    var r3 := Receive(r2.session, m3, 2, codec, tools);
    var r4 := Receive(r3.session, m4, 3, codec, tools);
    var in4 := [Received(m4, 3)];
    var in3 := [Received(m3, 2)] + in4;
    var in2 := [Received(m2, 1)] + in3;
    var in1 := [Received(m1, 0)] + in2;
    assert in1 == [Received(m1, 0), Received(m2, 1), Received(m3, 2), Received(m4, 3)];
    RunOne(r3.session, m4, 3, [], codec, tools);
    assert in4 == [Received(m4, 3)] + [];
    EmptyRight(r4.effects);
    RunOne(r2.session, m3, 2, in4, codec, tools);
    RunOne(r1.session, m2, 1, in3, codec, tools);
    RunOne(s0, m1, 0, in2, codec, tools);
  }

  /** One message that lets the loop go on, then the rest. */
  lemma RunOne(s: Session, m: string, now: int, rest: seq<Inbound>, codec: Codec, tools: seq<Tool>)
    requires Receive(s, m, now, codec, tools).control == Continue
    ensures var r := Receive(s, m, now, codec, tools);
            var o := Run(r.session, rest, codec, tools);
            Run(s, [Received(m, now)] + rest, codec, tools) == Outcome(r.effects + o.effects, o.session, o.exit)
  {
    RunHead(s, [Received(m, now)] + rest, codec, tools);
    assert ([Received(m, now)] + rest)[1..] == rest;
  }

  /** The last `k` items of a concatenation whose second part has at least `k`. */
  lemma EndsWithPair<T>(a: seq<T>, b: seq<T>, c: seq<T>, d: seq<T>, x: T, y: T)
    requires |d| == 4 && d[2..] == [x, y]
    ensures var e := a + (b + (c + d)); |e| >= 2 && e[|e| - 2..] == [x, y]
  {
    var e := a + (b + (c + d));
    assert e[|e| - 2..] == d[2..];
  }

  /** The tool-call round trip: `response.created`, a `function_call` item named
      "Echo" with call id "1", one argument delta `{"x":5}` and `done`, against a tool
      named "echo" that returns its arguments, send the `function_call_output` for
      call "1" carrying the serialised `{"x": 5}`, then `response.create`. */
  lemma EchoRoundTrip(codec: Codec, m1: string, m2: string, m3: string, m4: string, echo: Tool)
    requires codec.loads(m1) == Some(JObj(map["type" := JStr(ResponseCreated)]))
    requires codec.loads(m2) == Some(JObj(map["type" := JStr(OutputItemAdded),
                                              "item" := JObj(map["type" := JStr("function_call"),
                                                                 "name" := JStr("Echo"),
                                                                 "call_id" := JStr("1")])]))
    requires codec.loads(m3) == Some(JObj(map["type" := JStr(ArgumentsDelta), "delta" := JStr("{\"x\":5}")]))
    requires codec.loads(m4) == Some(JObj(map["type" := JStr(ArgumentsDone)]))
    requires codec.loads("{\"x\":5}") == Some(JObj(map["x" := JNum(5)]))
    requires echo.name == "echo" && forall a :: echo.behaviour(a) == Returned(a)
    ensures var o := Run(Initial, [Received(m1, 0), Received(m2, 1), Received(m3, 2), Received(m4, 3)],
                         codec, [echo]);
            var output := FunctionCallOutput(JStr("1"), codec.dumps(JObj(map["x" := JNum(5)])));
            && o.exit == Waiting
            && |o.effects| >= 2
            && o.effects[|o.effects| - 2..] == [Send(JObj(output)), Send(ResponseCreate)]
            && o.session == Session("", None, "", None)
  {
    var tools := [echo];
    var item := map["type" := JStr("function_call"), "name" := JStr("Echo"), "call_id" := JStr("1")];
    var s2 := Initial.(functionCall := Some(item), functionCallArgs := "");
    var s3 := s2.(functionCallArgs := "{\"x\":5}");
    var r1 := Receive(Initial, m1, 0, codec, tools);
    var r2 := Receive(Initial, m2, 1, codec, tools);
    var r3 := Receive(s2, m3, 2, codec, tools);
    var r4 := Receive(s3, m4, 3, codec, tools);
    AudioStateEvents(Initial, m1, 0, codec, tools, map["type" := JStr(ResponseCreated)]);
    OutputItemAddedReplacesCall(Initial, m2, 1, codec, tools, map["type" := JStr(OutputItemAdded), "item" := JObj(item)]);
    ArgumentDeltaAppends(s2, m3, 2, codec, tools, map["type" := JStr(ArgumentsDelta), "delta" := JStr("{\"x\":5}")], "{\"x\":5}");
    assert r3.session == s3;
    EchoCompletes(codec, m4, echo);
    FourSteps(Initial, m1, m2, m3, m4, codec, tools);
    var output := FunctionCallOutput(JStr("1"), codec.dumps(JObj(map["x" := JNum(5)])));
    EndsWithPair(r1.effects, r2.effects, r3.effects, r4.effects, Send(JObj(output)), Send(ResponseCreate));
  }
}
