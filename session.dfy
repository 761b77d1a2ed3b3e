/** The voice session controller of the dashboard: the references it holds
    to the live session and the audio pipeline, the status and transcript
    state it shows, and the handlers that start and stop a session, forward
    microphone frames, react to the model's messages and track playback.
    The speech service, the microphone, the audio clock and the backend are
    oracles: what they answer is a parameter, and what the controller asks
    of them is recorded, in order, in a ghost trace of effects. */
module Session {
  import opened Seqs
  import opened Text
  import opened OfficeTypes
  import opened Instruction
  import opened Playback
  import opened ToolCalls

  // ------------------------------------------------------------ status texts

  const InitialStatus := "Click 'Start Session' to begin"
  const NotLoadedStatus := "Error: Device data not loaded. Cannot start session."
  const MissingKeyStatus := "Error: API key is not configured. Check your .env file."
  const InitializingStatus := "Initializing session..."
  const ListeningStatus := "Listening... Speak now."
  const SessionEndedStatus := "Session ended. Click 'Start Session' to begin again."
  const MicDeniedStatus := "Error: Microphone permission denied. Please allow microphone access."
  const InvalidKeyStatus := "Error: Invalid API key. Please check your .env file."
  const LayoutErrorStatus := "Error: Could not load office layout data."
  const ConnectionErrorText := "Connection error. Please try again."

  /** The live model the session connects to. */
  const LiveModel := "gemini-2.5-flash-native-audio-preview-12-2025"

  /** The two guard clauses of `handleStartSession`, in order: the status
      to show when starting is refused. */
  function StartGuard(instruction: string, apiKey: string): (r: Option<string>)
    ensures r.None? <==> instruction != "" && apiKey != ""
    ensures instruction == "" ==> r == Some(NotLoadedStatus)
    ensures instruction != "" && apiKey == "" ==> r == Some(MissingKeyStatus)
  {
    if instruction == "" then Some(NotLoadedStatus)
    else if apiKey == "" then Some(MissingKeyStatus)
    else None
  }

  /** `error?.message || 'Unknown error'`. */
  function StartErrorMessage(message: string): (m: string)
    ensures m != ""
  {
    if message == "" then "Unknown error" else message
  }

  /** The message names a refused microphone. */
  predicate MentionsMicDenied(m: string) {
    Contains(m, "Permission denied") || Contains(m, "NotAllowedError")
  }

  /** The message names the key or carries a 401 or 403 status. */
  predicate MentionsRejectedKey(m: string) {
    Contains(m, "API key") || Contains(m, "401") || Contains(m, "403")
  }

  /** The status for a failed start, chosen by substrings of the message;
      a refused microphone takes precedence over a rejected key. */
  function ClassifyStartError(message: string): (status: string)
    ensures MentionsMicDenied(StartErrorMessage(message)) ==> status == MicDeniedStatus
    ensures !MentionsMicDenied(StartErrorMessage(message)) && MentionsRejectedKey(StartErrorMessage(message))
            ==> status == InvalidKeyStatus
    ensures !MentionsMicDenied(StartErrorMessage(message)) && !MentionsRejectedKey(StartErrorMessage(message))
            ==> status == "Error: " + StartErrorMessage(message)
  {
    var m := StartErrorMessage(message);
    if MentionsMicDenied(m) then MicDeniedStatus
    else if MentionsRejectedKey(m) then InvalidKeyStatus
    else "Error: " + m
  }

  /** A message holding none of the letters the classifier looks for is
      shown as it is, after "Error: ". */
  lemma PlainStartError(m: string)
    requires m != ""
    requires 'P' !in m && 'N' !in m && 'A' !in m && '4' !in m
    ensures ClassifyStartError(m) == "Error: " + m
  {
    NotContainsChar(m, "Permission denied", 'P');
    NotContainsChar(m, "NotAllowedError", 'N');
    NotContainsChar(m, "API key", 'A');
    NotContainsChar(m, "401", '4');
    NotContainsChar(m, "403", '4');
  }

  /** A message without text is reported as an unknown error. */
  lemma EmptyStartErrorIsUnknown(message: string)
    requires message == ""
    ensures StartErrorMessage(message) == "Unknown error"
    ensures ClassifyStartError(message) == "Error: " + StartErrorMessage(message)
  {
    var m := StartErrorMessage(message);
    PlainStartError(m);
  }

  /** A status code anywhere in the message means a rejected key, unless the
      microphone was refused as well. */
  lemma StatusCodeMeansInvalidKey(before: string, code: string, after: string)
    requires code == "401" || code == "403"
    requires !Contains(before + code + after, "Permission denied")
    requires !Contains(before + code + after, "NotAllowedError")
    ensures ClassifyStartError(before + code + after) == InvalidKeyStatus
  {
    ContainsMiddle(before, code, after);
  }

  // ------------------------------------------------------------ oracles and effects

  /** An audio context reference: null, or a context that is open or closed.
      `Closed` mirrors the `state !== 'closed'` test of the stop handler; no
      operation produces it, because the stop clears each reference right
      after closing its context. */
  datatype ContextState = Absent | Open | Closed

  /** `getUserMedia` resolves with a stream, or rejects with a message. */
  datatype MicReply = Granted(stream: nat) | MicFailed(message: string)

  /** `ai.live.connect` resolves with a session, or rejects with a message. */
  datatype ConnectReply = Connected(session: nat) | ConnectFailed(message: string)

  /** What the controller asks of the browser, the speech service and the
      backend. */
  datatype Effect =
    | RequestMicrophone
    | CreateInputContext
    | CreateOutputContext
    | Connect(model: string, instruction: string)
    | StartCapture(stream: nat)
    | CloseSession(session: nat)
    | DisconnectProcessor
    | DisconnectSource
    | StopTracks(stream: nat)
    | CloseInputContext
    | StopSources(sources: set<nat>)
    | CloseOutputContext
    | SendAudio(session: nat, frame: seq<real>)
    | Http(request: Request)
    | SendToolResponse(session: nat, id: string, result: ToolResult)
    | StartSource(source: nat, at: real)

  /** One message from the live session: transcription deltas, the
      turn-complete flag, the function calls, and the length of the decoded
      audio of its first part, if it carries audio. */
  datatype LiveMessage = LiveMessage(
    outputTranscription: Option<string>,
    inputTranscription: Option<string>,
    turnComplete: bool,
    functionCalls: seq<FunctionCall>,
    audio: Option<Duration>)

  /** A transcript after one message: the delta, if any, is appended, and a
      completed turn clears it. */
  function NextTranscript(t: string, delta: Option<string>, turnComplete: bool): (r: string)
    ensures turnComplete ==> r == ""
    ensures !turnComplete && delta.None? ==> r == t
    ensures !turnComplete && delta.Some? ==> r == t + delta.value
  {
    if turnComplete then "" else if delta.Some? then t + delta.value else t
  }

  /** The guarded releases of `handleStopSession`, in order. */
  function StopEffects(session: Option<nat>, hasProcessor: bool, hasSource: bool, stream: Option<nat>,
                       input: ContextState, output: ContextState, playing: set<nat>): (e: seq<Effect>)
    ensures e == [] <==> session.None? && !hasProcessor && !hasSource && stream.None? && input != Open && output != Open
  {
    (if session.Some? then [CloseSession(session.value)] else [])
    + (if hasProcessor then [DisconnectProcessor] else [])
    + (if hasSource then [DisconnectSource] else [])
    + (if stream.Some? then [StopTracks(stream.value)] else [])
    + (if input == Open then [CloseInputContext] else [])
    + (if output == Open then [StopSources(playing), CloseOutputContext] else [])
  }

  /** The source started for a message's audio: one, at the later of the
      cursor and the clock, when there is audio and the output context is
      open. */
  function AudioEffects(audio: Option<Duration>, output: ContextState, source: nat, cursor: real, now: real): seq<Effect> {
    if audio.Some? && output == Open then [StartSource(source, StartTime(cursor, now))] else []
  }

  // ------------------------------------------------------------ tool calls of one message

  /** The HTTP requests of a call as effects, in order. */
  function HttpEffects(rs: seq<Request>): (e: seq<Effect>)
    ensures |e| == |rs|
    ensures forall k :: 0 <= k < |rs| ==> e[k] == Http(rs[k])
  {
    seq(|rs|, k requires 0 <= k < |rs| => Http(rs[k]))
  }

  /** The effects of one answered or ignored call: its HTTP requests, then
      its tool response, which is dropped when there is no session. */
  function CallEffects(session: Option<nat>, fc: FunctionCall, o: CallOutcome): seq<Effect> {
    HttpEffects(o.requests)
    + (if o.result.Some? && session.Some? then [SendToolResponse(session.value, fc.id, o.result.value)] else [])
  }

  /** The effects of the calls of one message, handled one after another,
      every call looking rooms and devices up in the same layout. */
  function BatchEffects(session: Option<nat>, calls: seq<FunctionCall>, layout: OfficeLayout,
                        replies: seq<Replies>): seq<Effect>
    requires |calls| == |replies|
    decreases |calls|
  {
    if calls == [] then []
    else
      var n := |calls| - 1;
      BatchEffects(session, calls[..n], layout, replies[..n])
        + CallEffects(session, calls[n], HandleCall(calls[n], layout, replies[n]))
  }

  /** The dashboard state a layout refresh writes. */
  datatype View = View(layout: OfficeLayout, instruction: string, status: string)

  /** `fetchOfficeLayout`: a loaded layout replaces the layout and the
      instruction; a failure only sets the status. */
  function Refresh(v: View, reply: LayoutReply): View {
    match reply
    case LayoutLoaded(l) => View(l, CreateSystemInstruction(l), v.status)
    case LayoutFailed => v.(status := LayoutErrorStatus)
  }

  /** The view after one call, which refreshed it if it asked for the
      layout. */
  function AfterCall(v: View, o: CallOutcome, reply: Replies): View {
    if GetLayout in o.requests then Refresh(v, reply.refresh) else v
  }

  /** The view after the calls of one message, each call that asked for
      the layout having refreshed it. */
  function BatchView(v: View, calls: seq<FunctionCall>, layout: OfficeLayout, replies: seq<Replies>): View
    requires |calls| == |replies|
    decreases |calls|
  {
    if calls == [] then v
    else
      var n := |calls| - 1;
      AfterCall(BatchView(v, calls[..n], layout, replies[..n]), HandleCall(calls[n], layout, replies[n]), replies[n])
  }

  /** Handling one more call appends its effects. */
  lemma BatchEffectsStep(session: Option<nat>, calls: seq<FunctionCall>, layout: OfficeLayout,
                         replies: seq<Replies>, i: nat)
    requires |calls| == |replies| && i < |calls|
    ensures BatchEffects(session, calls[..i + 1], layout, replies[..i + 1])
         == BatchEffects(session, calls[..i], layout, replies[..i])
            + CallEffects(session, calls[i], HandleCall(calls[i], layout, replies[i]))
  {
    assert calls[..i + 1][..i] == calls[..i];
    assert replies[..i + 1][..i] == replies[..i];
  }

  /** Handling one more call refreshes the view when that call asked for
      the layout. */
  lemma BatchViewStep(v: View, calls: seq<FunctionCall>, layout: OfficeLayout, replies: seq<Replies>, i: nat)
    requires |calls| == |replies| && i < |calls|
    ensures BatchView(v, calls[..i + 1], layout, replies[..i + 1])
         == AfterCall(BatchView(v, calls[..i], layout, replies[..i]), HandleCall(calls[i], layout, replies[i]), replies[i])
  {
    assert calls[..i + 1][..i] == calls[..i];
    assert replies[..i + 1][..i] == replies[..i];
  }

  /** The ids of the tool responses in a trace, in order. */
  function ResponseIds(effects: seq<Effect>): seq<string>
    decreases |effects|
  {
    if effects == [] then []
    else
      var n := |effects| - 1;
      ResponseIds(effects[..n]) + (if effects[n].SendToolResponse? then [effects[n].id] else [])
  }

  /** The ids of the calls the dispatcher answers, in order. */
  function AnsweredIds(calls: seq<FunctionCall>): seq<string>
    decreases |calls|
  {
    if calls == [] then []
    else
      var n := |calls| - 1;
      AnsweredIds(calls[..n]) + (if Answered(calls[n]) then [calls[n].id] else [])
  }

  lemma {:induction false} ResponseIdsAppend(a: seq<Effect>, b: seq<Effect>)
    ensures ResponseIds(a + b) == ResponseIds(a) + ResponseIds(b)
    decreases |b|
  {
    if b == [] {
      assert a + b == a;
    } else {
      var n := |b| - 1;
      assert (a + b)[..|a| + n] == a + b[..n];
      ResponseIdsAppend(a, b[..n]);
    }
  }

  lemma {:induction false} NoResponseInRequests(rs: seq<Request>)
    ensures ResponseIds(HttpEffects(rs)) == []
    decreases |rs|
  {
    if rs != [] {
      var n := |rs| - 1;
      assert HttpEffects(rs)[..n] == HttpEffects(rs[..n]);
      NoResponseInRequests(rs[..n]);
    }
  }

  /** One call's effects carry its tool response, if it gets one, and no
      other. */
  lemma CallResponses(session: Option<nat>, fc: FunctionCall, o: CallOutcome)
    ensures ResponseIds(CallEffects(session, fc, o))
         == if o.result.Some? && session.Some? then [fc.id] else []
  {
    var http := HttpEffects(o.requests);
    var resp := if o.result.Some? && session.Some? then [SendToolResponse(session.value, fc.id, o.result.value)] else [];
    ResponseIdsAppend(http, resp);
    NoResponseInRequests(o.requests);
    if resp != [] {
      assert resp[..0] == [];
    }
  }

  /** While the session is open, every call of a message that the
      dispatcher answers gets exactly one tool response, in the order of the
      calls, and no other call gets one. */
  lemma {:induction false} OneResponsePerAnsweredCall(session: nat, calls: seq<FunctionCall>, layout: OfficeLayout,
                                                      replies: seq<Replies>)
    requires |calls| == |replies|
    ensures ResponseIds(BatchEffects(Some(session), calls, layout, replies)) == AnsweredIds(calls)
    decreases |calls|
  {
    if calls != [] {
      var n := |calls| - 1;
      var o := HandleCall(calls[n], layout, replies[n]);
      OneResponsePerAnsweredCall(session, calls[..n], layout, replies[..n]);
      HandleCallSpec(calls[n], layout, replies[n]);
      ResponseIdsAppend(BatchEffects(Some(session), calls[..n], layout, replies[..n]), CallEffects(Some(session), calls[n], o));
      CallResponses(Some(session), calls[n], o);
    }
  }

  /** Once the session reference is null, no tool response is sent. */
  lemma {:induction false} NoResponseWithoutSession(calls: seq<FunctionCall>, layout: OfficeLayout, replies: seq<Replies>)
    requires |calls| == |replies|
    ensures ResponseIds(BatchEffects(None, calls, layout, replies)) == []
    decreases |calls|
  {
    if calls != [] {
      var n := |calls| - 1;
      var o := HandleCall(calls[n], layout, replies[n]);
      NoResponseWithoutSession(calls[..n], layout, replies[..n]);
      ResponseIdsAppend(BatchEffects(None, calls[..n], layout, replies[..n]), CallEffects(None, calls[n], o));
      CallResponses(None, calls[n], o);
    }
  }

  // ------------------------------------------------------------ the controller

  class SessionController {
    // the refs
    var session: Option<nat>
    var mediaStream: Option<nat>
    var inputContext: ContextState
    var outputContext: ContextState
    var hasProcessor: bool
    var hasSource: bool
    var nextStartTime: real
    var playing: set<nat>
    /** The handle the next scheduled audio source receives. */
    var nextSource: nat
    // the state shown on the dashboard
    var statusText: string
    var userTranscript: string
    var botTranscript: string
    var isSessionActive: bool
    var isBotSpeaking: bool
    var isProcessing: bool
    var officeLayout: OfficeLayout
    var systemInstruction: string
    /** The layout captured by the message handler when the session was
        started; room lookups use it, not the live layout. */
    var sessionLayout: OfficeLayout
    /** Everything asked of the outside world so far, in order. */
    ghost var effects: seq<Effect>
    /** The audio chunks scheduled since the last start. */
    ghost var chunks: seq<Chunk>

    /** The cursor is where scheduling the chunks since the last start left
        it, and every playing source has a handle already given out. */
    ghost predicate Valid()
      reads this`nextStartTime, this`chunks, this`playing, this`nextSource
    {
      && nextStartTime == Cursor(0.0, chunks)
      && (forall s :: s in playing ==> s < nextSource)
    }

    /** Every reference released and every flag and transcript cleared: the
        state `handleStopSession` leaves behind. */
    ghost predicate Released()
      reads this`session, this`mediaStream, this`hasProcessor, this`hasSource, this`inputContext,
        this`outputContext, this`isSessionActive, this`isBotSpeaking, this`isProcessing,
        this`userTranscript, this`botTranscript
    {
      && session.None? && mediaStream.None? && !hasProcessor && !hasSource
      && inputContext != Open && outputContext != Open
      && !isSessionActive && !isBotSpeaking && !isProcessing
      && userTranscript == "" && botTranscript == ""
    }

    constructor ()
      ensures Valid() && Released()
      ensures statusText == InitialStatus && systemInstruction == "" && officeLayout == []
      ensures inputContext == Absent && outputContext == Absent && playing == {}
      ensures effects == [] && chunks == [] && nextStartTime == 0.0
    {
      session := None;
      mediaStream := None;
      inputContext := Absent;
      outputContext := Absent;
      hasProcessor := false;
      hasSource := false;
      nextStartTime := 0.0;
      playing := {};
      nextSource := 0;
      statusText := InitialStatus;
      userTranscript := "";
      botTranscript := "";
      isSessionActive := false;
      isBotSpeaking := false;
      isProcessing := false;
      officeLayout := [];
      systemInstruction := "";
      sessionLayout := [];
      effects := [];
      chunks := [];
    }

    /** Applies the reply to `GET /layout` without recording the request. */
    method ApplyLayout(reply: LayoutReply)
      requires Valid()
      modifies this`officeLayout, this`systemInstruction, this`statusText
      ensures Valid()
      ensures View(officeLayout, systemInstruction, statusText)
           == Refresh(old(View(officeLayout, systemInstruction, statusText)), reply)
    {
      match reply
      case LayoutLoaded(l) =>
        officeLayout := l;
        systemInstruction := CreateSystemInstruction(l);
      case LayoutFailed =>
        statusText := LayoutErrorStatus;
    }

    /** `fetchOfficeLayout`. */
    method FetchOfficeLayout(reply: LayoutReply)
      requires Valid()
      modifies this`officeLayout, this`systemInstruction, this`statusText, this`effects
      ensures Valid()
      ensures effects == old(effects) + [Http(GetLayout)]
      ensures View(officeLayout, systemInstruction, statusText)
           == Refresh(old(View(officeLayout, systemInstruction, statusText)), reply)
    {
      effects := effects + [Http(GetLayout)];
      ApplyLayout(reply);
    }

    /** The releases of `handleStopSession`: each reference that is held is
        released and cleared, the playing sources are stopped with the output
        context, and the session reference is dropped. */
    method ReleaseResources()
      modifies this`session, this`hasProcessor, this`hasSource, this`mediaStream,
        this`inputContext, this`outputContext, this`playing, this`effects
      ensures effects == old(effects)
        + StopEffects(old(session), old(hasProcessor), old(hasSource), old(mediaStream),
                      old(inputContext), old(outputContext), old(playing))
      ensures session.None? && mediaStream.None? && !hasProcessor && !hasSource
      ensures inputContext == (if old(inputContext) == Open then Absent else old(inputContext))
      ensures outputContext == (if old(outputContext) == Open then Absent else old(outputContext))
      ensures playing == (if old(outputContext) == Open then {} else old(playing))
    {
      // every release is guarded by its reference, so the trace is exactly
      // the releases of what was held
      effects := effects + StopEffects(session, hasProcessor, hasSource, mediaStream,
                                       inputContext, outputContext, playing);
      hasProcessor := false;
      hasSource := false;
      mediaStream := None;
      if inputContext == Open {
        inputContext := Absent;
      }
      if outputContext == Open {
        playing := {};
        outputContext := Absent;
      }
      session := None;
    }

    /** The state `handleStopSession` shows: no session, nobody speaking, the
        stop status and empty transcripts. */
    method ShowStopped()
      modifies this`isSessionActive, this`isBotSpeaking, this`isProcessing,
        this`statusText, this`userTranscript, this`botTranscript
      ensures !isSessionActive && !isBotSpeaking && !isProcessing
      ensures statusText == SessionEndedStatus && userTranscript == "" && botTranscript == ""
    {
      isSessionActive := false;
      isBotSpeaking := false;
      isProcessing := false;
      statusText := SessionEndedStatus;
      userTranscript := "";
      botTranscript := "";
    }

    /** `handleStopSession`. */
    method Stop()
      requires Valid()
      modifies this`session, this`hasProcessor, this`hasSource, this`mediaStream, this`inputContext,
        this`outputContext, this`playing, this`effects, this`isSessionActive, this`isBotSpeaking,
        this`isProcessing, this`statusText, this`userTranscript, this`botTranscript
      ensures Valid() && Released()
      ensures effects == old(effects)
        + StopEffects(old(session), old(hasProcessor), old(hasSource), old(mediaStream),
                      old(inputContext), old(outputContext), old(playing))
      ensures inputContext == (if old(inputContext) == Open then Absent else old(inputContext))
      ensures outputContext == (if old(outputContext) == Open then Absent else old(outputContext))
      ensures playing == (if old(outputContext) == Open then {} else old(playing))
      ensures statusText == SessionEndedStatus
      // a second stop changes nothing
      ensures old(Released()) && old(statusText) == SessionEndedStatus ==> unchanged(this)
    {
      ReleaseResources();
      ShowStopped();
      if old(Released()) {
        assert old(effects) + [] == old(effects);
      }
    }

    /** The state `handleStartSession` sets before it asks for the
        microphone: busy, initializing, empty transcripts and the cursor back
        at zero. */
    method BeginStart()
      requires Valid()
      modifies this`isProcessing, this`statusText, this`userTranscript, this`botTranscript,
        this`nextStartTime, this`chunks, this`effects
      ensures Valid()
      ensures isProcessing && statusText == InitializingStatus && userTranscript == "" && botTranscript == ""
      ensures nextStartTime == 0.0 && chunks == []
      ensures effects == old(effects) + [RequestMicrophone]
    {
      isProcessing := true;
      statusText := InitializingStatus;
      userTranscript := "";
      botTranscript := "";
      nextStartTime := 0.0;
      chunks := [];
      effects := effects + [RequestMicrophone];
    }

    /** The microphone is granted: its stream is stored, both audio contexts
        are created and the connection is opened with the instruction of the
        current layout. */
    method Acquire(stream: nat)
      modifies this`mediaStream, this`inputContext, this`outputContext, this`effects, this`sessionLayout
      ensures mediaStream == Some(stream) && inputContext == Open && outputContext == Open
      ensures sessionLayout == officeLayout
      ensures effects == old(effects) + [CreateInputContext, CreateOutputContext, Connect(LiveModel, systemInstruction)]
    {
      mediaStream := Some(stream);
      inputContext := Open;
      outputContext := Open;
      effects := effects + [CreateInputContext, CreateOutputContext, Connect(LiveModel, systemInstruction)];
      sessionLayout := officeLayout;
    }

    /** The connection resolved: only now is the session reference stored,
        and then the capture pipeline is started. */
    method Establish(s: nat, stream: nat)
      modifies this`session, this`isSessionActive, this`isProcessing, this`statusText,
        this`hasSource, this`hasProcessor, this`effects
      ensures session == Some(s) && isSessionActive && !isProcessing && statusText == ListeningStatus
      ensures hasSource && hasProcessor
      ensures effects == old(effects) + [StartCapture(stream)]
    {
      session := Some(s);
      isSessionActive := true;
      isProcessing := false;
      statusText := ListeningStatus;
      hasSource := true;
      hasProcessor := true;
      effects := effects + [StartCapture(stream)];
    }

    /** The `catch` of `handleStartSession`: the classified status is set,
        then the stop handler runs (and overwrites it). */
    method FailStart(message: string)
      requires Valid()
      modifies this`session, this`hasProcessor, this`hasSource, this`mediaStream, this`inputContext,
        this`outputContext, this`playing, this`effects, this`isSessionActive, this`isBotSpeaking,
        this`isProcessing, this`statusText, this`userTranscript, this`botTranscript
      ensures Valid() && Released() && statusText == SessionEndedStatus
      ensures effects == old(effects)
        + StopEffects(old(session), old(hasProcessor), old(hasSource), old(mediaStream),
                      old(inputContext), old(outputContext), old(playing))
      ensures inputContext == (if old(inputContext) == Open then Absent else old(inputContext))
      ensures outputContext == (if old(outputContext) == Open then Absent else old(outputContext))
      ensures playing == (if old(outputContext) == Open then {} else old(playing))
    {
      statusText := ClassifyStartError(message);
      isProcessing := false;
      Stop();
    }

    /** The connection was refused after the microphone was granted: the
        stream's tracks are stopped before the start fails. */
    method AbandonStream(stream: nat, message: string)
      requires Valid()
      modifies this`session, this`hasProcessor, this`hasSource, this`mediaStream, this`inputContext,
        this`outputContext, this`playing, this`effects, this`isSessionActive, this`isBotSpeaking,
        this`isProcessing, this`statusText, this`userTranscript, this`botTranscript
      ensures Valid() && Released() && statusText == SessionEndedStatus
      ensures effects == old(effects) + [StopTracks(stream)]
        + StopEffects(old(session), old(hasProcessor), old(hasSource), old(mediaStream),
                      old(inputContext), old(outputContext), old(playing))
      ensures inputContext == (if old(inputContext) == Open then Absent else old(inputContext))
      ensures outputContext == (if old(outputContext) == Open then Absent else old(outputContext))
      ensures playing == (if old(outputContext) == Open then {} else old(playing))
    {
      effects := effects + [StopTracks(stream)];
      FailStart(message);
    }

    /** The microphone was granted: the contexts are created and the
        connection is opened; a failed connection stops the stream's tracks
        and tears everything down. */
    method OpenSession(stream: nat, connect: ConnectReply)
      requires Valid()
      modifies this`session, this`hasProcessor, this`hasSource, this`mediaStream, this`inputContext,
        this`outputContext, this`playing, this`effects, this`isSessionActive, this`isBotSpeaking,
        this`isProcessing, this`statusText, this`userTranscript, this`botTranscript, this`sessionLayout
      ensures Valid()
      ensures connect.Connected? ==>
        && effects == old(effects) + [CreateInputContext, CreateOutputContext, Connect(LiveModel, systemInstruction)]
             + [StartCapture(stream)]
        && session == Some(connect.session) && mediaStream == Some(stream)
        && inputContext == Open && outputContext == Open && hasProcessor && hasSource
        && isSessionActive && !isProcessing && statusText == ListeningStatus
        && unchanged(this`userTranscript, this`botTranscript) && sessionLayout == officeLayout
        && isBotSpeaking == old(isBotSpeaking) && playing == old(playing)
      ensures connect.ConnectFailed? ==>
        && effects == old(effects) + [CreateInputContext, CreateOutputContext, Connect(LiveModel, systemInstruction)]
             + [StopTracks(stream)]
             + StopEffects(old(session), old(hasProcessor), old(hasSource), Some(stream), Open, Open, old(playing))
        && Released() && statusText == SessionEndedStatus
        && inputContext == Absent && outputContext == Absent && playing == {}
    {
      Acquire(stream);
      match connect {
        case ConnectFailed(message) =>
          AbandonStream(stream, message);
        case Connected(s) =>
          Establish(s, stream);
      }
    }

    /** `handleStartSession` past its guards: the microphone, the audio
        contexts and the connection are acquired in that order, and a
        refused microphone or a refused connection tears down what was
        acquired. */
    method Launch(mic: MicReply, connect: ConnectReply)
      requires Valid()
      modifies this`session, this`hasProcessor, this`hasSource, this`mediaStream, this`inputContext,
        this`outputContext, this`playing, this`effects, this`isSessionActive, this`isBotSpeaking,
        this`isProcessing, this`statusText, this`userTranscript, this`botTranscript,
        this`nextStartTime, this`chunks, this`sessionLayout
      ensures Valid()
      // the acquisition order, with the session stored only once connected
      ensures mic.Granted? && connect.Connected? ==>
        && effects == old(effects) + [RequestMicrophone]
             + [CreateInputContext, CreateOutputContext, Connect(LiveModel, systemInstruction)]
             + [StartCapture(mic.stream)]
        && session == Some(connect.session) && mediaStream == Some(mic.stream)
        && inputContext == Open && outputContext == Open && hasProcessor && hasSource
        && isSessionActive && !isProcessing && statusText == ListeningStatus
        && userTranscript == "" && botTranscript == ""
        && nextStartTime == 0.0 && chunks == [] && sessionLayout == officeLayout
        && isBotSpeaking == old(isBotSpeaking) && playing == old(playing)
      // a failed start releases everything and ends with the stop status
      ensures mic.MicFailed? ==>
        && effects == old(effects) + [RequestMicrophone]
             + StopEffects(old(session), old(hasProcessor), old(hasSource), old(mediaStream),
                           old(inputContext), old(outputContext), old(playing))
        && Released() && statusText == SessionEndedStatus
        && nextStartTime == 0.0 && chunks == []
        && inputContext == (if old(inputContext) == Open then Absent else old(inputContext))
        && outputContext == (if old(outputContext) == Open then Absent else old(outputContext))
        && playing == (if old(outputContext) == Open then {} else old(playing))
      ensures mic.Granted? && connect.ConnectFailed? ==>
        && effects == old(effects) + [RequestMicrophone]
             + [CreateInputContext, CreateOutputContext, Connect(LiveModel, systemInstruction)]
             + [StopTracks(mic.stream)]
             + StopEffects(old(session), old(hasProcessor), old(hasSource), Some(mic.stream), Open, Open, old(playing))
        && Released() && statusText == SessionEndedStatus
        && inputContext == Absent && outputContext == Absent && playing == {}
        && nextStartTime == 0.0 && chunks == []
    {
      BeginStart();
      match mic {
        case MicFailed(message) =>
          FailStart(message);
        case Granted(stream) =>
          OpenSession(stream, connect);
      }
    }

    /** `handleStartSession`: refused, with only the status changed, when
        the instruction is empty (checked first) or the key is missing. */
    method Start(apiKey: string, mic: MicReply, connect: ConnectReply)
      requires Valid()
      modifies this`session, this`hasProcessor, this`hasSource, this`mediaStream, this`inputContext,
        this`outputContext, this`playing, this`effects, this`isSessionActive, this`isBotSpeaking,
        this`isProcessing, this`statusText, this`userTranscript, this`botTranscript,
        this`nextStartTime, this`chunks, this`sessionLayout
      ensures Valid()
      // the guards: nothing but the status changes
      ensures StartGuard(systemInstruction, apiKey).Some? ==>
        && statusText == StartGuard(systemInstruction, apiKey).value
        && unchanged(this`effects, this`session, this`mediaStream, this`inputContext, this`outputContext,
                     this`hasProcessor, this`hasSource, this`isProcessing, this`isSessionActive,
                     this`userTranscript, this`botTranscript, this`nextStartTime, this`playing,
                     this`isBotSpeaking, this`chunks, this`sessionLayout)
      ensures StartGuard(systemInstruction, apiKey).None? && mic.Granted? && connect.Connected? ==>
        && effects == old(effects) + [RequestMicrophone]
             + [CreateInputContext, CreateOutputContext, Connect(LiveModel, systemInstruction)]
             + [StartCapture(mic.stream)]
        && session == Some(connect.session) && mediaStream == Some(mic.stream)
        && inputContext == Open && outputContext == Open && hasProcessor && hasSource
        && isSessionActive && !isProcessing && statusText == ListeningStatus
        && userTranscript == "" && botTranscript == ""
        && nextStartTime == 0.0 && chunks == [] && sessionLayout == officeLayout
        && isBotSpeaking == old(isBotSpeaking) && playing == old(playing)
      ensures StartGuard(systemInstruction, apiKey).None? && mic.MicFailed? ==>
        && effects == old(effects) + [RequestMicrophone]
             + StopEffects(old(session), old(hasProcessor), old(hasSource), old(mediaStream),
                           old(inputContext), old(outputContext), old(playing))
        && Released() && statusText == SessionEndedStatus
        && nextStartTime == 0.0 && chunks == []
        && inputContext == (if old(inputContext) == Open then Absent else old(inputContext))
        && outputContext == (if old(outputContext) == Open then Absent else old(outputContext))
        && playing == (if old(outputContext) == Open then {} else old(playing))
      ensures StartGuard(systemInstruction, apiKey).None? && mic.Granted? && connect.ConnectFailed? ==>
        && effects == old(effects) + [RequestMicrophone]
             + [CreateInputContext, CreateOutputContext, Connect(LiveModel, systemInstruction)]
             + [StopTracks(mic.stream)]
             + StopEffects(old(session), old(hasProcessor), old(hasSource), Some(mic.stream), Open, Open, old(playing))
        && Released() && statusText == SessionEndedStatus
        && inputContext == Absent && outputContext == Absent && playing == {}
        && nextStartTime == 0.0 && chunks == []
    {
      var refused := StartGuard(systemInstruction, apiKey);
      if refused.Some? {
        statusText := refused.value;
        return;
      }
      Launch(mic, connect);
    }

    /** `onaudioprocess`: a microphone frame is forwarded only while the
        session reference is set. */
    method OnAudioProcess(frame: seq<real>)
      modifies this`effects
      ensures session.None? ==> effects == old(effects)
      ensures session.Some? ==> effects == old(effects) + [SendAudio(session.value, frame)]
    {
      if session.None? {
        return;
      }
      effects := effects + [SendAudio(session.value, frame)];
    }

    /** The transcription deltas of a message are appended, and a completed
        turn clears both transcripts. */
    method ApplyTranscripts(msg: LiveMessage)
      modifies this`userTranscript, this`botTranscript
      ensures botTranscript == NextTranscript(old(botTranscript), msg.outputTranscription, msg.turnComplete)
      ensures userTranscript == NextTranscript(old(userTranscript), msg.inputTranscription, msg.turnComplete)
    {
      if msg.outputTranscription.Some? {
        botTranscript := botTranscript + msg.outputTranscription.value;
      }
      if msg.inputTranscription.Some? {
        userTranscript := userTranscript + msg.inputTranscription.value;
      }
      if msg.turnComplete {
        userTranscript := "";
        botTranscript := "";
      }
    }

    /** One call of a message: its requests, the layout refresh when it asks
        for one, then its tool response while the session reference is set. */
    method RunToolCall(fc: FunctionCall, reply: Replies)
      requires Valid()
      modifies this`effects, this`officeLayout, this`systemInstruction, this`statusText
      ensures Valid()
      ensures effects == old(effects) + CallEffects(session, fc, HandleCall(fc, sessionLayout, reply))
      ensures View(officeLayout, systemInstruction, statusText)
           == AfterCall(old(View(officeLayout, systemInstruction, statusText)), HandleCall(fc, sessionLayout, reply), reply)
    {
      var o := HandleCall(fc, sessionLayout, reply);
      if GetLayout in o.requests {
        ApplyLayout(reply.refresh);
      }
      effects := effects + CallEffects(session, fc, o);
    }

    /** The calls of a message, awaited one after another. */
    method RunToolCalls(calls: seq<FunctionCall>, replies: seq<Replies>)
      requires Valid()
      requires |replies| == |calls|
      modifies this`effects, this`officeLayout, this`systemInstruction, this`statusText
      ensures Valid()
      ensures effects == old(effects) + BatchEffects(session, calls, sessionLayout, replies)
      ensures View(officeLayout, systemInstruction, statusText)
           == BatchView(old(View(officeLayout, systemInstruction, statusText)), calls, sessionLayout, replies)
    {
      ghost var v0 := View(officeLayout, systemInstruction, statusText);
      var i := 0;
      assert effects == old(effects) + [];
      while i < |calls|
        invariant 0 <= i <= |calls|
        invariant Valid()
        invariant effects == old(effects) + BatchEffects(session, calls[..i], sessionLayout, replies[..i])
        invariant View(officeLayout, systemInstruction, statusText) == BatchView(v0, calls[..i], sessionLayout, replies[..i])
      {
        RunToolCall(calls[i], replies[i]);
        BatchEffectsStep(session, calls, sessionLayout, replies, i);
        AppendAssoc(old(effects), BatchEffects(session, calls[..i], sessionLayout, replies[..i]),
                    CallEffects(session, calls[i], HandleCall(calls[i], sessionLayout, replies[i])));
        BatchViewStep(v0, calls, sessionLayout, replies, i);
        i := i + 1;
      }
      assert calls[..i] == calls && replies[..i] == replies;
    }

    /** A decoded chunk is given the next source handle, joins the playing
        set, and is started at the later of the cursor and the clock; the
        cursor moves to its end. */
    method Schedule(duration: Duration, now: real)
      requires Valid()
      modifies this`nextSource, this`playing, this`effects, this`nextStartTime, this`chunks
      ensures Valid()
      ensures effects == old(effects) + [StartSource(old(nextSource), StartTime(old(nextStartTime), now))]
      ensures playing == old(playing) + {old(nextSource)} && old(nextSource) !in old(playing)
      ensures nextStartTime == StartTime(old(nextStartTime), now) + duration
      ensures nextStartTime >= old(nextStartTime) && nextStartTime >= now + duration
      ensures chunks == old(chunks) + [Chunk(now, duration)]
    {
      var source := nextSource;
      nextSource := nextSource + 1;
      playing := playing + {source};
      var start := StartTime(nextStartTime, now);
      effects := effects + [StartSource(source, start)];
      CursorStep(0.0, chunks, Chunk(now, duration));
      nextStartTime := start + duration;
      chunks := chunks + [Chunk(now, duration)];
    }

    /** The audio of a message sets "bot speaking" and, while the output
        context is open, is scheduled. */
    method PlayAudio(audio: Option<Duration>, now: real)
      requires Valid()
      modifies this`isBotSpeaking, this`nextSource, this`playing, this`effects, this`nextStartTime, this`chunks
      ensures Valid()
      ensures isBotSpeaking == (old(isBotSpeaking) || audio.Some?)
      ensures effects == old(effects) + AudioEffects(audio, outputContext, old(nextSource), old(nextStartTime), now)
      ensures audio.Some? && outputContext == Open ==>
        && playing == old(playing) + {old(nextSource)} && old(nextSource) !in old(playing)
        && nextStartTime == StartTime(old(nextStartTime), now) + audio.value
        && chunks == old(chunks) + [Chunk(now, audio.value)]
      ensures !(audio.Some? && outputContext == Open) ==>
        && playing == old(playing)
        && nextStartTime == old(nextStartTime) && chunks == old(chunks)
    {
      if audio.Some? {
        isBotSpeaking := true;
        if outputContext == Open {
          Schedule(audio.value, now);
        }
      }
    }

    /** The calls of a message, then its audio. */
    method HandleContent(calls: seq<FunctionCall>, audio: Option<Duration>, replies: seq<Replies>, now: real)
      requires Valid()
      requires |replies| == |calls|
      modifies this`effects, this`officeLayout, this`systemInstruction, this`statusText,
        this`isBotSpeaking, this`nextSource, this`playing, this`nextStartTime, this`chunks
      ensures Valid()
      ensures effects == old(effects)
        + BatchEffects(session, calls, sessionLayout, replies)
        + AudioEffects(audio, outputContext, old(nextSource), old(nextStartTime), now)
      ensures View(officeLayout, systemInstruction, statusText)
           == BatchView(old(View(officeLayout, systemInstruction, statusText)), calls, sessionLayout, replies)
      ensures isBotSpeaking == (old(isBotSpeaking) || audio.Some?)
      ensures audio.Some? && outputContext == Open ==>
        && playing == old(playing) + {old(nextSource)} && old(nextSource) !in old(playing)
        && nextStartTime == StartTime(old(nextStartTime), now) + audio.value
        && chunks == old(chunks) + [Chunk(now, audio.value)]
      ensures !(audio.Some? && outputContext == Open) ==>
        playing == old(playing) && nextStartTime == old(nextStartTime) && chunks == old(chunks)
    {
      RunToolCalls(calls, replies);
      PlayAudio(audio, now);
    }

    /** `onmessage`, with the backend's replies to each call's requests and
        the output clock's time when the audio is scheduled. */
    method HandleMessage(msg: LiveMessage, replies: seq<Replies>, now: real)
      requires Valid()
      requires |replies| == |msg.functionCalls|
      modifies this`userTranscript, this`botTranscript, this`effects, this`officeLayout,
        this`systemInstruction, this`statusText, this`isBotSpeaking, this`nextSource, this`playing,
        this`nextStartTime, this`chunks
      ensures Valid()
      ensures botTranscript == NextTranscript(old(botTranscript), msg.outputTranscription, msg.turnComplete)
      ensures userTranscript == NextTranscript(old(userTranscript), msg.inputTranscription, msg.turnComplete)
      // tool calls in order, then the audio
      ensures effects == old(effects)
        + BatchEffects(session, msg.functionCalls, sessionLayout, replies)
        + AudioEffects(msg.audio, outputContext, old(nextSource), old(nextStartTime), now)
      ensures View(officeLayout, systemInstruction, statusText)
           == BatchView(old(View(officeLayout, systemInstruction, statusText)), msg.functionCalls, sessionLayout, replies)
      ensures isBotSpeaking == (old(isBotSpeaking) || msg.audio.Some?)
      ensures msg.audio.Some? && outputContext == Open ==>
        && playing == old(playing) + {old(nextSource)} && old(nextSource) !in old(playing)
        && nextStartTime == StartTime(old(nextStartTime), now) + msg.audio.value
        && chunks == old(chunks) + [Chunk(now, msg.audio.value)]
      ensures !(msg.audio.Some? && outputContext == Open) ==>
        playing == old(playing) && nextStartTime == old(nextStartTime) && chunks == old(chunks)
    {
      ApplyTranscripts(msg);
      HandleContent(msg.functionCalls, msg.audio, replies, now);
    }

    /** A source's `onended`: it leaves the playing set, and "bot speaking"
        is cleared exactly when that empties the set. */
    method OnEnded(source: nat)
      requires Valid()
      modifies this`playing, this`isBotSpeaking
      ensures Valid()
      ensures playing == old(playing) - {source}
      ensures isBotSpeaking == (old(isBotSpeaking) && playing != {})
    {
      playing := playing - {source};
      if playing == {} {
        isBotSpeaking := false;
      }
    }

    /** The socket's `onerror`: the error status is written, then the stop
        handler overwrites it. */
    method OnError(message: string)
      requires Valid()
      modifies this`session, this`hasProcessor, this`hasSource, this`mediaStream, this`inputContext,
        this`outputContext, this`playing, this`effects, this`isSessionActive, this`isBotSpeaking,
        this`isProcessing, this`statusText, this`userTranscript, this`botTranscript
      ensures Valid() && Released() && statusText == SessionEndedStatus
      ensures effects == old(effects)
        + StopEffects(old(session), old(hasProcessor), old(hasSource), old(mediaStream),
                      old(inputContext), old(outputContext), old(playing))
      ensures inputContext == (if old(inputContext) == Open then Absent else old(inputContext))
      ensures outputContext == (if old(outputContext) == Open then Absent else old(outputContext))
      ensures playing == (if old(outputContext) == Open then {} else old(playing))
    {
      statusText := "Error: " + (if message == "" then ConnectionErrorText else message);
      Stop();
    }

    /** The socket's `onclose`. */
    method OnClose()
      requires Valid()
      modifies this`session, this`hasProcessor, this`hasSource, this`mediaStream, this`inputContext,
        this`outputContext, this`playing, this`effects, this`isSessionActive, this`isBotSpeaking,
        this`isProcessing, this`statusText, this`userTranscript, this`botTranscript
      ensures Valid() && Released() && statusText == SessionEndedStatus
      ensures effects == old(effects)
        + StopEffects(old(session), old(hasProcessor), old(hasSource), old(mediaStream),
                      old(inputContext), old(outputContext), old(playing))
      ensures inputContext == (if old(inputContext) == Open then Absent else old(inputContext))
      ensures outputContext == (if old(outputContext) == Open then Absent else old(outputContext))
      ensures playing == (if old(outputContext) == Open then {} else old(playing))
    {
      Stop();
    }
  }

  /** Closing the session makes the socket fire `onclose`, which runs the
      stop handler again; the second run releases nothing and asks nothing
      of the outside world. */
  method StopThenClose(c: SessionController)
    requires c.Valid()
    modifies c`session, c`hasProcessor, c`hasSource, c`mediaStream, c`inputContext,
      c`outputContext, c`playing, c`effects, c`isSessionActive, c`isBotSpeaking,
      c`isProcessing, c`statusText, c`userTranscript, c`botTranscript
    ensures c.Valid() && c.Released() && c.statusText == SessionEndedStatus
    ensures c.effects == old(c.effects)
      + StopEffects(old(c.session), old(c.hasProcessor), old(c.hasSource), old(c.mediaStream),
                    old(c.inputContext), old(c.outputContext), old(c.playing))
    ensures c.inputContext == (if old(c.inputContext) == Open then Absent else old(c.inputContext))
    ensures c.outputContext == (if old(c.outputContext) == Open then Absent else old(c.outputContext))
    ensures c.playing == (if old(c.outputContext) == Open then {} else old(c.playing))
  {
    c.Stop();
    c.OnClose();
  }
}
