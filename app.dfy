/**
 * The session controller of App.tsx: the component state and refs of lines
 * 28-38 as the fields of one `Session` object, and one method per handler that
 * updates them. Each inbound server message is handled atomically (see README).
 * Device time, decoded durations and wall-clock readings are parameters.
 */
module App {
  import opened Types
  import opened Playback
  import opened Transcript
  import opened ToolCalls

  /** An open streaming session (sessionRef.current). */
  datatype Handle = Handle(id: nat)

  /** What the application sends over a session handle. */
  datatype Outbound =
    | ToolResponseSent(to: Handle, response: ToolResponse)
    | SessionClosed(closed: Handle)

  /** One server message, reduced to the fields the handler reads. */
  datatype ServerMessage = ServerMessage(
    audioData: Option<string>,                  // serverContent.modelTurn.parts[0].inlineData.data
    interrupted: bool,                          // serverContent.interrupted
    inputTranscription: Option<Transcription>,  // serverContent.inputTranscription
    outputTranscription: Option<Transcription>, // serverContent.outputTranscription
    turnComplete: bool,                         // serverContent.turnComplete
    toolCall: Option<seq<FunctionCall>>)        // toolCall.functionCalls

  /** `if (audioData)`: a missing or empty payload is skipped. */
  predicate HasAudio(m: ServerMessage)
  {
    m.audioData.Some? && m.audioData.value != ""
  }

  /** The function calls of a message, in order (line 148); the calls App.Session.HandleContent dispatches. */
  function CallsOf(m: ServerMessage): seq<FunctionCall>
  {
    if m.toolCall.Some? then m.toolCall.value else []
  }

  /** The tool responses that reach the transport: none without an open handle. */
  function Deliver(h: Option<Handle>, rs: seq<ToolResponse>): (out: seq<Outbound>)
    ensures h.None? ==> out == []
    ensures h.Some? ==> |out| == |rs|
    decreases |rs|
  {
    if h.None? || rs == [] then []
    else Deliver(h, rs[..|rs| - 1]) + [ToolResponseSent(h.value, rs[|rs| - 1])]
  }

  /** With a handle open, the k-th response is sent, in order, over that handle. */
  lemma {:induction false} DeliverSendsEach(h: Option<Handle>, rs: seq<ToolResponse>)
    requires h.Some?
    ensures forall k :: 0 <= k < |rs| ==> Deliver(h, rs)[k] == ToolResponseSent(h.value, rs[k])
    decreases |rs|
  {
    if rs != [] {
      DeliverSendsEach(h, rs[..|rs| - 1]);
    }
  }

  lemma DeliverAppend(h: Option<Handle>, a: seq<ToolResponse>, b: seq<ToolResponse>)
    ensures Deliver(h, a + b) == Deliver(h, a) + Deliver(h, b)
  {
    if h.Some? {
      DeliverSendsEach(h, a + b);
      DeliverSendsEach(h, a);
      DeliverSendsEach(h, b);
      forall k | 0 <= k < |a + b|
        ensures Deliver(h, a + b)[k] == (Deliver(h, a) + Deliver(h, b))[k]
      {
        if k >= |a| { assert (a + b)[k] == b[k - |a|]; }
      }
    }
  }

  /** The action of the main button (lines 227-229): it ends the conversation
      when connected, is disabled while connecting, and starts one otherwise. */
  datatype ButtonAction = StartConversation | EndConversation | Disabled

  function Button(status: ConnectionStatus): (a: ButtonAction)
    ensures a == StartConversation <==> status == Idle || status == Error
    ensures a == EndConversation <==> status == Connected
    ensures a == Disabled <==> status == Connecting
  {
    match status
    case Connected => EndConversation
    case Connecting => Disabled
    case Idle => StartConversation
    case Error => StartConversation
  }

  /** A scheduled AudioBufferSourceNode: its place on the output clock, and whether it was stopped. */
  class Source {
    const start: real
    const duration: real
    var stopped: bool

    constructor (start: real, duration: real)
      ensures this.start == start && this.duration == duration && !stopped
    {
      this.start := start;
      this.duration := duration;
      stopped := false;
    }

    method Stop()
      modifies this
      ensures stopped
    {
      stopped := true;
    }
  }

  /** The fields of a session, for stating what a handler leaves unchanged. */
  datatype SessionView = SessionView(
    status: ConnectionStatus,
    messages: seq<Message>,
    isSpeaking: bool,
    consultation: Option<ConsultationDetails>,
    language: Language,
    playhead: real,
    active: set<Source>,
    transcript: Buffers,
    handle: Option<Handle>,
    contextsOpen: bool,
    outbox: seq<Outbound>)

  /** The session after handling one tool call: the effect App.Session.HandleToolCall is proved to have. */
  ghost function AfterCall(v: SessionView, fc: FunctionCall, now: int): SessionView
  {
    v.(consultation := if fc.name == ScheduleConsultation then Some(fc.args) else v.consultation,
       outbox := v.outbox + Deliver(v.handle, Respond(fc)),
       messages := v.messages + Summarize(fc, now))
  }

  /** The session after handling a list of tool calls in order: the effect
      App.Session.DispatchToolCalls is proved to have. */
  ghost function AfterCalls(v: SessionView, calls: seq<FunctionCall>, now: int): SessionView
  {
    v.(consultation := Latest(v.consultation, calls),
       outbox := v.outbox + Deliver(v.handle, Responses(calls)),
       messages := v.messages + Summaries(calls, now))
  }

  /** Proof step for DispatchToolCalls: the sends of one more call follow those of the earlier calls. */
  lemma OutboxStep(h: Option<Handle>, sent: seq<Outbound>, init: seq<FunctionCall>, c: FunctionCall)
    ensures sent + Deliver(h, Responses(init + [c])) == (sent + Deliver(h, Responses(init))) + Deliver(h, Respond(c))
  {
    CallsStep(None, init, c, 0);
    DeliverAppend(h, Responses(init), Respond(c));
  }

  /** Proof step for DispatchToolCalls: the summary of one more call follows those of the earlier calls. */
  lemma MessagesStep(ms: seq<Message>, init: seq<FunctionCall>, c: FunctionCall, now: int)
    ensures ms + Summaries(init + [c], now) == (ms + Summaries(init, now)) + Summarize(c, now)
  {
    CallsStep(None, init, c, now);
  }

  /** Handling the calls of a list one at a time, in list order, has the
      effect AfterCalls describes for the whole list. */
  lemma AfterCallsStep(v: SessionView, init: seq<FunctionCall>, c: FunctionCall, now: int)
    ensures AfterCalls(v, init + [c], now) == AfterCall(AfterCalls(v, init, now), c, now)
  {
    CallsStep(v.consultation, init, c, now);
    OutboxStep(v.handle, v.outbox, init, c);
    MessagesStep(v.messages, init, c, now);
  }

  /** The session after the non-audio part of a server message: an
      interruption clears the playback state, the partial transcriptions are
      absorbed, a turn-complete signal flushes the buffers, and the tool calls
      are handled. This is the effect App.Session.HandleContent is proved to
      have; ContentEffect states what it means. */
  ghost function AfterContent(v: SessionView, m: ServerMessage, now: int): SessionView
  {
    var v1 := if m.interrupted then v.(active := {}, playhead := 0.0, isSpeaking := false) else v;
    var b := Absorb(v1.transcript, Partial(m.inputTranscription, m.outputTranscription));
    var v2 := if m.turnComplete then v1.(messages := Flush(v1.messages, b, now), transcript := Cleared)
              else v1.(transcript := b);
    AfterCalls(v2, CallsOf(m), now)
  }

  /** What the non-audio part of a message does: the transcript keeps its
      history, gains the flushed turn (on turn completion) and one summary per
      consultation call; the buffers are cleared on turn completion and extended
      otherwise; the last consultation call wins; each consultation call is
      acknowledged over the open handle; the connection is untouched; and the
      playback state is cleared exactly when the message is an interruption. */
  lemma ContentEffect(v: SessionView, m: ServerMessage, now: int)
    ensures
      var after := AfterContent(v, m, now);
      var b := Absorb(v.transcript, Partial(m.inputTranscription, m.outputTranscription));
      && after.transcript == (if m.turnComplete then Cleared else b)
      && after.messages == (if m.turnComplete then Flush(v.messages, b, now) else v.messages)
                           + Summaries(CallsOf(m), now)
      && after.messages[..|v.messages|] == v.messages
      && after.consultation == Latest(v.consultation, CallsOf(m))
      && after.outbox == v.outbox + Deliver(v.handle, Responses(CallsOf(m)))
      && after.status == v.status && after.language == v.language
      && after.handle == v.handle && after.contextsOpen == v.contextsOpen
      && (m.interrupted ==> after.active == {} && after.playhead == 0.0 && !after.isSpeaking)
      && (!m.interrupted ==>
            after.active == v.active && after.playhead == v.playhead && after.isSpeaking == v.isSpeaking)
  {
    var b := Absorb(v.transcript, Partial(m.inputTranscription, m.outputTranscription));
    var kept := if m.turnComplete then Flush(v.messages, b, now) else v.messages;
    assert kept[..|v.messages|] == v.messages;
    assert (kept + Summaries(CallsOf(m), now))[..|v.messages|] == kept[..|v.messages|];
  }

  class Session {
    var status: ConnectionStatus
    var messages: seq<Message>
    var isSpeaking: bool
    var consultation: Option<ConsultationDetails>
    var language: Language
    /** nextStartTimeRef: the next free time on the output clock. */
    var playhead: real
    /** sourcesRef: the sources scheduled and not yet ended. */
    var active: set<Source>
    /** transcriptionRef: the open turn's text. */
    var transcript: Buffers
    /** sessionRef. */
    var handle: Option<Handle>
    /** Whether the input and output audio contexts are open (audioContextRef). */
    var contextsOpen: bool
    /** Everything sent over session handles, in order. */
    var outbox: seq<Outbound>

    ghost function View(): SessionView
      reads this
    {
      SessionView(status, messages, isSpeaking, consultation, language, playhead, active,
           transcript, handle, contextsOpen, outbox)
    }

    /** The scheduling invariant: the playhead is never negative, every active
        source is unstopped and ends by the playhead, and no two active sources
        overlap on the output clock. */
    ghost predicate Valid()
      reads this, active
    {
      && 0.0 <= playhead
      && (forall s :: s in active ==> !s.stopped && 0.0 <= s.duration && s.start + s.duration <= playhead)
      && (forall a, b :: a in active && b in active && a != b ==>
            a.start + a.duration <= b.start || b.start + b.duration <= a.start)
    }

    /** The initial state of the component (lines 28-38). */
    constructor ()
      ensures Valid()
      ensures View() == SessionView(Idle, [], false, None, English, 0.0, {}, Cleared, None, false, [])
    {
      status := Idle;
      messages := [];
      isSpeaking := false;
      consultation := None;
      language := English;
      playhead := 0.0;
      active := {};
      transcript := Cleared;
      handle := None;
      contextsOpen := false;
      outbox := [];
    }

    /** Inbound audio (lines 108-124): the speaking indicator goes on and the
        playhead catches up with the device clock before decoding; when the
        fragment decodes, one new source starts at the playhead, the playhead
        moves past it and the source joins the active set. `decoded` is the
        decoded duration, or None when decoding throws, which ends the handler. */
    method EnqueueAudio(deviceTime: real, decoded: Option<real>) returns (u: Source?)
      requires Valid()
      requires decoded.Some? ==> decoded.value >= 0.0
      modifies this
      ensures Valid()
      ensures playhead >= old(playhead)
      ensures decoded.None? ==> (u == null &&
        View() == old(View()).(isSpeaking := true, playhead := StartOf(old(playhead), deviceTime)))
      ensures decoded.Some? ==> (u != null && fresh(u) && !u.stopped &&
        u.start == StartOf(old(playhead), deviceTime) && u.duration == decoded.value &&
        (forall s :: s in old(active) ==> s.start + s.duration <= u.start) &&
        View() == old(View()).(isSpeaking := true, active := old(active) + {u},
                               playhead := u.start + u.duration))
    {
      isSpeaking := true;
      playhead := StartOf(playhead, deviceTime);
      if decoded.None? {
        return null;
      }
      u := new Source(playhead, decoded.value);
      playhead := playhead + u.duration;
      active := active + {u};
    }

    /** A source's `onended` (lines 117-120): it leaves the active set, and the
        speaking indicator goes off exactly when the set is then empty. */
    method SourceEnded(s: Source)
      requires Valid()
      modifies this
      ensures Valid()
      ensures View() == old(View()).(active := old(active) - {s},
                                     isSpeaking := if old(active) - {s} == {} then false else old(isSpeaking))
    {
      active := active - {s};
      if active == {} {
        isSpeaking := false;
      }
    }

    /** Barge-in (lines 126-131): every active source is stopped, the set is
        emptied, the playhead rewinds to 0 and the speaking indicator goes off. */
    method Interrupt()
      requires Valid()
      modifies this, active
      ensures Valid()
      ensures forall s :: s in old(active) ==> s.stopped
      ensures View() == old(View()).(active := {}, playhead := 0.0, isSpeaking := false)
    {
      var sources := active;
      var pending := sources;
      while pending != {}
        invariant pending <= sources
        invariant forall s :: s in sources && s !in pending ==> s.stopped
        modifies sources
        decreases pending
      {
        var s :| s in pending;
        s.Stop();
        pending := pending - {s};
      }
      active := {};
      playhead := 0.0;
      isSpeaking := false;
    }

    /** Partial transcription (lines 133-138): input text goes to the user
        buffer, output text to the model buffer, and nothing else changes. */
    method AppendTranscription(p: Partial)
      requires Valid()
      modifies this
      ensures Valid()
      ensures View() == old(View()).(transcript := Absorb(old(transcript), p))
    {
      if p.input.Some? {
        transcript := transcript.(user := transcript.user + Show(p.input.value.text));
      }
      if p.output.Some? {
        transcript := transcript.(model := transcript.model + Show(p.output.value.text));
      }
    }

    /** Turn complete (lines 139-145): the buffers are flushed into the
        transcript (see Transcript.Flush) and cleared. */
    method TurnComplete(now: int)
      requires Valid()
      modifies this
      ensures Valid()
      ensures View() == old(View()).(messages := Flush(old(messages), old(transcript), now), transcript := Cleared)
    {
      var u, m := transcript.user, transcript.model;
      if u != "" {
        messages := messages + [Message(User, u, now)];
      }
      if m != "" {
        messages := messages + [Message(Assistant, m, now)];
      }
      transcript := Cleared;
    }

    /** handleToolCall (lines 42-63): a scheduleConsultation call replaces the
        consultation with its arguments, is acknowledged over the handle when
        one is open, and appends its summary to the transcript; any other call
        changes nothing. */
    method HandleToolCall(fc: FunctionCall, now: int)
      requires Valid()
      modifies this
      ensures Valid()
      ensures fc.name != ScheduleConsultation ==> View() == old(View())
      ensures fc.name == ScheduleConsultation ==>
        View() == old(View()).(
          consultation := Some(fc.args),
          outbox := old(outbox) + Deliver(old(handle), [ToolResponse(fc.id, fc.name, Acknowledgement)]),
          messages := old(messages) + [Message(Assistant, Summary(fc.args), now)])
      ensures View() == AfterCall(old(View()), fc, now)
    {
      if fc.name == ScheduleConsultation {
        consultation := Some(fc.args);
        if handle.Some? {
          outbox := outbox + [ToolResponseSent(handle.value, ToolResponse(fc.id, fc.name, Acknowledgement))];
        }
        messages := messages + [Message(Assistant, Summary(fc.args), now)];
      }
    }

    /** `functionCalls.forEach(handleToolCall)` (lines 147-149): the calls are
        handled in list order. */
    method DispatchToolCalls(calls: seq<FunctionCall>, now: int)
      requires Valid()
      modifies this
      ensures Valid()
      ensures View() == AfterCalls(old(View()), calls, now)
    {
      for i := 0 to |calls|
        invariant Valid()
        invariant View() == AfterCalls(old(View()), calls[..i], now)
      {
        assert calls[..i + 1] == calls[..i] + [calls[i]];
        AfterCallsStep(old(View()), calls[..i], calls[i], now);
        HandleToolCall(calls[i], now);
      }
      assert calls[..|calls|] == calls;
    }

    /** The part of onmessage after the audio (lines 126-149): interruption,
        transcription, turn completion and tool calls, in that order. */
    method HandleContent(m: ServerMessage, now: int)
      requires Valid()
      modifies this, active
      ensures Valid()
      ensures m.interrupted ==> forall s :: s in old(active) ==> s.stopped
      ensures View() == AfterContent(old(View()), m, now)
    {
      if m.interrupted {
        Interrupt();
      }
      AppendTranscription(Partial(m.inputTranscription, m.outputTranscription));
      if m.turnComplete {
        TurnComplete(now);
      }
      if m.toolCall.Some? {
        DispatchToolCalls(m.toolCall.value, now);
      }
    }

    /** onmessage (lines 107-150). A message with audio first schedules it;
        when the audio fails to decode, the handler stops after the speaking
        indicator and the playhead were updated. Otherwise the rest of the
        message is handled as HandleContent describes. */
    method HandleMessage(m: ServerMessage, deviceTime: real, decoded: Option<real>, now: int) returns (u: Source?)
      requires Valid()
      requires decoded.Some? ==> decoded.value >= 0.0
      modifies this, active
      ensures Valid()
      ensures !HasAudio(m) ==> u == null && View() == AfterContent(old(View()), m, now)
      ensures HasAudio(m) && decoded.None? ==> (u == null &&
        View() == old(View()).(isSpeaking := true, playhead := StartOf(old(playhead), deviceTime)))
      ensures HasAudio(m) && decoded.Some? ==> (u != null && fresh(u) &&
        u.start == StartOf(old(playhead), deviceTime) && u.duration == decoded.value &&
        View() == AfterContent(old(View()).(isSpeaking := true, active := old(active) + {u},
                                             playhead := u.start + u.duration), m, now))
      ensures m.interrupted && (!HasAudio(m) || decoded.Some?) ==>
        (forall s :: s in old(active) ==> s.stopped) && (u != null ==> u.stopped)
    {
      u := null;
      if HasAudio(m) {
        u := EnqueueAudio(deviceTime, decoded);
        if u == null {
          return;
        }
      }
      HandleContent(m, now);
    }

    /** connectVoice as written (lines 65-72): the status becomes CONNECTING
        and fresh audio contexts are opened; the playback state is kept. */
    method ConnectAsWritten()
      requires Valid()
      modifies this
      ensures Valid()
      ensures View() == old(View()).(status := Connecting, contextsOpen := true)
    {
      status := Connecting;
      contextsOpen := true;
    }

    /** connectVoice with the playback state reset: the new output context's
        clock starts at 0, so the sources and the playhead of the previous
        conversation are dropped as an interruption drops them. */
    method Connect()
      requires Valid()
      modifies this, active
      ensures Valid()
      ensures forall s :: s in old(active) ==> s.stopped
      ensures View() == old(View()).(status := Connecting, contextsOpen := true,
                                     active := {}, playhead := 0.0, isSpeaking := false)
    {
      Interrupt();
      status := Connecting;
      contextsOpen := true;
    }

    /** `sessionRef.current = await sessionPromise` (line 161). */
    method SessionResolved(h: Handle)
      requires Valid()
      modifies this
      ensures Valid()
      ensures View() == old(View()).(handle := Some(h))
    {
      handle := Some(h);
    }

    /** The catch path of connectVoice (lines 162-164). */
    method ConnectFailed()
      requires Valid()
      modifies this
      ensures Valid()
      ensures View() == old(View()).(status := Error)
    {
      status := Error;
    }

    /** onopen (line 92); starting the capture loop is not modelled. */
    method Opened()
      requires Valid()
      modifies this
      ensures Valid()
      ensures View() == old(View()).(status := Connected)
    {
      status := Connected;
    }

    /** onerror (lines 151-154). */
    method Errored()
      requires Valid()
      modifies this
      ensures Valid()
      ensures View() == old(View()).(status := Error)
    {
      status := Error;
    }

    /** onclose (lines 155-157); the handle is left as it is. */
    method Closed()
      requires Valid()
      modifies this
      ensures Valid()
      ensures View() == old(View()).(status := Idle)
    {
      status := Idle;
    }

    /** disconnectVoice (lines 168-179): the handle is closed and forgotten
        when there is one, the audio contexts are closed, the status becomes
        IDLE and the speaking indicator goes off; the playhead and the active
        set are left as they are. */
    method Disconnect()
      requires Valid()
      modifies this
      ensures Valid()
      ensures View() == old(View()).(
        handle := None, contextsOpen := false, status := Idle, isSpeaking := false,
        outbox := old(outbox) + (if old(handle).Some? then [SessionClosed(old(handle).value)] else []))
    {
      if handle.Some? {
        outbox := outbox + [SessionClosed(handle.value)];
        handle := None;
      }
      contextsOpen := false;
      status := Idle;
      isSpeaking := false;
    }

    /** The main button (lines 227-229): disconnect when connected, nothing
        while connecting, connectVoice as written from IDLE or ERROR. */
    method Click()
      requires Valid()
      modifies this
      ensures Valid()
      ensures Button(old(status)) == Disabled ==> View() == old(View())
      ensures Button(old(status)) == EndConversation ==>
        View() == old(View()).(handle := None, contextsOpen := false, status := Idle, isSpeaking := false,
                               outbox := old(outbox) + (if old(handle).Some? then [SessionClosed(old(handle).value)] else []))
      ensures Button(old(status)) == StartConversation ==>
        View() == old(View()).(status := Connecting, contextsOpen := true)
    {
      match Button(status)
      case EndConversation => Disconnect();
      case Disabled =>
      case StartConversation => ConnectAsWritten();
    }

    /** The main button with the corrected connect, which resets playback to
        the new output clock. */
    method ClickCorrected()
      requires Valid()
      modifies this, active
      ensures Valid()
      ensures Button(old(status)) == Disabled ==> View() == old(View())
      ensures Button(old(status)) == EndConversation ==>
        View() == old(View()).(handle := None, contextsOpen := false, status := Idle, isSpeaking := false,
                               outbox := old(outbox) + (if old(handle).Some? then [SessionClosed(old(handle).value)] else []))
      ensures Button(old(status)) == StartConversation ==>
        (forall s :: s in old(active) ==> s.stopped) &&
        View() == old(View()).(status := Connecting, contextsOpen := true,
                               active := {}, playhead := 0.0, isSpeaking := false)
    {
      match Button(status)
      case EndConversation => Disconnect();
      case Disabled =>
      case StartConversation => Connect();
    }

    /** A language button (lines 196-199); the buttons are disabled unless IDLE. */
    method ChooseLanguage(l: Language)
      requires Valid()
      modifies this
      ensures Valid()
      ensures View() == if old(status) == Idle then old(View()).(language := l) else old(View())
    {
      if status == Idle {
        language := l;
      }
    }

    /** clearHistory (line 40). */
    method ClearHistory()
      requires Valid()
      modifies this
      ensures Valid()
      ensures View() == old(View()).(messages := [])
    {
      messages := [];
    }

    /** The "Confirm & Clear" button (line 262). */
    method DismissConsultation()
      requires Valid()
      modifies this
      ensures Valid()
      ensures View() == old(View()).(consultation := None)
    {
      consultation := None;
    }
  }

  /** Reconnecting with connectVoice as written: the first conversation
      queues `d1` seconds of audio from device time 0 and is ended; the new
      conversation's output clock reads `t2`, still short of `d1`, when its
      first fragment arrives, yet that fragment is scheduled at `d1`. */
  method ReconnectAsWritten(d1: real, t2: real) returns (start: real)
    requires 0.0 <= t2 < d1
    ensures start == d1 && start > t2
  {
    var s := new Session();
    s.Click();
    s.SessionResolved(Handle(0));
    s.Opened();
    var first := s.EnqueueAudio(0.0, Some(d1));
    assert s.playhead == d1;
    s.Click();
    s.Click();
    s.SessionResolved(Handle(1));
    s.Opened();
    assert s.playhead == d1;
    var next := s.EnqueueAudio(t2, Some(1.0));
    start := next.start;
  }

  /** The same run with the playback state reset on connect: the new
      conversation's first fragment starts at the new clock's current time. */
  method ReconnectCorrected(d1: real, t2: real) returns (start: real)
    requires 0.0 <= d1 && 0.0 <= t2
    ensures start == t2
  {
    var s := new Session();
    s.ClickCorrected();
    s.SessionResolved(Handle(0));
    s.Opened();
    var first := s.EnqueueAudio(0.0, Some(d1));
    s.ClickCorrected();
    s.ClickCorrected();
    s.SessionResolved(Handle(1));
    s.Opened();
    var next := s.EnqueueAudio(t2, Some(1.0));
    start := next.start;
  }
}
