/**
 * The live-session manager of the service layer, and the system-instruction
 * bookkeeping of the text chat.
 *
 * The module-level variables of the service become the fields of one object:
 * the current system instruction, the chat session (recorded as the instruction
 * it was created with), the live session (recorded likewise), the FIFO queue of
 * messages the transport has delivered, and the stored turn-complete and error
 * callbacks. The remote transport is an event source: its `onmessage`,
 * `onerror` and `onclose` callbacks are operations of their own, and whether
 * `connect` and `sendClientContent` succeed are parameters. Callbacks are
 * recorded as a trace of events; a stored callback is named by a `Handler`.
 */
module GeminiService {
  import opened Wrappers
  import opened SeqFacts
  import opened JsText

  /**
   * Names the callback a caller handed in; the trace records which one was
   * invoked. A callback is a closure over its caller's state, so the name says
   * whose callback it is.
   */
  type Handler = string

  /** What an error callback is told; the source passes localized text. */
  datatype ErrorKind =
    | MissingApiKey
    | ConnectFailed
    | ConnectionProblem(message: string)
    | SessionNotActive
    | SendFailed

  /** One invocation of a callback. */
  datatype Event =
    | Text(text: string, isPartial: bool)
    | Audio(audioData: string, mimeType: string)
    | TurnComplete(handler: Handler)
    | Error(handler: Handler, kind: ErrorKind)

  datatype InlineData = InlineData(data: Option<string>, mimeType: Option<string>)

  /** A part of the model's turn: optional text and optional inline audio. */
  datatype Part = Part(text: Option<string>, inlineData: Option<InlineData>)

  /**
   * A message from the live transport, reduced to what the drain reads: the
   * parts of the model's turn (none when absent) and the turn-complete flag.
   */
  datatype ServerMessage = ServerMessage(parts: seq<Part>, turnComplete: bool)

  /** The placeholder for the user's profile block in a system instruction. */
  const Placeholder := "{USER_PROFILE_INFO_BLOCK}"

  /** The value the service substitutes for an unset key. */
  const MissingKeyValue := "MISSING_API_KEY"

  /** A JavaScript string is truthy when it is present and not empty. */
  predicate Present(o: Option<string>) {
    o.Some? && o.value != []
  }

  // ---------------------------------------------------------------- demultiplexing

  /** Inline audio is delivered only when both its data and its MIME type are present. */
  predicate HasAudio(p: Part) {
    p.inlineData.Some? && Present(p.inlineData.value.data) && Present(p.inlineData.value.mimeType)
  }

  /**
   * The callbacks one part triggers: its text as a partial chunk, then its audio,
   * which needs both data and a MIME type.
   */
  function PartEvents(p: Part): (es: seq<Event>)
    ensures |es| == (if Present(p.text) then 1 else 0) + (if HasAudio(p) then 1 else 0)
    ensures Present(p.text) ==> es[0] == Text(p.text.value, true)
    ensures HasAudio(p) ==> es[|es| - 1] == Audio(p.inlineData.value.data.value, p.inlineData.value.mimeType.value)
  {
    (if Present(p.text) then [Text(p.text.value, true)] else [])
    + (if HasAudio(p) then [Audio(p.inlineData.value.data.value, p.inlineData.value.mimeType.value)] else [])
  }

  /** The callbacks of the parts, in part order. */
  function PartsEvents(ps: seq<Part>): seq<Event> {
    if ps == [] then [] else PartsEvents(ps[..|ps| - 1]) + PartEvents(ps[|ps| - 1])
  }

  /** The end of a turn: the closing empty text chunk, then the stored turn-complete callback if any. */
  function EndOfTurn(turnCallback: Option<Handler>): seq<Event> {
    [Text("", false)] + (if turnCallback.Some? then [TurnComplete(turnCallback.value)] else [])
  }

  /** The callbacks of one dequeued message. */
  function MessageEvents(m: ServerMessage, turnCallback: Option<Handler>): seq<Event> {
    PartsEvents(m.parts) + (if m.turnComplete then EndOfTurn(turnCallback) else [])
  }

  /** The callbacks of messages none of which completes the turn, in queue order. */
  function MessagesEvents(ms: seq<ServerMessage>): seq<Event> {
    if ms == [] then [] else PartsEvents(ms[0].parts) + MessagesEvents(ms[1..])
  }

  predicate NoneCompletes(ms: seq<ServerMessage>) {
    forall i :: 0 <= i < |ms| ==> !ms[i].turnComplete
  }

  /** What a drain of the queue yields: the callbacks fired, the messages left, and whether the turn ended. */
  datatype Drain = Drain(events: seq<Event>, rest: seq<ServerMessage>, resolved: bool)

  /**
   * The drain of one turn: messages are taken from the front of the queue until
   * one completes the turn. When the queue runs dry first, the source keeps
   * polling; the drain stops there unresolved.
   */
  function DrainSpec(q: seq<ServerMessage>, turnCallback: Option<Handler>): (d: Drain)
    decreases |q|
  {
    if q == [] then Drain([], [], false)
    else if q[0].turnComplete then Drain(MessageEvents(q[0], turnCallback), q[1..], true)
    else
      var d := DrainSpec(q[1..], turnCallback);
      d.(events := MessageEvents(q[0], turnCallback) + d.events)
  }

  // ---------------------------------------------------------------- service state

  /**
   * A snapshot of the service: the configured key, the built-in instruction, the
   * current instruction, the chat and live sessions, the inbound queue, the stored
   * callbacks, the trace of callback invocations and the prompts sent.
   */
  datatype ServiceState = ServiceState(
    apiKey: string,
    baseInstruction: string,
    currentInstruction: string,
    chatSession: Option<string>,
    liveSession: Option<string>,
    queue: seq<ServerMessage>,
    turnCallback: Option<Handler>,
    errorCallback: Option<Handler>,
    events: seq<Event>,
    sent: seq<string>)

  predicate KeyConfigured(apiKey: string) {
    apiKey != [] && apiKey != MissingKeyValue
  }

  /**
   * The chat session, once created, runs on the current instruction; a live
   * session exists only with a configured key, and while it is open its
   * callbacks are stored.
   */
  predicate Inv(s: ServiceState) {
    (s.chatSession.Some? ==> s.chatSession.value == s.currentInstruction)
    && (s.liveSession.Some? ==> KeyConfigured(s.apiKey) && s.turnCallback.Some? && s.errorCallback.Some?)
  }

  /** The instruction at start-up: the admin-saved one, or the built-in one with the placeholder removed. */
  function InitialInstruction(baseInstruction: string, adminSaved: string): (r: string)
    ensures adminSaved != [] ==> r == adminSaved
    ensures adminSaved == [] && !Contains(baseInstruction, Placeholder) ==> r == baseInstruction
  {
    if adminSaved != [] then adminSaved else ReplaceFirst(baseInstruction, Placeholder, "")
  }

  function Initial(apiKey: string, baseInstruction: string, adminSaved: string): ServiceState {
    ServiceState(apiKey, baseInstruction, InitialInstruction(baseInstruction, adminSaved), None, None, [], None, None, [], [])
  }

  /**
   * The instruction `updateChatSystemInstruction` computes. Without an
   * admin-saved instruction the new one is used as it is; otherwise the admin
   * text is used with its placeholder filled from the new instruction, or, on an
   * admin update whose text lacks the placeholder, from the current one.
   */
  function UpdatedInstruction(newInstruction: string, isAdminUpdate: bool, adminSaved: string,
                              current: string, extract: string -> string): (r: string)
    ensures adminSaved == [] ==> r == newInstruction
    ensures adminSaved != [] && !Contains(adminSaved, Placeholder) ==> r == adminSaved
  {
    if isAdminUpdate && adminSaved != [] then
      if Contains(newInstruction, Placeholder) then ReplaceFirst(adminSaved, Placeholder, extract(newInstruction))
      else ReplaceFirst(adminSaved, Placeholder, extract(current))
    else if adminSaved != [] then ReplaceFirst(adminSaved, Placeholder, extract(newInstruction))
    else newInstruction
  }

  /** `updateChatSystemInstruction`: a changed instruction replaces the current one and drops the chat. */
  function UpdateStep(s: ServiceState, newInstruction: string, isAdminUpdate: bool, adminSaved: string,
                      extract: string -> string): ServiceState
  {
    var instruction := UpdatedInstruction(newInstruction, isAdminUpdate, adminSaved, s.currentInstruction, extract);
    if instruction != s.currentInstruction then s.(currentInstruction := instruction, chatSession := None) else s
  }

  /**
   * The instruction `resetChat` computes: the app's instruction (through the
   * admin text when there is one), else the admin text with an empty profile
   * block, else the built-in instruction with an empty profile block.
   */
  function ResetInstruction(fromApp: string, adminSaved: string, baseInstruction: string,
                            extract: string -> string): (r: string)
    ensures fromApp != [] && adminSaved == [] ==> r == fromApp
    ensures fromApp == [] && adminSaved == [] ==> r == InitialInstruction(baseInstruction, adminSaved)
    ensures fromApp == [] && adminSaved != [] && !Contains(adminSaved, Placeholder) ==> r == adminSaved
  {
    if fromApp != [] then
      if adminSaved != [] then ReplaceFirst(adminSaved, Placeholder, extract(fromApp)) else fromApp
    else if adminSaved != [] then ReplaceFirst(adminSaved, Placeholder, "")
    else ReplaceFirst(baseInstruction, Placeholder, "")
  }

  /**
   * `resetChat`: the chat is dropped when the instruction changes or the app
   * passes one; any open live session is closed. Queue and callbacks stay.
   */
  function ResetStep(s: ServiceState, fromApp: string, adminSaved: string, extract: string -> string): ServiceState {
    var instruction := ResetInstruction(fromApp, adminSaved, s.baseInstruction, extract);
    var t := if instruction != s.currentInstruction then s.(currentInstruction := instruction, chatSession := None)
             else if fromApp != [] then s.(chatSession := None)
             else s;
    t.(liveSession := None)
  }

  /** `getChatSession`: a chat is created on the current instruction when there is none. */
  function GetChatStep(s: ServiceState): ServiceState {
    if s.chatSession.None? then s.(chatSession := Some(s.currentInstruction)) else s
  }

  /** The stored error callback is told, when there is one. */
  function ReportError(s: ServiceState, kind: ErrorKind): ServiceState {
    if s.errorCallback.Some? then s.(events := s.events + [Error(s.errorCallback.value, kind)]) else s
  }

  /**
   * `startLiveAudioSession`: without a key the caller's error callback is told
   * and false returned; an open session is kept as it is; otherwise the callbacks
   * are stored and the connection attempted, a failure told to the caller.
   */
  function StartStep(s: ServiceState, onTurnComplete: Handler, onError: Handler, connectOk: bool): (r: (ServiceState, bool))
    ensures s.events <= r.0.events && |r.0.events| <= |s.events| + 1
  {
    if !KeyConfigured(s.apiKey) then (s.(events := s.events + [Error(onError, MissingApiKey)]), false)
    else if s.liveSession.Some? then (s, true)
    else
      var t := s.(turnCallback := Some(onTurnComplete), errorCallback := Some(onError));
      if connectOk then (t.(liveSession := Some(s.currentInstruction)), true)
      else (t.(events := t.events + [Error(onError, ConnectFailed)], liveSession := None), false)
  }

  /** The transport's `onmessage`: the message joins the tail of the queue. */
  function MessageStep(s: ServiceState, m: ServerMessage): ServiceState {
    s.(queue := s.queue + [m])
  }

  /** The transport's `onerror`: the stored error callback is told and the session dropped. */
  function TransportErrorStep(s: ServiceState, message: string): ServiceState {
    ReportError(s, ConnectionProblem(message)).(liveSession := None)
  }

  /** The transport's `onclose`: the session is dropped. */
  function CloseEventStep(s: ServiceState): ServiceState {
    s.(liveSession := None)
  }

  /**
   * `sendToLiveAudioSession`: without a session, or when sending throws, the
   * stored error callback is told; otherwise the prompt is sent and the turn
   * drained. The result says whether the turn completed.
   */
  function SendStep(s: ServiceState, prompt: string, sendOk: bool): (r: (ServiceState, bool))
    ensures s.events <= r.0.events
  {
    if s.liveSession.None? then (ReportError(s, SessionNotActive), false)
    else if !sendOk then (ReportError(s, SendFailed), false)
    else
      var d := DrainSpec(s.queue, s.turnCallback);
      (s.(sent := s.sent + [prompt], events := s.events + d.events, queue := d.rest), d.resolved)
  }

  /** `closeLiveAudioSession`: no session, an empty queue and no stored callbacks. */
  function CloseStep(s: ServiceState): ServiceState {
    s.(liveSession := None, queue := [], turnCallback := None, errorCallback := None)
  }

  /** `isLiveAudioSessionActive`. */
  predicate LiveActive(s: ServiceState) {
    s.liveSession.Some?
  }

  // ---------------------------------------------------------------- properties of the drain

  /** Parts only ever produce partial text chunks and audio. */
  lemma {:induction false} PartsEventsArePartial(ps: seq<Part>)
    ensures forall e :: e in PartsEvents(ps) ==> (e.Text? && e.isPartial) || e.Audio?
  {
    if ps != [] {
      PartsEventsArePartial(ps[..|ps| - 1]);
    }
  }

  lemma {:induction false} MessagesEventsArePartial(ms: seq<ServerMessage>)
    ensures forall e :: e in MessagesEvents(ms) ==> (e.Text? && e.isPartial) || e.Audio?
  {
    if ms != [] {
      PartsEventsArePartial(ms[0].parts);
      MessagesEventsArePartial(ms[1..]);
    }
  }

  /** With no turn-complete message queued, the whole queue is drained in order and the turn stays open. */
  lemma {:induction false} DrainWithoutComplete(q: seq<ServerMessage>, turnCallback: Option<Handler>)
    requires NoneCompletes(q)
    ensures DrainSpec(q, turnCallback) == Drain(MessagesEvents(q), [], false)
  {
    if q != [] {
      assert !q[0].turnComplete;
      DrainWithoutComplete(q[1..], turnCallback);
    }
  }

  /** A message that does not complete the turn is delivered, then the drain goes on. */
  lemma DrainCons(x: ServerMessage, rest: seq<ServerMessage>, turnCallback: Option<Handler>)
    requires !x.turnComplete
    ensures var d := DrainSpec(rest, turnCallback);
      DrainSpec([x] + rest, turnCallback) == d.(events := PartsEvents(x.parts) + d.events)
  {
    HeadThenTail(x, rest);
    assert MessageEvents(x, turnCallback) == PartsEvents(x.parts);
  }

  lemma MessagesEventsCons(x: ServerMessage, rest: seq<ServerMessage>)
    ensures MessagesEvents([x] + rest) == PartsEvents(x.parts) + MessagesEvents(rest)
  {
    HeadThenTail(x, rest);
  }

  /**
   * The drain stops at the first turn-complete message: the messages before it
   * and its own parts are delivered in order, then the end of the turn; the
   * messages queued after it stay queued.
   */
  lemma DrainStopsAtFirstComplete(a: seq<ServerMessage>, m: ServerMessage, b: seq<ServerMessage>,
                                  turnCallback: Option<Handler>)
    requires NoneCompletes(a) && m.turnComplete
    ensures DrainSpec(a + [m] + b, turnCallback)
         == Drain(MessagesEvents(a) + PartsEvents(m.parts) + EndOfTurn(turnCallback), b, true)
  {
    assert a + [m] + b == a + ([m] + b);
    DrainResumes(a, [m] + b, turnCallback);
    DrainAtComplete(m, b, turnCallback);
    assert MessagesEvents(a) + (PartsEvents(m.parts) + EndOfTurn(turnCallback))
        == MessagesEvents(a) + PartsEvents(m.parts) + EndOfTurn(turnCallback);
  }

  /** A message that completes the turn ends the drain after its parts and the end of the turn. */
  lemma DrainAtComplete(m: ServerMessage, b: seq<ServerMessage>, turnCallback: Option<Handler>)
    requires m.turnComplete
    ensures DrainSpec([m] + b, turnCallback) == Drain(PartsEvents(m.parts) + EndOfTurn(turnCallback), b, true)
  {
    assert ([m] + b)[0] == m && ([m] + b)[1..] == b;
  }

  /**
   * Polling an empty queue and resuming later changes nothing: draining messages
   * that do not complete the turn and then the later arrivals gives the same
   * callbacks, in the same order, as draining all of them at once.
   */
  lemma {:induction false} DrainResumes(a: seq<ServerMessage>, b: seq<ServerMessage>, turnCallback: Option<Handler>)
    requires NoneCompletes(a)
    ensures var d := DrainSpec(b, turnCallback);
      DrainSpec(a + b, turnCallback) == d.(events := MessagesEvents(a) + d.events)
  {
    if a == [] {
      assert a + b == b;
    } else {
      var tail := a[1..] + b;
      AppendAssociates([a[0]], a[1..], b);
      FirstThenRest(a);
      assert !a[0].turnComplete;
      DrainResumes(a[1..], b, turnCallback);
      DrainCons(a[0], tail, turnCallback);
      MessagesEventsCons(a[0], a[1..]);
      var d := DrainSpec(b, turnCallback);
      AppendAssociates(PartsEvents(a[0].parts), MessagesEvents(a[1..]), d.events);
    }
  }

  /** The closing empty, non-partial text chunks in a trace. */
  function FinalTexts(es: seq<Event>): nat {
    if es == [] then 0 else (if es[0] == Text("", false) then 1 else 0) + FinalTexts(es[1..])
  }

  lemma {:induction false} FinalTextsAppend(x: seq<Event>, y: seq<Event>)
    ensures FinalTexts(x + y) == FinalTexts(x) + FinalTexts(y)
  {
    if x == [] {
      assert x + y == y;
    } else {
      assert (x + y)[0] == x[0];
      assert (x + y)[1..] == x[1..] + y;
      FinalTextsAppend(x[1..], y);
    }
  }

  lemma {:induction false} NoFinalTexts(es: seq<Event>)
    requires forall e :: e in es ==> (e.Text? && e.isPartial) || e.Audio?
    ensures FinalTexts(es) == 0
  {
    if es != [] {
      assert es[0] in es;
      NoFinalTexts(es[1..]);
    }
  }

  lemma PrependsNoFinal(x: seq<Event>, y: seq<Event>, z: seq<Event>)
    requires FinalTexts(x) == 0 && FinalTexts(y) == 0
    ensures FinalTexts(x + y) == 0 && x + (y + z) == (x + y) + z
  {
    FinalTextsAppend(x, y);
  }

  /** The end of a turn holds one closing text chunk. */
  lemma EndOfTurnHasOneFinal(turnCallback: Option<Handler>)
    ensures FinalTexts(EndOfTurn(turnCallback)) == 1
  {
    var e := EndOfTurn(turnCallback);
    assert e[0] == Text("", false);
    if turnCallback.Some? {
      var tail := e[1..];
      assert tail == [TurnComplete(turnCallback.value)] && tail[1..] == [];
      assert FinalTexts(tail) == 0 + FinalTexts(tail[1..]);
    } else {
      assert e[1..] == [];
    }
  }

  /**
   * A drained turn that completes ends with exactly one closing text chunk,
   * followed only by the turn-complete callback; an open turn has none.
   */
  lemma {:induction false} DrainEndsOnce(q: seq<ServerMessage>, turnCallback: Option<Handler>)
    ensures var d := DrainSpec(q, turnCallback);
      FinalTexts(d.events) == (if d.resolved then 1 else 0)
      && (d.resolved ==> exists pre :: d.events == pre + EndOfTurn(turnCallback) && FinalTexts(pre) == 0)
  {
    if q != [] {
      var x, rest := q[0], q[1..];
      assert q == [x] + rest;
      var parts := PartsEvents(x.parts);
      PartsEventsArePartial(x.parts);
      NoFinalTexts(parts);
      if x.turnComplete {
        DrainAtComplete(x, rest, turnCallback);
        FinalTextsAppend(parts, EndOfTurn(turnCallback));
        EndOfTurnHasOneFinal(turnCallback);
        assert DrainSpec(q, turnCallback).events == parts + EndOfTurn(turnCallback);
      } else {
        var d := DrainSpec(rest, turnCallback);
        DrainCons(x, rest, turnCallback);
        DrainEndsOnce(rest, turnCallback);
        FinalTextsAppend(parts, d.events);
        if d.resolved {
          var pre :| d.events == pre + EndOfTurn(turnCallback) && FinalTexts(pre) == 0;
          PrependsNoFinal(parts, pre, EndOfTurn(turnCallback));
          var pre' := parts + pre;
          assert DrainSpec(q, turnCallback).events == pre' + EndOfTurn(turnCallback) && FinalTexts(pre') == 0;
        }
      }
    }
  }

  /** Three messages: text, then audio, then the end of the turn; a fourth stays queued. */
  lemma DrainScenario(h: Handler, later: ServerMessage)
    ensures var hello := ServerMessage([Part(Some("Hi"), None)], false);
      var voice := ServerMessage([Part(None, Some(InlineData(Some("AAAA"), Some("audio/pcm;rate=24000"))))], false);
      var done := ServerMessage([], true);
      DrainSpec([hello, voice, done, later], Some(h))
        == Drain([Text("Hi", true), Audio("AAAA", "audio/pcm;rate=24000"), Text("", false), TurnComplete(h)], [later], true)
  {
    var hello := ServerMessage([Part(Some("Hi"), None)], false);
    var voice := ServerMessage([Part(None, Some(InlineData(Some("AAAA"), Some("audio/pcm;rate=24000"))))], false);
    var done := ServerMessage([], true);
    assert PartsEvents(hello.parts) == [Text("Hi", true)];
    assert PartsEvents(voice.parts) == [Audio("AAAA", "audio/pcm;rate=24000")];
    assert PartsEvents(done.parts) == [];
    var a := [hello, voice];
    assert a[1..] == [voice] && a[1..][1..] == [];
    assert MessagesEvents([voice]) == PartsEvents(voice.parts) + MessagesEvents([]);
    assert MessagesEvents(a) == [Text("Hi", true), Audio("AAAA", "audio/pcm;rate=24000")];
    assert [hello, voice, done, later] == a + [done] + [later];
    DrainStopsAtFirstComplete(a, done, [later], Some(h));
  }

  // ---------------------------------------------------------------- properties of the steps

  /** Every operation keeps the invariant. */
  lemma StepsKeepInv(s: ServiceState, instruction: string, flag: bool, adminSaved: string, extract: string -> string,
                     h1: Handler, h2: Handler, m: ServerMessage, text: string)
    requires Inv(s)
    ensures Inv(UpdateStep(s, instruction, flag, adminSaved, extract)) && Inv(ResetStep(s, instruction, adminSaved, extract))
    ensures Inv(GetChatStep(s)) && Inv(StartStep(s, h1, h2, flag).0) && Inv(MessageStep(s, m))
    ensures Inv(TransportErrorStep(s, text)) && Inv(CloseEventStep(s)) && Inv(SendStep(s, text, flag).0)
    ensures Inv(CloseStep(s))
  {
  }

  /**
   * Without an admin-saved instruction, an update installs the new instruction,
   * and drops the chat exactly when that changes the instruction.
   */
  lemma UpdateWithoutAdmin(s: ServiceState, newInstruction: string, isAdminUpdate: bool, extract: string -> string)
    ensures var t := UpdateStep(s, newInstruction, isAdminUpdate, [], extract);
      t.currentInstruction == newInstruction
      && (t.chatSession.None? <==> s.chatSession.None? || newInstruction != s.currentInstruction)
      && t.(currentInstruction := s.currentInstruction, chatSession := s.chatSession) == s
  {
  }

  /**
   * Repeating an update is harmless: the second call changes nothing, except on
   * an admin update whose text lacks the placeholder, where the profile block
   * is taken from the current instruction.
   */
  lemma UpdateIdempotent(s: ServiceState, newInstruction: string, isAdminUpdate: bool, adminSaved: string,
                         extract: string -> string)
    requires !(isAdminUpdate && adminSaved != [] && !Contains(newInstruction, Placeholder))
    ensures var t := UpdateStep(s, newInstruction, isAdminUpdate, adminSaved, extract);
      UpdateStep(t, newInstruction, isAdminUpdate, adminSaved, extract) == t
  {
  }

  /** Resetting closes any live session; a chat created afterwards uses the reset instruction. */
  lemma ResetClosesLive(s: ServiceState, fromApp: string, adminSaved: string, extract: string -> string)
    requires Inv(s)
    ensures var t := ResetStep(s, fromApp, adminSaved, extract);
      !LiveActive(t) && t.queue == s.queue && t.turnCallback == s.turnCallback
      && GetChatStep(t).chatSession == Some(ResetInstruction(fromApp, adminSaved, s.baseInstruction, extract))
  {
  }

  /**
   * Starting without a key tells the caller once and opens nothing; a failed
   * connection does the same, with the caller's callbacks stored.
   */
  lemma StartFailures(s: ServiceState, onTurnComplete: Handler, onError: Handler, connectOk: bool)
    requires Inv(s)
    ensures var (t, ok) := StartStep(s, onTurnComplete, onError, connectOk);
      !ok ==> t.liveSession.None? && t.events == s.events + [Error(onError, if KeyConfigured(s.apiKey) then ConnectFailed else MissingApiKey)]
    ensures var (t, ok) := StartStep(s, onTurnComplete, onError, connectOk);
      ok <==> KeyConfigured(s.apiKey) && (s.liveSession.Some? || connectOk)
  {
  }

  /** Starting while a session is open keeps it and the callbacks stored with it. */
  lemma StartWhenOpen(s: ServiceState, onTurnComplete: Handler, onError: Handler, connectOk: bool)
    requires Inv(s) && LiveActive(s)
    ensures StartStep(s, onTurnComplete, onError, connectOk) == (s, true)
  {
  }

  /** Sending without a session sends nothing, leaves the queue alone and tells the stored error callback. */
  lemma SendWithoutSession(s: ServiceState, prompt: string, sendOk: bool)
    requires !LiveActive(s)
    ensures var (t, resolved) := SendStep(s, prompt, sendOk);
      !resolved && t.sent == s.sent && t.queue == s.queue
      && t.events == s.events + (if s.errorCallback.Some? then [Error(s.errorCallback.value, SessionNotActive)] else [])
  {
  }

  /** Messages that arrive are drained in arrival order by the next send. */
  lemma ArrivalsDrainInOrder(s: ServiceState, ms: seq<ServerMessage>, prompt: string)
    requires LiveActive(s) && s.queue == [] && NoneCompletes(ms)
    ensures var (t, resolved) := SendStep(s.(queue := ms), prompt, true);
      !resolved && t.queue == [] && t.events == s.events + MessagesEvents(ms) && t.sent == s.sent + [prompt]
  {
    DrainWithoutComplete(ms, s.turnCallback);
  }

  /** Closing twice is closing once; afterwards no session is active and nothing is queued. */
  lemma CloseIdempotent(s: ServiceState)
    ensures CloseStep(CloseStep(s)) == CloseStep(s)
    ensures !LiveActive(CloseStep(s)) && CloseStep(s).queue == [] && CloseStep(s).errorCallback.None?
  {
  }

  /** A transport error reaches the caller that opened the session, and the session is gone. */
  lemma TransportErrorReported(s: ServiceState, message: string)
    requires Inv(s) && LiveActive(s)
    ensures var t := TransportErrorStep(s, message);
      !LiveActive(t) && t.events == s.events + [Error(s.errorCallback.value, ConnectionProblem(message))]
  {
  }

  /**
   * One step of the drain: with `emitted` delivered so far and `q` left, taking
   * the front message either ends the turn or leaves the drain of the rest to do.
   */
  lemma DrainAdvance(q0: seq<ServerMessage>, q: seq<ServerMessage>, emitted: seq<Event>, turnCallback: Option<Handler>)
    requires q != []
    requires var d := DrainSpec(q, turnCallback); DrainSpec(q0, turnCallback) == Drain(emitted + d.events, d.rest, d.resolved)
    ensures var e := emitted + MessageEvents(q[0], turnCallback);
      if q[0].turnComplete then DrainSpec(q0, turnCallback) == Drain(e, q[1..], true)
      else var d := DrainSpec(q[1..], turnCallback); DrainSpec(q0, turnCallback) == Drain(e + d.events, d.rest, d.resolved)
  {
    var m := MessageEvents(q[0], turnCallback);
    if !q[0].turnComplete {
      var d := DrainSpec(q[1..], turnCallback);
      assert emitted + (m + d.events) == (emitted + m) + d.events;
    }
  }

  // ---------------------------------------------------------------- the service object

  class LiveService {
    const apiKey: string
    const baseInstruction: string
    var currentInstruction: string
    var chatSession: Option<string>
    var liveSession: Option<string>
    var responseQueue: seq<ServerMessage>
    var turnCallback: Option<Handler>
    var errorCallback: Option<Handler>
    var events: seq<Event>
    var sent: seq<string>

    function State(): ServiceState
      reads this
    {
      ServiceState(apiKey, baseInstruction, currentInstruction, chatSession, liveSession,
                   responseQueue, turnCallback, errorCallback, events, sent)
    }

    predicate Valid()
      reads this
    {
      Inv(State())
    }

    /** The module's start-up: the key, the built-in instruction and what an admin has saved. */
    constructor (key: string, base: string, adminSaved: string)
      ensures Valid() && State() == Initial(key, base, adminSaved)
    {
      apiKey := key;
      baseInstruction := base;
      currentInstruction := if adminSaved != [] then adminSaved else ReplaceFirst(base, Placeholder, "");
      chatSession := None;
      liveSession := None;
      responseQueue := [];
      turnCallback := None;
      errorCallback := None;
      events := [];
      sent := [];
    }

    method UpdateChatSystemInstruction(newInstruction: string, isAdminUpdate: bool, adminSaved: string,
                                       extract: string -> string)
      requires Valid()
      modifies this
      ensures Valid() && State() == UpdateStep(old(State()), newInstruction, isAdminUpdate, adminSaved, extract)
    {
      var instructionToUse := if adminSaved != [] then adminSaved else newInstruction;
      if isAdminUpdate && adminSaved != [] {
        if Contains(newInstruction, Placeholder) {
          instructionToUse := ReplaceFirst(adminSaved, Placeholder, extract(newInstruction));
        } else {
          instructionToUse := ReplaceFirst(adminSaved, Placeholder, extract(currentInstruction));
        }
      } else if adminSaved != [] {
        instructionToUse := ReplaceFirst(adminSaved, Placeholder, extract(newInstruction));
      } else {
        instructionToUse := newInstruction;
      }
      if instructionToUse != currentInstruction {
        currentInstruction := instructionToUse;
        chatSession := None;
      }
    }

    /** Returns the instruction the chat session runs on. */
    method GetChatSession() returns (instruction: string)
      requires Valid()
      modifies this
      ensures Valid() && State() == GetChatStep(old(State()))
      ensures instruction == currentInstruction
    {
      if chatSession.None? {
        chatSession := Some(currentInstruction);
      }
      instruction := chatSession.value;
    }

    method ResetChat(fromApp: string, adminSaved: string, extract: string -> string)
      requires Valid()
      modifies this
      ensures Valid() && State() == ResetStep(old(State()), fromApp, adminSaved, extract)
    {
      var instructionToUse := ResetInstruction(fromApp, adminSaved, baseInstruction, extract);
      if instructionToUse != currentInstruction {
        currentInstruction := instructionToUse;
        chatSession := None;
      } else if fromApp != [] {
        chatSession := None;
      }
      if liveSession.Some? {
        liveSession := None;
      }
    }

    method StartLiveAudioSession(onTurnComplete: Handler, onError: Handler, connectOk: bool) returns (ok: bool)
      requires Valid()
      modifies this
      ensures Valid() && (State(), ok) == StartStep(old(State()), onTurnComplete, onError, connectOk)
    {
      if apiKey == [] || apiKey == MissingKeyValue {
        events := events + [Error(onError, MissingApiKey)];
        return false;
      }
      if liveSession.Some? {
        return true;
      }
      turnCallback := Some(onTurnComplete);
      errorCallback := Some(onError);
      if connectOk {
        liveSession := Some(currentInstruction);
        return true;
      }
      events := events + [Error(onError, ConnectFailed)];
      liveSession := None;
      return false;
    }

    /** The transport delivered a message. */
    method OnMessage(m: ServerMessage)
      requires Valid()
      modifies this
      ensures Valid() && State() == MessageStep(old(State()), m)
    {
      responseQueue := responseQueue + [m];
    }

    /** The transport reported an error. */
    method OnTransportError(message: string)
      requires Valid()
      modifies this
      ensures Valid() && State() == TransportErrorStep(old(State()), message)
    {
      if errorCallback.Some? {
        events := events + [Error(errorCallback.value, ConnectionProblem(message))];
      }
      liveSession := None;
    }

    /** The transport closed. */
    method OnClose()
      requires Valid()
      modifies this
      ensures Valid() && State() == CloseEventStep(old(State()))
    {
      liveSession := None;
    }

    /** Fires the callbacks of one part after another. */
    method DeliverParts(parts: seq<Part>)
      modifies this
      ensures events == old(events) + PartsEvents(parts)
      ensures unchanged(this`currentInstruction, this`chatSession, this`liveSession, this`responseQueue)
      ensures unchanged(this`turnCallback, this`errorCallback, this`sent)
    {
      for k := 0 to |parts|
        invariant events == old(events) + PartsEvents(parts[..k])
        invariant unchanged(this`currentInstruction, this`chatSession, this`liveSession, this`responseQueue)
        invariant unchanged(this`turnCallback, this`errorCallback, this`sent)
      {
        var part := parts[k];
        assert parts[..k + 1][..k] == parts[..k];
        if part.text.Some? && part.text.value != [] {
          events := events + [Text(part.text.value, true)];
        }
        if HasAudio(part) {
          events := events + [Audio(part.inlineData.value.data.value, part.inlineData.value.mimeType.value)];
        }
      }
      assert parts[..|parts|] == parts;
    }

    /** Fires the callbacks of one dequeued message, ending the turn when it says so. */
    method DeliverMessage(message: ServerMessage)
      modifies this
      ensures events == old(events) + MessageEvents(message, turnCallback)
      ensures unchanged(this`currentInstruction, this`chatSession, this`liveSession, this`responseQueue)
      ensures unchanged(this`turnCallback, this`errorCallback, this`sent)
    {
      DeliverParts(message.parts);
      if message.turnComplete {
        events := events + [Text("", false)];
        if turnCallback.Some? {
          events := events + [TurnComplete(turnCallback.value)];
        }
      }
    }

    /**
     * The drain loop of one turn. Where the source polls an empty queue, the
     * loop stops and reports the turn as unresolved.
     */
    method HandleLiveSessionTurn() returns (resolved: bool)
      requires Valid()
      modifies this
      ensures Valid()
      ensures var d := DrainSpec(old(responseQueue), turnCallback);
        events == old(events) + d.events && responseQueue == d.rest && resolved == d.resolved
      ensures State() == old(State()).(events := events, queue := responseQueue)
    {
      ghost var q0 := responseQueue;
      ghost var emitted: seq<Event> := [];
      var done := false;
      while !done && responseQueue != []
        invariant events == old(events) + emitted
        invariant currentInstruction == old(currentInstruction) && chatSession == old(chatSession)
        invariant liveSession == old(liveSession) && sent == old(sent)
        invariant turnCallback == old(turnCallback) && errorCallback == old(errorCallback)
        invariant !done ==> var d := DrainSpec(responseQueue, turnCallback);
          DrainSpec(q0, turnCallback) == Drain(emitted + d.events, d.rest, d.resolved)
        invariant done ==> DrainSpec(q0, turnCallback) == Drain(emitted, responseQueue, true)
        decreases |responseQueue|, if done then 0 else 1
      {
        var message := responseQueue[0];
        DrainAdvance(q0, responseQueue, emitted, turnCallback);
        responseQueue := responseQueue[1..];
        DeliverMessage(message);
        AppendAssociates(old(events), emitted, MessageEvents(message, turnCallback));
        done := message.turnComplete;
        emitted := emitted + MessageEvents(message, turnCallback);
      }
      if !done {
        AppendEmpty(emitted, []);
      }
      resolved := done;
    }

    method SendToLiveAudioSession(prompt: string, sendOk: bool) returns (resolved: bool)
      requires Valid()
      modifies this
      ensures Valid() && (State(), resolved) == SendStep(old(State()), prompt, sendOk)
    {
      if liveSession.None? {
        if errorCallback.Some? {
          events := events + [Error(errorCallback.value, SessionNotActive)];
        }
        return false;
      }
      if !sendOk {
        if errorCallback.Some? {
          events := events + [Error(errorCallback.value, SendFailed)];
        }
        return false;
      }
      sent := sent + [prompt];
      resolved := HandleLiveSessionTurn();
    }

    method CloseLiveAudioSession()
      requires Valid()
      modifies this
      ensures Valid() && State() == CloseStep(old(State()))
    {
      if liveSession.Some? {
        liveSession := None;
      }
      responseQueue := [];
      turnCallback := None;
      errorCallback := None;
    }

    function IsLiveAudioSessionActive(): (active: bool)
      reads this
      ensures active <==> LiveActive(State())
    {
      liveSession != None
    }
  }
}
