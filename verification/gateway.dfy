/**
 * The server side of the voice gateway: one browser connection (a session)
 * bridged to one realtime-API connection (the upstream).
 *
 * Two implementations exist in the repository and are modelled together:
 * `Manager` is `RealtimeWebSocketManager` (src/server/websocket-manager.ts),
 * the one the server entry point wires in; `Handler` is the split
 * `YandexHandler` + `ClientHandler` pair (src/server/yandex-handler.ts,
 * src/server/client-handler.ts). They differ only in the session
 * configuration they send and in the spoken greeting, which only `Handler`
 * gives.
 *
 * Every callback becomes a pure function from the gateway state to the new
 * state and the messages sent, in order. JSON text is given already parsed:
 * `None` stands for text `JSON.parse` rejects. The browser socket is taken to
 * be open, so every client event is delivered; whether the upstream socket is
 * open is part of the session.
 */
module Gateway {

  import opened Wrappers
  import opened Json
  import Text
  import Transform
  import Tools
  import Pcm
  import Base64
  import Profiles
  import Tts
  import Validation

  datatype Variant = Manager | Handler

  const FaqAgent: string := "FAQ Agent"
  const TemperatureAgent: string := "Temperature Agent"
  const GeneralAgent: string := "General Agent"

  /** The labels a session's active agent can carry. */
  predicate IsAgentLabel(a: string) {
    a == FaqAgent || a == TemperatureAgent || a == GeneralAgent
  }

  /** `getAgentNameForTool(toolName)`. */
  function AgentForTool(toolName: Value): (a: string)
    ensures IsAgentLabel(a)
    ensures toolName == Str(Tools.TemperatureTool) <==> a == TemperatureAgent
    ensures toolName == Str(Tools.FaqTool) <==> a == FaqAgent
  {
    if toolName == Str(Tools.TemperatureTool) then TemperatureAgent
    else if toolName == Str(Tools.FaqTool) then FaqAgent
    else GeneralAgent
  }

  /** The `session.update` payload; the fields the two variants share are constants. */
  datatype SessionConfig = SessionConfig(
    voice: string,
    assistantName: string,
    silenceDurationMs: int,
    speedTenths: int)
  {
    const modalities: seq<string> := ["text", "audio"]
    const audioFormat: string := "pcm16"
    const transcriptionModel: string := "whisper-1"
    const turnDetection: string := "server_vad"
    const thresholdTenths: int := 5
    const prefixPaddingMs: int := 300
    const toolChoice: string := "auto"
    const temperatureTenths: int := 8
    const maxResponseOutputTokens: int := 4096
  }

  /** The messages the gateway sends upstream. */
  datatype UpstreamMessage =
    | SessionUpdate(config: SessionConfig)
    | UserText(text: Option<Value>)
    | ResponseCreate
    | SpeakResponseCreate
    | FunctionCallOutput(callId: Value, output: string)
    | AudioAppend(audio: string)
    | AudioCommit
    | ResponseCancel

  const SpeakPrefix: string := "Озвучь результат: "
  const SpeakInstructions: string := "Озвучь результат выполнения инструмента коротко и естественно."
  const FormatError: string := "Неверный формат сообщения"
  const NotConnectedError: string := "Соединение с Yandex Cloud не установлено"
  const UpstreamErrorPrefix: string := "Ошибка подключения к Yandex Cloud: "
  const ToolErrorPrefix: string := "Ошибка: "

  datatype Output = ToClient(event: Transform.ClientEvent) | ToUpstream(msg: UpstreamMessage)

  datatype Session = Session(
    id: string,
    isConnected: bool,
    upstreamOpen: bool,
    activeAgent: string,
    defaultAgent: string,
    pendingToolResult: Option<string>)

  /**
   * The gateway: its sessions by id, and the state the implementation keeps
   * for all sessions together (function calls seen, the chosen voice).
   */
  datatype State = State(
    variant: Variant,
    sessions: map<string, Session>,
    pendingCalls: map<Value, Value>,
    pendingCallIds: map<Value, Value>,
    selectedProfile: Option<Profiles.Profile>)

  /** What every reachable state satisfies. */
  predicate Valid(g: State) {
    forall sid :: sid in g.sessions ==> SessionValid(g.sessions[sid], sid)
  }

  predicate SessionValid(s: Session, sid: string) {
    && s.id == sid
    && IsAgentLabel(s.activeAgent)
    && s.defaultAgent == FaqAgent
    && (s.pendingToolResult.Some? ==> !Text.IsBlank(s.pendingToolResult.value))
  }

  function Init(variant: Variant): (g: State)
    ensures Valid(g) && g.sessions == map[]
  {
    State(variant, map[], map[], map[], None)
  }

  /** `sendToYandex`: the message goes out only while the upstream socket is open. */
  function SendUpstream(s: Session, m: UpstreamMessage): (out: seq<Output>)
    ensures s.upstreamOpen ==> out == [ToUpstream(m)]
    ensures !s.upstreamOpen ==> out == []
  {
    if s.upstreamOpen then [ToUpstream(m)] else []
  }

  // ---------------------------------------------------------------------------
  // Session lifecycle
  // ---------------------------------------------------------------------------

  /** `connect`: a new session with the FAQ agent active; its upstream is still connecting. */
  function Connect(g: State, sid: string): (g': State)
    requires Valid(g)
    ensures Valid(g')
    ensures sid in g'.sessions && g'.sessions[sid].activeAgent == FaqAgent && !g'.sessions[sid].upstreamOpen
    ensures forall other :: other != sid ==> (other in g'.sessions <==> other in g.sessions)
  {
    g.(sessions := g.sessions[sid := Session(sid, true, false, FaqAgent, FaqAgent, None)])
  }

  /** `disconnect`: the session is forgotten (its upstream is closed with it); unknown ids are ignored. */
  function Disconnect(g: State, sid: string): (g': State)
    requires Valid(g)
    ensures Valid(g')
    ensures sid !in g'.sessions
    ensures forall other :: other != sid ==> (other in g'.sessions <==> other in g.sessions)
    ensures sid !in g.sessions ==> g' == g
  {
    if sid in g.sessions then g.(sessions := g.sessions - {sid}) else g
  }

  /** The `session.update` of the manager: fixed voice, short pause detection, faster speech. */
  const ManagerConfig: SessionConfig := SessionConfig("marina", "Марина", 200, 12)

  /** The `session.update` of the handler: the drawn profile's voice and name, normal speed. */
  function HandlerConfig(p: Profiles.Profile): SessionConfig {
    SessionConfig(p.name, if p.displayName != "" then p.displayName else "Марина", 500, 10)
  }

  /**
   * The upstream `open` event: the session configuration goes out; the handler
   * first draws the voice profile (`Math.random()` is `draw`).
   */
  function UpstreamOpened(g: State, sid: string, draw: real): (r: (State, seq<Output>))
    requires Valid(g) && Profiles.IsDraw(draw)
    ensures Valid(r.0)
    ensures sid in g.sessions ==> sid in r.0.sessions && r.0.sessions[sid].upstreamOpen
    ensures sid in g.sessions && g.variant == Manager ==> r.1 == [ToUpstream(SessionUpdate(ManagerConfig))]
    ensures sid in g.sessions && g.variant == Handler ==>
      && r.0.selectedProfile == Some(Profiles.RandomProfile(draw))
      && r.1 == [ToUpstream(SessionUpdate(HandlerConfig(Profiles.RandomProfile(draw))))]
    ensures sid !in g.sessions ==> r == (g, [])
  {
    if sid !in g.sessions then (g, [])
    else
      var s := g.sessions[sid].(upstreamOpen := true);
      var g1 := g.(sessions := g.sessions[sid := s]);
      match g.variant
      case Manager => (g1, [ToUpstream(SessionUpdate(ManagerConfig))])
      case Handler =>
        var p := Profiles.RandomProfile(draw);
        (g1.(selectedProfile := Some(p)), [ToUpstream(SessionUpdate(HandlerConfig(p)))])
  }

  /** The upstream `close` event: nothing more can be sent upstream. */
  function UpstreamClosed(g: State, sid: string): (g': State)
    requires Valid(g)
    ensures Valid(g')
    ensures sid in g.sessions ==> sid in g'.sessions && !g'.sessions[sid].upstreamOpen
    ensures sid !in g.sessions ==> g' == g
  {
    if sid in g.sessions then g.(sessions := g.sessions[sid := g.sessions[sid].(upstreamOpen := false)]) else g
  }

  /** The upstream `error` event: the browser is told, and nothing else changes. */
  function UpstreamFailed(g: State, sid: string, message: Option<Value>): (r: (State, seq<Output>))
    requires Valid(g)
    ensures r.0 == g
    ensures sid in g.sessions ==> r.1 == [ToClient(Transform.Error(Str(UpstreamErrorPrefix + ToStr(message))))]
    ensures sid !in g.sessions ==> r.1 == []
  {
    if sid in g.sessions then (g, [ToClient(Transform.Error(Str(UpstreamErrorPrefix + ToStr(message))))]) else (g, [])
  }

  /** A chat-history item spoken by the assistant, holding one text part. */
  function AssistantTextItem(text: string): Value {
    Obj([Member("type", Str("message")), Member("role", Str("assistant")),
         Member("content", Arr([Obj([Member("type", Str("text")), Member("text", Str(text))])]))])
  }

  /** The text greeting sent when speech synthesis fails. */
  function FallbackGreeting(p: Option<Profiles.Profile>): string {
    "Привет! Я " + (if p.Some? then p.value.displayName else "undefined") + ". Как дела? Чем могу помочь?"
  }

  /**
   * The handler's greeting timer: the greeting text, its audio in Base64 at
   * 16 kHz and the end of audio; or, when synthesis fails, a text greeting.
   * The manager has no greeting.
   */
  function Greet(g: State, sid: string, draw: real, exchange: Result<Tts.Response, string>): (out: seq<Output>)
    requires Profiles.IsDraw(draw)
    ensures g.variant == Manager || sid !in g.sessions ==> out == []
    ensures g.variant == Handler && sid in g.sessions ==> 1 <= |out| <= 3 && out[0].ToClient? && out[0].event.HistoryAdded?
    ensures g.variant == Handler && sid in g.sessions && g.selectedProfile.Some? && Tts.SynthesisOutcome(exchange).Success? ==>
      |out| == 3 && out[0] == ToClient(Transform.HistoryAdded(AssistantTextItem(Tts.GreetingText(g.selectedProfile.value, draw))))
    ensures g.variant == Handler && sid in g.sessions && (g.selectedProfile.None? || Tts.SynthesisOutcome(exchange).Failure?) ==>
      out == [ToClient(Transform.HistoryAdded(AssistantTextItem(FallbackGreeting(g.selectedProfile))))]
  {
    if g.variant == Manager || sid !in g.sessions then []
    else match g.selectedProfile
      case None => [ToClient(Transform.HistoryAdded(AssistantTextItem(FallbackGreeting(None))))]
      case Some(p) =>
        match Tts.CreateGreeting(p, draw, exchange)
        case Success(gr) =>
          [ ToClient(Transform.HistoryAdded(AssistantTextItem(gr.text))),
            ToClient(Transform.Audio(Str(Base64.Encode(gr.audio)), Some(gr.sampleRate))),
            ToClient(Transform.AudioEnd) ]
        case Failure(_) => [ToClient(Transform.HistoryAdded(AssistantTextItem(FallbackGreeting(Some(p)))))]
  }

  /** When synthesis succeeds, the greeting's audio is the synthesised audio, and it mentions the assistant. */
  lemma GreetingCarriesAudio(g: State, sid: string, draw: real, exchange: Result<Tts.Response, string>)
    requires Profiles.IsDraw(draw)
    requires g.variant == Handler && sid in g.sessions && g.selectedProfile.Some?
    requires exchange.Success? && Tts.IsOk(exchange.value)
    ensures var out := Greet(g, sid, draw, exchange);
      && |out| == 3
      && out[0] == ToClient(Transform.HistoryAdded(AssistantTextItem(Tts.GreetingText(g.selectedProfile.value, draw))))
      && out[1] == ToClient(Transform.Audio(Str(Base64.Encode(exchange.value.bodyBytes)), Some(Tts.GreetingSampleRate)))
      && out[2] == ToClient(Transform.AudioEnd)
      && Base64.Decode(out[1].event.audio.s) == Some(exchange.value.bodyBytes)
  {
    Base64.DecodeEncode(exchange.value.bodyBytes);
  }
  /**
   * The handler greets in text alone, with the fallback greeting naming the
   * chosen voice, exactly when no voice was chosen or speech synthesis
   * failed.
   */
  lemma GreetingFallsBack(g: State, sid: string, draw: real, exchange: Result<Tts.Response, string>)
    requires Profiles.IsDraw(draw)
    requires g.variant == Handler && sid in g.sessions
    ensures Greet(g, sid, draw, exchange) == [ToClient(Transform.HistoryAdded(AssistantTextItem(FallbackGreeting(g.selectedProfile))))]
      <==> g.selectedProfile.None? || Tts.SynthesisOutcome(exchange).Failure?
  {
  }


  // ---------------------------------------------------------------------------
  // Upstream events
  // ---------------------------------------------------------------------------

  /** `event.item.name || 'unknown'`. */
  function ToolName(item: Value): Value {
    Or(Get(item, "name"), Some(Str("unknown"))).value
  }

  /** A function call starts: the event type and item kind the gateway reacts to. */
  predicate StartsCall(event: Value) {
    Transform.CaseOfEvent(event) == Transform.ItemAdded && Transform.HasType(Get(event, "item"), "function_call")
  }

  /** The agent switch on a tool start: a `handoff` event when the agent changes. */
  function Handoff(s: Session, event: Value): (r: (Session, seq<Output>))
    ensures IsAgentLabel(s.activeAgent) ==> IsAgentLabel(r.0.activeAgent)
    ensures r.0 == s.(activeAgent := r.0.activeAgent)
    ensures r.1 != [] <==> r.0.activeAgent != s.activeAgent
    ensures r.1 != [] ==> r.1 == [ToClient(Transform.Handoff(s.activeAgent, r.0.activeAgent))]
    ensures ClientEvents(r.1) == (if r.0.activeAgent != s.activeAgent then [Transform.Handoff(s.activeAgent, r.0.activeAgent)] else [])
    ensures UpstreamMessages(r.1) == []
    ensures StartsCall(event) ==> r.0.activeAgent == AgentForTool(ToolName(Get(event, "item").value))
    ensures !StartsCall(event) ==> r == (s, [])
  {
    if StartsCall(event) then
      var newAgent := AgentForTool(ToolName(Get(event, "item").value));
      if newAgent != s.activeAgent then (s.(activeAgent := newAgent), [ToClient(Transform.Handoff(s.activeAgent, newAgent))])
      else (s, [])
    else (s, [])
  }

  /**
   * An `error` event with a message and no error is rewritten to carry the
   * message as `error.error` (`{...event, error: {error: message}}` without
   * `message`).
   */
  function NormalizeError(event: Value): (e: Value)
    ensures !event.Null? ==> !e.Null?
    ensures Transform.CaseOfEvent(e) == Transform.CaseOfEvent(event)
  {
    if event.Obj? && Transform.EventType(event) == Some("error")
       && Truthy(Get(event, "message")) && !Truthy(Get(event, "error"))
    then
      var ms := Without(With(event.members, "error", Obj([Member("error", Get(event, "message").value)])), "message");
      assert Lookup(ms, "type") == Lookup(event.members, "type");
      assert Transform.EventType(Obj(ms)) == Transform.EventType(event);
      Obj(ms)
    else event
  }

  /** The rewrite changes nothing the browser sees: the error text is the same. */
  lemma NormalizeErrorKeepsText(event: Value)
    ensures Transform.ErrorText(NormalizeError(event)) == Transform.ErrorText(event)
  {
    var e := NormalizeError(event);
    if event.Obj? && Transform.EventType(event) == Some("error")
       && Truthy(Get(event, "message")) && !Truthy(Get(event, "error"))
    {
      var m := Get(event, "message").value;
      var inner := Obj([Member("error", m)]);
      var ms := Without(With(event.members, "error", inner), "message");
      assert e == Obj(ms);
      assert "error" != "message" by { assert "error"[0] != "message"[0]; }
      assert Get(e, "error") == Some(inner);
      assert GetOpt(Some(inner), "error") == Some(m);
      assert Transform.ErrorText(e) == m;
      var err := Get(event, "error");
      assert !Truthy(err);
      assert err.Some? && err.value.Obj? ==> Truthy(err);
      assert GetOpt(err, "error") == None;
      assert Transform.ErrorText(event) == m;
    } else {
      assert e == event;
    }
  }

  /**
   * The bookkeeping of a function call's start (the item of an added
   * `function_call` output item): its tool name under its call id and under
   * its item id, and the call id under the item id, each only when the ids
   * are truthy.
   */
  /** `key` is one of the truthy ids of a function-call item. */
  predicate Registers(item: Value, key: Value) {
    || (Truthy(Get(item, "call_id")) && key == Get(item, "call_id").value)
    || (Truthy(Get(item, "id")) && key == Get(item, "id").value)
  }

  function RegisterCall(calls: map<Value, Value>, ids: map<Value, Value>, item: Value): (r: (map<Value, Value>, map<Value, Value>))
    ensures calls.Keys <= r.0.Keys && ids.Keys <= r.1.Keys
    ensures var callId := Get(item, "call_id");
      && (Truthy(callId) ==> callId.value in r.0 && r.0[callId.value] == ToolName(item))
      && (!Truthy(callId) ==> r.1 == ids)
    ensures var itemId := Get(item, "id");
      && (Truthy(itemId) ==> itemId.value in r.0 && r.0[itemId.value] == ToolName(item))
      && (Truthy(itemId) && Truthy(Get(item, "call_id")) ==> itemId.value in r.1 && r.1[itemId.value] == Get(item, "call_id").value)
    ensures forall k :: k in calls && !Registers(item, k) ==> r.0[k] == calls[k]
  {
    var callId := Get(item, "call_id");
    var itemId := Get(item, "id");
    var name := ToolName(item);
    var c1 := if Truthy(callId) then calls[callId.value := name] else calls;
    var c2 := if Truthy(itemId) then c1[itemId.value := name] else c1;
    var i1 := if Truthy(itemId) && Truthy(callId) then ids[itemId.value := callId.value] else ids;
    (c2, i1)
  }

  /** A completed function call whose tool is to be run once the event is handled. */
  function CompletedCallItem(event: Value): (r: Option<Value>)
    ensures r.Some? <==> Transform.CaseOfEvent(event) == Transform.ItemDone && Transform.CompletedCall(Get(event, "item"))
    ensures r.Some? ==> Some(r.value) == Get(event, "item")
  {
    if Transform.CaseOfEvent(event) == Transform.ItemDone && Transform.CompletedCall(Get(event, "item"))
    then Get(event, "item") else None
  }

  /** `session.pendingToolResult` is truthy. */
  predicate HasPending(s: Session) {
    s.pendingToolResult.Some? && s.pendingToolResult.value != ""
  }

  /**
   * On `response.done`, a stored tool result is handed back to be spoken (the
   * gateway's 100 ms timer is not modelled) and forgotten.
   */
  function SpeakPending(s: Session, event: Value): (r: (Session, seq<Output>))
    ensures Transform.CaseOfEvent(event) == Transform.ResponseDone && HasPending(s) ==>
      && r.0 == s.(pendingToolResult := None)
      && r.1 == SendUpstream(s, UserText(Some(Str(SpeakPrefix + s.pendingToolResult.value)))) + SendUpstream(s, SpeakResponseCreate)
    ensures !(Transform.CaseOfEvent(event) == Transform.ResponseDone && HasPending(s)) ==> r == (s, [])
    ensures ClientEvents(r.1) == []
    ensures UpstreamMessages(r.1) == (if Transform.CaseOfEvent(event) == Transform.ResponseDone && HasPending(s) && s.upstreamOpen
                                      then [UserText(Some(Str(SpeakPrefix + s.pendingToolResult.value))), SpeakResponseCreate]
                                      else [])
  {
    if Transform.CaseOfEvent(event) == Transform.ResponseDone && HasPending(s) then
      var text := s.pendingToolResult.value;
      SplitConcat(SendUpstream(s, UserText(Some(Str(SpeakPrefix + text)))), SendUpstream(s, SpeakResponseCreate));
      (s.(pendingToolResult := None),
       SendUpstream(s, UserText(Some(Str(SpeakPrefix + text)))) + SendUpstream(s, SpeakResponseCreate))
    else (s, [])
  }

  /** The outcome of one upstream event: new state, messages, and the function call to run afterwards. */
  datatype Step = Step(state: State, out: seq<Output>, deferredCall: Option<Value>)

  /**
   * `handleYandexMessage`: handoff, error rewrite, call bookkeeping, the
   * deferred tool run, the translated event, and speaking a stored result
   * (sent from a timer, so after the translated event).
   * A frame that is not JSON, or is `null`, is dropped (reading its `type`
   * throws, and the error is only logged).
   */
  function HandleUpstream(g: State, sid: string, parsed: Option<Value>): (r: Step)
    requires Valid(g)
    ensures Valid(r.state)
    ensures r.state.variant == g.variant && r.state.sessions.Keys == g.sessions.Keys
    ensures sid !in g.sessions || parsed.None? || parsed.value.Null? ==> r == Step(g, [], None)
    ensures sid in g.sessions && parsed.Some? && !parsed.value.Null? ==>
      r.deferredCall == CompletedCallItem(NormalizeError(parsed.value))
  {
    if sid !in g.sessions || parsed.None? || parsed.value.Null? then Step(g, [], None)
    else
      var event := parsed.value;
      var s0 := g.sessions[sid];
      var (s1, handoff) := Handoff(s0, event);
      var e1 := NormalizeError(event);
      var (calls, ids) := if StartsCall(e1) then RegisterCall(g.pendingCalls, g.pendingCallIds, Get(e1, "item").value)
                          else (g.pendingCalls, g.pendingCallIds);
      var deferred := CompletedCallItem(e1);
      var (s2, speak) := SpeakPending(s1, e1);
      var forward := Forward(e1, s2.activeAgent);
      Step(g.(sessions := g.sessions[sid := s2], pendingCalls := calls, pendingCallIds := ids),
           handoff + forward + speak, deferred)
  }
  /**
   * The tool call run after an upstream event is the item of a completed
   * function call, exactly when the event is an `output_item.done` carrying
   * one; the error rewriting never makes or hides one.
   */
  lemma DeferredCallIsCompletedItem(g: State, sid: string, event: Value)
    requires Valid(g) && sid in g.sessions && !event.Null?
    ensures HandleUpstream(g, sid, Some(event)).deferredCall == CompletedCallItem(event)
    ensures HandleUpstream(g, sid, Some(event)).deferredCall.Some?
      <==> Transform.CaseOfEvent(event) == Transform.ItemDone && Transform.CompletedCall(Get(event, "item"))
  {
    if Transform.EventType(event) == Some("error") {
      Transform.CaseOfError(Transform.EventType(event));
    } else {
      assert NormalizeError(event) == event;
    }
  }


  /** The translated event, when there is one, for the browser. */
  function Forward(event: Value, agent: string): (out: seq<Output>)
    requires !event.Null?
    ensures ClientEvents(out) == match Transform.Translate(event, agent) case Some(ce) => [ce] case None => []
    ensures UpstreamMessages(out) == []
  {
    match Transform.Translate(event, agent)
    case Some(ce) => [ToClient(ce)]
    case None => []
  }

  /** The session an upstream event leaves behind. */
  lemma HandleUpstreamSession(g: State, sid: string, event: Value)
    requires Valid(g) && sid in g.sessions && !event.Null?
    ensures var s := g.sessions[sid];
      var s' := HandleUpstream(g, sid, Some(event)).state.sessions[sid];
      && s'.upstreamOpen == s.upstreamOpen
      && s'.activeAgent == (if StartsCall(event) then AgentForTool(ToolName(Get(event, "item").value)) else s.activeAgent)
      && s'.pendingToolResult == (if Transform.CaseOfEvent(event) == Transform.ResponseDone then None else s.pendingToolResult)
  {
    var s := g.sessions[sid];
    var (s1, _) := Handoff(s, event);
    var e1 := NormalizeError(event);
    assert HasPending(s1) <==> HasPending(s);
    if Transform.CaseOfEvent(e1) == Transform.ResponseDone && !HasPending(s1) {
      assert s.pendingToolResult.Some? ==> !Text.IsBlank(s.pendingToolResult.value);
    }
  }

  /** The events among the outputs that go to the browser, in order. */
  function ClientEvents(out: seq<Output>): seq<Transform.ClientEvent> {
    if out == [] then [] else (if out[0].ToClient? then [out[0].event] else []) + ClientEvents(out[1..])
  }

  /** The messages among the outputs that go upstream, in order. */
  function UpstreamMessages(out: seq<Output>): seq<UpstreamMessage> {
    if out == [] then [] else (if out[0].ToUpstream? then [out[0].msg] else []) + UpstreamMessages(out[1..])
  }

  /** Splitting the outputs by destination commutes with concatenation. */
  lemma {:induction false} SplitConcat(a: seq<Output>, b: seq<Output>)
    ensures ClientEvents(a + b) == ClientEvents(a) + ClientEvents(b)
    ensures UpstreamMessages(a + b) == UpstreamMessages(a) + UpstreamMessages(b)
    decreases |a|
  {
    if a != [] {
      assert (a + b)[1..] == a[1..] + b;
      SplitConcat(a[1..], b);
    } else {
      assert a + b == b;
    }
  }

  /**
   * Everything an upstream event causes: the browser gets the handoff, when
   * the agent changes, then the translated event under the new agent;
   * upstream gets the request to speak a stored result on `response.done`,
   * when the upstream is open.
   */
  lemma HandleUpstreamOutputs(g: State, sid: string, event: Value)
    requires Valid(g) && sid in g.sessions && !event.Null?
    ensures var s := g.sessions[sid];
      var r := HandleUpstream(g, sid, Some(event));
      var agent := r.state.sessions[sid].activeAgent;
      var translated := Transform.Translate(NormalizeError(event), agent);
      && ClientEvents(r.out) == (if agent != s.activeAgent then [Transform.Handoff(s.activeAgent, agent)] else [])
                                + (if translated.Some? then [translated.value] else [])
      && UpstreamMessages(r.out) == (if Transform.CaseOfEvent(event) == Transform.ResponseDone && HasPending(s) && s.upstreamOpen
                                     then [UserText(Some(Str(SpeakPrefix + s.pendingToolResult.value))), SpeakResponseCreate]
                                     else [])
  {
    var s := g.sessions[sid];
    var (s1, handoff) := Handoff(s, event);
    var e1 := NormalizeError(event);
    var (s2, speak) := SpeakPending(s1, e1);
    var forward := Forward(e1, s2.activeAgent);
    assert HandleUpstream(g, sid, Some(event)).out == handoff + forward + speak;
    SplitConcat(handoff, forward);
    SplitConcat(handoff + forward, speak);
  }

  /** While the upstream is closed, upstream events never produce upstream messages. */
  lemma ClosedUpstreamStaysQuiet(g: State, sid: string, parsed: Option<Value>)
    requires Valid(g) && sid in g.sessions && !g.sessions[sid].upstreamOpen
    ensures UpstreamMessages(HandleUpstream(g, sid, parsed).out) == []
    ensures forall o :: o in HandleUpstream(g, sid, parsed).out ==> o.ToClient?
  {
    var out := HandleUpstream(g, sid, parsed).out;
    if parsed.Some? && !parsed.value.Null? {
      HandleUpstreamOutputs(g, sid, parsed.value);
    }
    OnlyClientEvents(out);
  }

  /** Outputs with no upstream message among them all go to the browser. */
  lemma {:induction false} OnlyClientEvents(out: seq<Output>)
    requires UpstreamMessages(out) == []
    ensures forall o :: o in out ==> o.ToClient?
    decreases |out|
  {
    if out != [] {
      OnlyClientEvents(out[1..]);
      assert forall o :: o in out ==> o == out[0] || o in out[1..];
    }
  }

  // ---------------------------------------------------------------------------
  // The deferred tool run
  // ---------------------------------------------------------------------------

  /**
   * The tool arguments: `item.arguments` itself unless it is a string, whose
   * parse (`argsParse`, `None` when `JSON.parse` throws) is used instead, or
   * `{}` when it does not parse.
   */
  function ToolArgs(item: Value, argsParse: Option<Value>): Option<Value> {
    match Get(item, "arguments")
    case Some(Str(_)) => if argsParse.Some? then argsParse else Some(Obj([]))
    case other => other
  }

  /** The text reported for a tool run: the result, or the error after `Ошибка: `. */
  function ResultText(res: Tools.ToolResult): string {
    if res.success then res.result
    else ToolErrorPrefix + ToStr(if res.error.Some? then Some(Str(res.error.value)) else None)
  }

  /**
   * `handleFunctionCall`: run the tool, report the output upstream and to the
   * browser, and keep a non-blank successful result to be spoken. Without a
   * truthy `call_id` nothing is reported.
   */
  function CompleteFunctionCall(g: State, sid: string, item: Value, argsParse: Option<Value>): (r: (State, seq<Output>))
    requires Valid(g)
    ensures Valid(r.0)
    ensures r.0.sessions.Keys == g.sessions.Keys
  {
    if sid !in g.sessions then (g, [])
    else
      var s := g.sessions[sid];
      var res := Tools.ExecuteTool(Get(item, "name"), ToolArgs(item, argsParse));
      var text := ResultText(res);
      var callId := Get(item, "call_id");
      if !Truthy(callId) then (g, [])
      else
        var out := SendUpstream(s, FunctionCallOutput(callId.value, text)) + [ToClient(Transform.ToolEnd(Get(item, "name"), text))];
        var s' := if res.success && !Text.IsBlank(text) then s.(pendingToolResult := Some(text)) else s;
        (g.(sessions := g.sessions[sid := s']), out)
  }

  /** The report of a tool run: upstream and browser get the same text, and only with a call id. */
  lemma CompleteFunctionCallReports(g: State, sid: string, item: Value, argsParse: Option<Value>)
    requires Valid(g) && sid in g.sessions
    ensures var s := g.sessions[sid];
      var r := CompleteFunctionCall(g, sid, item, argsParse);
      var res := Tools.ExecuteTool(Get(item, "name"), ToolArgs(item, argsParse));
      var callId := Get(item, "call_id");
      && (!Truthy(callId) ==> r == (g, []))
      && (Truthy(callId) && s.upstreamOpen ==>
            r.1 == [ToUpstream(FunctionCallOutput(callId.value, ResultText(res))), ToClient(Transform.ToolEnd(Get(item, "name"), ResultText(res)))])
      && (Truthy(callId) && !s.upstreamOpen ==> r.1 == [ToClient(Transform.ToolEnd(Get(item, "name"), ResultText(res)))])
  {
  }

  /** A result is kept to be spoken exactly when the tool succeeded with a non-blank text. */
  lemma CompleteFunctionCallKeepsResult(g: State, sid: string, item: Value, argsParse: Option<Value>)
    requires Valid(g) && sid in g.sessions && Truthy(Get(item, "call_id"))
    ensures var res := Tools.ExecuteTool(Get(item, "name"), ToolArgs(item, argsParse));
      var s' := CompleteFunctionCall(g, sid, item, argsParse).0.sessions[sid];
      && (res.success && !Text.IsBlank(res.result) ==> s'.pendingToolResult == Some(res.result))
      && (!(res.success && !Text.IsBlank(res.result)) ==> s'.pendingToolResult == g.sessions[sid].pendingToolResult)
  {
  }

  // ---------------------------------------------------------------------------
  // Browser messages
  // ---------------------------------------------------------------------------

  /** A sample as `writeInt16LE` stores it: coerced by unary `+`, with NaN stored as 0. */
  function SampleValue(v: Option<Value>): int {
    match ToNumber(v)
    case NaN => 0
    case Int(n) => n
  }

  /**
   * The samples of an audio message's `data`: an array's elements, or a
   * string's characters; `None` for anything else, whose `length` is not a
   * number and makes `Buffer.alloc` throw.
   */
  function DataSamples(data: Option<Value>): (r: Option<seq<int>>)
    ensures r.Some? <==> data.Some? && (data.value.Arr? || data.value.Str?)
    ensures data.Some? && data.value.Arr? ==> |r.value| == |data.value.items|
    ensures data.Some? && data.value.Str? ==> |r.value| == |data.value.s|
  {
    match data
    case Some(Arr(items)) => Some(seq(|items|, i requires 0 <= i < |items| => SampleValue(Some(items[i]))))
    case Some(Str(s)) => Some(seq(|s|, i requires 0 <= i < |s| => SampleValue(Some(Str([s[i]])))))
    case _ => None
  }

  /** The `input_audio_buffer.append` payload of an audio message, or `None` when packing throws. */
  function AudioPayload(data: Option<Value>): (r: Option<string>)
    ensures r.Some? ==> exists bytes, samples ::
      && DataSamples(data) == Some(samples)
      && Pcm.PacksInt16LE(bytes, samples)
      && r.value == Base64.Encode(bytes)
  {
    match DataSamples(data)
    case None => None
    case Some(samples) =>
      match Pcm.PackedFrame(samples)
      case None => None
      case Some(bytes) => Some(Base64.Encode(bytes))
  }

  /** The audio sent upstream decodes to exactly the samples the browser sent. */
  lemma AudioPayloadRoundTrip(data: Option<Value>)
    requires AudioPayload(data).Some?
    ensures var samples := DataSamples(data).value;
      var bytes := Base64.Decode(AudioPayload(data).value);
      bytes.Some? && |bytes.value| % 2 == 0 && Pcm.UnpackSamples(bytes.value) == samples
  {
    var samples := DataSamples(data).value;
    var packed := Pcm.PackedFrame(samples).value;
    Pcm.FrameRoundTrip(samples, packed);
  }

  /**
   * `handleMessage` / `handleClientMessage`: one browser message. Text that
   * is not JSON, `null`, and anything that throws while it is handled
   * produce the format error.
   */
  function HandleClient(g: State, sid: string, parsed: Option<Value>): (out: seq<Output>)
    requires Valid(g)
    ensures sid !in g.sessions ==> out == []
    ensures sid in g.sessions && (parsed.None? || parsed.value.Null?) ==> out == [ToClient(Transform.Error(Str(FormatError)))]
    ensures sid in g.sessions && !g.sessions[sid].upstreamOpen ==> forall o :: o in out ==> o.ToClient?
  {
    if sid !in g.sessions then []
    else if parsed.None? || parsed.value.Null? then [ToClient(Transform.Error(Str(FormatError)))]
    else
      var s := g.sessions[sid];
      var message := parsed.value;
      match TypeOf(message)
      case Some(Str("audio")) =>
        if !s.upstreamOpen then []
        else
          (match AudioPayload(Get(message, "data"))
           case None => [ToClient(Transform.Error(Str(FormatError)))]
           case Some(audio) => [ToUpstream(AudioAppend(audio))])
      case Some(Str("text_message")) =>
        if s.upstreamOpen then [ToUpstream(UserText(Get(message, "text"))), ToUpstream(ResponseCreate)]
        else [ToClient(Transform.Error(Str(NotConnectedError)))]
      case Some(Str("commit_audio")) => SendUpstream(s, AudioCommit)
      case Some(Str("interrupt")) => SendUpstream(s, ResponseCancel)
      case _ => []
  }

  /** A text message goes upstream followed by a request for a response, or is refused when the upstream is down. */
  lemma TextMessageIff(g: State, sid: string, text: Option<Value>)
    requires Valid(g) && sid in g.sessions
    ensures var msg := Obj([Member("type", Str("text_message"))] + (if text.Some? then [Member("text", text.value)] else []));
      var out := HandleClient(g, sid, Some(msg));
      && (g.sessions[sid].upstreamOpen <==> out == [ToUpstream(UserText(text)), ToUpstream(ResponseCreate)])
      && (!g.sessions[sid].upstreamOpen <==> out == [ToClient(Transform.Error(Str(NotConnectedError)))])
  {
    var msg := Obj([Member("type", Str("text_message"))] + (if text.Some? then [Member("text", text.value)] else []));
    assert TypeOf(msg) == Some(Str("text_message"));
    assert msg.members[1..] == (if text.Some? then [Member("text", text.value)] else []);
    assert "type" != "text" by { assert "type"[1] != "text"[1]; }
    assert Lookup(msg.members, "text") == Lookup(msg.members[1..], "text");
  }

  /**
   * The other branches of the dispatch: `commit_audio` and `interrupt` each
   * become one upstream message while the upstream is open and nothing
   * otherwise; audio with the upstream closed is dropped silently; and a
   * message of any other type produces nothing.
   */
  lemma HandleClientCases(g: State, sid: string, message: Value)
    requires Valid(g) && sid in g.sessions
    ensures TypeOf(message) == Some(Str("commit_audio")) ==>
      HandleClient(g, sid, Some(message)) == if g.sessions[sid].upstreamOpen then [ToUpstream(AudioCommit)] else []
    ensures TypeOf(message) == Some(Str("interrupt")) ==>
      HandleClient(g, sid, Some(message)) == if g.sessions[sid].upstreamOpen then [ToUpstream(ResponseCancel)] else []
    ensures TypeOf(message) == Some(Str("audio")) && !g.sessions[sid].upstreamOpen ==>
      HandleClient(g, sid, Some(message)) == []
    ensures !message.Null? && TypeOf(message) !in {Some(Str("audio")), Some(Str("text_message")), Some(Str("commit_audio")), Some(Str("interrupt"))} ==>
      HandleClient(g, sid, Some(message)) == []
  {
  }

  /** An audio message with the upstream open is forwarded exactly when every sample fits in 16 bits. */
  lemma AudioMessageForwardedIff(g: State, sid: string, samples: seq<int>)
    requires Valid(g) && sid in g.sessions && g.sessions[sid].upstreamOpen
    ensures var data := Arr(seq(|samples|, i requires 0 <= i < |samples| => Num(samples[i])));
      var out := HandleClient(g, sid, Some(Obj([Member("type", Str("audio")), Member("data", data)])));
      && (|out| == 1 && out[0].ToUpstream? <==> forall i :: 0 <= i < |samples| ==> Pcm.InInt16Range(samples[i]))
      && (out == [ToClient(Transform.Error(Str(FormatError)))] <==> exists i :: 0 <= i < |samples| && !Pcm.InInt16Range(samples[i]))
  {
    var data := Arr(seq(|samples|, i requires 0 <= i < |samples| => Num(samples[i])));
    var msg := Obj([Member("type", Str("audio")), Member("data", data)]);
    assert msg.members[1..] == [Member("data", data)];
    assert "type" != "data" by { assert "type"[0] != "data"[0]; }
    assert Lookup(msg.members, "data") == Lookup(msg.members[1..], "data");
    assert DataSamples(Some(data)).value == samples;
  }

  /**
   * Image messages pass the shape check for browser messages, yet the
   * dispatch has no case for them: they produce nothing at all.
   */
  lemma ImageMessagesAcceptedButIgnored(g: State, sid: string, t: string)
    requires Valid(g) && sid in g.sessions
    requires t == "image" || t == "image_start" || t == "image_chunk" || t == "image_end"
    ensures Validation.IsValidClientMessage(Some(Obj([Member("type", Str(t))])))
    ensures HandleClient(g, sid, Some(Obj([Member("type", Str(t))]))) == []
  {
    var msg := Obj([Member("type", Str(t))]);
    Validation.ValidIff(Some(msg));
    assert t in Validation.ClientMessageTypes;
    assert t[1] == 'm' && "audio"[1] != 'm' && "text_message"[1] != 'm' && "commit_audio"[1] != 'm' && "interrupt"[1] != 'm';
  }
}
