/**
 * The pure translation of realtime-API events into the events the browser
 * client understands (src/server/yandex-event-transform.ts), and the client
 * event vocabulary itself (src/common/types.ts:55-151).
 */
module Transform {

  import opened Wrappers
  import opened Json

  /** The events the server sends to the browser, as they are built in memory. */
  datatype ClientEvent =
    | AgentStart(agent: string)
    | AgentEnd(agent: string)
    | Handoff(from: string, to: string)
    | ToolStart(tool: Value)
    | ToolEnd(endedTool: Option<Value>, output: string)
    | Audio(audio: Value, sampleRate: Option<int>)
    | AudioInterrupted
    | AudioEnd
    | HistoryAdded(item: Value)
    | Error(error: Value)
    | RawModelEvent(payload: Value)

  /** The `type` value that goes out on the wire for each kind of client event. */
  function Kind(e: ClientEvent): string {
    match e
    case AgentStart(_) => "agent_start"
    case AgentEnd(_) => "agent_end"
    case Handoff(_, _) => "handoff"
    case ToolStart(_) => "tool_start"
    case ToolEnd(_, _) => "tool_end"
    case Audio(_, _) => "audio"
    case AudioInterrupted => "audio_interrupted"
    case AudioEnd => "audio_end"
    case HistoryAdded(_) => "history_added"
    case Error(_) => "error"
    case RawModelEvent(_) => "raw_model_event"
  }

  /** `v && v.type === kind`: `v` is present and truthy and its `type` is the string `kind`. */
  predicate HasType(v: Option<Value>, kind: string) {
    Truthy(v) && IsString(Get(v.value, "type"), kind)
  }

  /** The event's `type` when it is a string; `switch` only matches string cases. */
  function EventType(event: Value): Option<string> {
    match TypeOf(event)
    case Some(Str(t)) => Some(t)
    case _ => None
  }

  /** The cases of the translator's `switch`, one per group of realtime-API event types. */
  datatype Case =
    | Silent            // session.created, session.updated, input_audio_buffer.committed
    | SpeechStarted     // input_audio_buffer.speech_started
    | AudioDone         // input_audio_buffer.speech_stopped, response.audio.done, response.output_audio.done
    | ItemCreated       // conversation.item.created
    | ResponseCreated   // response.created
    | ResponseDone      // response.done
    | ItemAdded         // response.output_item.added
    | ItemDone          // response.output_item.done
    | AudioDelta        // response.audio.delta, response.output_audio.delta
    | TranscriptionDone // conversation.item.input_audio_transcription.completed
    | ErrorEvent        // error
    | Other             // every other type, and a type that is not a string

  /** The `switch` case an event type selects. */
  function CaseOf(t: Option<string>): Case {
    match t
    case None => Other
    case Some(s) =>
      if s == "session.created" || s == "session.updated" || s == "input_audio_buffer.committed" then Silent
      else if s == "input_audio_buffer.speech_started" then SpeechStarted
      else if s == "input_audio_buffer.speech_stopped" || s == "response.audio.done" || s == "response.output_audio.done" then AudioDone
      else if s == "conversation.item.created" then ItemCreated
      else if s == "response.created" then ResponseCreated
      else if s == "response.done" then ResponseDone
      else if s == "response.output_item.added" then ItemAdded
      else if s == "response.output_item.done" then ItemDone
      else if s == "response.audio.delta" || s == "response.output_audio.delta" then AudioDelta
      else if s == "conversation.item.input_audio_transcription.completed" then TranscriptionDone
      else if s == "error" then ErrorEvent
      else Other
  }

  /** The case of an event, selected by its `type`. */
  function CaseOfEvent(event: Value): Case {
    CaseOf(EventType(event))
  }

  /** The user-transcript message item built for a completed input transcription. */
  function TranscriptItem(transcript: Option<Value>): Value {
    var part := [Member("type", Str("input_audio"))] + (if transcript.Some? then [Member("transcript", transcript.value)] else []);
    Obj([Member("type", Str("message")), Member("role", Str("user")), Member("content", Arr([Obj(part)]))])
  }

  /** `event.error?.error || event.error || event.message || 'Unknown error'`. */
  function ErrorText(event: Value): Value {
    var err := Get(event, "error");
    Or(Or(Or(GetOpt(err, "error"), err), Get(event, "message")), Some(Str("Unknown error"))).value
  }

  /**
   * `transformYandexEvent(event, agent)`: the client event for one upstream
   * event, or `None` (`null`) when nothing is to be forwarded. Reading
   * `event.type` throws on `null`, so the event must not be `null`.
   */
  function Translate(event: Value, agent: string): (r: Option<ClientEvent>)
    requires !event.Null?
    ensures r == Some(AudioInterrupted) <==> CaseOfEvent(event) == SpeechStarted
    ensures r == Some(AudioEnd) <==> CaseOfEvent(event) == AudioDone
    ensures r.Some? && r.value.Error? <==> CaseOfEvent(event) == ErrorEvent
    ensures r.Some? && r.value.Error? ==> r.value.error == ErrorText(event)
    ensures r == Some(RawModelEvent(event)) <==> CaseOfEvent(event) == Other
  {
    var item := Get(event, "item");
    match CaseOfEvent(event)
    case Silent => None
    case SpeechStarted => Some(AudioInterrupted)
    case AudioDone => Some(AudioEnd)
    case ItemCreated =>
      if HasType(item, "message") then Some(HistoryAdded(item.value)) else None
    case ResponseCreated => Some(AgentStart(agent))
    case ResponseDone => Some(AgentEnd(agent))
    case ItemAdded =>
      if HasType(item, "function_call") then Some(ToolStart(Or(Get(item.value, "name"), Some(Str("unknown"))).value))
      else if HasType(item, "message") then Some(HistoryAdded(item.value))
      else None
    case ItemDone =>
      if CompletedCall(item) then Some(HistoryAdded(item.value)) else None
    case AudioDelta =>
      var delta := Get(event, "delta");
      if Truthy(delta) then Some(Audio(delta.value, None)) else None
    case TranscriptionDone => Some(HistoryAdded(TranscriptItem(Get(event, "transcript"))))
    case ErrorEvent => Some(Error(ErrorText(event)))
    case Other => Some(RawModelEvent(event))
  }

  /** `item && item.type === 'function_call' && item.status === 'completed'`. */
  predicate CompletedCall(item: Option<Value>) {
    HasType(item, "function_call") && IsString(Get(item.value, "status"), "completed")
  }

  /** The realtime-API event types that have a case of their own. */
  const HandledTypes: set<string> := {
    "session.created", "session.updated", "input_audio_buffer.committed",
    "input_audio_buffer.speech_started", "input_audio_buffer.speech_stopped",
    "response.audio.done", "response.output_audio.done", "conversation.item.created",
    "response.created", "response.done", "response.output_item.added",
    "response.output_item.done", "response.audio.delta", "response.output_audio.delta",
    "conversation.item.input_audio_transcription.completed", "error"
  }

  /** A string type falls to the default case exactly when no case names it. */
  lemma CaseOfOtherIff(t: string)
    ensures CaseOf(Some(t)) == Other <==> t !in HandledTypes
  {
  }

  /**
   * The translator forwards nothing exactly for the silent types, items of the
   * wrong kind, and audio deltas without data.
   */
  lemma TranslateDropsIff(event: Value, agent: string)
    requires !event.Null?
    ensures Translate(event, agent).None? <==>
      var c := CaseOfEvent(event);
      var item := Get(event, "item");
      || c == Silent
      || (c == ItemCreated && !HasType(item, "message"))
      || (c == ItemAdded && !HasType(item, "function_call") && !HasType(item, "message"))
      || (c == ItemDone && !CompletedCall(item))
      || (c == AudioDelta && !Truthy(Get(event, "delta")))
  {
  }

  /** Events of unknown or non-string type are passed through whole, and only those. */
  lemma TranslateRawIff(event: Value, agent: string)
    requires !event.Null?
    ensures Translate(event, agent) == Some(RawModelEvent(event)) <==>
      EventType(event).None? || EventType(event).value !in HandledTypes
  {
    if EventType(event).Some? {
      CaseOfOtherIff(EventType(event).value);
    }
  }

  /** An audio event carries exactly the upstream delta, with no sample rate. */
  lemma TranslateAudioIff(event: Value, agent: string, a: Value)
    requires !event.Null?
    ensures Translate(event, agent) == Some(Audio(a, None)) <==>
      CaseOfEvent(event) == AudioDelta && Get(event, "delta") == Some(a) && Truthy(Some(a))
  {
  }

  /** The one type that selects the speech-started case. */
  lemma CaseOfSpeechStarted(t: Option<string>)
    ensures CaseOf(t) == SpeechStarted <==> t == Some("input_audio_buffer.speech_started")
  {
  }

  /** The three types that select the audio-end case. */
  lemma CaseOfAudioDone(t: Option<string>)
    ensures CaseOf(t) == AudioDone <==>
      t == Some("input_audio_buffer.speech_stopped") || t == Some("response.audio.done") || t == Some("response.output_audio.done")
  {
  }

  /** The one type that selects the error case. */
  lemma CaseOfError(t: Option<string>)
    ensures CaseOf(t) == ErrorEvent <==> t == Some("error")
  {
    if t.Some? && t.value != "error" {
      assert CaseOf(t) != ErrorEvent;
    }
  }

  /** The user starting to speak interrupts the answer; the end of speech or of the answer's audio ends the audio. */
  lemma TranslateSpeechEvents(event: Value, agent: string)
    requires !event.Null?
    ensures Translate(event, agent) == Some(AudioInterrupted) <==> EventType(event) == Some("input_audio_buffer.speech_started")
    ensures Translate(event, agent) == Some(AudioEnd) <==>
      || EventType(event) == Some("input_audio_buffer.speech_stopped")
      || EventType(event) == Some("response.audio.done")
      || EventType(event) == Some("response.output_audio.done")
  {
    CaseOfSpeechStarted(EventType(event));
    CaseOfAudioDone(EventType(event));
  }

  /**
   * A history item is forwarded exactly for a created or added message item,
   * a completed function call, and a finished transcription; the first three
   * carry the upstream item itself, the last the user message built from the
   * transcript.
   */
  lemma TranslateHistoryIff(event: Value, agent: string, item: Value)
    requires !event.Null?
    ensures Translate(event, agent) == Some(HistoryAdded(item)) <==>
      var c := CaseOfEvent(event);
      var up := Get(event, "item");
      || (c == ItemCreated && HasType(up, "message") && up == Some(item))
      || (c == ItemAdded && !HasType(up, "function_call") && HasType(up, "message") && up == Some(item))
      || (c == ItemDone && CompletedCall(up) && up == Some(item))
      || (c == TranscriptionDone && item == TranscriptItem(Get(event, "transcript")))
  {
  }

  /** An `error` event, and only that, becomes a client error carrying the error text. */
  lemma TranslateErrorIff(event: Value, agent: string, err: Value)
    requires !event.Null?
    ensures Translate(event, agent) == Some(Error(err)) <==> EventType(event) == Some("error") && err == ErrorText(event)
  {
    CaseOfError(EventType(event));
  }

  /** Agent start and end are reported under the agent the caller names, and only for responses. */
  lemma TranslateAgentEvents(event: Value, agent: string, a: string)
    requires !event.Null?
    ensures Translate(event, agent) == Some(AgentStart(a)) <==> CaseOfEvent(event) == ResponseCreated && a == agent
    ensures Translate(event, agent) == Some(AgentEnd(a)) <==> CaseOfEvent(event) == ResponseDone && a == agent
  {
  }

  /**
   * An error event always carries a truthy error value, taken from the first
   * truthy one of `error.error`, `error` and `message`.
   */
  lemma ErrorTextPrecedence(event: Value)
    ensures Truthy(Some(ErrorText(event)))
    ensures var err := Get(event, "error");
      if Truthy(GetOpt(err, "error")) then ErrorText(event) == GetOpt(err, "error").value
      else if Truthy(err) then ErrorText(event) == err.value
      else if Truthy(Get(event, "message")) then ErrorText(event) == Get(event, "message").value
      else ErrorText(event) == Str("Unknown error")
  {
  }

  /** A tool start names the function call, or `unknown` when it has no truthy name. */
  lemma ToolStartName(event: Value, agent: string, tool: Value)
    requires !event.Null?
    requires Translate(event, agent) == Some(ToolStart(tool))
    ensures CaseOfEvent(event) == ItemAdded
    ensures HasType(Get(event, "item"), "function_call")
    ensures var name := Get(Get(event, "item").value, "name");
      tool == if Truthy(name) then name.value else Str("unknown")
  {
  }

  /** Every history item the translator emits is a message or a completed function call. */
  lemma HistoryItemsAreMessagesOrCalls(event: Value, agent: string, item: Value)
    requires !event.Null?
    requires Translate(event, agent) == Some(HistoryAdded(item))
    ensures HasType(Some(item), "message") || CompletedCall(Some(item))
  {
    TranslateHistoryIff(event, agent, item);
    if CaseOfEvent(event) == TranscriptionDone {
      assert Get(item, "type") == Some(Str("message"));
    }
  }
}
