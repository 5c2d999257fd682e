/**
 * The browser's handling of server events (src/client/src/App.tsx):
 * `handleRealtimeEvent`, `addMessageFromItem` and `sendTextMessage` as a
 * pure reducer over the page state. React's state hooks become fields of
 * `App`; the audio player is the one in `Player`. `Handle` is the page as
 * it runs, `HandleCorrected` the page with its two defects mended.
 */
module ClientApp {

  import opened Wrappers
  import opened Json
  import Text
  import Transform
  import Player

  /** A chat message shown on the page: its role (`item.role`), text and the audio spoken with it. */
  datatype Message = Message(role: Option<Value>, content: string, audio: Option<string>)

  /**
   * The page state: every event received, the tool events among them, the
   * chat, the audio received for the answer being spoken, and the player.
   */
  datatype App = App(
    events: seq<Value>,
    toolEvents: seq<Value>,
    messages: seq<Message>,
    currentMessageAudio: seq<string>,
    player: Player.Player)

  predicate Valid(app: App) {
    Player.Valid(app.player)
  }

  const Init: App := App([], [], [], [], Player.Init)

  const SpokenAnswer: string := "Озвученный ответ"

  // ---------------------------------------------------------------------------
  // The wire
  // ---------------------------------------------------------------------------

  /** A client event as the browser parses it: `JSON.stringify` drops absent fields. */
  function Wire(e: Transform.ClientEvent): (v: Value)
    ensures v.Obj? && TypeOf(v) == Some(Str(Transform.Kind(e)))
  {
    var t := Member("type", Str(Transform.Kind(e)));
    var fields := match e
      case AgentStart(a) => [Member("agent", Str(a))]
      case AgentEnd(a) => [Member("agent", Str(a))]
      case Handoff(from, to) => [Member("from", Str(from)), Member("to", Str(to))]
      case ToolStart(tool) => [Member("tool", tool)]
      case ToolEnd(tool, output) => (if tool.Some? then [Member("tool", tool.value)] else []) + [Member("output", Str(output))]
      case Audio(audio, rate) => [Member("audio", audio)] + (if rate.Some? then [Member("sampleRate", Num(rate.value))] else [])
      case AudioInterrupted => []
      case AudioEnd => []
      case HistoryAdded(item) => [Member("item", item)]
      case Error(err) => [Member("error", err)]
      case RawModelEvent(payload) => [Member("raw_model_event", payload)];
    Obj([t] + fields)
  }

  /** The value of a field other than `type` of a wire event. */
  lemma WireField(e: Transform.ClientEvent, key: string, fields: seq<Member>)
    requires Wire(e) == Obj([Member("type", Str(Transform.Kind(e)))] + fields)
    requires key != "type"
    ensures Get(Wire(e), key) == Lookup(fields, key)
  {
    assert Wire(e).members[1..] == fields;
  }

  // ---------------------------------------------------------------------------
  // addMessageFromItem
  // ---------------------------------------------------------------------------

  predicate IsTextPart(t: Option<Value>) {
    t == Some(Str("text")) || t == Some(Str("input_text")) || t == Some(Str("output_text"))
  }

  predicate IsTranscriptPart(t: Option<Value>) {
    t == Some(Str("input_audio")) || t == Some(Str("audio")) || t == Some(Str("output_audio_transcript"))
  }

  /** The text one content part contributes: its truthy `text` or `transcript`, depending on its type. */
  function PartText(part: Value): (s: string)
    ensures s != "" ==> part.Obj?
  {
    var t := TypeOf(part);
    if IsTextPart(t) && Truthy(Get(part, "text")) then ToStr(Get(part, "text"))
    else if IsTranscriptPart(t) && Truthy(Get(part, "transcript")) then ToStr(Get(part, "transcript"))
    else ""
  }

  /** The text of a list of parts: each part's text, in order. */
  function PartsText(parts: seq<Value>): string {
    if parts == [] then "" else PartsText(parts[..|parts| - 1]) + PartText(parts[|parts| - 1])
  }

  /** The text the loop over `item.content` builds up. */
  method ContentText(parts: seq<Value>) returns (content: string)
    ensures content == PartsText(parts)
  {
    content := "";
    var i := 0;
    while i < |parts|
      invariant 0 <= i <= |parts|
      invariant content == PartsText(parts[..i])
    {
      assert parts[..i + 1][..i] == parts[..i];
      content := content + PartText(parts[i]);
      i := i + 1;
    }
    assert parts[..|parts|] == parts;
  }

  /** A text only of parts that contribute nothing is empty. */
  lemma {:induction false} PartsTextEmpty(parts: seq<Value>)
    requires forall i :: 0 <= i < |parts| ==> PartText(parts[i]) == ""
    ensures PartsText(parts) == ""
    decreases |parts|
  {
    if parts != [] {
      PartsTextEmpty(parts[..|parts| - 1]);
    }
  }

  /** The text of a message item: its parts' texts, or the content itself when it is a string. */
  function ItemText(item: Value): string {
    match Get(item, "content")
    case Some(Arr(parts)) => PartsText(parts)
    case Some(Str(s)) => s
    case _ => ""
  }

  /**
   * `addMessageFromItem`: a message item becomes a chat message when it has
   * text, or is the assistant's and audio was received for it. A message
   * without text is shown as a spoken answer; the audio is the received
   * chunks joined.
   */
  function MessageFromItem(item: Value, audio: seq<string>): (m: Option<Message>)
    ensures m.Some? <==>
      && Transform.HasType(Some(item), "message")
      && (!Text.IsBlank(ItemText(item)) || (Get(item, "role") == Some(Str("assistant")) && audio != []))
    ensures m.Some? ==> m.value.role == Get(item, "role")
    ensures m.Some? && !Text.IsBlank(ItemText(item)) ==> m.value.content == ItemText(item)
    ensures m.Some? && Text.IsBlank(ItemText(item)) ==> m.value.content == SpokenAnswer
  {
    if !Transform.HasType(Some(item), "message") then None
    else
      var content := ItemText(item);
      var role := Get(item, "role");
      var hasAudio := role == Some(Str("assistant")) && audio != [];
      Text.TrimEmptyIffBlank(content);
      if Text.Trim(content) != "" || hasAudio then
        var combined := if hasAudio then Text.Concat(audio) else "";
        Some(Message(role, if Text.Trim(content) != "" then content else SpokenAnswer,
                     if combined != "" then Some(combined) else None))
      else None
  }

  /** The audio attached to a message is all the audio received for it, in order. */
  lemma MessageAudio(item: Value, audio: seq<string>)
    requires MessageFromItem(item, audio).Some?
    ensures MessageFromItem(item, audio).value.audio
      == if Get(item, "role") == Some(Str("assistant")) && Text.Concat(audio) != "" then Some(Text.Concat(audio)) else None
  {
  }

  /**
   * An item whose content parts contribute no text makes no message, unless
   * it is the assistant's and audio was received for it.
   */
  lemma NoTextNoMessage(item: Value, parts: seq<Value>, audio: seq<string>)
    requires Get(item, "content") == Some(Arr(parts))
    requires forall i :: 0 <= i < |parts| ==> PartText(parts[i]) == ""
    ensures MessageFromItem(item, audio).None? <==>
      !Transform.HasType(Some(item), "message") || Get(item, "role") != Some(Str("assistant")) || audio == []
  {
    PartsTextEmpty(parts);
    Text.TrimEmptyIffBlank("");
  }

  // ---------------------------------------------------------------------------
  // handleRealtimeEvent
  // ---------------------------------------------------------------------------

  /** `tool_start`, `tool_end` and `handoff` events go to the tool log as well. */
  predicate IsToolEvent(event: Value) {
    var t := TypeOf(event);
    t == Some(Str("tool_start")) || t == Some(Str("tool_end")) || t == Some(Str("handoff"))
  }

  /** The tool log's reference meaning: the tool events of a list, in order. */
  function ToolEventsOf(events: seq<Value>): seq<Value> {
    if events == [] then []
    else ToolEventsOf(events[..|events| - 1]) + (if IsToolEvent(events[|events| - 1]) then [events[|events| - 1]] else [])
  }

  /** The cases of `handleRealtimeEvent`'s `switch`. */
  datatype Reaction = PlayAudio | StopAudio | ForgetAudio | AddMessage | LogOnly

  /** The case an event's `type` selects. */
  function ReactionOf(event: Value): Reaction {
    match TypeOf(event)
    case Some(Str(t)) =>
      if t == "audio" then PlayAudio
      else if t == "audio_interrupted" then StopAudio
      else if t == "agent_end" then ForgetAudio
      else if t == "history_added" then AddMessage
      else LogOnly
    case _ => LogOnly
  }

  /** The chunk the player is given for an audio event: the text of `audio`, and `sampleRate` when it is a number. */
  function ChunkOf(event: Value): Player.Chunk {
    Player.Chunk(ToStr(Get(event, "audio")), match Get(event, "sampleRate") case Some(Num(r)) => Some(r) case _ => None)
  }

  /** The stop the page calls: `stop` as written, or (`flush`) the one that also cancels the chunk being decoded. */
  function StopPlayer(p: Player.Player, flush: bool): (p': Player.Player)
    requires Player.Valid(p)
    ensures Player.Valid(p')
    ensures p'.queue == [] && p'.playing == None
    ensures !flush ==> p'.phase == p.phase
    ensures flush ==> Player.Line(p') == []
  {
    if flush then Player.StopFlushing(p) else Player.Stop(p)
  }

  /**
   * The body of `handleRealtimeEvent`: the event is logged (and tool events
   * logged again), then audio is played and kept for the answer, an
   * interruption stops the player and forgets the audio, the end of an
   * answer forgets the audio, and a history item becomes a chat message. A
   * `null` event throws before anything is done. `heard` is the audio list
   * the `addMessageFromItem` it calls sees, and `flush` says which stop is
   * called.
   */
  function Dispatch(app: App, event: Value, heard: seq<string>, flush: bool): (app': App)
    requires Valid(app)
    ensures Valid(app')
    ensures event.Null? ==> app' == app
    ensures !event.Null? ==> app'.events == app.events + [event]
    ensures !event.Null? ==> app'.toolEvents == app.toolEvents + (if IsToolEvent(event) then [event] else [])
  {
    if event.Null? then app
    else
      var logged := app.(events := app.events + [event],
                         toolEvents := app.toolEvents + (if IsToolEvent(event) then [event] else []));
      match ReactionOf(event)
      case PlayAudio =>
        if Truthy(Get(event, "audio")) then
          var c := ChunkOf(event);
          logged.(player := Player.Enqueue(app.player, c), currentMessageAudio := app.currentMessageAudio + [c.audio])
        else logged
      case StopAudio => logged.(player := StopPlayer(app.player, flush), currentMessageAudio := [])
      case ForgetAudio => logged.(currentMessageAudio := [])
      case AddMessage =>
        var item := Get(event, "item");
        if Truthy(item) then
          match MessageFromItem(item.value, heard)
          case Some(m) => logged.(messages := app.messages + [m])
          case None => logged
        else logged
      case LogOnly => logged
  }

  /**
   * `handleRealtimeEvent` as the page runs it. It is memoised with no
   * dependencies, so it keeps the `addMessageFromItem` of the first render,
   * whose `currentMessageAudio` is the initial empty list; and it calls the
   * player's `stop` as written.
   */
  function Handle(app: App, event: Value): (app': App)
    requires Valid(app)
    ensures Valid(app')
    ensures event.Null? ==> app' == app
    ensures !event.Null? ==> app'.events == app.events + [event]
    ensures !event.Null? ==> app'.toolEvents == app.toolEvents + (if IsToolEvent(event) then [event] else [])
  {
    Dispatch(app, event, [], false)
  }

  /** `handleRealtimeEvent` as evidently intended: the message sees the audio received so far, and the stop cancels a chunk being decoded. */
  function HandleCorrected(app: App, event: Value): (app': App)
    requires Valid(app)
    ensures Valid(app')
    ensures event.Null? ==> app' == app
    ensures !event.Null? ==> app'.events == app.events + [event]
    ensures !event.Null? ==> app'.toolEvents == app.toolEvents + (if IsToolEvent(event) then [event] else [])
  {
    Dispatch(app, event, app.currentMessageAudio, true)
  }

  /** Audio with a payload is queued for playback behind what is already queued, and kept for the answer. */
  lemma HandleAudio(app: App, event: Value)
    requires Valid(app) && TypeOf(event) == Some(Str("audio")) && Truthy(Get(event, "audio"))
    ensures var app' := Handle(app, event);
      && Player.Line(app'.player) == Player.Line(app.player) + [ChunkOf(event)]
      && app'.currentMessageAudio == app.currentMessageAudio + [ToStr(Get(event, "audio"))]
      && app'.messages == app.messages
  {
  }

  /**
   * An interruption empties the player's queue, stops the playing source and
   * forgets the answer's audio; a chunk whose decoding is in flight is left
   * as it is.
   */
  lemma HandleInterruption(app: App, event: Value)
    requires Valid(app) && TypeOf(event) == Some(Str("audio_interrupted"))
    ensures var app' := Handle(app, event);
      && app'.player.queue == [] && app'.player.playing == None
      && app'.player.phase == app.player.phase
      && app'.currentMessageAudio == []
      && app'.messages == app.messages
  {
  }

  /**
   * The interruption does not silence a chunk that was being decoded when it
   * arrived: on a fresh page, audio and then an interruption, and the chunk
   * starts once its decoding finishes.
   */
  lemma InterruptedChunkStillPlays(audio: Value, stop: Value)
    requires TypeOf(audio) == Some(Str("audio")) && Truthy(Get(audio, "audio"))
    requires TypeOf(stop) == Some(Str("audio_interrupted"))
    ensures Player.Started(Handle(Handle(Init, audio), stop).player, true).playing == Some(ChunkOf(audio))
  {
    HandleAudio(Init, audio);
  }

  /** With the corrected page, an interruption leaves nothing to be played, not even a chunk being decoded. */
  lemma HandleCorrectedInterruption(app: App, event: Value)
    requires Valid(app) && TypeOf(event) == Some(Str("audio_interrupted"))
    ensures var app' := HandleCorrected(app, event);
      && Player.Line(app'.player) == [] && app'.player.playing == None
      && app'.currentMessageAudio == []
      && app'.messages == app.messages
  {
  }

  /** The end of an answer forgets its audio and touches nothing else but the logs. */
  lemma HandleAgentEnd(app: App, event: Value)
    requires Valid(app) && TypeOf(event) == Some(Str("agent_end"))
    ensures var app' := Handle(app, event);
      app'.currentMessageAudio == [] && app'.messages == app.messages && app'.player == app.player
  {
  }

  /** The chat grows only on `history_added`, by at most the one message its item makes from the audio the handler sees. */
  lemma MessagesGrowOnlyOnHistory(app: App, event: Value, heard: seq<string>, flush: bool)
    requires Valid(app)
    ensures var app' := Dispatch(app, event, heard, flush);
      && (ReactionOf(event) != AddMessage ==> app'.messages == app.messages)
      && (ReactionOf(event) == AddMessage && Truthy(Get(event, "item")) ==>
            app'.messages == app.messages + (match MessageFromItem(Get(event, "item").value, heard)
                                             case Some(m) => [m] case None => []))
  {
  }

  /**
   * The stale closure: an assistant message without text is dropped by the
   * page however much audio was received for it, where the corrected page
   * shows it as a spoken answer carrying that audio.
   */
  lemma SpokenAnswerDropped(app: App, event: Value)
    requires Valid(app) && ReactionOf(event) == AddMessage && Truthy(Get(event, "item"))
    requires var item := Get(event, "item").value;
      && Transform.HasType(Some(item), "message")
      && Get(item, "role") == Some(Str("assistant"))
      && Text.IsBlank(ItemText(item))
    ensures Handle(app, event).messages == app.messages
    ensures app.currentMessageAudio != [] ==>
      var audio := Text.Concat(app.currentMessageAudio);
      HandleCorrected(app, event).messages
        == app.messages + [Message(Some(Str("assistant")), SpokenAnswer, if audio != "" then Some(audio) else None)]
  {
    var item := Get(event, "item").value;
    MessagesGrowOnlyOnHistory(app, event, [], false);
    assert MessageFromItem(item, []).None?;
    if app.currentMessageAudio != [] {
      MessagesGrowOnlyOnHistory(app, event, app.currentMessageAudio, true);
      MessageAudio(item, app.currentMessageAudio);
    }
  }

  /** The page after a run of events. */
  function Receive(app: App, events: seq<Value>): (app': App)
    requires Valid(app)
    ensures Valid(app')
    decreases |events|
  {
    if events == [] then app else Handle(Receive(app, events[..|events| - 1]), events[|events| - 1])
  }

  /** The events of a list but the `null`s, in order. */
  function NonNull(events: seq<Value>): seq<Value> {
    if events == [] then []
    else NonNull(events[..|events| - 1]) + (if events[|events| - 1].Null? then [] else [events[|events| - 1]])
  }

  /**
   * Over any run, the events received but `null` join the event log in
   * arrival order, and exactly the tool events among them join the tool log.
   */
  lemma {:induction false} ReceiveLogs(app: App, events: seq<Value>)
    requires Valid(app)
    ensures Receive(app, events).events == app.events + NonNull(events)
    ensures Receive(app, events).toolEvents == app.toolEvents + ToolEventsOf(events)
    decreases |events|
  {
    if events != [] {
      var front := events[..|events| - 1];
      var last := events[|events| - 1];
      ReceiveLogs(app, front);
      assert !IsToolEvent(Null);
      calc {
        Receive(app, events).events;
        Receive(app, front).events + (if last.Null? then [] else [last]);
        (app.events + NonNull(front)) + (if last.Null? then [] else [last]);
        app.events + (NonNull(front) + (if last.Null? then [] else [last]));
      }
      calc {
        Receive(app, events).toolEvents;
        Receive(app, front).toolEvents + (if IsToolEvent(last) then [last] else []);
        (app.toolEvents + ToolEventsOf(front)) + (if IsToolEvent(last) then [last] else []);
        app.toolEvents + (ToolEventsOf(front) + (if IsToolEvent(last) then [last] else []));
      }
    }
  }

  /** Exactly the tool starts, tool ends and handoffs the server sends are shown in the tool log. */
  lemma ToolEventsAreToolsAndHandoffs(e: Transform.ClientEvent)
    ensures IsToolEvent(Wire(e)) <==> e.ToolStart? || e.ToolEnd? || e.Handoff?
  {
  }

  /** The first member with a key is found past members with other keys. */
  lemma {:induction false} LookupAt(ms: seq<Member>, k: nat)
    requires k < |ms|
    requires forall i :: 0 <= i < k ==> ms[i].key != ms[k].key
    ensures Lookup(ms, ms[k].key) == Some(ms[k].value)
    decreases k
  {
    if k > 0 {
      assert ms[1..][k - 1] == ms[k];
      LookupAt(ms[1..], k - 1);
    }
  }

  /** An `input_audio` part contributes its transcript. */
  lemma InputAudioPartText(transcript: string)
    requires transcript != ""
    ensures PartText(Obj([Member("type", Str("input_audio")), Member("transcript", Str(transcript))])) == transcript
  {
    var part := Obj([Member("type", Str("input_audio")), Member("transcript", Str(transcript))]);
    assert "type"[1] != "transcript"[1];
    LookupAt(part.members, 1);
    assert TypeOf(part) == Some(Str("input_audio"));
    assert !IsTextPart(TypeOf(part)) by {
      assert "input_audio"[0] != "text"[0] && "input_audio"[6] != "input_text"[6] && "input_audio"[0] != "output_text"[0];
    }
    assert IsTranscriptPart(TypeOf(part));
  }

  /** The members of the transcript item the server builds. */
  lemma TranscriptItemFields(transcript: string)
    ensures var item := Transform.TranscriptItem(Some(Str(transcript)));
      && Get(item, "type") == Some(Str("message"))
      && Get(item, "role") == Some(Str("user"))
      && Get(item, "content") == Some(Arr([Obj([Member("type", Str("input_audio")), Member("transcript", Str(transcript))])]))
  {
    var item := Transform.TranscriptItem(Some(Str(transcript)));
    var part := Obj([Member("type", Str("input_audio")), Member("transcript", Str(transcript))]);
    assert [Member("type", Str("input_audio"))] + [Member("transcript", Str(transcript))] == part.members;
    assert item.members == [Member("type", Str("message")), Member("role", Str("user")), Member("content", Arr([part]))];
    assert "type"[0] != "role"[0] && "type"[0] != "content"[0] && "role"[0] != "content"[0];
    LookupAt(item.members, 1);
    LookupAt(item.members, 2);
  }

  /** The transcript item the server builds reads back as a user message holding the transcript. */
  lemma TranscriptItemText(transcript: string)
    requires transcript != ""
    ensures var item := Transform.TranscriptItem(Some(Str(transcript)));
      && Transform.HasType(Some(item), "message")
      && Get(item, "role") == Some(Str("user"))
      && ItemText(item) == transcript
  {
    var part := Obj([Member("type", Str("input_audio")), Member("transcript", Str(transcript))]);
    var item := Transform.TranscriptItem(Some(Str(transcript)));
    TranscriptItemFields(transcript);
    assert ItemText(item) == PartsText([part]);
    InputAudioPartText(transcript);
    assert [part][..0] == [];
    assert PartsText([part]) == PartsText([]) + PartText(part);
  }

  /** A `history_added` event as the browser receives it carries the item. */
  lemma HistoryAddedWire(item: Value)
    ensures ReactionOf(Wire(Transform.HistoryAdded(item))) == AddMessage
    ensures Get(Wire(Transform.HistoryAdded(item)), "item") == Some(item)
  {
    assert "type"[0] != "item"[0];
    WireField(Transform.HistoryAdded(item), "item", [Member("item", item)]);
  }

  /** A user's transcribed speech appears in the chat as the transcript. */
  lemma TranscriptShown(app: App, transcript: string)
    requires Valid(app) && !Text.IsBlank(transcript)
    ensures var item := Transform.TranscriptItem(Some(Str(transcript)));
      Handle(app, Wire(Transform.HistoryAdded(item))).messages == app.messages + [Message(Some(Str("user")), transcript, None)]
  {
    var item := Transform.TranscriptItem(Some(Str(transcript)));
    var event := Wire(Transform.HistoryAdded(item));
    TranscriptItemText(transcript);
    HistoryAddedWire(item);
    assert Truthy(Get(event, "item"));
    MessagesGrowOnlyOnHistory(app, event, [], false);
    var m := MessageFromItem(item, []);
    assert m.Some?;
    MessageAudio(item, []);
    assert Str("user") != Str("assistant") by { assert "user"[0] != "assistant"[0]; }
    assert m.value == Message(Some(Str("user")), transcript, None);
  }

  // ---------------------------------------------------------------------------
  // sendTextMessage
  // ---------------------------------------------------------------------------

  /**
   * `sendTextMessage`: with the socket open, the player is stopped (its
   * queue emptied and the playing source stopped), the answer's audio
   * forgotten and a `text_message` sent; otherwise nothing happens.
   */
  function SendText(app: App, text: string, socketOpen: bool): (r: (App, Option<Value>))
    requires Valid(app)
    ensures Valid(r.0)
    ensures !socketOpen ==> r == (app, None)
    ensures socketOpen ==>
      && r.1 == Some(Obj([Member("type", Str("text_message")), Member("text", Str(text))]))
      && r.0.player.queue == [] && r.0.player.playing == None
      && r.0.player.phase == app.player.phase
      && r.0.currentMessageAudio == []
      && r.0.messages == app.messages && r.0.events == app.events && r.0.toolEvents == app.toolEvents
  {
    if !socketOpen then (app, None)
    else
      (app.(player := Player.Stop(app.player), currentMessageAudio := []),
       Some(Obj([Member("type", Str("text_message")), Member("text", Str(text))])))
  }
}
