# realtime-agent in Dafny

The repository is a voice gateway between a browser page and the Yandex Cloud realtime API.
- The browser sends microphone frames and text messages over a WebSocket.
- The server relays them to the realtime API.
- The server translates the API's events into a small client vocabulary. This covers agent start and end, handoff, tool start and end, audio, history items and errors.
- The server runs two tools: an FAQ lookup and a temperature converter. Their results go back to the model, which is then asked to speak them.
- The browser plays the audio through a queue and keeps a chat history.

This project models that core as pure functions over immutable state and proves properties of it.

| file | module | what it is |
|---|---|---|
| `wrappers.dfy` | `Wrappers` | `Option` and `Result` |
| `text.dfy` | `Text` | white space and trimming, lower case, substring search, decimal text of integers |
| `json.dfy` | `Json` | parsed JSON values and the JavaScript operations the code applies to them: truthiness, `\|\|`, `String(x)`, unary `+`, object spread and `delete` |
| `base64.dfy` | `Base64` | the Base64 alphabet and padding of RFC 4648 section 4, encoder and decoder |
| `pcm.dfy` | `Pcm` | `writeInt16LE` packing of microphone samples and reading them back |
| `transform.dfy` | `Transform` | the client event vocabulary and `transformYandexEvent` |
| `tools.dfy` | `Tools` | `executeTool`, the FAQ lookup and the temperature conversion |
| `profiles.dfy` | `Profiles` | the voice catalogue and the three ways of choosing a voice |
| `tts.dfy` | `Tts` | the speech-synthesis form body, the response handling and the greeting |
| `sanitize.dfy` | `Sanitize` | `sanitizeStringsDeep`, the log sanitiser |
| `validation.dfy` | `Validation` | `isValidClientMessage` |
| `throttle.dfy` | `Throttle` | `logErrorThrottled` |
| `gateway.dfy` | `Gateway` | the per-connection controller: session lifecycle, upstream events, tool calls, browser messages |
| `subseq.dfy` | `Subseq` | the subsequence order, which is what the audio queue keeps of its order when it is emptied |
| `player.dfy` | `Player` | the browser's audio queue |
| `client_app.dfy` | `ClientApp` | the browser page's reducer over server events |

The controller exists twice in the repository:
- `RealtimeWebSocketManager` is the copy the server entry point uses.
- `YandexHandler` with `ClientHandler` is the refactored copy.

`Gateway` models both at once, through a `Variant` parameter. The two differ only in two places:
- the `session.update` they send;
- the spoken greeting, which only the handler sends.

Each callback becomes a function from the gateway state to the new state plus the messages sent, in order:
- the browser WebSocket's message handler;
- the upstream socket's `open`, `message`, `error` and `close` handlers;
- the greeting timer;
- the completion of a tool call.

The `upstreamOpen` flag of a session stands for the upstream socket's `readyState` being open. Every upstream send is gated on that flag.

A tool call is started from an `output_item.done` event, but it finishes asynchronously. `HandleUpstream` therefore returns the completed call item. `CompleteFunctionCall` is the separate step that runs it. Any caller runs that step after the event's own messages have been sent.

## Model

| member | source | states |
|---|---|---|
| Transform.CaseOfOtherIff | src/server/yandex-event-transform.ts:5-112 | a string type reaches the default case exactly when none of the sixteen listed types names it |
| Transform.Translate | src/server/yandex-event-transform.ts:3-114 | speech starting gives `audio_interrupted`, the end of speech or of the answer's audio gives `audio_end`, `error` gives the error text, and the default case passes the event through whole; each of these comes from no other case |
| Transform.TranslateDropsIff | src/server/yandex-event-transform.ts:5-79 | no client event comes out exactly in these cases: `session.created`, `session.updated` and `input_audio_buffer.committed`; a created item that is not a message; an added item that is neither a call nor a message; a done item that is not a completed call; an audio delta that is falsy |
| Transform.TranslateSpeechEvents | src/server/yandex-event-transform.ts:11-79 | `audio_interrupted` comes exactly from `input_audio_buffer.speech_started`; `audio_end` exactly from `input_audio_buffer.speech_stopped`, `response.audio.done` and `response.output_audio.done` |
| Transform.TranslateHistoryIff | src/server/yandex-event-transform.ts:17-91 | `history_added` comes exactly from a created or added message item or a completed function call, carrying that same item, or from a finished transcription, carrying the user message built from its transcript |
| Transform.TranslateErrorIff | src/server/yandex-event-transform.ts:93-97 | a client error comes exactly from an `error` event, and carries its error text |
| Transform.TranslateRawIff | src/server/yandex-event-transform.ts:99-111 | an event is passed through whole as `raw_model_event` exactly when its type is unknown or not a string |
| Transform.TranslateAudioIff | src/server/yandex-event-transform.ts:57-76 | an `audio` event carries exactly the truthy upstream delta, with no sample rate, and comes only from the two delta types |
| Transform.TranslateAgentEvents | src/server/yandex-event-transform.ts:26-30 | `agent_start` and `agent_end` come exactly from `response.created` and `response.done`, and carry exactly the agent passed in |
| Transform.ErrorTextPrecedence | src/server/yandex-event-transform.ts:93-97 | the error text is the first truthy value among `error.error`, `error` and `message`, or else `Unknown error`; it is always truthy |
| Transform.ToolStartName | src/server/yandex-event-transform.ts:32-39 | a `tool_start` comes only from an added function-call item; it names the call, or `unknown` when the name is falsy |
| Transform.HistoryItemsAreMessagesOrCalls | src/server/yandex-event-transform.ts:17-91 | every history item forwarded is a message or a completed function call |
| Base64.DecodeEncode | src/server/client-handler.ts:109 | decoding the Base64 text of any byte string gives the bytes back |
| Pcm.Int16RoundTrip | src/server/client-handler.ts:103 | the two little-endian bytes stored for an in-range sample read back as that sample |
| Pcm.PackedFrame | src/server/websocket-manager.ts:220-229 | the frame buffer exists exactly when every sample is in [-32768, 32767]; sample i is then stored at offset 2i (client-handler.ts packs the same way) |
| Pcm.FrameRoundTrip | src/server/client-handler.ts:99-109 | a packed frame survives Base64 and unpacks to the original samples |
| Tools.ExecuteTool | src/server/tools.ts:4-25 | success exactly when there is no error; a failure has an empty result; only the two known names succeed; any other name fails with `Unknown tool: <name>` |
| Tools.FaqToolSucceedsIff | src/server/tools.ts:4-45 | the FAQ tool succeeds exactly when the parameters hold a string `question`; anything else is caught as a failure |
| Tools.TemperatureToolSucceedsIff | src/server/tools.ts:4-53 | the temperature tool succeeds exactly when the parameters are present and not `null` |
| Tools.FaqAnswer | src/server/tools.ts:31-39 | the answer is one of the four fixed answers |
| Tools.FaqAnswerPriority | src/server/tools.ts:28-39 | the answer selection, checked in the lower-cased question in order: baggage first (`багаж`, `сумк`), then seats (`мест`, `самолет`), then food (`еда`, `питание`, `меню`), else the don't-know answer |
| Tools.FaqAnswerIgnoresCase | src/server/tools.ts:28 | lower-casing the question first does not change the answer |
| Tools.FaqBaggageAnywhere | src/server/tools.ts:31-32 | a question mentioning `багаж` anywhere gets the baggage answer |
| Tools.FaqLookup | src/server/tools.ts:27-45 | the lookup succeeds exactly for a string question, with the FAQ answer and no error |
| Tools.FahrenheitTenths | src/server/tools.ts:48 | the Fahrenheit value in tenths t satisfies 5(t - 320) = 90c for Celsius c |
| Tools.FormatTenthsRoundTrip | src/server/tools.ts:51 | the one-decimal text of a tenths value parses back to that value |
| Tools.TemperatureInverse | src/server/tools.ts:47-52 | the reply for an integer Celsius value shows that value and a Fahrenheit text that parses back to 18c + 320 tenths |
| Tools.ConvertTemperature | src/server/tools.ts:47-53 | the conversion always succeeds, with no error |
| Tools.TwelveCelsius | src/server/tools.ts:48-51 | 12 gives `12°C = 53.6°F` |
| Profiles.RandomIndex | src/server/config/assistant-profile.ts:27-28 | `Math.floor(draw * n)` is an index in bounds, the floor of the product |
| Profiles.EveryIndexDrawn | src/server/config/assistant-profile.ts:27-28 | every index is reached by some draw |
| Profiles.RandomProfile | src/server/config/assistant-profile.ts:26-29 | the drawn profile is in the catalogue |
| Profiles.OfGender | src/server/config/assistant-profile.ts:35 | the filter keeps exactly the catalogue entries of that gender |
| Profiles.BothGendersPresent | src/server/config/assistant-profile.ts:8-21 | both genders have at least one voice |
| Profiles.RandomProfileByGender | src/server/config/assistant-profile.ts:34-38 | the drawn profile is in the catalogue and has the requested gender |
| Profiles.ProfileByName | src/server/config/assistant-profile.ts:43-45 | absent exactly when no profile has the name; otherwise a catalogue profile of that name |
| Profiles.CatalogueNamesDistinct | src/server/config/assistant-profile.ts:8-21 | no two catalogue entries share a voice name |
| Profiles.ProfileByNameFindsOwn | src/server/config/assistant-profile.ts:43-45 | in a list of distinct names, looking an entry up by its own name returns that entry |
| Tts.ParamValueConcat | src/server/yandex-tts.ts:26-42 | the first parameter of a key in a concatenated form comes from the first part that has the key |
| Tts.SynthesisParamsMeaning | src/server/yandex-tts.ts:26-42 | the form body always holds `text`, `voice`, `format` (default `lpcm`), `sampleRateHertz` (default 16000) and `folderId`; `emotion` only when set; `speed` only when non-zero |
| Tts.SynthesisRequest | src/server/yandex-tts.ts:23-52 | the request goes to the synthesis URL and carries exactly the form body of the options |
| Tts.SynthesisOutcome | src/server/yandex-tts.ts:54-64 | audio comes back exactly for a 2xx status, and it is the response body; a network failure passes through unchanged |
| Tts.GreetingsMentionName | src/server/yandex-tts.ts:71-75 | each of the three greeting templates contains the display name |
| Tts.GreetingText | src/server/yandex-tts.ts:71-77 | the greeting is one of the three templates and names the assistant |
| Tts.GreetingOptions | src/server/yandex-tts.ts:80-87 | the greeting is synthesised with the profile's voice, emotion `good`, speed 1, `lpcm` at 16000 Hz |
| Tts.CreateGreeting | src/server/yandex-tts.ts:70-94 | the greeting succeeds exactly when synthesis does; it returns the text that was synthesised, the response body as its audio, and 16000 Hz; on failure it passes on the synthesis error |
| Tts.GreetingRequest | src/server/yandex-tts.ts:26-87 | the greeting's form body asks for the profile's voice, the greeting's own text, emotion `good`, speed `1` and `16000` Hz |
| Sanitize.MaskString | src/server/utils.ts:7-9 | strings longer than the limit in UTF-16 code units become `...`; others are unchanged |
| Sanitize.MaskStringPlainText | src/server/utils.ts:7-9 | for text below U+10000, a string is kept exactly when it has at most `maxLen` characters or is the mask itself |
| Text.Utf16Length | src/server/utils.ts:8 | a string's `length` counts two units for each code point above U+FFFF; it equals the number of code points exactly when there are none |
| Sanitize.WalkFields | src/server/utils.ts:16-19 | objects keep exactly their keys, in order |
| Sanitize.WalkItems | src/server/utils.ts:10-12 | arrays keep their length |
| Sanitize.WalkTree | src/server/utils.ts:4-25 | on input without shared objects, the walk returns the input with every long string masked, and remembers exactly the objects it met |
| Sanitize.MaskTreeIdempotent | src/server/utils.ts:7-22 | for a limit of at least 3, masking twice is masking once |
| Sanitize.SharedObjectMarked | src/server/utils.ts:13-15 | an object met a second time prints as `[Circular]`, even when there is no cycle |
| Sanitize.SelfReferenceMarked | src/server/utils.ts:13-15 | a self-reference prints as `[Circular]` |
| Validation.ValidIff | src/common/utils.ts:28-38 | a message is valid exactly when it is an object whose `type` is one of the eight listed strings |
| Validation.PrimitivesInvalid | src/common/utils.ts:29-31 | `undefined`, `null` and primitives are never valid |
| Throttle.Check | src/server/websocket-manager.ts:504-512 | the log fires exactly when at least the interval has passed since the last firing (0 when none); only then is the timestamp updated |
| Throttle.HeldBackWithinInterval | src/server/yandex-handler.ts:337-346 | after a firing, the same key is held back until the interval has passed |
| Throttle.FirstMessageFires | src/server/websocket-manager.ts:507-509 | a key never seen fires once the clock is past the interval |
| Throttle.CompositeKeyInjective | src/server/websocket-manager.ts:505 | for session ids without `:`, the composite key determines the session and the key |
| Throttle.OtherSessionsUnaffected | src/server/websocket-manager.ts:505-511 | a firing in one session does not touch another session's timestamp |
| Gateway.AgentForTool | src/server/websocket-manager.ts:493-502 | the temperature tool maps to the Temperature agent and the FAQ tool to the FAQ agent, each if and only if; every other name maps to the General agent |
| Gateway.Connect | src/server/websocket-manager.ts:21-34 | a new session has the FAQ agent active and its upstream not yet open; the set of other sessions is unchanged |
| Gateway.Disconnect | src/server/websocket-manager.ts:514-526 | the session is removed and the set of other sessions is unchanged; an unknown id changes nothing |
| Gateway.UpstreamOpened | src/server/websocket-manager.ts:72-103 | opening sends exactly one `session.update`: the fixed manager configuration, or for the handler the configuration of a freshly drawn profile, which is remembered |
| Gateway.UpstreamFailed | src/server/websocket-manager.ts:131-137 | an upstream error sends one client error naming the message and changes nothing else |
| Gateway.UpstreamClosed | src/server/websocket-manager.ts:127-129 | after the upstream closes, the session can send nothing more upstream |
| Gateway.Greet | src/server/yandex-handler.ts:81-134 | only the handler greets; it sends one to three client events, starting with a history item; after synthesis succeeds that item holds the greeting text, and otherwise it is the only event and holds the fallback text |
| Gateway.GreetingFallsBack | src/server/yandex-handler.ts:115-131 | the greeting is exactly one history item with `Привет! Я <displayName>. Как дела? Чем могу помочь?` exactly when no voice was chosen or synthesis failed |
| Gateway.GreetingCarriesAudio | src/server/yandex-handler.ts:85-113 | a successful greeting is a history item with the greeting text, then audio at 16000 Hz that decodes to the synthesised bytes, then `audio_end` |
| Gateway.Handoff | src/server/websocket-manager.ts:271-283 | a handoff event is sent exactly when the agent changes; only an added function call changes it, to that tool's agent |
| Gateway.NormalizeError | src/server/websocket-manager.ts:285-289 | the rewrite keeps the event's type |
| Gateway.NormalizeErrorKeepsText | src/server/websocket-manager.ts:285-289 | the rewritten error event yields the same client error text |
| Gateway.RegisterCall | src/server/websocket-manager.ts:304-317 | the tool name is stored under each truthy id, and the call id under the item id only when both are truthy; no entry is lost, and entries under other keys are unchanged |
| Gateway.CompletedCallItem | src/server/websocket-manager.ts:319-321 | a tool runs exactly for a completed function-call item |
| Gateway.SpeakPending | src/server/websocket-manager.ts:323-347 | on `response.done` a stored result is cleared and sent back to be spoken, as two upstream messages in order; otherwise nothing happens |
| Gateway.HandleUpstream | src/server/websocket-manager.ts:266-357 | the gateway invariant is preserved; frames that do not parse and `null` are dropped without effect; otherwise the tool call run afterwards is the completed call item of the event with its error rewritten |
| Gateway.DeferredCallIsCompletedItem | src/server/websocket-manager.ts:319-321 | a tool call is run after an upstream event exactly when it is an `output_item.done` carrying a completed function call, and the call run is that item |
| Gateway.HandleUpstreamSession | src/server/yandex-handler.ts:171-262 | after an event, the active agent is the called tool's agent, or unchanged; the stored result is gone after `response.done` |
| Gateway.HandleUpstreamOutputs | src/server/websocket-manager.ts:271-353 | the browser receives the handoff, if any, then the translated event under the new agent; upstream receives only the speak request, and only when one is due and the upstream is open |
| Gateway.ClosedUpstreamStaysQuiet | src/server/websocket-manager.ts:413-430 | with the upstream closed, no upstream event sends anything upstream |
| Gateway.CompleteFunctionCall | src/server/websocket-manager.ts:359-411 | the gateway invariant is preserved by running a tool |
| Gateway.CompleteFunctionCallReports | src/server/websocket-manager.ts:374-398 | without a truthy call id nothing is sent; otherwise the upstream output is sent (when open) and then `tool_end`, with the same text |
| Gateway.CompleteFunctionCallKeepsResult | src/server/websocket-manager.ts:400-405 | a result is kept to be spoken exactly when the tool succeeded with non-blank text |
| Gateway.DataSamples | src/server/websocket-manager.ts:222-229 | audio data gives one sample per array element or string character, and none for other values |
| Gateway.AudioPayload | src/server/websocket-manager.ts:220-237 | the appended audio is the Base64 of the little-endian packing of the samples |
| Gateway.AudioPayloadRoundTrip | src/server/client-handler.ts:96-113 | the audio sent upstream decodes to exactly the samples the browser sent |
| Gateway.HandleClient | src/server/websocket-manager.ts:140-185 | an unknown session gets nothing; text that does not parse, or `null`, gets the format error; with the upstream closed, nothing goes upstream |
| Gateway.HandleClientCases | src/server/websocket-manager.ts:155-176 | `commit_audio` sends `input_audio_buffer.commit` and `interrupt` sends `response.cancel` while the upstream is open, and nothing otherwise; audio with the upstream closed and messages of any other type produce nothing |
| Gateway.TextMessageIff | src/server/client-handler.ts:63-94 | a text message goes upstream followed by `response.create` exactly when the upstream is open; otherwise exactly the not-connected error is sent |
| Gateway.AudioMessageForwardedIff | src/server/client-handler.ts:96-113 | with the upstream open, audio is forwarded exactly when every sample fits in 16 bits, and otherwise exactly the format error is sent |
| Gateway.ImageMessagesAcceptedButIgnored | src/common/utils.ts:33-35 | image messages pass validation, yet the dispatch produces nothing for them |
| Player.Enqueue | src/client/src/utils/audioPlayer.ts:20-30 | the chunk joins the tail of the line; a drain starts only when none runs |
| Player.Advance | src/client/src/utils/audioPlayer.ts:37-54 | the loop takes the head of the queue, and stops processing exactly when the queue is empty |
| Player.Started | src/client/src/utils/audioPlayer.ts:57-136 | a decoded chunk starts playing; on failure nothing plays and the loop moves on at once |
| Player.Tick | src/client/src/utils/audioPlayer.ts:45-48 | the loop moves on only once nothing is playing |
| Player.Stop | src/client/src/utils/audioPlayer.ts:138-155 | the queue is emptied and nothing plays, but the chunk being decoded stays |
| Player.StepKeepsOrder | src/client/src/utils/audioPlayer.ts:20-55 | a step other than a stop removes chunks only from the head of the line and adds them only at the tail; a stop starts nothing, adds nothing and keeps a prefix of the line |
| Player.StepKeepsSubseq | src/client/src/utils/audioPlayer.ts:20-155 | what any step starts, followed by the line after it, is a subsequence of the line before it followed by what it adds |
| Player.RunKeepsOrder | src/client/src/utils/audioPlayer.ts:20-155 | over any run, stops included, the chunks started followed by those still waiting form a subsequence of the line followed by the chunks enqueued |
| Player.RunWithoutStopKeepsAll | src/client/src/utils/audioPlayer.ts:20-55 | over a run without stops, the chunks started followed by those still waiting are exactly the line followed by the chunks enqueued |
| Player.PlaysInEnqueueOrder | src/client/src/utils/audioPlayer.ts:20-155 | from a fresh player, the chunks started are a subsequence of the chunks enqueued; without stops they are a prefix of them |
| Player.StopLetsPendingChunkPlay | src/client/src/utils/audioPlayer.ts:37-142 | enqueue, stop, then the decode finishes: the chunk still plays |
| Player.StopFlushing | src/client/src/utils/audioPlayer.ts:138-155 | the corrected stop empties the whole line, including the chunk being decoded |
| Player.StopFlushingSilences | src/client/src/utils/audioPlayer.ts:138-155 | after the corrected stop, the chunks started are a subsequence of those enqueued later (a prefix when no stop follows), and nothing plays |
| Player.PcmFallback | src/client/src/utils/audioPlayer.ts:82-111 | raw PCM has half as many frames as bytes, is mono, and uses the given rate or 44100 when it is absent or 0; odd and empty input fails |
| Player.DecodeChunk | src/client/src/utils/audioPlayer.ts:64-114 | a chunk that is not valid Base64 never decodes |
| Player.PackedAudioPlaysBack | src/client/src/utils/audioPlayer.ts:64-111 | raw audio packed by the server plays back as the same samples at the rate sent with it |
| ClientApp.Wire | src/server/websocket-manager.ts:432-438 | every event reaches the browser as an object whose `type` is the event's kind |
| ClientApp.ContentText | src/client/src/App.tsx:224-244 | the loop over content parts builds each part's text, in order: the text `MessageFromItem` reads through `ItemText` |
| ClientApp.PartsTextEmpty | src/client/src/App.tsx:224-244 | parts that contribute no text give an empty text |
| ClientApp.NoTextNoMessage | src/client/src/App.tsx:224-252 | an item whose parts contribute no text makes no message, unless it is the assistant's message and audio was received for it |
| ClientApp.MessageFromItem | src/client/src/App.tsx:213-269 | a chat message is made exactly for a message item with non-blank text, or an assistant item with audio; blank text shows as `Озвученный ответ` |
| ClientApp.MessageAudio | src/client/src/App.tsx:250-264 | an assistant message carries the audio it is given joined, or none when that is empty; other messages carry none |
| ClientApp.Dispatch | src/client/src/App.tsx:162-211 | every event is appended to the log, and the tool events also to the tool log; `null` changes nothing |
| ClientApp.Handle | src/client/src/App.tsx:162-211 | the page as it runs: the messages see the first render's empty audio list and the stop is the player's `stop`; the logs grow as in `Dispatch` |
| ClientApp.HandleCorrected | src/client/src/App.tsx:162-211 | the corrected page: the messages see the audio received so far and the stop also cancels the chunk being decoded; the logs grow as in `Dispatch` |
| ClientApp.HandleAudio | src/client/src/App.tsx:181-189 | audio with a payload is queued behind what is queued and kept for the answer |
| ClientApp.HandleInterruption | src/client/src/App.tsx:190-195 | an interruption empties the player's queue, stops the playing source and forgets the answer's audio; the chunk being decoded is left as it is |
| ClientApp.InterruptedChunkStillPlays | src/client/src/App.tsx:181-195 | on a fresh page, audio then an interruption: the chunk still starts once it decodes |
| ClientApp.HandleCorrectedInterruption | src/client/src/App.tsx:190-195 | on the corrected page, an interruption leaves nothing to play and forgets the answer's audio |
| ClientApp.HandleAgentEnd | src/client/src/App.tsx:196-200 | the end of an answer forgets its audio and changes nothing else |
| ClientApp.MessagesGrowOnlyOnHistory | src/client/src/App.tsx:201-206 | the chat grows only on `history_added`, by the one message its item makes from the audio the handler sees |
| ClientApp.SpokenAnswerDropped | src/client/src/App.tsx:201-211 | an assistant item without text adds nothing to the chat however much audio arrived; the corrected page shows it as `Озвученный ответ` with that audio |
| ClientApp.ReceiveLogs | src/client/src/App.tsx:173-178 | after any run from any page, the log has gained the events received but `null`, in order, and the tool log exactly their tool events |
| ClientApp.ToolEventsAreToolsAndHandoffs | src/client/src/App.tsx:176 | an event lands in the tool log exactly when it is a tool start, a tool end or a handoff |
| ClientApp.TranscriptShown | src/client/src/App.tsx:213-267 | a user's transcribed speech appears in the chat as that transcript |
| ClientApp.SendText | src/client/src/App.tsx:279-291 | with the socket open, the player's queue is emptied and its source stopped, the answer's audio forgotten and a `text_message` sent, with the chat and both logs unchanged; otherwise nothing happens |

## Left out

- `src/server/index.ts` (environment, HTTP server, TLS, session ids) is not part of this model. Its only role here is choosing the manager, and `Variant` covers that.
- The WebSocket transport is abstract:
  - the upstream's `readyState` is the `upstreamOpen` flag;
  - the browser socket is taken to be open, so every client event is delivered.
- Timers appear only as the order of the messages they cause:
  - the 100 ms delay before a stored tool result is spoken;
  - the 500 ms delay before the greeting;
  - the 100 ms playback poll.
- `Date.now()` and `Math.random()` are parameters:
  - `now` for the throttle;
  - `draw` in [0, 1) for the profile and greeting choice.
- Logging and console output are left out. The log sanitiser and the throttle are modelled as the pure functions they are.
- Numbers are integers:
  - fractional temperatures and `toFixed` rounding of non-integer values are left out;
  - the float normalisation `/32768` of the player is left out;
  - the sample-rate limits of `createBuffer` are left out.
- JSON objects are ordered lists of members with distinct keys. A duplicated key, where `JSON.parse` keeps the last value, is not modelled.
- Function-call ids are map keys compared by value. JavaScript compares object keys by reference; the API sends string ids.
- `Gateway.DataSamples`: array-like objects with a numeric `length` are treated as malformed audio data. Only arrays and strings are read as samples.
- `Gateway.DataSamples`: character data is coerced one character at a time, which is exact for UTF-16 code units below U+10000.
- `Json.StringToNumber`: reads only an optional sign and decimal digits after trimming, and anything else is NaN.
  - JavaScript also reads exponent forms (`"1e3"` is 1000), `0x`/`0o`/`0b` prefixes, fractions such as `"1.0"`, and `"Infinity"`.
  - A sample given as such a string is stored as 0 here. JavaScript stores its value, or, for `"Infinity"`, `writeInt16LE` throws and the browser gets the format error.
  - A `value_celsius` given that way converts as NaN here.
  - Numbers are unbounded here. JavaScript rounds integers above 2^53, and `String` prints values from 1e21 on in exponent form. `Json.ValueToStr` and `Tools.TemperatureText` do not reproduce either.
- `Tools.ExecuteTool`: the error text of a thrown `TypeError` follows V8's wording only approximately.
- `Player.DecodeChunk`: `atob` is taken to be the strict decoder of RFC 4648 section 4. `atob` also tolerates white space and missing padding, which the server never sends.
- `ClientApp.ChunkOf`: a `sampleRate` that is not a number is treated as absent.
- The browser decoder (`decodeAudioData`), buffer sources and `AudioContext` are abstract. Whether a chunk decodes as a file is a parameter, and so is whether playback starts.
- The player's `onended` callback is an event (`SourceEnded`) that may arrive in any state and always clears `playing`. A late callback from a source stopped earlier is therefore covered, as an over-approximation: the model does not tell it apart from the current source's.
- The literal texts sent to the model are not modelled: `getSystemInstructions`, `getToolDefinitions`, and the instruction string of the speak request. Neither are the image-buffer map, `toBuffer` and `generateId`.
- React is left out: rendering, microphone capture and log download. Of the hook closures only the one that changes behaviour is modelled: `ClientApp.Handle` reads the first render's `currentMessageAudio` (see Findings).
- `src/client/vite.config.ts` and all UI components are not part of this model.

Three behaviours of the code worth knowing:
- An upstream socket error only reports the error to the browser. It does not tear the session down.
- Profiles carry no emotion list, and the greeting always asks for emotion `good`.
- The format and connection error texts are the Russian strings the code sends.

## Findings

| source | as written | input that shows it | evidently intended | confidence | as-written member | corrected member |
|---|---|---|---|---|---|---|
| src/client/src/utils/audioPlayer.ts:138-142 | `stop()` empties the queue and stops the current source. The chunk that `processQueue` has already taken off the queue (line 40) is still being decoded (lines 59-80), and it starts once decoding finishes. | `playAudio(A)`, then `stop()` (for example from `audio_interrupted`) before A has decoded: A plays. | A stop also cancels the chunk in flight, so nothing enqueued before the stop is heard. | medium, not executed | Player.StopLetsPendingChunkPlay | Player.StopFlushing |
| src/client/src/App.tsx:201-211 | `handleRealtimeEvent` is memoised with no dependencies (line 211). It therefore keeps calling the `addMessageFromItem` of the first render, whose `currentMessageAudio` is the initial empty list (line 27). So `hasAudio` (line 250) is always false. | Audio events, then `history_added` with an assistant message whose content has no text: no message appears. No message ever carries audio. | The message sees the audio received for the answer: it is shown as `Озвученный ответ` with that audio. | high, not executed | ClientApp.SpokenAnswerDropped | ClientApp.HandleCorrected |
