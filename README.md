# Voice-call bridge to a realtime AI session: capture log model

This project models, in Dafny, the sequential core of the outbound-call sample
that bridges a phone call to a realtime speech AI. The core is the per-call
**capture log** (`audioData`) and what flows in and out of it:

- the inbound relay (`sendAudioToExternalAi`) logs caller audio as `Customer`
  frames and forwards it to the realtime session;
- the realtime event dispatcher (`handleRealtimeMessages`) relays AI audio deltas
  to the call (`receiveAudioForOutbound`), which logs them as `AI` frames, and turns
  "speech started" into a stop-audio envelope (`stopAudio`, the barge-in path);
- every write to the call-side socket goes through `sendMessage`, which writes
  only when the socket is open;
- on `CallDisconnected` the finaliser (`collateBase64Audio`) sorts the log in place
  by timestamp with JavaScript's stable sort and concatenates the audio, and the
  base64 prefix strip of `saveBase64AsAudioFile` gives the text that is saved;
- the correlation token is placed in the media-streaming URL as `?callerId=<uuid>`
  and read back with `split("?callerId=")[1]` when the socket connects.

Files, one module each:

- `wrappers.dfy`: `Option`, standing for JavaScript's `undefined`.
- `js_string.dfy`: `indexOf`, `split` and `join` with their laws: join undoes
  split, no piece holds the separator, and the first piece of `x + sep + y`.
- `capture_log.dfy`: the `Frame` record and the finaliser's functions. The sort is
  an insertion sort. It is proved ordered, a permutation, stable, idempotent, and
  the unique stable sort of its input, so it is what `Array.prototype.sort` returns.
- `open_ai_service.dfy`: the module state of `azureOpenAiService.ts` as the class
  `Bridge` (fields `ws`, `log`, `callerId`, plus a record `aiSent` of messages the
  realtime client accepted), the call-side socket `CallSocket` (its `readyState` and
  a record `sent` of envelopes written to it), and the dispatch table. The methods
  are specified by the functions `EventFrames`, `EventOutput`, `StreamFrames` and
  `StreamOutput`, and the lemmas are stated about those functions.
- `app.dfy`: the URL build and parse, the prefix strip, the collate method, and the
  class `Server` with the `/api/callbacks` handler and the start of the socket
  `connection` handler.

The call-automation SDK's envelope builders (`OutStreamingData.getStreamingDataForOutbound`
and `getStopAudioForOutbound`) are not modelled. They are a parameter,
`OutStreamingCodec`, given to the `Bridge` constructor. The model takes an envelope
to be a `kind` and an optional `audioData.data`. The lemmas that rely on the builder
wrapping each payload as audio data say so through `CarriesPayload`.
Clock readings (`Date.now()`) and the outcome of the realtime client's `send` are
parameters.

## Behaviour worth knowing

- The code keeps no token registry and rejects neither a duplicate nor an unknown
  token. The connection handler reads the token from the URL, and the token may be
  undefined.
- Log entries carry one of two roles, `Customer` for the caller's audio and `AI`
  for the realtime session's.
- `receiveAudioForOutbound` logs the AI frame even when the socket is not open and
  nothing was sent (`OpenAiService.Bridge.ReceiveAudioForOutbound`).
- A failed realtime send loses the audio: the error is swallowed and the frame stays
  logged. Nothing blocks or retries.
- The dispatcher handles one event at a time, in arrival order. Stop-audio gets no
  priority over audio deltas already queued.

## Model

| member | source | states |
|---|---|---|
| `JsString.IndexOfFrom` | callautomation-az-openai-voice-outbound/src/app.ts:52 | the search inside `split`: the result is an occurrence at or after the start, and no earlier position at or after the start holds one; none means no occurrence at all |
| `JsString.Split` | callautomation-az-openai-voice-outbound/src/app.ts:52 | `split` always yields at least one piece |
| `JsString.JoinSplit` | callautomation-az-openai-voice-outbound/src/app.ts:176 | joining the pieces of a split with the separator gives back the original string |
| `JsString.SplitPiecesLackSeparator` | callautomation-az-openai-voice-outbound/src/app.ts:52 | no piece of a split contains the separator |
| `JsString.SplitAtFirst` | callautomation-az-openai-voice-outbound/src/app.ts:176 | if `x` has no separator and the separator cannot overlap itself, `split(x + sep + y)` is `x` followed by the pieces of `y` |
| `JsString.IndexOfNoneIff` | callautomation-az-openai-voice-outbound/src/app.ts:176 | `indexOf` finds nothing exactly when the separator does not occur |
| `JsString.ContainsChar` | callautomation-az-openai-voice-outbound/src/app.ts:52 | a one-character separator occurs exactly when that character is in the string |
| `CaptureLog.SortByTimestamp` | callautomation-az-openai-voice-outbound/src/app.ts:43 | no contract of its own: the stable sort by timestamp; specified by `SortIsSorted`, `SortIsPermutation`, `SortIsStable` and `SortCharacterized` |
| `CaptureLog.ConcatAudio` | callautomation-az-openai-voice-outbound/src/app.ts:46 | no contract of its own: `map(item => item.audio).join('')`; specified by `ConcatAudioLength` |
| `CaptureLog.Collate` | callautomation-az-openai-voice-outbound/src/app.ts:43-46 | no contract of its own: the sort followed by the join; specified by `CollateLength`, `CollateEmpty`, `CollateScenario` and `CollateTieKeepsPushOrder` |
| `CaptureLog.SortIsSorted` | callautomation-az-openai-voice-outbound/src/app.ts:43 | after the sort, timestamps do not decrease |
| `CaptureLog.SortIsPermutation` | callautomation-az-openai-voice-outbound/src/app.ts:43 | the sorted log has the same multiset of frames as the log |
| `CaptureLog.SortIsStable` | callautomation-az-openai-voice-outbound/src/app.ts:43 | for every timestamp, the frames with that timestamp keep their insertion order |
| `CaptureLog.StableSortedUnique` | callautomation-az-openai-voice-outbound/src/app.ts:43 | two sorted logs that list each timestamp's frames in the same order are equal |
| `CaptureLog.SortCharacterized` | callautomation-az-openai-voice-outbound/src/app.ts:43 | a sequence is the sorted log if and only if it is a stable sort of the log by timestamp, so every conforming stable sort gives this result |
| `CaptureLog.SortOfSortedIsIdentity` | callautomation-az-openai-voice-outbound/src/app.ts:43 | sorting a log already ordered by timestamp leaves it unchanged |
| `CaptureLog.SortIdempotent` | callautomation-az-openai-voice-outbound/src/app.ts:43 | sorting the sorted log changes nothing |
| `CaptureLog.ConcatAudioLength` | callautomation-az-openai-voice-outbound/src/app.ts:46 | the joined string's length is the sum of the audio lengths |
| `CaptureLog.CollateLength` | callautomation-az-openai-voice-outbound/src/app.ts:43-46 | the collated string is as long as all logged audio together |
| `CaptureLog.CollateEmpty` | callautomation-az-openai-voice-outbound/src/app.ts:46 | an empty log collates to the empty string |
| `CaptureLog.CollateScenario` | callautomation-az-openai-voice-outbound/src/app.ts:43-46 | caller "AAAA" at 100 and AI "BBBB" at 50 collate to "BBBBAAAA" |
| `CaptureLog.CollateTieKeepsPushOrder` | callautomation-az-openai-voice-outbound/src/app.ts:43 | two frames with the same timestamp are joined in the order they were pushed |
| `OpenAiService.CreateConfigMessage` | callautomation-az-openai-voice-outbound/src/azureOpenAiService.ts:100-119 | a `session.update` carrying the given instructions unchanged, pcm16 audio in both directions, server-side voice activity detection, voice shimmer and whisper-1 transcription |
| `OpenAiService.Classify` | callautomation-az-openai-voice-outbound/src/azureOpenAiService.ts:123-147 | no contract of its own: the `switch (message.type)`; specified by `DispatchTable` |
| `OpenAiService.OutboundFrames` | callautomation-az-openai-voice-outbound/src/azureOpenAiService.ts:178-180 | no contract of its own: the AI frame pushed for an audio-data envelope with a payload; specified through `Bridge.ReceiveAudioForOutbound`, `EventFramesOnlyForAudioDelta` and `AudioDeltaLogsPayload` |
| `OpenAiService.IsOpen` | callautomation-az-openai-voice-outbound/src/azureOpenAiService.ts:188 | no contract of its own: `ws.readyState === WebSocket.OPEN`; used by `Bridge.SendMessage` and `ClosedSocketReceivesNothing` |
| `OpenAiService.DispatchTable` | callautomation-az-openai-voice-outbound/src/azureOpenAiService.ts:123-147 | the dispatcher relays audio if and only if the type is `response.audio.delta`, and stops playback if and only if it is `input_audio_buffer.speech_started` |
| `OpenAiService.EventFramesOnlyForAudioDelta` | callautomation-az-openai-voice-outbound/src/azureOpenAiService.ts:129-131 | only an audio delta adds frames, and those are the outbound frames of its envelope |
| `OpenAiService.AudioDeltaLogsPayload` | callautomation-az-openai-voice-outbound/src/azureOpenAiService.ts:129-131 | with a builder that wraps each payload as audio data, an audio delta logs exactly one AI frame holding the delta, with the given caller id and time |
| `OpenAiService.EventOutputTable` | callautomation-az-openai-voice-outbound/src/azureOpenAiService.ts:132-146 | speech-started writes exactly one stop-audio envelope when the socket is open and nothing otherwise; every other type except audio delta, known or unknown, writes nothing |
| `OpenAiService.ClosedSocketReceivesNothing` | callautomation-az-openai-voice-outbound/src/azureOpenAiService.ts:187-193 | with the socket not open, no stream of events writes anything |
| `OpenAiService.StreamOutputAppend` | callautomation-az-openai-voice-outbound/src/azureOpenAiService.ts:122 | the loop's output for two consecutive stretches of events is the first stretch's output followed by the second's |
| `OpenAiService.BargeInPrecedesLaterAudio` | callautomation-az-openai-voice-outbound/src/azureOpenAiService.ts:122-135 | on an open socket, a speech-started event's stop-audio envelope comes after all earlier output and before all output of later events |
| `OpenAiService.StreamStep` | callautomation-az-openai-voice-outbound/src/azureOpenAiService.ts:122 | a log and a socket record holding what the first `i` events produced, extended by event `i`'s frames and envelopes, hold what the first `i + 1` events produce |
| `OpenAiService.StreamFramesAreAi` | callautomation-az-openai-voice-outbound/src/azureOpenAiService.ts:179 | every frame the realtime loop logs has role AI and carries the module caller id |
| `OpenAiService.StreamRecordsEveryDelta` | callautomation-az-openai-voice-outbound/src/azureOpenAiService.ts:173-180 | when the builder wraps each payload as audio data, the logged AI audio is exactly the received deltas in order, none lost and none duplicated |
| `OpenAiService.Bridge.constructor` | callautomation-az-openai-voice-outbound/src/azureOpenAiService.ts:8-10 | before any initialisation there is no socket, the log is empty and the caller id is undefined |
| `OpenAiService.Bridge.InitWebsocket` | callautomation-az-openai-voice-outbound/src/azureOpenAiService.ts:151-153 | the module socket becomes the given one |
| `OpenAiService.Bridge.InitAudioData` | callautomation-az-openai-voice-outbound/src/azureOpenAiService.ts:155-157 | the log becomes the given list |
| `OpenAiService.Bridge.InitCallerId` | callautomation-az-openai-voice-outbound/src/azureOpenAiService.ts:159-161 | the module caller id becomes the given one |
| `OpenAiService.Bridge.SendAudioToExternalAi` | callautomation-az-openai-voice-outbound/src/azureOpenAiService.ts:60-74 | non-empty audio appends exactly one Customer frame with that audio, caller id and time; then exactly one `input_audio_buffer.append` with the same audio is sent, if the send succeeds; a failed send leaves the frame logged; empty audio changes neither the log nor the sent messages |
| `OpenAiService.Bridge.SendMessage` | callautomation-az-openai-voice-outbound/src/azureOpenAiService.ts:187-193 | the envelope is appended to what the socket received if and only if the socket is open |
| `OpenAiService.Bridge.StopAudio` | callautomation-az-openai-voice-outbound/src/azureOpenAiService.ts:163-172 | exactly one stop-audio envelope goes through `sendMessage`; the log is untouched |
| `OpenAiService.Bridge.ReceiveAudioForOutbound` | callautomation-az-openai-voice-outbound/src/azureOpenAiService.ts:173-185 | the envelope goes through `sendMessage`; an AI frame with the envelope's audio data, the module caller id and the time is appended exactly when the envelope's kind is `audioData` and it carries `audioData.data`; otherwise the lookup throws inside the `try`, or the kind differs, and the log is unchanged |
| `OpenAiService.Bridge.Dispatch` | callautomation-az-openai-voice-outbound/src/azureOpenAiService.ts:123-147 | one event appends its frames to the log and its envelopes to the socket, as the dispatch table prescribes; nothing is sent to the AI |
| `OpenAiService.Bridge.HandleRealtimeMessages` | callautomation-az-openai-voice-outbound/src/azureOpenAiService.ts:121-149 | after a stream of events the log is the old log followed by the stream's frames, and the socket has received the stream's envelopes in event order |
| `App.WebsocketUrl` | callautomation-az-openai-voice-outbound/src/app.ts:92 | no contract of its own: the URL is the base, the query text and the token; specified by `CallerIdRoundTrip` and `UuidRoundTrip` |
| `App.ParseCallerId` | callautomation-az-openai-voice-outbound/src/app.ts:176 | no contract of its own: `url.split("?callerId=")[1]`, undefined when there is no second piece; specified by `CallerIdRoundTrip` and `ParseCallerIdNoneIff` |
| `App.CallerIdRoundTrip` | callautomation-az-openai-voice-outbound/src/app.ts:91-92 | the caller id parsed from `base + "?callerId=" + token` is the token, when neither part contains the query text |
| `App.UuidLacksQuery` | callautomation-az-openai-voice-outbound/src/app.ts:91 | a token made of hex digits and dashes never contains the query text |
| `App.UuidRoundTrip` | callautomation-az-openai-voice-outbound/src/app.ts:91-92 | for a UUID token the round trip needs only a base URL without the query text |
| `App.ParseCallerIdNoneIff` | callautomation-az-openai-voice-outbound/src/app.ts:176 | the parsed caller id is undefined if and only if the URL lacks the query text |
| `App.StripBase64Prefix` | callautomation-az-openai-voice-outbound/src/app.ts:52 | no contract of its own: `split(',')[1] || s`; specified by `StripWithoutComma`, `StripTakesSecondField`, `StripDataUrl` and `StripResultShape` |
| `App.StripWithoutComma` | callautomation-az-openai-voice-outbound/src/app.ts:52 | a string without a comma is returned unchanged |
| `App.StripTakesSecondField` | callautomation-az-openai-voice-outbound/src/app.ts:52 | with a comma, the result is the text between the first and the second comma (or the end), or the whole string when that text is empty |
| `App.StripDataUrl` | callautomation-az-openai-voice-outbound/src/app.ts:52 | `data:<type>;base64,<payload>` is stripped to its payload |
| `App.StripResultShape` | callautomation-az-openai-voice-outbound/src/app.ts:52 | the result is the input itself or a non-empty text without commas |
| `App.CollatedBase64IsNotStripped` | callautomation-az-openai-voice-outbound/src/app.ts:149-150 | when every frame holds base64 text, the strip leaves the collated recording whole |
| `App.EmptyLogSavesEmptyRecording` | callautomation-az-openai-voice-outbound/src/app.ts:147-150 | a disconnect with an empty log saves an empty recording |
| `App.CollateBase64Audio` | callautomation-az-openai-voice-outbound/src/app.ts:38-47 | the shared log is left sorted by timestamp, stably, and the result is the concatenation of its audio |
| `App.Server.HandleCallback` | callautomation-az-openai-voice-outbound/src/app.ts:118-152 | only the first event is read; its ids are stored; only `CallDisconnected` sorts the log and yields the stripped collation for saving; any other event, or an empty body, leaves the log alone and saves nothing |
| `App.Server.constructor` | callautomation-az-openai-voice-outbound/src/app.ts:31-33 | the stored call ids start undefined and the server works on the given bridge |
| `App.Server.OnConnection` | callautomation-az-openai-voice-outbound/src/app.ts:174-180 | on connection, the socket is installed, the log is reset to empty and the caller id is the one parsed from the URL |
| `App.ScenarioUrl` | callautomation-az-openai-voice-outbound/src/app.ts:91-92 | the URL `/media?callerId=3f2a-9b` parses back to the token `3f2a-9b` |
| `App.ConnectAndConverse` | callautomation-az-openai-voice-outbound/src/app.ts:174-180 | a connection on a built URL reads the token back, and caller "AAAA" at 100 then AI "BBBB" at 50 leave exactly those two frames in the log, in that order |
| `App.RecordingScenario` | callautomation-az-openai-voice-outbound/src/app.ts:147-150 | after that exchange a disconnect callback saves "BBBBAAAA": the AI audio comes first by timestamp |

## Left out

- Express routes, static page serving and `res.sendStatus(200)`: web I/O.
- The WebSocket server's setup, its `message` handler and its `close` handler. The `message` handler forwards packets through `processWebsocketMessageAsync`. `mediaStreamingHandler.ts` is not part of this model; `processWebsocketMessageAsync` is taken to call `sendAudioToExternalAi` once per inbound audio packet.
- The call-automation SDK. This covers `createAcsClient`, `createCall`, `getCallConnection`, `getCallMedia` and `hangUpCall` (which is never called). The envelope builders are the `OutStreamingCodec` parameter. Whether the SDK's return value exposes `kind` the way `receiveAudioForOutbound` reads it is outside the model.
- `startConversation` and `startRealtime`: building the realtime client, sending the session configuration, `setImmediate`, and the client's asynchronous `messages()` iterator. They are network and scheduling concerns. The configuration message itself is `CreateConfigMessage`.
- The prompt text: `CreateConfigMessage` takes the instructions as a parameter.
- File writes and base64 decoding with `Buffer.from`. `HandleCallback` returns the text that would be written to the raw dump.
- `uuidv4`, `Date.now()`, environment variables and `console.log`. They become parameters or are dropped. The logging-only dispatcher branches (session id, transcripts, status) do nothing in the model.
- Concurrency between the inbound relay, the realtime loop and the callback. Each method is one atomic step. The relative timing of the unawaited promises is not modelled.
- OpenAiService.Bridge.constructor: in the source `audioData` is undefined until the first connection calls `initAudioData([])`, so a push in `sendAudioToExternalAi` or `receiveAudioForOutbound` would throw (and be swallowed) and nothing would be logged; the model starts with an empty log, so such a push is logged.
- App.Server.HandleCallback: a `CallDisconnected` callback that arrives before any socket has connected finds `audioData` undefined, so `collateBase64Audio` throws on `audioList.slice` and nothing is saved. The model's log is empty in that state instead, so it saves the empty recording (`Some("")`).
- Timestamps are unbounded integers. `Date.now()` values are exact integers in a JavaScript number. Non-numeric timestamps, which would break the sort comparator, are not modelled.
- OpenAiService.Bridge.HandleRealtimeMessages: takes the socket's `readyState` as fixed for the whole stream. A socket closing mid-stream is modelled by calling `Dispatch` per event and changing `readyState` between calls.
- OpenAiService.Bridge.SendMessage: `ws.send`'s own error reporting is not modelled. Neither is the rejected promise when `ws` is undefined: nothing is written and the caller carries on.
