# Voice-chat client core, modelled in Dafny

This project models the client-side voice-chat core of a personal site. The core has three parts:

- **audio helpers** (`src/lib/utils/audio.ts`):
  - a volume-threshold voice activity detector;
  - a microphone recorder that collects chunks;
  - an audio player;
  - the `mm:ss` duration formatter.
- **realtime transport** (`src/lib/utils/realtime.ts`):
  - a WebSocket client with a connection state machine;
  - a FIFO queue for control messages sent while offline;
  - reconnection with exponential backoff;
  - routing of server frames to callbacks;
  - the line handling of a server-sent-events response body.
- **conversation store** (`src/lib/stores/conversation.svelte.ts`): the message list with its by-id updates, the input and audio modes, the recording flags, the clamped settings, the send and streaming actions, and `reset`.

Modules, one per file:

| file | module | models |
|---|---|---|
| `common.dfy` | `Common` | nullable values, resolved/rejected outcomes, the `Math.max(lo, Math.min(hi, x))` clamp, concatenation of binary chunks |
| `vad.dfy` | `VoiceActivity` | `VoiceActivityDetector` |
| `recorder.dfy` | `Capture` | `AudioRecorder` |
| `player.dfy` | `Playback` | `AudioPlayer` |
| `duration.dfy` | `DurationFormat` | `formatDuration`, with JavaScript's truncating `%` and `padStart` |
| `jsstring.dfy` | `JsString` | `String.prototype.trim` (the ECMAScript whitespace set) and `split` |
| `realtime.dfy` | `Realtime` | `RealtimeClient` |
| `sse.dfy` | `ServerSentEvents` | `handleStreamingResponse` |
| `conversation.dfy` | `Conversation` | `createConversationStore` |

Each object that the source updates in place is a `class` with the same fields.

- Its methods state the whole new state.
- What it hands to callbacks, what it sends on the socket, the URLs it opens and the delays it schedules are kept in logs (`events`, `notifications`, `sent`, `socketUrls`, `scheduled`). Each method states exactly what it appends to them.
- Where the source decides something non-trivial, a pure function states the decision:
  - the detector's frame step (`Monitor`);
  - the close handling (`CloseOutcome`);
  - the list updates of the store (`UpdateById`, `RemoveById`, `AppendChunk`).
- The method is proved equal to that function, and the lemmas about the function carry the properties: debouncing, balanced start/end events, the retry budget, and the streamed reply's content.

Outside inputs become parameters:

- **Audio and time:** the loudness level and the clock (`now`, in milliseconds).
- **Permissions and failures:** the outcome of the microphone permission request, whether a socket can be created, whether `play()` rejects, and which chunks decode.
- **Generated values:** the object URL made for a blob, the form encoding of URL parameters, and what `JSON.parse` makes of a stream payload.
- **Store messages:** the id and the timestamp of a new message.

Numbers:

- Levels, thresholds and volumes are `real`.
- Times and durations are integer milliseconds.
- JavaScript truthiness is written out:
  - a timestamp of `0` counts as unset;
  - `""` counts as absent for tokens, conversation ids, payload content and error messages.

## Model

| member | source | states |
|---|---|---|
| Common.ClampReal | src/lib/utils/audio.ts:557-562 | the result lies in [lo, hi], equals x inside the range, and is the nearer bound outside it |
| Common.ClampInt | src/lib/stores/conversation.svelte.ts:189-191 | the integer clamp: the result lies in [lo, hi], equals x inside the range, and is the nearer bound outside it |
| Common.Flatten | src/lib/utils/audio.ts:129 | `new Blob(chunks)`: the blob starts with the first chunk, and no chunk is longer than the blob |
| Common.FlattenSize | src/lib/utils/audio.ts:129 | the blob built from the chunks is exactly as long as the chunks together |
| Common.FlattenAppend | src/lib/utils/audio.ts:129 | concatenating chunk lists concatenates their bytes, so the bytes keep arrival order |
| VoiceActivity.MergeOptions | src/lib/utils/audio.ts:254-266 | each option the caller passes replaces the current one; every other option is kept; passing nothing changes nothing |
| VoiceActivity.Monitor | src/lib/utils/audio.ts:347-399 | one frame: nothing happens unless listening; the volume event comes first and exactly once; speech-start fires iff the detector is idle, loud and `minSpeechDuration` past a set speech timer; the first loud frame only sets the timer; a loud frame short of `minSpeechDuration` keeps the state; a quiet idle frame clears it; speech-end fires once for expired silence plus once for the hard cap; speaking changes only together with an event; a speaking detector always has a set speech timer |
| VoiceActivity.SpeechStartStep | src/lib/utils/audio.ts:355-369 | the idle half of the frame, each branch in full: a loud frame with the timer unset only starts it at `now`; a loud frame short of `minSpeechDuration` keeps the state; a frame below the speech threshold only clears the timer; a confirmation emits one speech-start, sets speaking and clears the silence timer |
| VoiceActivity.SpeechEndStep | src/lib/utils/audio.ts:370-396 | the speaking half: the speech time is measured first; expired silence ends speech; the hard cap then ends it again if the measured time reached `maxDuration` |
| VoiceActivity.StopSession | src/lib/utils/audio.ts:312-324 | stopping stops listening and speaking, and emits a speech-end iff the detector was speaking; the timers are kept |
| VoiceActivity.LoudSpeakingRun | src/lib/utils/audio.ts:370-396 | loud frames while speaking, short of the cap, fire neither start nor end |
| VoiceActivity.PendingSpeechRun | src/lib/utils/audio.ts:355-365 | loud frames with the speech timer at t0 fire exactly one speech-start iff some frame is `minSpeechDuration` past t0, and never a speech-end |
| VoiceActivity.SustainedSpeechStartsOnce | src/lib/utils/audio.ts:355-369 | from idle, sustained loudness fires exactly one speech-start iff a later frame is `minSpeechDuration` past the first, and no speech-end |
| VoiceActivity.QuietIdleRun | src/lib/utils/audio.ts:355-369 | quiet frames never wake an idle detector |
| VoiceActivity.PendingSilenceRun | src/lib/utils/audio.ts:374-387 | quiet frames with the silence timer at t1 fire exactly one speech-end iff some frame is `silenceTimeout` past t1 |
| VoiceActivity.IntermittentDips | src/lib/utils/audio.ts:370-396 | speech whose quiet dips each stay shorter than `silenceTimeout` (a frame at the silence threshold or above resets the silence timer) and which stays short of `maxDuration` fires no speech-end and no speech-start, and the detector is still speaking afterwards |
| VoiceActivity.SustainedSilenceEndsOnce | src/lib/utils/audio.ts:374-387 | sustained silence while speaking fires exactly one speech-end iff a later frame is `silenceTimeout` past the first quiet one, and no speech-start |
| VoiceActivity.RunBalance | src/lib/utils/audio.ts:347-399 | over any run of frames, starts plus initially-speaking ≤ ends plus finally-speaking |
| VoiceActivity.SessionBalanced | src/lib/utils/audio.ts:295-324 | a session (start, frames, stop) never emits more speech-starts than speech-ends |
| VoiceActivity.DoubleSpeechEndInOneTick | src/lib/utils/audio.ts:372-395 | a frame where silence and the cap expire together emits speech-end twice |
| VoiceActivity.ZeroTimestampRestartsDebounce | src/lib/utils/audio.ts:358-359 | a speech timer started at time 0 reads as unset, so the next loud frame restarts it |
| VoiceActivity.VoiceActivityDetector.constructor | src/lib/utils/audio.ts:254-266 | the options are the defaults (0.3, 0.1, 1500, 250, 60000) overridden by the caller's; the detector starts idle |
| VoiceActivity.VoiceActivityDetector.Start | src/lib/utils/audio.ts:295-307 | a refused microphone gives "Microphone access denied: <reason>" and changes nothing; otherwise the session is reset and the first frame runs as `Monitor` from the fresh state |
| VoiceActivity.VoiceActivityDetector.Stop | src/lib/utils/audio.ts:312-324 | the new state and events are those of `StopSession` |
| VoiceActivity.VoiceActivityDetector.UpdateOptions | src/lib/utils/audio.ts:329-331 | only the options change, merged with the update |
| VoiceActivity.VoiceActivityDetector.Tick | src/lib/utils/audio.ts:347-399 | the new fields and the appended events are those of `Monitor`, and the consistency invariant is kept |
| VoiceActivity.VoiceActivityDetector.WatchForSpeechStart | src/lib/utils/audio.ts:355-369 | the fields and events follow `SpeechStartStep` |
| VoiceActivity.VoiceActivityDetector.WatchForSpeechEnd | src/lib/utils/audio.ts:370-396 | the fields and events follow `SpeechEndStep` |
| VoiceActivity.VoiceActivityDetector.Dispose | src/lib/utils/audio.ts:418-429 | stops as `Stop` does and releases the microphone |
| Capture.NonEmpty | src/lib/utils/audio.ts:101-106 | the kept chunks are all non-empty and no more than those that arrived |
| Capture.NonEmptyMembers | src/lib/utils/audio.ts:101-106 | a chunk is kept iff it arrived and is non-empty |
| Capture.NonEmptyAppend | src/lib/utils/audio.ts:101-106 | keeping works event by event, in arrival order |
| Capture.AudioRecorder.constructor | src/lib/utils/audio.ts:34-41 | a new recorder has no stream, no recorder object, no chunks and nothing delivered |
| Capture.AudioRecorder.IsRecording | src/lib/utils/audio.ts:190-192 | true iff there is a recorder object and it is recording |
| Capture.AudioRecorder.Start | src/lib/utils/audio.ts:84-113 | a refused microphone gives "Microphone access denied: <reason>" and changes nothing; otherwise the chunks are emptied, the start time is `now` and a recorder is recording |
| Capture.AudioRecorder.DataAvailable | src/lib/utils/audio.ts:101-106 | a non-empty chunk is appended to the chunks and forwarded; an empty one is ignored |
| Capture.AudioRecorder.Stop | src/lib/utils/audio.ts:118-136 | rejected with "Recorder not active" unless a recorder is recording; otherwise the recorder goes inactive and the duration `now − startTime` waits for the stop event |
| Capture.AudioRecorder.Stopped | src/lib/utils/audio.ts:127-132 | a waiting `stop()` resolves with all kept chunks concatenated, the measured duration and the blob's URL |
| Capture.AudioRecorder.Cancel | src/lib/utils/audio.ts:141-147 | a recording recorder goes inactive; the chunks are emptied |
| Capture.AudioRecorder.Dispose | src/lib/utils/audio.ts:197-209 | cancels and drops the recorder and the microphone |
| Capture.KeepOne | src/lib/utils/audio.ts:102-105 | one arriving chunk is kept iff it is non-empty |
| Capture.ThreeChunks | src/lib/utils/audio.ts:129 | the blob of three chunks is their bytes, in order |
| Playback.SourceUrl | src/lib/utils/audio.ts:466-475 | a string source plays from itself; a blob or buffer plays from its object URL |
| Playback.Released | src/lib/utils/audio.ts:585-593 | dropping an element releases its URL iff it is a `blob:` URL |
| Playback.Decoded | src/lib/utils/audio.ts:503-527 | only chunks the decoder accepts are played |
| Playback.DecodedSnoc | src/lib/utils/audio.ts:508-524 | chunks are played one after another, in order |
| Playback.DecodedMembers | src/lib/utils/audio.ts:508-524 | a chunk is played iff it is given and decodes |
| Playback.AudioPlayer.constructor | src/lib/utils/audio.ts:452-457 | the volume defaults to 1 |
| Playback.AudioPlayer.IsPlaying | src/lib/utils/audio.ts:581-583 | true iff there is an element and it is not paused |
| Playback.AudioPlayer.Play | src/lib/utils/audio.ts:462-497 | the previous element is stopped and its object URL released first; the new element plays at the current volume; a rejected `play()` is reported and releases the new element |
| Playback.AudioPlayer.Stop | src/lib/utils/audio.ts:546-552 | no element afterwards; its object URL is released |
| Playback.AudioPlayer.Cleanup | src/lib/utils/audio.ts:585-593 | no element afterwards; its object URL is released |
| Playback.AudioPlayer.OnEnded | src/lib/utils/audio.ts:482-485 | reports the end, then drops the element |
| Playback.PlaybackScenario | src/lib/utils/audio.ts:462-497 | a blob clip played to its end reports the end and releases its object URL; a URL source whose `play()` is refused reports the failure, releases nothing and leaves the player not playing |
| Playback.AudioPlayer.OnMediaError | src/lib/utils/audio.ts:486-489 | reports "Audio playback failed", then drops the element |
| Playback.AudioPlayer.Pause | src/lib/utils/audio.ts:532-534 | pauses the current element, if any |
| Playback.AudioPlayer.Resume | src/lib/utils/audio.ts:539-541 | resumes the current element, if any |
| Playback.AudioPlayer.SetVolume | src/lib/utils/audio.ts:557-562 | the volume becomes the level clamped to [0, 1], and the current element takes it |
| Playback.AudioPlayer.PlayChunks | src/lib/utils/audio.ts:503-527 | the played chunks are the decodable ones in order, and the end is reported exactly once |
| Playback.AudioPlayer.Dispose | src/lib/utils/audio.ts:598-604 | stops and closes the audio context |
| DurationFormat.NatToString | src/lib/utils/audio.ts:668 | the decimal form is non-empty, all digits, and one digit iff n < 10 |
| DurationFormat.PadStart2 | src/lib/utils/audio.ts:668 | `padStart(2, '0')`: at least two characters; a one-character string gets a leading zero |
| DurationFormat.JsRemainder | src/lib/utils/audio.ts:667 | JavaScript `%`: for a ≥ 0 it is the remainder in [0, b); for a < 0 it is the negated remainder of −a, in (−b, 0] |
| DurationFormat.FormatDuration | src/lib/utils/audio.ts:664-669 | at least four characters, with a colon after a non-empty minutes field and before a seconds field of at least two characters (the field values are in `FormatDurationFields`) |
| DurationFormat.NatToStringRoundTrip | src/lib/utils/audio.ts:668 | the decimal form parses back to the number |
| DurationFormat.LeadingZero | src/lib/utils/audio.ts:668 | a leading `0` does not change the parsed value |
| DurationFormat.SecondsField | src/lib/utils/audio.ts:667-668 | a seconds value below 60 is written as exactly two digits that parse back to it |
| DurationFormat.FormatDurationFields | src/lib/utils/audio.ts:664-669 | for ms ≥ 0 the result is `minutes:ss`: the minutes field is the decimal text of ⌊⌊ms/1000⌋/60⌋ and parses to ⌊⌊ms/1000⌋/60⌋ and the two-digit seconds field parses to ⌊ms/1000⌋ mod 60 < 60 |
| DurationFormat.NegativeDuration | src/lib/utils/audio.ts:664-669 | −1500 ms formats as "-1:-2" |
| JsString.Trim | src/lib/stores/conversation.svelte.ts:195 | the result is a slice of the input with only whitespace outside it; it neither starts nor ends with whitespace; it is empty iff the input is all whitespace |
| JsString.TrimIdempotent | src/lib/stores/conversation.svelte.ts:195-197 | trimming twice is trimming once |
| JsString.Split | src/lib/utils/realtime.ts:449 | at least one piece, none containing the separator |
| JsString.JoinSplit | src/lib/utils/realtime.ts:449 | joining the pieces with the separator gives back the chunk |
| JsString.SplitWithoutSeparator | src/lib/utils/realtime.ts:449 | a chunk without a line break is one line |
| JsString.SplitAround | src/lib/utils/realtime.ts:449 | a separator right after a piece without one ends that piece, and splitting goes on after it |
| ServerSentEvents.Piece | src/lib/utils/realtime.ts:455-466 | a payload whose parse throws contributes itself; a parsed value contributes its content iff that content is truthy (non-empty) |
| ServerSentEvents.LinePieces | src/lib/utils/realtime.ts:450-467 | each line of a chunk contributes at most one piece, and no lines contribute nothing |
| ServerSentEvents.ChunkPieces | src/lib/utils/realtime.ts:445-467 | a chunk contributes at most one piece per line it splits into |
| ServerSentEvents.StreamPieces | src/lib/utils/realtime.ts:440-469 | an empty body contributes nothing, and a one-chunk body exactly that chunk's pieces |
| ServerSentEvents.NonDataLineIgnored | src/lib/utils/realtime.ts:451 | a line not starting with `data: ` contributes nothing, wherever it is |
| ServerSentEvents.DoneEndsChunk | src/lib/utils/realtime.ts:452-455 | `data: [DONE]` ends its chunk: the lines after it contribute nothing |
| ServerSentEvents.StreamPiecesAppend | src/lib/utils/realtime.ts:442-470 | the body's pieces are its chunks' pieces in order, so `[DONE]` does not stop later chunks |
| ServerSentEvents.StreamPiecesSnoc | src/lib/utils/realtime.ts:442-470 | reading one more chunk appends that chunk's pieces |
| Common.ConcatAppend | src/lib/utils/realtime.ts:459-464 | the text of the pieces is the text of their parts, in order |
| ServerSentEvents.SingleDataLine | src/lib/utils/realtime.ts:449-466 | a one-line chunk `data: p` contributes exactly the piece of p |
| ServerSentEvents.NoDataInChunk | src/lib/utils/realtime.ts:449-451 | a one-line chunk without the prefix contributes nothing |
| ServerSentEvents.LineCutAcrossChunks | src/lib/utils/realtime.ts:445-451 | a data line split across two reads loses its second half |
| ServerSentEvents.ReadChunk | src/lib/utils/realtime.ts:449-469 | the `onChunk` arguments of one chunk are its pieces, and the text it adds is their concatenation |
| ServerSentEvents.HandleStreamingResponse | src/lib/utils/realtime.ts:429-479 | no body gives "No response body" and no callbacks; otherwise the `onChunk` arguments are the body's pieces in order, and the full text is their concatenation |
| Realtime.Truthy | src/lib/utils/realtime.ts:164 | `x \|\| undefined`: absent iff the string is empty |
| Realtime.Route | src/lib/utils/realtime.ts:236-265 | at most one callback per frame: binary goes to audio; `transcript` goes to the transcript callback with text `""` and isFinal false by default; `audio_chunk` goes to audio only with data; `error` goes to the error callback with the message or "Unknown server error", never empty; other types go to `onMessage`; an unparsable frame gives nothing |
| Realtime.Notify | src/lib/utils/realtime.ts:310-315 | `onConnectionChange` fires iff the state changes |
| Realtime.Backoff | src/lib/utils/realtime.ts:293 | the delay before the first retry is the base delay, and for a non-negative base no delay is shorter than the base (the doubling itself is `BackoffDoubles`) |
| Realtime.BackoffDoubles | src/lib/utils/realtime.ts:294-295 | the first delay is the base delay, and each further one is twice the one before |
| Realtime.BackoffScenario | src/lib/utils/realtime.ts:267-301 | with the default options, three abnormal closes each followed by the reconnect timer schedule retries after 1000, 2000 and 4000 ms, and leave the client reconnecting with three attempts counted |
| Realtime.Query | src/lib/utils/realtime.ts:103-111 | the query is empty iff there is neither token nor conversation id; with a token it is `token=` and the encoded token, followed by `&conversationId=` and the encoded id when there is one; with only an id it is `conversationId=` and the encoded id |
| Realtime.QueryParams | src/lib/utils/realtime.ts:103-111 | cutting a non-empty query at `&` gives exactly the parameters present, token first, when the encoding never produces `&` |
| Realtime.SocketUrl | src/lib/utils/realtime.ts:102-113 | the URL extends the endpoint; it is unchanged iff there are no parameters; otherwise `?`, or `&` when the endpoint already has `?`, then the query |
| Realtime.SocketUrlSingleQuery | src/lib/utils/realtime.ts:102-113 | an endpoint without `?` gets exactly one `?`, right after the endpoint, when there are parameters |
| Realtime.CloseOutcome | src/lib/utils/realtime.ts:267-297 | code 1000 is a clean close; a retry happens iff the code is not 1000, auto-reconnect is on and attempts remain, with delay base × 2^attempts; otherwise the client gives up with "Connection closed: <reason or Unknown reason>" |
| Realtime.AbnormalCloses | src/lib/utils/realtime.ts:276-297 | one decision per close |
| Realtime.RetryBudget | src/lib/utils/realtime.ts:276-297 | with auto-reconnect on and some attempts used, each of the remaining abnormal closes retries after `Backoff` of its attempt number, i.e. doubling delays, and the next close gives up |
| Realtime.SpentBudgetStaysSpent | src/lib/utils/realtime.ts:276-287 | once attempts are spent, every further abnormal close gives up at once |
| Realtime.Frames | src/lib/utils/realtime.ts:227-234 | the flushed frames are the queued messages, one for one, in order |
| Realtime.RealtimeClient.constructor | src/lib/utils/realtime.ts:72-87 | defaults: auto-reconnect on, 5 attempts, 1000 ms base delay, empty token; starts disconnected with an empty queue |
| Realtime.RealtimeClient.IsConnected | src/lib/utils/realtime.ts:209-211 | true iff the state is connected |
| Realtime.RealtimeClient.SetState | src/lib/utils/realtime.ts:310-315 | the state becomes s, notified only on change |
| Realtime.RealtimeClient.Connect | src/lib/utils/realtime.ts:92-143 | a no-op while connecting or connected; otherwise connecting, and a socket opened on `SocketUrl`; a socket that cannot be created leaves it disconnected |
| Realtime.RealtimeClient.Send | src/lib/utils/realtime.ts:213-225 | when connected the message is sent; when not, it is appended to the queue and nothing else changes |
| Realtime.RealtimeClient.OnOpen | src/lib/utils/realtime.ts:118-123 | connected, attempts reset to 0, the whole queue sent in FIFO order, and the queue empty |
| Realtime.RealtimeClient.Flush | src/lib/utils/realtime.ts:227-234 | the queue ends empty and its messages are sent one by one, oldest first |
| Realtime.RealtimeClient.OnMessage | src/lib/utils/realtime.ts:125-127 | the callbacks that fire are exactly `Route` of the frame |
| Realtime.RealtimeClient.OnSocketError | src/lib/utils/realtime.ts:129-133 | reports "WebSocket error" |
| Realtime.RealtimeClient.OnClose | src/lib/utils/realtime.ts:267-301 | the socket is dropped and `CloseOutcome` decides the result: disconnected; or reconnecting with the delay scheduled and attempts + 1; or disconnected and exactly one error |
| Realtime.RealtimeClient.ReconnectTimerFires | src/lib/utils/realtime.ts:296-300 | the timer is spent and `connect()` runs |
| Realtime.RealtimeClient.SendText | src/lib/utils/realtime.ts:160-167 | a text message with the conversation id, if set, is sent or queued as `Send` does |
| Realtime.RealtimeClient.SendAudioEnd | src/lib/utils/realtime.ts:184-190 | an `audio_end` message is sent or queued as `Send` does |
| Realtime.RealtimeClient.SendAudioChunk | src/lib/utils/realtime.ts:172-179 | audio is sent only while connected, and never queued |
| Realtime.RealtimeClient.SetConversationId | src/lib/utils/realtime.ts:195-197 | the conversation id is replaced |
| Realtime.RealtimeClient.Disconnect | src/lib/utils/realtime.ts:148-155 | the timer is cancelled, the socket closed with 1000 "Client disconnect", and the client disconnected; the queue and attempts are kept |
| Realtime.RealtimeClient.Dispose | src/lib/utils/realtime.ts:320-323 | disconnects and empties the queue |
| Conversation.ResolveSettings | src/lib/stores/conversation.svelte.ts:34-47 | each setting is the caller's or the default (text, ptt, 0.5, 1500, 60000) |
| Conversation.NewMessage | src/lib/stores/conversation.svelte.ts:81-98 | the new message carries the given id, role, content and time; its type defaults to text and its status to sent |
| Conversation.Apply | src/lib/stores/conversation.svelte.ts:101 | `{ ...msg, ...updates }`: each field the update gives replaces the message's, every other field is kept, and an empty update changes nothing |
| Conversation.UpdateById | src/lib/stores/conversation.svelte.ts:100-102 | same length; every message with the id is updated; every other message is identical |
| Conversation.RemoveById | src/lib/stores/conversation.svelte.ts:104-106 | a message stays iff its id differs; no message with the id remains |
| Conversation.RemoveByIdAppend | src/lib/stores/conversation.svelte.ts:104-106 | removal works piecewise, so the rest keep their order |
| Conversation.IndexOfId | src/lib/stores/conversation.svelte.ts:241 | the index of the first message with the id, or the length when there is none |
| Conversation.FindById | src/lib/stores/conversation.svelte.ts:241 | none iff no message has the id; otherwise the first message that has it |
| Conversation.AppendKeepsUnique | src/lib/stores/conversation.svelte.ts:81-98 | adding a message with an unused id keeps ids unique |
| Conversation.UpdateKeepsUnique | src/lib/stores/conversation.svelte.ts:100-102 | an update that does not touch ids keeps them unique |
| Conversation.RemoveKeepsUnique | src/lib/stores/conversation.svelte.ts:104-106 | removal keeps ids unique |
| Conversation.AppendChunk | src/lib/stores/conversation.svelte.ts:240-245 | an absent id changes nothing; otherwise every message with the id (the first and any duplicates) gets the first such message's content followed by the chunk, and messages with other ids are untouched |
| Conversation.AppendChunksToLast | src/lib/stores/conversation.svelte.ts:240-245 | the last message, whose id nothing earlier has, accumulates the chunks in order, and nothing else changes |
| Conversation.AppendChunkToLast | src/lib/stores/conversation.svelte.ts:240-245 | one chunk appended to such a last message extends only its content |
| Conversation.IndexPastPrefix | src/lib/stores/conversation.svelte.ts:241 | the appended message is the first one with its id |
| Conversation.StreamLifecycle | src/lib/stores/conversation.svelte.ts:232-250 | start, chunks, complete: the reply is the last message, an assistant text whose content is the chunks in order and whose status is sent; earlier messages are untouched |
| Conversation.StreamScenario | src/lib/stores/conversation.svelte.ts:232-250 | through the store with default settings: a reply started at time 5 and streamed as "Hel" then "lo" is the assistant text "Hello" with status sent |
| Conversation.CompleteLast | src/lib/stores/conversation.svelte.ts:248-250 | completing the last message, whose id no earlier message has, marks only it sent |
| Conversation.TextToSend | src/lib/stores/conversation.svelte.ts:194-196 | nothing iff the input is all whitespace or sending is not possible; otherwise the trimmed, non-empty input |
| Conversation.AssistantKind | src/lib/stores/conversation.svelte.ts:224 | audio iff a non-empty audio URL is given |
| Conversation.ConversationStore.constructor | src/lib/stores/conversation.svelte.ts:45-65 | the initial state from the resolved settings; disconnected |
| Conversation.ConversationStore.CanSend | src/lib/stores/conversation.svelte.ts:68 | sending is possible iff connected, not recording and not processing; so never while disconnected |
| Conversation.ConversationStore.HasMessages | src/lib/stores/conversation.svelte.ts:69 | true iff there is a last message |
| Conversation.ConversationStore.LastMessage | src/lib/stores/conversation.svelte.ts:70 | none iff there are no messages; otherwise the last one |
| Conversation.ConversationStore.IsAudioMode | src/lib/stores/conversation.svelte.ts:71 | true iff the input mode is not text |
| Conversation.ConversationStore.IsPttMode | src/lib/stores/conversation.svelte.ts:72 | true iff the VAD mode is off; the audio mode alone decides it, whatever the input mode |
| Conversation.ConversationStore.IsVadMode | src/lib/stores/conversation.svelte.ts:73 | true iff the audio mode is not push-to-talk |
| Conversation.ConversationStore.AddMessage | src/lib/stores/conversation.svelte.ts:81-98 | the message is `NewMessage`, appended at the end; it becomes the last message |
| Conversation.ConversationStore.UpdateMessage | src/lib/stores/conversation.svelte.ts:100-102 | the messages become `UpdateById` of the old ones |
| Conversation.ConversationStore.RemoveMessage | src/lib/stores/conversation.svelte.ts:104-106 | the messages become `RemoveById` of the old ones |
| Conversation.ConversationStore.ClearMessages | src/lib/stores/conversation.svelte.ts:108-110 | no messages afterwards |
| Conversation.ConversationStore.SetInputMode | src/lib/stores/conversation.svelte.ts:113-119 | the mode is set; recording continues iff it was on and the mode is audio |
| Conversation.ConversationStore.ToggleInputMode | src/lib/stores/conversation.svelte.ts:121-123 | the mode flips; leaving audio stops a recording |
| Conversation.ConversationStore.SetAudioMode | src/lib/stores/conversation.svelte.ts:125-131 | the audio mode is set and no recording is active |
| Conversation.ConversationStore.ToggleAudioMode | src/lib/stores/conversation.svelte.ts:133-135 | the audio mode flips and no recording is active |
| Conversation.ConversationStore.StartRecording | src/lib/stores/conversation.svelte.ts:138-143 | a no-op while recording; otherwise recording, duration 0, error cleared |
| Conversation.ConversationStore.StopRecording | src/lib/stores/conversation.svelte.ts:145-147 | not recording afterwards |
| Conversation.ConversationStore.SetAudioLevel | src/lib/stores/conversation.svelte.ts:149-151 | the level is clamped to [0, 1] |
| Conversation.ConversationStore.SetRecordingDuration | src/lib/stores/conversation.svelte.ts:153-155 | sets the duration |
| Conversation.ConversationStore.SetCurrentTranscript | src/lib/stores/conversation.svelte.ts:157-159 | sets the transcript |
| Conversation.ConversationStore.SetProcessing | src/lib/stores/conversation.svelte.ts:162-164 | sets the processing flag |
| Conversation.ConversationStore.SetSpeaking | src/lib/stores/conversation.svelte.ts:166-168 | sets the speaking flag |
| Conversation.ConversationStore.SetConnectionState | src/lib/stores/conversation.svelte.ts:171-173 | sets the connection state |
| Conversation.ConversationStore.SetError | src/lib/stores/conversation.svelte.ts:176-178 | sets the error |
| Conversation.ConversationStore.ClearError | src/lib/stores/conversation.svelte.ts:180-182 | clears the error |
| Conversation.ConversationStore.SetVadSensitivity | src/lib/stores/conversation.svelte.ts:185-187 | the sensitivity is clamped to [0, 1] |
| Conversation.ConversationStore.SetVadSilenceTimeout | src/lib/stores/conversation.svelte.ts:189-191 | the silence timeout is clamped to [500, 5000] ms |
| Conversation.ConversationStore.SendTextMessage | src/lib/stores/conversation.svelte.ts:194-203 | null iff the input is blank or `canSend` fails, with the messages unchanged; otherwise exactly one user/text/sending message with the trimmed input is appended |
| Conversation.ConversationStore.SendAudioMessage | src/lib/stores/conversation.svelte.ts:206-217 | null iff `canSend` fails; otherwise exactly one user/audio/sending message with the URL, the transcript and the duration is appended |
| Conversation.ConversationStore.AddAssistantMessage | src/lib/stores/conversation.svelte.ts:220-229 | an assistant message with status sent, audio iff a non-empty URL is given, is appended |
| Conversation.ConversationStore.StartAssistantStream | src/lib/stores/conversation.svelte.ts:232-237 | an empty assistant text message with status streaming is appended |
| Conversation.ConversationStore.AppendToStream | src/lib/stores/conversation.svelte.ts:240-245 | the messages become `AppendChunk` of the old ones |
| Conversation.ConversationStore.CompleteStream | src/lib/stores/conversation.svelte.ts:248-250 | every message with the id gets status sent, whatever its status was |
| Conversation.ConversationStore.Reset | src/lib/stores/conversation.svelte.ts:253-264 | messages empty, both modes back to the settings defaults, flags and error cleared, level, duration and transcript zeroed; the connection state and the VAD settings are kept |

## Where the code and the design description differ

The model follows the code in each of these cases:

- **Message status.** The description says a status only moves forward and ids are immutable. `updateMessage` accepts any update, including a new id or an earlier status. `completeStream` sets `sent` even on a message in `error` (`Conversation.ConversationStore.CompleteStream`).
- **Stopping the detector.** The description says the VAD session state resets whenever listening stops. `stop()` clears only the listening and speaking flags; the timers and the speech time are kept until the next `start()` (`VoiceActivity.StopSession`).
- **Restarting the detector.** `start()` while speaking clears the speaking flag and does not fire speech-end.
- **The hard cap.** The cap on speech length is checked with the time measured before the silence branch. So one frame can fire speech-end twice (`VoiceActivity.DoubleSpeechEndInOneTick`).
- **Reconnect timers.** The description says a pending reconnect is cleared whenever a new connect starts. `connect()` does not clear it. Only `disconnect()` and the next `scheduleReconnect` do.
- **Reset.** The description says `reset` restores the construction-time defaults. The code keeps the connection state and both VAD settings.
- **Unclamped settings.** VAD sensitivity and silence timeout taken from the configuration are not clamped; only the setters clamp.
- **Attempts after giving up.** Neither `disconnect()` nor giving up resets the attempt counter. After the attempts are spent, a later connection that drops before opening gives up at once (`Realtime.SpentBudgetStaysSpent`).

## Left out

- Devices and media:
  - `getUserMedia`, `MediaRecorder` encoding, `AudioContext`/`AnalyserNode` and the RMS level computation (`getAudioLevel`) are left out. The level is an input and the microphone outcome a parameter, because these are browser devices and floating-point signal processing.
  - The `requestAnimationFrame` loops are not modelled: each `Tick` is one frame. A second `start()` while listening would run a second loop in the browser; the model cannot show that.
- The player:
  - The `onplay`/`onpause` relays and the `currentTime`/`duration` getters are left out. They forward the media element's own state.
  - `Playback.AudioPlayer.constructor`: a volume outside [0, 1] from the options is not rejected. The browser would reject it when it is applied to the element, and that is the browser's behaviour, not the player's.
- Events from stale objects are not modelled: a replaced socket, recorder or element that still fires events. Event methods require the current object.
- Browser and runtime services:
  - The form encoding of `URLSearchParams` is a parameter (`encode`) of the client.
  - `JSON.parse` is left out: `Incoming` and `Payload` give what a parse yields.
  - `TextDecoder` is left out, and so are `reader.read` failures and callbacks that throw while the stream is read. Chunks arrive already decoded.
- `ws.send` throwing and the promises `connect()` returns are not modelled. The socket's own errors and closes are what the model has.
- Out of scope:
  - The HTTP fallback client is not part of this model.
  - The `create*` and permission helpers at the end of `audio.ts` are not part of this model.
  - `generateId` and `Date` are parameters: the caller gives each new message its id and timestamp.
- JavaScript number details:
  - Non-integer millisecond values and `NaN` are not modelled.
  - A property passed as an explicit `undefined` is treated as absent. In JavaScript's object spread it would override a default.
- `Realtime.AbnormalCloses` models reconnection attempts that all fail before opening. An open in between resets the counter, as `Realtime.RealtimeClient.OnOpen` states.
