# Gemini live-session client core in Dafny

A model of the sequential cores of `script.js`, a single-file browser client
that streams microphone audio and periodic camera or screen snapshots to a
conversational audio service over a WebSocket and plays the streamed audio
reply back. Browser callbacks become explicit inputs, the sink clock is a
`real` parameter, and the socket is an abstract state plus an outbox of the
messages written to it.

| file | module | what it models |
|---|---|---|
| `wrappers.dfy` | `Wrappers` | `Option` and `Result` |
| `pcm.dfy` | `Pcm` | the worklet's `floor(x * 32768)` quantiser with its clamp, the little-endian `Int16Array` byte layout, and playback's `getInt16(2i, true) / 32768` decoding |
| `capture.dfy` | `Capture` | the capture worklet's 2048-sample accumulator (as a function and as the array-and-index loop it is written as), and `AudioRecorder`'s recording gate, `stop` and `toggleMic` |
| `playback.dfy` | `Playback` | `AudioStreamer`: the FIFO queue, `isPlaying`, the `scheduledTime` cursor, `onended` as an event, and `stop` |
| `events.dfy` | `Events` | `EventEmitter`'s per-name listener lists |
| `settings.dfy` | `Settings` | `getConfig`: defaults, the spoken-language sentence and the fixed safety settings |
| `protocol.dfy` | `Protocol` | `GeminiWebsocketClient`: the open/closed gate, setup-first on open, outbound media framing, and inbound dispatch into ordered events |
| `snapshot.dfy` | `Snapshot` | the `isInitialized` gating of `CameraManager` and `ScreenManager` |
| `session.dfy` | `Session` | `GeminiAgent`, its single media-interval slot, its wiring of client events to playback and of captured frames to the client, and the live-tab click handlers with the camera/screen flags, as one event-driven state machine with an invariant |

The initial turn the agent sends after connecting is the one-character user
text `"."` (script.js:679-684). `initializeMedia` (script.js:693-713)
creates the audio context, an initialized playback streamer and the
visualizer, and constructs the recorder and both snapshot managers; it starts
no device: the microphone is started afterwards by the tab handler, and the
camera and screen only on a button click.

## Model

| member | source | states |
|---|---|---|
| Pcm.Quantize | script.js:89 | every stored sample fits in 16 bits: inputs at or above 1 give 32767, inputs below -1 give -32768, and in between the sample is the floor of `x * 32768` |
| Pcm.QuantizeError | script.js:89 | for `x` in [-1, 1), quantising and dividing back by 32768 gives a value no greater than `x` and less than one step (1/32768) below it |
| Pcm.Signed16 | script.js:290 | the value read from a byte pair is the unsigned little-endian value or that value minus 65536 (two's complement) |
| Pcm.EncodeLE | script.js:89 | the posted buffer holds two bytes per sample, low byte first |
| Pcm.DecodeSamples | script.js:287-291 | a payload of `n` bytes decodes to `n / 2` samples (an odd trailing byte is ignored); sample `i` is the signed value of bytes `2i`, `2i+1` over 32768 and lies in [-1, 1) |
| Pcm.DecodeEncode | script.js:287-291 | decoding the bytes of encoded samples returns exactly those samples |
| Pcm.EncodeDecode | script.js:287-291 | encoding the samples decoded from an even-length payload returns exactly that payload |
| Pcm.CaptureToPlayback | script.js:89 | a block captured, laid out as bytes and decoded for playback comes back sample by sample, at most one step low |
| Capture.FeedConserves | script.js:89 | every posted frame holds exactly 2048 samples, and the posted frames followed by the retained prefix are the old prefix followed by the new (quantised) samples: nothing is lost, duplicated or reordered |
| Capture.FeedContents | script.js:89 | feeding `n` samples at write index `w` posts `(w + n) div 2048` frames and leaves the index at `(w + n) mod 2048`; frame `k` is exactly samples `2048k` to `2048(k+1)` of the old prefix plus the new samples, and the retained prefix is what follows the last frame |
| Capture.FeedSplit | script.js:89 | feeding a stream split into blocks anywhere posts the same frames and keeps the same prefix as feeding it in one block |
| Capture.FiveThousandSamples | script.js:89 | 5000 samples from an empty buffer post two frames (4096 samples) and keep 904 |
| Capture.ProcessChunk | script.js:89 | the array-and-index loop quantises each sample and posts the same frames, leaving the same buffer prefix, as the accumulator `Feed` on the quantised block; so it posts `(w + n) div 2048` full frames that, followed by the prefix, are the old prefix plus the quantised samples |
| Capture.Start | script.js:226-254 | a granted microphone opens the recording gate with an enabled track and an empty buffer; a denied one rejects |
| Capture.Stop | script.js:255-260 | afterwards the gate is closed, any partial buffer is gone, the track is kept, and stopping an idle recorder changes nothing |
| Capture.ToggleMic | script.js:261-268 | with a stream, the track's enabled state flips and the new state is returned; without one, `false` is returned and nothing changes |
| Capture.OnBlock | script.js:246-250 | frames are delivered only while recording, and the delivered frames plus the new prefix are the old prefix plus the quantised block |
| Capture.StopIdempotent | script.js:255-260 | stopping twice is stopping once |
| Capture.ToggleTwice | script.js:261-268 | muting then unmuting restores the recorder |
| Capture.RestartDropsPartialBuffer | script.js:226-260 | after a stop and a restart, frames consist only of samples captured after the restart |
| Playback.Initialize | script.js:281-284 | the streamer starts accepting chunks with its queue and cursor unchanged |
| Playback.ScheduleNext | script.js:295-315 | an empty queue only clears `isPlaying`; otherwise the head segment is dequeued (FIFO) and started at `max(cursor, now)`, which is at least both, and the cursor moves to start plus the segment's duration, so it never decreases; a zero-length head throws after it was dequeued |
| Playback.StreamAudioAsWritten | script.js:285-294 | an uninitialised streamer or a non-`Uint8Array` chunk changes nothing; otherwise exactly one decoded segment is appended to the queue; on a valid streamer, the step throws exactly when the chunk is shorter than two bytes and nothing is playing |
| Playback.StreamAudio | script.js:285-294 | as above with short chunks dropped: one segment is appended, started at `max(cursor, now)` when idle and only queued while playing, and the scheduler invariant is kept, so the chain never stalls |
| Playback.Stop | script.js:316-319 | the queue is empty and `isPlaying` clear; the cursor and sources already started are untouched |
| Playback.Ended | script.js:314 | a finished source resumes the chain: segments leave the queue in order and the invariant is kept |
| Playback.DrainBackToBack | script.js:311-314 | with a stationary clock, queued segments start in arrival order, each exactly where the previous one ends |
| Playback.EndedStartsAtCursorOrLater | script.js:297-314 | with a moving clock, a segment scheduled from `onended` starts at the cursor when the end is reported on time and at `now`, after a gap, when it is reported late |
| Playback.StreamAfterStop | script.js:316-319 | after `stop`, the next chunk starts at `max(old cursor, now)`, never at 0 |
| Playback.EmptyChunkStallsAsWritten | script.js:295-306 | an empty chunk on an idle streamer throws, leaving `isPlaying` set with no source to end |
| Playback.StalledStaysStalled | script.js:285-319 | a stalled streamer only queues later chunks and receives no `onended`; only `stop` clears it |
| Events.On | script.js:41-46 | the listener is appended after those already registered for the name, and every other name is unchanged |
| Events.EmitOrder | script.js:41-52 | `emit` calls a name's listeners in registration order, and registering under one name never changes another |
| Settings.OrDefault | script.js:100-102 | a missing or empty stored value yields the fallback, and any other value is kept |
| Settings.Lookup | script.js:104-115 | `languageMap[code]` finds the map's own entry first and otherwise a property inherited from `Object.prototype`; `en-US` finds nothing |
| Settings.Instruction | script.js:112-115 | the instruction is unchanged exactly when the lookup (own entry or inherited property) finds nothing, and otherwise gets the sentence naming the found value appended |
| Settings.GetConfig | script.js:99-148 | fixed model and audio modality; language and voice default to `en-US` and `Puck` and are never empty; the instruction starts with the stored (or built-in) text and is longer exactly when the lookup finds something; four distinct harm categories, all `BLOCK_NONE` |
| Settings.InheritedKeyAppends | script.js:104-115 | a stored language of `constructor` is not in the map, yet the lookup finds `Object`'s constructor and its printed form is appended as the language name |
| Settings.DefaultLanguageKeepsInstruction | script.js:102-115 | with no language stored, the session speaks `en-US` and the instruction is sent unchanged |
| Settings.InstructionInjective | script.js:104-115 | for the map's own languages, any two (stored text, language) pairs, of any lengths, give the same instruction only when both the text and the language name agree |
| Protocol.SendJSON | script.js:211-215 | a message is written only while the socket is open, and dropped otherwise |
| Protocol.SendAudio | script.js:197-203 | audio goes out as one `audio/pcm` media chunk, only while open |
| Protocol.SendImage | script.js:204-210 | an image goes out as one `image/jpeg` media chunk, only while open |
| Protocol.Connect | script.js:159-175 | a no-op when already open; otherwise either the socket opens and `{setup: config}` is written before `connect` resolves, or it rejects with nothing changed |
| Protocol.Disconnect | script.js:176-182 | the socket is forgotten and the client is no longer open; nothing already written is affected |
| Protocol.RemoteClose | script.js:211-215 | once the server closes the socket, the client is no longer open |
| Protocol.FindAudioPart | script.js:187-189 | the index found is the first part whose mime type starts with `audio/pcm`; "none" means no part matches; an `inlineData` without a mime type before any match makes `find` throw at that part |
| Protocol.Receive | script.js:183-196 | an inbound message raises at most three events, ordered audio, interrupted, turn_complete; `interrupted` and `turn_complete` appear exactly when their flags are set; `audio` appears exactly when a first audio part exists, carrying its data; an unparsable message or a throwing `find` raises none |
| Protocol.NoReplayAfterConnect | script.js:159-215 | messages sent while closed are lost: a later connect writes only the setup message |
| Protocol.SendAllDropped | script.js:211-215 | while open, messages are written in call order; while closed, all are dropped |
| Protocol.SetupFirst | script.js:164-169 | after opening, the outbox holds the setup message followed by the messages sent since |
| Protocol.ConnectDisconnectIdempotent | script.js:159-182 | connecting an open client and disconnecting twice change nothing further |
| Protocol.InterruptOnly | script.js:183-196 | a message with `interrupted` set and no model turn raises `interrupted`, followed by `turn_complete` when that flag is set |
| Snapshot.Initialize | script.js:386-402 | initializing an initialized manager is a no-op; otherwise the manager becomes ready exactly when the device is granted |
| Snapshot.Capture | script.js:403-415 | a frame is returned exactly when the manager is initialized |
| Snapshot.Dispose | script.js:464-470 | the manager becomes uninitialized, and the stop callback runs exactly for the screen manager |
| Snapshot.InitializeIdempotent | script.js:386-421 | initializing twice is initializing once, and `dispose` undoes `initialize` |
| Session.DisconnectAgent | script.js:768-779 | from any state, the agent is afterwards not connected, not initialized and has no interval; the client is closed, the recorder stopped, both managers disposed, and the screen manager reports `screenshare_stopped` |
| Session.ConnectAndInitialize | script.js:668-692 | a no-op when connected; a successful connect leaves the agent initialized with the two listeners registered, fresh media, and an outbox of the setup message then the initial turn; a failed connect leaves it disconnected with nothing written and tears down through `disconnect`: the interval is cleared, the recorder stopped and both managers disposed |
| Session.ToggleMic | script.js:720-735 | an idle recorder starts when the microphone is granted; a recording one flips its track; without media nothing changes |
| Session.StartCapture | script.js:736-764 | a camera or screen start either fails with nothing changed or initializes that manager and re-arms the single interval slot for it, leaving the other manager alone |
| Session.StopCamera | script.js:743-746 | the interval is cleared and the camera disposed, nothing else changes |
| Session.DisposeScreen | script.js:706-712 | disposing the screen manager clears the interval and emits `screenshare_stopped` |
| Session.StopScreen | script.js:754-759 | the interval is cleared, and the screen manager is disposed (emitting `screenshare_stopped`) exactly when it was initialized |
| Session.ScreenTrackEnded | script.js:446-448 | the browser ending the screen track disposes an initialized screen manager and clears the interval |
| Session.TimerTick | script.js:738-752 | one interval firing sends the captured frame as an image exactly when the armed source is initialized and the frame is non-empty (an empty capture is falsy and dropped); nothing else changes |
| Session.SendFrames | script.js:720-724 | each posted frame becomes one `audio/pcm` message of its little-endian bytes, in posting order, only while open |
| Session.AudioBlock | script.js:720-724 | the outbox gains exactly one `audio/pcm` message per completed frame, in order, and the recorder keeps the remainder |
| Session.Invoke | script.js:714-719 | the `interrupted` listener is exactly the streamer's `stop`; either listener keeps the scheduler invariant, never throws on a valid streamer and never moves the cursor back |
| Session.InvokeAll | script.js:47-52 | calling a name's listeners in order keeps the scheduler invariant and never moves the cursor back |
| Session.Dispatch | script.js:183-196 | emitting a message's events keeps the scheduler invariant and never moves the cursor back |
| Session.InvokeAsWritten | script.js:714-719 | as written, the `interrupted` listener is `stop`, and only the audio listener can throw, leaving `isPlaying` set; while the streamer is valid and the audio listener gets at least two bytes it is the corrected listener |
| Session.InvokeAllAsWritten | script.js:47-52 | as written, a throw means an audio listener ran and `isPlaying` is set, and the cursor never moves back |
| Session.DispatchAsWritten | script.js:183-196 | as written, a throw means `isPlaying` stays set, and the cursor never moves back |
| Session.ThrowSkipsListeners | script.js:47-52 | as written, once a listener throws, the listeners after it in the same `emit` are never called: appending more changes nothing |
| Session.ThrowSkipsEvents | script.js:183-196 | as written, once a throw rejects `receive`, the later events of the message are never emitted: appending more changes nothing |
| Session.InvokeAllAgrees | script.js:47-52 | without a short audio payload, `emit` as written equals the corrected `emit` and does not throw |
| Session.AsWrittenAgrees | script.js:183-196 | with the agent's listeners, a message whose audio payloads all have two or more bytes dispatches as written exactly as in the corrected model |
| Session.InterruptSuppressedAsWritten | script.js:183-196 | as written, an empty audio part on an idle streamer throws before `interrupted` is emitted: nothing starts and `isPlaying` stays set, where the corrected model clears it |
| Session.Inbound | script.js:173 | a message reaching the open client changes only the playback state, keeps its invariant and cursor order, and is ignored when it cannot be decoded |
| Session.PlaybackEnded | script.js:314 | a source's end while connected changes only the playback state and keeps its invariant |
| Session.ServerClosed | script.js:211-215 | after the server closes the socket the client is no longer open, so nothing more is written; the listeners and the rest of the agent are kept |
| Session.Apply | script.js:845-848 | `screenshare_stopped` clears the screen flag |
| Session.OpenLiveTab | script.js:806-827 | without an API key, or when connected, nothing happens; otherwise the agent connects and is initialized exactly when the socket opens, and after a successful connect the microphone is toggled on, recording exactly when access is granted |
| Session.DisconnectButton | script.js:853-862 | both flags are cleared, the interval is stopped and the agent is no longer initialized |
| Session.CameraClickAsWritten | script.js:864-875 | clicks are ignored unless initialized or while the screen is active; otherwise the camera flag flips before the start is attempted |
| Session.CameraButton | script.js:864-875 | as above, but the flag is set exactly when the camera start succeeds, and a set flag comes with the interval armed for the camera |
| Session.ScreenButton | script.js:877-898 | clicks are ignored unless initialized or while the camera is active; a start sets the flag exactly when it succeeds (a failed start clears it) |
| Session.InitialPageInv | script.js:842-843 | the page starts in a state satisfying the invariant |
| Session.StepPreservesInv | script.js:842-898 | every input keeps the invariant: connected equals initialized, an open client means an initialized agent with its listeners, flags imply initialization, an armed interval belongs to an active and initialized source, and the scheduler and recorder invariants hold |
| Session.MutualExclusion | script.js:864-898 | after any input, camera and screen are never both active and never both initialized |
| Session.TurnCompleteIgnored | script.js:714-719 | `turn_complete` has no listener and changes nothing |
| Session.DispatchInterrupted | script.js:714-719 | emitting `interrupted` (after at most one `audio`) leaves the queue empty and `isPlaying` clear |
| Session.InterruptedEmptiesQueue | script.js:183-196 | any decodable message with `interrupted` set empties the queue and clears `isPlaying`; without audio in it, no source starts and the cursor is kept |
| Session.ConnectThenInterrupt | script.js:668-692 | connect, setup, initial turn, then an interrupt-only message: nothing is scheduled and the queue is empty |
| Session.ClosedSocketDropsMedia | script.js:720-752 | while the socket is not open, neither microphone frames nor snapshots reach the outbox |
| Session.FailedCameraStartAsWritten | script.js:864-875 | as written, a rejected camera start leaves the camera flag set with no camera and no interval, and the screen button is then ignored |
| Session.FailedCameraStartCorrected | script.js:864-875 | with the flag cleared on rejection, a failed camera start changes nothing and screen sharing can still start |
| Session.AsWrittenKeepsExclusion | script.js:864-875 | the as-written camera button still keeps the page invariant, so exclusion holds either way |

## Left out

- Base64 (`btoa`/`atob`, section 4 of RFC 4648) at script.js:67-86: payloads are modelled as the bytes themselves.
- `JSON.parse`/`JSON.stringify` and `FileReader`: an inbound frame is either a parsed message or unparsable, and outbound messages are datatype values.
- Real devices, `AudioContext`/`AudioWorklet` node wiring, gain and the visualizer, the canvas, `drawImage`, JPEG encoding and the aspect-ratio rounding: a snapshot is a frame of bytes handed in by the caller.
- `SettingsManager`, theme, tab switching and `showAlert`: UI only.
- Back-to-back playback (`Playback.DrainBackToBack`) is the stationary-clock case; since the next segment is only scheduled from `onended`, a late `onended` leaves a gap, as `Playback.EndedStartsAtCursorOrLater` states.
- `parseInt`/`parseFloat` defaults for the sample rate and generation parameters, and the `1000 / fps` interval period: they are values of the settings store, passed through as given.
- IEEE float arithmetic: samples and the clock are `real`, so floating-point rounding of durations and of the scheduling cursor is not modelled (`x * 32768` and its floor are exact for float32 samples).
- Concurrency and timing: the worklet thread, `onended`, `setInterval` and promise settlement are sequential explicit inputs; awaits that could interleave with other handlers are not modelled.
- Session.ConnectAndInitialize: `initializeMedia` is taken not to fail, so connected and initialized change together.
- Session.PlaybackEnded: an `onended` arriving after `disconnect` closed the audio context is ignored.
- A muted microphone track still produces (silent) frames in the browser; `OnBlock` is fed whatever samples arrive and muting is only a flag.
- The built-in default system instruction text is a parameter of `GetConfig` rather than spelled out.
- Events.On: the listener table is a plain object, so a name inherited from `Object.prototype` (`constructor`, `toString`, `__proto__`, ...) finds a non-array there and `on`/`emit` throw in the source; the program only uses `audio`, `interrupted`, `turn_complete` and `screenshare_stopped`, and the model treats every name as an ordinary key.
- Settings.GetConfig: the `googleSearchRetrieval` tool entry is carried but not stated in the contract.
- Settings.Inherited: a function found on `Object.prototype` is appended in the printed form common engines give built-ins, `function NAME() { [native code] }`; the set of inherited names is the standard `Object.prototype` properties.
- Pcm.EncodeLE: an `Int16Array`'s buffer uses the platform byte order; little-endian is assumed, as on all common hosts.
- Session.Invoke: built on the corrected `Playback.StreamAudio`; as written, a payload under two bytes on an idle streamer throws and breaks the scheduler invariant, which `Session.InvokeAsWritten` models.
- Session.InvokeAll: built on the corrected listener; as written, a throw also ends `emit`, which `Session.InvokeAllAsWritten` models.
- Session.Dispatch: built on the corrected listener; as written, a throw also rejects `receive` and the message's later events are never emitted, which `Session.DispatchAsWritten` and `Session.InterruptSuppressedAsWritten` model, and `Session.AsWrittenAgrees` shows both agree whenever every audio payload has two or more bytes.
- Session.Inbound: built on the corrected `Session.Dispatch`; a message with an audio part under two bytes behaves as `Session.DispatchAsWritten` says in the source.
- Session.DispatchInterrupted: holds for the corrected listener; as written, an empty audio part before `interrupted` on an idle streamer suppresses the stop (`Session.InterruptSuppressedAsWritten`).
- Session.InterruptedEmptiesQueue: holds for the corrected listener; as written, it fails for a message whose audio part is under two bytes arriving while nothing plays (`Session.InterruptSuppressedAsWritten`).
- Session.StepPreservesInv: the page is built on the corrected `Playback.StreamAudio` and `Session.CameraButton`; as written, a short audio payload breaks the scheduler part of the invariant (`Playback.EmptyChunkStallsAsWritten`), while the as-written camera button still keeps the rest (`Session.AsWrittenKeepsExclusion`).

## Findings

| source | as written | input that shows it | evidently intended | confidence | as-written member | corrected member |
|---|---|---|---|---|---|---|
| script.js:285-306 | a chunk of 0 or 1 bytes is queued as a zero-length segment; `createBuffer(1, 0, rate)` throws after the segment was dequeued and `isPlaying` set, so no source ends and later chunks are only queued; the throw also aborts the rest of `emit` and `receive`, so an `interrupted` in the same message is never emitted (`Session.InterruptSuppressedAsWritten`) | an `audio` event with an empty payload on an idle streamer | drop (or skip) segments without samples so the chain keeps running | not executed | Playback.EmptyChunkStallsAsWritten | Playback.StreamAudio |
| script.js:864-875 | the camera flag is set before `startCameraCapture`, and a rejection is not caught, so the flag stays set with no camera running; the screen button is then ignored | a camera click with camera permission denied, then a screen click | clear the flag when the start fails, as the screen button does | not executed | Session.FailedCameraStartAsWritten | Session.FailedCameraStartCorrected |
