# benz-amr-recorder, modelled in Dafny

benz-amr-recorder is a browser library that plays, records and converts
AMR-NB audio. This project models the state-and-array logic behind its
browser calls, in four layers:

- **The playback shim and the current-source slot.**
  - `playPcm` defaults a falsy rate to 8000 and stops the previous source node.
  - It then installs a new node and binds it a one-channel buffer.
  - When the host engine refuses the rate, it falls back to a multiple of it. The source has two fallbacks:
    - src/audioContext.js and the player bundle repeat every sample (`increaseSampleRate`): ×3 below 11025 Hz, else ×2.
    - The recorder bundle keeps the samples, creates the buffer at ×4 (or ×2) the rate and plays it at 0.25 (or 0.5) speed.
  - `stopPcm` clears the module-level `curSourceNode` slot in src and in the recorder bundle. In the player bundle it leaves the slot as it is.
  - The engine is a value with its own sample rate and an `accepts(frames, rate)` predicate that says which `createBuffer` calls succeed. Source nodes are values in a table (`WebAudio.Playback`), and the slot is an index into it.
- **The recorder capture buffer.**
  - The worker body of `Recorder` keeps per-channel lists of chunks and a running `recLength`.
  - `mergeBuffers` writes the chunks into a fresh zero-filled array at running offsets.
  - The host side gates capture with `recording`. It keeps a stack of `getBuffer` callbacks: push on request, pop on reply.
- **The `BenzAMRRecorder` object of src/BenzAMRRecorder.js.** This covers its initialisation guards, its playing flag, its event slots, `getDuration` and the state left by `finishRecord`.
- **The older classes in the two bundles.** These are the recorder bundle's `BenzAMRRecorder` and the player bundle's `BenzAMRPlayer`, which differ at the edges. Each class is modelled beside its own audio-context variant.

## Modelling choices

- Samples are opaque `real`s; the model never computes with them. Bytes are a `Byte` newtype.
- The AMR-NB codec is a value holding two functions, `encode(samples, rate, mode)` and `decode(bytes)`. Decoding may fail (None, standing for null).
- A falsy sample rate (0, undefined, null, NaN) is written 0.
- User callbacks are opaque identities (`Callback = nat`). The handlers an object invokes are appended, in order, to a ghost log `fired`.
- The six `_onX` fields of an instance are one map from `Event` to `Callback`. An absent key stands for null.
- Asynchrony is collapsed.
  - A promise is a method that returns a `Result`.
  - A worker message is processed when it is posted.
  - The worker's replies wait in a queue (`Recorder.Recorder.replies`) until `DeliverReply` hands the oldest to the most recently pushed callback.
  - `finishRecord` is split in two methods, one on each side of that wait. `FinishRecordKeepsRecording` joins them.
- Inputs from the environment are parameters:
  - the user's answer to the microphone prompt (`granted`);
  - the outcome of a fetch (`fetched`, None when the request fails);
  - the audio context's own decoding (`contextDecoded`, None when it rejects).
- Behaviour of the code worth knowing before reading the model:
  - The code has two fallbacks for a refused rate. src/audioContext.js and the player bundle upsample ×3/×2, and the recorder bundle slows down ×4/×2. Both are modelled.
  - Replies are matched to callbacks by popping a stack (LIFO), so overlapping `getBuffer` requests receive each other's data. `Recorder.OverlappingRequestsSwapReplies` states this.
  - src/BenzAMRRecorder.js:258 passes an end callback to `playPcm`. The `playPcm` of src/audioContext.js:35 takes no such parameter, so no `onended` handler is ever attached there, and `_onEndCallback` is never reached through playback.
  - src/BenzAMRRecorder.js:11-21 imports `getCtxSampleRate` and `decodeAudioArrayBufferByContext`, which src/audioContext.js does not export. The context rate is taken to be the engine's own positive `sampleRate` (what `getRecordSampleRate` returns, src/audioContext.js:106-108). The context's decoding is the `contextDecoded` parameter.
  - `isRecording` in src/audioContext.js:89-91 reads `recorder.recording` without a null check, so it throws (Err(NoRecorder)) before any recorder exists. The recorder bundle's version (BenzAMRRecorder.js:422-424) returns `null` (falsy) instead, modelled as false.

## Model

| member | source | states |
|---|---|---|
| Pcm.RateOrDefault | src/audioContext.js:36 | a falsy rate becomes 8000, any other rate is kept, and the result is never falsy |
| Pcm.EncodeAmr | src/BenzAMRRecorder.js:341-344 | the codec is called at the given rate (8000 when it is falsy) and always in mode 7 |
| Pcm.AmrBlob | src/BenzAMRRecorder.js:346-348 | the Blob holds exactly the given bytes, labelled 'audio/amr' |
| Pcm.EncodeAmrBlob | BenzAMRRecorder.js:670-676 | the recorder bundle's encodeAMR returns an 'audio/amr' Blob of the mode-7 encoding at the rate (8000 when it is falsy) |
| WebAudio.Playback.StopPcm | src/audioContext.js:63-68 | the node in the slot gets one more stop() and the slot is emptied; an empty slot changes nothing; afterwards no node is live |
| WebAudio.Playback.StopPcmKeepingSlot | BenzAMRPlayer.js:388-392 | the node in the slot gets one more stop() but stays in the slot; afterwards no node is live |
| WebAudio.Playback.Install | src/audioContext.js:37-38 | from a silent state, a fresh unstarted node is appended and fills the slot |
| WebAudio.Playback.Start | src/audioContext.js:58-60 | the current node gets the buffer, playbackRate and end handler and is started; every other node is unchanged and at most one node is live |
| WebAudio.StopPcmIdempotent | src/audioContext.js:63-68 | stopping twice is the same as stopping once |
| WebAudio.StopPcmKeepingSlotRestops | BenzAMRPlayer.js:388-392 | a second non-clearing stop stops the same node a second time |
| WebAudio.PlayLeavesOnlyNewNodeLive | src/audioContext.js:37-38 | after teardown, installation and start, the new node is the only live node, whatever was playing before |
| Upsampling.UpsampledLength | src/audioContext.js:24-26 | the upsampled sequence has samples.length * m elements |
| Upsampling.UpsampledAt | src/audioContext.js:27-31 | for i < len and j < m, output[i*m + j] == samples[i] |
| Upsampling.UpsampledIndex | src/audioContext.js:27-31 | output slot k holds samples[k / m], so each slot is written by exactly one (i, j) |
| Upsampling.UpsampledSnoc | src/audioContext.js:27-31 | one outer iteration appends m copies of sample i |
| Upsampling.UpsampledEverywhere | src/audioContext.js:27-31 | every slot k of the upsampled sequence holds samples[k / m] |
| Upsampling.FillRun | src/audioContext.js:28-30 | the inner loop writes m copies of one sample from slot i*m on and leaves every slot before and after that run alone |
| Upsampling.IncreaseSampleRate | src/audioContext.js:24-33 | the fresh array has samples.length * m slots and holds each sample repeated m times, in order; the player bundle's copy is BenzAMRPlayer.js:348-357 |
| Upsampling.FallbackMultiple | src/audioContext.js:44-50 | the factor is 3 exactly when the rate is below 11025, else 2 |
| Upsampling.UpsamplingBuffer | src/audioContext.js:40-51 | a buffer exists iff the engine accepts the rate or the multiplied rate and frames; it is refused otherwise; an accepted rate keeps the samples as they are; the fallback buffer has rate*m, len*m frames and frame k == samples[k/m]; either way it lasts len/rate seconds; the player bundle's copy is BenzAMRPlayer.js:366-376 |
| Upsampling.CreateUpsamplingBuffer | src/audioContext.js:40-51 | the try/catch block with increaseSampleRate yields exactly UpsamplingBuffer |
| Upsampling.UpsampledKeepsDuration | src/audioContext.js:44-50 | n*m frames at m times the rate last as long as n frames at the rate |
| Recorder.FlattenLength | BenzAMRRecorder.js:271-279 | the concatenation of the chunks is as long as their total length |
| Recorder.FlattenSnoc | BenzAMRRecorder.js:273-276 | one more chunk extends the concatenation and the total length by that chunk |
| Recorder.FlattenAppend | BenzAMRRecorder.js:244-249 | recording a chunk appends it to the channel's concatenation |
| Recorder.FlattenAt | BenzAMRRecorder.js:273-276 | sample k of chunk i lands at offset (total length of earlier chunks) + k |
| Recorder.TotalLengthGrows | BenzAMRRecorder.js:273-276 | the running offset never exceeds the total length |
| Recorder.CopyChunk | BenzAMRRecorder.js:274 | `result.set(chunk, offset)` puts the chunk at offset and leaves every other slot as it was |
| Recorder.MergeBuffers | BenzAMRRecorder.js:271-279 | an array exists iff the chunks fit in recLength; it has recLength slots: the chunks in arrival order, then zeros |
| Recorder.RecorderWorker.constructor | BenzAMRRecorder.js:217-220 | the worker starts with recLength 0 and no channel lists |
| Recorder.RecorderWorker.Init | BenzAMRRecorder.js:239-242 | numChannels is set and each of its channel lists is empty |
| Recorder.RecorderWorker.InitBuffers | BenzAMRRecorder.js:265-269 | each of the first numChannels lists is emptied and the others are kept |
| Recorder.RecorderWorker.Record | BenzAMRRecorder.js:244-249 | chunk c is appended to channel c for every channel, recLength grows by the first chunk's length, and each channel still totals recLength |
| Recorder.RecorderWorker.Clear | BenzAMRRecorder.js:259-263 | recLength is 0 and every channel is empty |
| Recorder.RecorderWorker.GetBuffer | BenzAMRRecorder.js:251-257 | each channel comes back as one flat sequence of recLength samples: its chunks concatenated |
| Recorder.Recorder.constructor | BenzAMRRecorder.js:184-195 | the configuration is kept, nothing is recording, no callback is pending, and the worker is initialised with the channel count (BenzAMRRecorder.js:282-288) |
| Recorder.Recorder.Record | BenzAMRRecorder.js:299-302 | recording is switched on and nothing else changes |
| Recorder.Recorder.Stop | BenzAMRRecorder.js:304-307 | recording is switched off and nothing else changes |
| Recorder.Recorder.Clear | BenzAMRRecorder.js:309-312 | the worker empties every channel |
| Recorder.Recorder.OnAudioProcess | BenzAMRRecorder.js:199-210 | a chunk per channel reaches the worker exactly when recording; otherwise the worker is untouched |
| Recorder.Recorder.GetBuffer | BenzAMRRecorder.js:314-321 | without a callback of its own or configured, it throws 'Callback not set' and changes nothing; otherwise the callback is pushed and a reply with every channel flattened is queued |
| Recorder.Recorder.DeliverReply | BenzAMRRecorder.js:290-295 | the oldest reply goes to the most recently pushed callback, which is popped; with none left, nothing is called |
| Recorder.OverlappingRequestsSwapReplies | BenzAMRRecorder.js:290-295 | two overlapping getBuffer requests receive each other's data: the first callback gets the later samples |
| Events.EventOf | src/BenzAMRRecorder.js:165-185 | an action selects the slot whose name it is; any other string selects none |
| Events.LegacyEventOf | BenzAMRRecorder.js:557-575 | the same, with no 'cancelRecord' slot |
| Events.NameSelectsItsEvent | src/BenzAMRRecorder.js:165-185 | every slot is selected by its own name and by no other string |
| Events.Invoked | src/BenzAMRRecorder.js:239-244 | `if (this._onX) this._onX()` calls the stored handler once, or nothing when the slot is null |
| AudioContext.Context.constructor | src/audioContext.js:13-22 | a working context with an empty slot and no recorder |
| AudioContext.Context.StopPcm | src/audioContext.js:63-68 | the playback state becomes Playback.StopPcm of the old one |
| AudioContext.Context.PlayPcm | src/audioContext.js:35-61 | after stop and install: null samples throw, a refused fallback throws, otherwise the node starts on UpsamplingBuffer of the defaulted rate, with no end handler |
| AudioContext.Context.InitRecorder | src/audioContext.js:73-87 | the recorder is created only when none exists and permission is granted, fresh, idle, with nothing pending and a fresh worker holding one empty channel (recLength 0); a refusal rejects and leaves it null; later calls resolve with the same recorder |
| AudioContext.Context.IsRecording | src/audioContext.js:89-91 | the recorder's flag, or a throw while there is no recorder |
| AudioContext.Context.StartRecord | src/audioContext.js:93-98 | with a recorder: emptied buffers and recording on; without one: nothing |
| AudioContext.Context.StopRecord | src/audioContext.js:100-104 | with a recorder: recording off and nothing pending changes; without one: nothing |
| AudioContext.Context.GetRecordSampleRate | src/audioContext.js:106-108 | the context's own positive rate |
| AudioContext.Context.GenerateRecordSamples | src/audioContext.js:110-118 | with a recorder the resolver is pushed and a reply with the flattened first channel is queued; without one nothing is requested |
| BundledAudioContext.SlowdownFactor | BenzAMRRecorder.js:371-381 | the factor is 4 exactly when the rate is below 11025, else 2 |
| BundledAudioContext.SlowdownBuffer | BenzAMRRecorder.js:367-382 | a buffer exists iff the engine accepts the rate or the multiplied rate; the samples are never changed; the fallback has rate*factor and playbackRate 1/factor; the effective duration is always len/rate |
| BundledAudioContext.Context.constructor | BenzAMRRecorder.js:337-346 | a working context with an empty slot and no recorder |
| BundledAudioContext.Context.StopPcm | BenzAMRRecorder.js:396-401 | the playback state becomes Playback.StopPcm of the old one |
| BundledAudioContext.Context.PlayPcm | BenzAMRRecorder.js:360-394 | after stop and install: null samples throw, a refused fallback throws, otherwise the node starts on SlowdownBuffer's buffer and playbackRate with the given end handler |
| BundledAudioContext.Context.InitRecorder | BenzAMRRecorder.js:406-420 | the recorder is created at most once, and only when permission is granted, fresh, idle, with nothing pending and a fresh worker holding one empty channel (recLength 0); a refusal leaves it null |
| BundledAudioContext.Context.IsRecording | BenzAMRRecorder.js:422-424 | true iff a recorder exists and is recording |
| BundledAudioContext.Context.StartRecord | BenzAMRRecorder.js:426-431 | with a recorder: emptied buffers and recording on |
| BundledAudioContext.Context.StopRecord | BenzAMRRecorder.js:433-437 | with a recorder: recording off |
| BundledAudioContext.Context.GetRecordSampleRate | BenzAMRRecorder.js:439-441 | the context's own positive rate |
| BundledAudioContext.Context.GenerateRecordSamples | BenzAMRRecorder.js:443-451 | with a recorder the resolver is pushed and a reply with the flattened first channel is queued |
| PlayerAudioContext.Context.constructor | BenzAMRPlayer.js:337-346 | a working context with an empty slot |
| PlayerAudioContext.Context.StopPcm | BenzAMRPlayer.js:388-392 | the playback state becomes Playback.StopPcmKeepingSlot of the old one |
| PlayerAudioContext.Context.PlayPcm | BenzAMRPlayer.js:359-386 | after a non-clearing stop and install: null samples throw, a refused fallback throws, otherwise the node starts on UpsamplingBuffer of the defaulted rate |
| AmrRecorder.InitArray | src/BenzAMRRecorder.js:64-89 | an initialised instance is refused and left unchanged; otherwise the instance is initialised even when both decodings fail (samples null, 'Failed to decode.'); on a direct decode the raw data is the input; on the fallback the raw data is re-encoded at the context rate and wrapped in the Blob; on success the samples are the decoding of the raw data |
| AmrRecorder.InitBlob | src/BenzAMRRecorder.js:96-111 | the guard as above; on success the Blob holds exactly the raw data and the samples are its decoding; a direct decode keeps the given Blob |
| AmrRecorder.BenzAMRRecorder.constructor | src/BenzAMRRecorder.js:27-49 | not initialised, empty samples and raw data, no Blob, no handlers, not playing |
| AmrRecorder.BenzAMRRecorder.PlaybackRate | src/BenzAMRRecorder.js:258 | the context rate after initWithRecord, 8000 otherwise; always positive |
| AmrRecorder.BenzAMRRecorder.InitWithArrayBuffer | src/BenzAMRRecorder.js:64-89 | the new state and outcome are InitArray's; handlers, playing flag and fired handlers are unchanged |
| AmrRecorder.BenzAMRRecorder.InitWithBlob | src/BenzAMRRecorder.js:96-111 | the new state and outcome are InitBlob's |
| AmrRecorder.BenzAMRRecorder.InitWithUrl | src/BenzAMRRecorder.js:118-143 | the guard; then the silent clip is played at 24000 Hz (its throw propagates); a failed fetch rejects without change; otherwise the outcome is InitArray's on the fetched bytes |
| AmrRecorder.BenzAMRRecorder.InitWithRecord | src/BenzAMRRecorder.js:149-161 | the guard; succeeds iff a recorder exists or permission is granted, and then only the recorder flag is set; a refusal leaves the shared recorder as it was (null), a recorder created here is fresh and idle with nothing pending, and its fresh worker holds one empty channel (recLength 0); an existing one is kept |
| AmrRecorder.BenzAMRRecorder.On | src/BenzAMRRecorder.js:163-187 | only the slot named by the action changes, and only for a function; every other slot and field is unchanged |
| AmrRecorder.BenzAMRRecorder.OnEndCallback | src/BenzAMRRecorder.js:237-245 | not playing afterwards; fires 'stop' then 'ended' |
| AmrRecorder.BenzAMRRecorder.Play | src/BenzAMRRecorder.js:250-259 | uninitialised: throws with no effect; otherwise fires 'play', sets playing, and plays at PlaybackRate with no end handler; the buffer started lasts exactly GetDuration() |
| AmrRecorder.BenzAMRRecorder.Stop | src/BenzAMRRecorder.js:264-270 | the slot is stopped and cleared, not playing, 'stop' fired once |
| AmrRecorder.BenzAMRRecorder.StartRecord | src/BenzAMRRecorder.js:283-288 | the shared recorder (if any) restarts with empty buffers; 'startRecord' fires regardless |
| AmrRecorder.BenzAMRRecorder.FinishRecord | src/BenzAMRRecorder.js:294-297 | with a recorder: recording stops and a request for the first channel, with the resolver, is queued |
| AmrRecorder.BenzAMRRecorder.CompleteFinishRecord | src/BenzAMRRecorder.js:298-306 | the samples are the recording, the raw data its AMR encoding at the context rate, the Blob that data; initialised; 'finishRecord' fired |
| AmrRecorder.BenzAMRRecorder.CancelRecord | src/BenzAMRRecorder.js:313-318 | recording stops; 'cancelRecord' fires |
| AmrRecorder.BenzAMRRecorder.IsRecording | src/BenzAMRRecorder.js:324-326 | the shared flag; throws before any recorder exists, never after this instance's initWithRecord |
| AmrRecorder.BenzAMRRecorder.GetDuration | src/BenzAMRRecorder.js:332-335 | duration × PlaybackRate == sample count; null samples throw |
| AmrRecorder.FinishRecordKeepsRecording | src/BenzAMRRecorder.js:294-307 | on an idle recorder, finishRecord hands the first channel's recording, exactly, to the instance, which holds its AMR encoding |
| AmrRecorder.RecordAfterInitWithRecord | src/BenzAMRRecorder.js:149-161 | from a context with no recorder and permission granted, initWithRecord then startRecord leaves the instance on the context rate and the new recorder capturing into an empty buffer with no request pending |
| AmrRecorder.FailedDecodeBlocksInstance | src/BenzAMRRecorder.js:70-82 | a failed decode leaves the instance initialised with null samples: re-initialising is refused and play throws |
| BundledAmrRecorder.BenzAMRRecorder.constructor | BenzAMRRecorder.js:466-477 | not initialised, empty samples, no Blob, no handlers |
| BundledAmrRecorder.BenzAMRRecorder.PlaybackRate | BenzAMRRecorder.js:618 | the context rate after initWithRecord, 8000 otherwise; always positive |
| BundledAmrRecorder.BenzAMRRecorder.InitWithAMRArray | BenzAMRRecorder.js:485-499 | initialised with the decoding, even a null one, which rejects with 'Failed to decode.' |
| BundledAmrRecorder.BenzAMRRecorder.InitWithBlob | BenzAMRRecorder.js:501-517 | the Blob is kept, then as InitWithAMRArray on its bytes |
| BundledAmrRecorder.BenzAMRRecorder.InitWithUrl | BenzAMRRecorder.js:519-538 | a failed fetch rejects without change; otherwise as InitWithBlob on the fetched Blob |
| BundledAmrRecorder.BenzAMRRecorder.InitWithRecord | BenzAMRRecorder.js:540-552 | no guard; succeeds iff a recorder exists or permission is granted, and then sets the recorder flag; a refusal leaves the shared recorder as it was (null), a recorder created here is fresh and idle with nothing pending, and its fresh worker holds one empty channel (recLength 0); an existing one is kept |
| BundledAmrRecorder.BenzAMRRecorder.On | BenzAMRRecorder.js:554-576 | only the slot named by the action changes, and only for a function; 'cancelRecord' selects nothing |
| BundledAmrRecorder.BenzAMRRecorder.OnEndCallback | BenzAMRRecorder.js:603-608 | fires 'ended' only; every other field, and the instance invariant, is kept |
| BundledAmrRecorder.BenzAMRRecorder.Play | BenzAMRRecorder.js:610-619 | uninitialised: throws with no effect; otherwise fires 'play' and plays at PlaybackRate with the end handler attached; the effective duration is len / PlaybackRate; the recorder flag and the shared recorder are kept |
| BundledAmrRecorder.BenzAMRRecorder.Stop | BenzAMRRecorder.js:621-627 | the slot is stopped and cleared; 'stop' fired once; the recorder flag and the shared recorder are kept |
| BundledAmrRecorder.BenzAMRRecorder.StartRecord | BenzAMRRecorder.js:629-635 | the shared recorder (if any) restarts with empty buffers and its pending requests kept; 'startRecord' fires; the recorder flag is kept |
| BundledAmrRecorder.BenzAMRRecorder.FinishRecord | BenzAMRRecorder.js:637-643 | with a recorder: recording stops and a request for the first channel is queued |
| BundledAmrRecorder.BenzAMRRecorder.CompleteFinishRecord | BenzAMRRecorder.js:643-651 | the samples are the recording and the Blob its AMR encoding at the context rate; initialised; 'finishRecord' fired |
| BundledAmrRecorder.BenzAMRRecorder.CancelRecord | BenzAMRRecorder.js:655-658 | recording stops; no event |
| BundledAmrRecorder.BenzAMRRecorder.IsRecording | BenzAMRRecorder.js:660-663 | true iff a recorder exists and is recording |
| BundledAmrRecorder.ReinitAfterFailedDecode | BenzAMRRecorder.js:485-499 | with no guard, a successful decode replaces a failed one |
| BundledAmrPlayer.BenzAMRPlayer.constructor | BenzAMRPlayer.js:409-414 | not initialised, empty samples, no Blob |
| BundledAmrPlayer.BenzAMRPlayer.InitWithAMRArray | BenzAMRPlayer.js:417-431 | initialised with the decoding, even a null one, which rejects |
| BundledAmrPlayer.BenzAMRPlayer.InitWithBlob | BenzAMRPlayer.js:433-449 | the Blob is kept, then as InitWithAMRArray on its bytes |
| BundledAmrPlayer.BenzAMRPlayer.InitWithUrl | BenzAMRPlayer.js:451-470 | a failed fetch rejects without change; otherwise as InitWithBlob on the fetched Blob |
| BundledAmrPlayer.BenzAMRPlayer.Play | BenzAMRPlayer.js:472-478 | uninitialised: throws with no effect; otherwise plays at 8000 Hz through the upsampling playPcm, lasting len/8000 seconds |
| BundledAmrPlayer.Stop | BenzAMRPlayer.js:480-483 | the playback state becomes Playback.StopPcmKeepingSlot of the old one |
| BundledAmrPlayer.StopThenPlayStopsTwice | BenzAMRPlayer.js:388-392 | stop() then play() stops the node in the slot twice |

## Left out

- Host I/O and browser APIs are not modelled: `FileReader`, `XMLHttpRequest`, `getUserMedia`, `createMediaStreamSource`, node wiring (`connect`, `loop`, `copyToChannel`/`getChannelData`) and `Blob` construction. Their outcomes are parameters.
- A source node's natural end is not modelled. The engine may call `onended` at any time; the model only records whether a handler is attached, and `OnEndCallback` is the handler itself.
- The engine's reaction to `stop()` on a node that was already stopped, or on one that was never started, is not modelled. The model counts the calls (`SourceNode.stops`) and does not decide whether the engine throws. After a refused buffer (src/audioContext.js:38, before the fallback throws) the slot holds an unstarted node, and the next `stopPcm` calls `stop()` on it.
- The module-level throw 'Web Audio API is Unsupported.' is left out: every context is constructed from a working engine.
- Promise and worker timing are not modelled: no interleaving of other calls while a promise is pending.
  - A `generateRecordSamples` without a recorder never settles; the model just requests nothing.
  - `initWithBlob`/`initWithUrl` re-run the guard inside `initWithArrayBuffer` after the read, and that can only fail if another initialiser ran in between.
- `Recorder.Recorder.constructor` takes a whole configuration. The partial merge of `Object.assign(this.config, cfg)` and the unused `sampleRate` sent to the worker are not modelled. The shared recorder uses the default configuration (one channel).
- The `exportWAV` callback stack, `getBuffer`'s unused `mimeType`, the `bufferLen` passed to the script processor, and the worker's `init` message for other configurations are left out: nothing in the modelled code uses them.
- The player bundle's copy of `Recorder` (BenzAMRPlayer.js:179-324) is identical to the recorder bundle's and is never instantiated. It is modelled once, from BenzAMRRecorder.js.
- The one-line wrappers `onPlay`, `onStop`, `onEnded`, `onStartRecord`, `onCancelRecord` and `onFinishRecord` are left out: each is `On` with a fixed action. The getters `isInit`, `isPlaying` and `getBlob` are fields of the classes.
- The AMR-NB codec itself (lib/amrnb) is not part of this model. There are no properties of its bit stream or of a lossy round trip.
- src/amrWorker.js and lib/inlineWorker.js are worker plumbing and are left out. So are the Babel helpers in the bundles.
- The `encodeAMRAsync`/`decodeAMRAsync` declared in BenzAMRRecorder.d.ts have no implementation in the code and are left out.
- Sample values and durations are exact `real`s. The Float32 storage of samples and the floating-point division in `getDuration` are not modelled.
- AmrRecorder.BenzAMRRecorder.InitWithArrayBuffer: the rate used to re-encode a context-decoded buffer is the engine's `sampleRate`. In the code it is the result of a call to `getCtxSampleRate`, which src/audioContext.js does not export.
- The recorder's worker is assumed to be a real `Worker`. In the bundle's inline fallback (BenzAMRRecorder.js:27, a strict-mode bundle per line 2), the bare call `getBuffer()` at :231 reaches `this.postMessage` at :256 with `this` undefined, so no reply would ever arrive; the model does not capture that path.
- The player bundle's `encodeAMR` (BenzAMRPlayer.js:485-492) wraps the codec output in `new DataView(rawData)` rather than `rawData.buffer`. The model assumes it produces the same Blob as `Pcm.EncodeAmrBlob`; for a typed-array codec output, as src/BenzAMRRecorder.js:77 and :347 treat it, that call would throw instead.
- Pcm.AmrBlob: the Blob is built from `data.buffer` (src/BenzAMRRecorder.js:347, BenzAMRRecorder.js:674), the whole buffer behind the codec's typed array. The model assumes that array spans its whole buffer, so the Blob holds exactly the encoded bytes. The codec (lib/amrnb) is not part of this model, so this is not established. `Pcm.EncodeAmrBlob` and the Blobs stored by `AmrRecorder.InitArray` and `CompleteFinishRecord` rely on the same assumption.
- Sample rates are whole numbers (`int`). In Web Audio a `sampleRate` is a JavaScript number and may be fractional. The rates the code passes (8000, 24000 and the context's rate) are whole numbers in practice.
