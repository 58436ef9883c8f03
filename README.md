# hey-aura in Dafny

hey-aura is a voice assistant for the desktop. Holding a hotkey records speech. The speech is trimmed by voice-activity detection (VAD) and transcribed. The text is then either typed as dictation, optionally rewritten by an LLM, or handed to command mode. In command mode an LLM answers with tagged calls such as `<say>…</say>`, which are parsed and executed. A meeting mode records the microphone and the system output side by side. It cuts both streams into speech segments and transcribes each segment. Finally it merges the results into a timestamped transcript and a mixed audio file.

This project models that core and proves properties about it:

- the streaming VAD segmenters: the chunk-based ones of the meeting recorders, the Silero window segmenter and the Silero loopback recorder;
- the device choice, the speech-timestamp scan and the padding of `audio_utils`;
- the meeting audio processor, the mixing of the two streams and the transcript exporter;
- the meeting controller's start/stop protocol;
- the keyboard state machines that start and stop dictation;
- command mode's parsing and retry loop, and the conversation history;
- the dictation rewriter's bounded cache;
- the recogniser factory, the Whisper hallucination filter, the wake-word check and the i18n front end.

Code that works step by step is modelled as classes and methods with loop invariants; each method is proved against a specification function. Pure code is modelled as functions and lemmas. Devices, models, the LLM, clocks and files are parameters: function values for models and predictors, and `Option` where the source catches an exception. Samples are `real`, and int16 conversion is written out with clipping, scaling and truncation toward zero.

## Model

A pure function that only computes (such as `CommandMode.Parse`, `Keyboard.FnEvent`, `ChunkSegmentation.Step`, `TranscriptionProcessor.Finalise`, `DemoMixer.MixOnce`, `LlmRewriter.Extract` or `AudioUtils.Scan`) has no row of its own: it is represented by the rows of the lemmas that state its properties, and by the method rows that are proved against it.

| member | source | states |
|---|---|---|
| MacVad.Linspace | archive/test_record_mac_vad.py:52 | `m` positions from 0 to `stop`, first 0, last `stop`, all within range |
| MacVad.Interp | archive/test_record_mac_vad.py:53 | linear interpolation returns the sample itself at an integer position |
| MacVad.ResampleLinear | archive/test_record_mac_vad.py:44-54 | identity for equal rates or empty input; otherwise `floor(n*sr_out/sr_in)` samples, keeping the first and last sample |
| MacVad.CompleteProps | archive/test_record_mac_vad.py:104-119 | an empty segment buffer writes nothing; otherwise one segment `seg_buf` + at most `min(pad, len(tail)//2)` samples of the tail, `idx` + 1; afterwards idle with empty buffers |
| MacVad.WindowStepCases | archive/test_record_mac_vad.py:134-152 | the four cases of a window: first speech moves the pre-roll into the segment and zeroes `silence_run`; speech while triggered flushes the tail then appends; idle silence keeps only the newest `2*pad` pre-roll bytes; triggered silence goes to the tail and completes exactly at `silence_run >= min_silence` |
| MacVad.InitialInv | archive/test_record_mac_vad.py:75-83 | the initial state satisfies the segmenter invariant |
| MacVad.StepInv | archive/test_record_mac_vad.py:134-152 | one window keeps the invariant (bounded pre-roll, empty tail and zero silence while idle) and only appends to the saved segments |
| MacVad.DrainInv | archive/test_record_mac_vad.py:128-152 | the whole window loop keeps the invariant and only appends saved segments |
| MacVad.DrainUnfold | archive/test_record_mac_vad.py:128-130 | one loop turn consumes `W` floats and `2W` bytes from the residuals |
| MacVad.DrainResiduals | archive/test_record_mac_vad.py:122-130 | what the loop leaves over depends on the residuals alone |
| MacVad.LeftoverSuffix | archive/test_record_mac_vad.py:128-130 | leftovers are the unconsumed tails in order, too short for another window, with twice as many bytes consumed as floats |
| MacVad.PushEmpty | archive/test_record_mac_vad.py:122 | empty float input changes nothing |
| MacVad.FlushInv | archive/test_record_mac_vad.py:154-156 | `flush` leaves the segmenter idle and writes a segment exactly when one is open |
| MacVad.SileroVadSegmenter.constructor | archive/test_record_mac_vad.py:58-83 | durations converted to whole samples; the initial state |
| MacVad.SileroVadSegmenter.Reset | archive/test_record_mac_vad.py:98-102 | `_reset` clears trigger, silence run, segment and tail; nothing else changes |
| MacVad.SileroVadSegmenter.OnSegmentComplete | archive/test_record_mac_vad.py:104-119 | the new state is `Complete` of the old; the written index is the old `idx`, none for an empty segment |
| MacVad.SileroVadSegmenter.PushSamples | archive/test_record_mac_vad.py:121-152 | the new state is the window loop over the appended residuals |
| MacVad.SileroVadSegmenter.ProcessWindow | archive/test_record_mac_vad.py:134-152 | the new state is one window step of the old |
| MacVad.SileroVadSegmenter.Flush | archive/test_record_mac_vad.py:154-156 | the new state is `flush` of the old |
| MacVad.DrainStep | archive/test_record_mac_vad.py:128-152 | the loop run from a state equals the loop run from the state after its first window |
| AudioUtils.Classes | core/audio_utils.py:42-57 | one bucket per device, in enumeration order, each the class the loop body assigns it |
| AudioUtils.BucketMembers | core/audio_utils.py:42-57 | a bucket holds exactly the indices of its class, and its head is the least of them |
| AudioUtils.BucketFirst | core/audio_utils.py:59-64 | a bucket is empty iff no device has its class; otherwise its head is the first device of that class |
| AudioUtils.BestChoice | core/audio_utils.py:59-66 | the bucket choice is the first index of the best-ranked class present, `None` exactly when no ranked class is present |
| AudioUtils.BestInputDeviceDefault | core/audio_utils.py:26-32 | an existing default device whose lower-cased name has no headphone keyword is returned |
| AudioUtils.BestInputDeviceChoice | core/audio_utils.py:36-66 | otherwise the result is the first device of the best non-empty bucket (external, then built-in, then headphone): it has input channels, no virtual keyword, no device ranks higher, and none before it has its class; `None` iff every bucket is empty |
| AudioUtils.Classify | core/audio_utils.py:43-57 | the loop body's tests in order give the device's class (skipped without input channels or with a virtual keyword) |
| AudioUtils.FillBuckets | core/audio_utils.py:42-57 | the one-pass loop fills each of the four buckets with exactly the indices of its class, in enumeration order |
| AudioUtils.GetBestInputDevice | core/audio_utils.py:13-66 | the one-pass loop filling the buckets returns the selection characterised above |
| AudioUtils.Params | core/audio_utils.py:69-73 | minimum speech and silence lengths are `16000 * ms / 1000` samples |
| AudioUtils.OrderedSnoc | core/audio_utils.py:182-184 | appending a long enough speech that starts after the last one keeps the speeches ordered |
| AudioUtils.ScanCloseInv | core/audio_utils.py:175-188 | closing the open speech at the pending end keeps the scan invariant, whether or not the speech is long enough to keep |
| AudioUtils.ScanWindowInv | core/audio_utils.py:166-188 | every branch of one window (speech starts, pending end set or cleared, speech closed) keeps the scan invariant |
| AudioUtils.ScanKeepsInv | core/audio_utils.py:161-188 | after every window the committed speeches are ordered and end before the current window, an open speech starts after them and a pending end lies after its start |
| AudioUtils.FinishOrdered | core/audio_utils.py:161-193 | the speeches before padding are ordered, non-overlapping, inside `[0, len]` and each longer than `min_speech_samples` |
| AudioUtils.Padded | core/audio_utils.py:196-208 | padding yields one speech per input speech, in the same order, each with the start and end the loop gives it |
| AudioUtils.PaddedBounds | core/audio_utils.py:196-208 | padding only widens each speech, keeps it inside `[0, len]`, and never makes neighbours overlap |
| AudioUtils.PaddedWidens | core/audio_utils.py:196-208 | each padded speech starts no later and ends no earlier than before, inside `[0, len]` |
| AudioUtils.PaddedApart | core/audio_utils.py:199-205 | halving a gap below `2*pad` keeps the previous end at or before the next start |
| AudioUtils.AddPadding | core/audio_utils.py:196-208 | the in-place padding loop computes the padded speeches |
| AudioUtils.ScanProbabilities | core/audio_utils.py:161-193 | the probability loop plus the final open speech equal the scan's specification |
| AudioUtils.GetSpeechTimestampsOnnx | core/audio_utils.py:137-210 | the whole pass returns the padded speeches, each inside `[0, len]`, in order and without overlap |
| AudioUtils.GetSpeechTimestamps | core/audio_utils.py:111-135 | without a model one speech over the whole audio; with one, every speech lies inside the (resampled) audio; speeches never overlap and come in order |
| AudioUtils.PySlice | core/audio_utils.py:255 | Python slicing with clamped ends: the ordinary slice when in range, empty when the start is not below the end |
| AudioUtils.ExtractSpeechSegments | core/audio_utils.py:233-257 | a copy of the audio without a model; never longer than the audio |
| AudioUtils.SpeechRange | core/audio_utils.py:247-255 | the slice around the speeches is never longer than the audio |
| AudioUtils.SpeechRangeCovers | core/audio_utils.py:239-255 | for ordered speeches: nothing when there are none; otherwise exactly the slice from `max(0, first.start - pad)` to `min(len, last.end + pad)`, one contiguous piece of the audio holding every speech that lies inside the audio |
| AudioUtils.ExtractCoversSpeech | core/audio_utils.py:233-257 | with a model, the extracted audio is empty when no speech is found and otherwise exactly the slice from `max(0, first.start - padding)` to `min(len, last.end + padding)` with `padding = padding_ms * sample_rate // 1000`, which holds every detected speech lying inside the audio |
| AudioUtils.FitTo | core/audio_utils.py:266-270 | zero-pad or truncate to exactly `n` samples, keeping the prefix |
| AudioUtils.PrepareChunk | core/audio_utils.py:263-284 | the chunk the model sees has 512 samples; at 16 kHz it is the chunk fitted to 512 |
| AudioUtils.IsSpeechRealtime | core/audio_utils.py:259-292 | without a model the mean-energy test; with one, `prob > threshold` on the prepared chunk, and the energy test on the prepared chunk when inference raises |
| ChunkSegmentation.BytesToAudio | core/meeting/audio_processor.py:267-277 | no chunks give no audio; otherwise the length is the sum of the chunk lengths |
| ChunkSegmentation.BytesToAudioInOrder | core/meeting/audio_processor.py:273-276 | each chunk appears in the joined audio, unchanged, right after the chunks before it |
| ChunkSegmentation.TryPut | core/meeting/audio_processor.py:188-192 | a non-blocking put on a queue of 100 succeeds exactly when the queue has room, appending the item; otherwise the queue is unchanged |
| ChunkSegmentation.TryPutBounded | core/meeting/audio_processor.py:41-42 | the queue never exceeds 100 items and a put never disturbs what is already queued |
| ChunkSegmentation.Downmix | core/meeting/system_recorder_win.py:70 | `mean(axis=1)` gives one sample per frame: a mono frame's value, a stereo frame's average |
| ChunkSegmentation.Trim | core/meeting/audio_processor.py:203-206 | the newest `min(len, k)` chunks are kept, and all of them when `k == 0` (Python's `buf[-0:]`) |
| ChunkSegmentation.SegmentChunk | core/meeting/audio_processor.py:156-206 | the loop body's statements compute the segmentation step |
| ChunkSegmentation.StepCases | core/meeting/audio_processor.py:159-206 | every chunk joins the buffer and speech resets the silence; a segment goes out exactly when an active segment reaches 1.5 s of silence, and it is the whole buffer with this chunk, leaving the state idle; idle silence keeps only the newest `int(sr/512)` chunks |
| ChunkSegmentation.IdleInv | core/meeting/audio_processor.py:116-118 | the initial state satisfies the between-chunks invariant |
| ChunkSegmentation.StepInv | core/meeting/audio_processor.py:159-206 | one chunk keeps the invariant: idle means no silence and a bounded buffer, active means a non-empty buffer below the threshold |
| ChunkSegmentation.RunInv | core/meeting/audio_processor.py:121-206 | over any run of chunks the invariant holds, and a segment is emitted only if a segment was already open or some chunk was speech |
| AudioProcessor.LoudnessNormalize | core/meeting/audio_processor.py:279-293 | the length is kept and every sample is clipped to [-1, 1] |
| AudioProcessor.MixAverage | core/meeting/audio_processor.py:359-361 | each sample is the clipped average of the two inputs at that position |
| AudioProcessor.NonEmpty | core/meeting/audio_processor.py:246-251 | only non-empty segments are kept, at most as many as given |
| AudioProcessor.NonEmptySnoc | core/meeting/audio_processor.py:246-251 | one more segment is kept exactly when it is non-empty, after the others |
| AudioProcessor.PutAllSnoc | core/meeting/audio_processor.py:254-261 | offering one more segment is one more non-blocking put |
| AudioProcessor.PutNonEmptySnoc | core/meeting/audio_processor.py:247-258 | one more segment is one more put when it is non-empty, and leaves the queue as it was when it is empty |
| AudioProcessor.PutAllBounded | core/meeting/audio_processor.py:254-261 | the system queue never grows past 100 and what it held stays at its front in order |
| AudioProcessor.MeetingAudioProcessor.constructor | core/meeting/audio_processor.py:22-42 | empty buffers and queues, and the microphone loop's initial state |
| AudioProcessor.MeetingAudioProcessor.StartAudioRecording | core/meeting/audio_processor.py:44-62 | both full-session buffers are emptied and nothing else changes |
| AudioProcessor.MeetingAudioProcessor.BeginMicrophoneLoop | core/meeting/audio_processor.py:114-118 | the loop starts idle with a segment count of 0 |
| AudioProcessor.MeetingAudioProcessor.OnMicChunk | core/meeting/audio_processor.py:127-206 | an empty read changes nothing; otherwise the chunk joins the full recording, the segmentation takes one step on the thresholded VAD verdict, and a finished segment is counted and offered to the queue |
| AudioProcessor.MeetingAudioProcessor.OnSystemSegments | core/meeting/audio_processor.py:235-265 | nothing in built-in-speaker mode; otherwise each non-empty segment joins the system recording and is offered to the system queue (the queue ends as `PutAll` of the non-empty segments), an empty one is skipped; the microphone side is unchanged |
| AudioProcessor.MeetingAudioProcessor.GetRecordedAudio | core/meeting/audio_processor.py:326-372 | the microphone recording alone in built-in-speaker mode or without system audio; otherwise both padded to the longer length, normalised, averaged and clipped to [-1, 1] |
| AudioProcessor.MeetingAudioProcessor.CleanupResources | core/meeting/audio_processor.py:374-413 | both queues drained and both buffers emptied |
| SystemRecorderMac.BuiltinSpeakerIff | core/meeting/system_recorder_mac.py:45-67 | a device is the built-in speaker iff its lower-cased name has a built-in indicator, no headphone or external word, and mentions "speaker" only with "macbook" or "built-in" |
| SystemRecorderMac.FindHeyAuraProps | core/meeting/system_recorder_mac.py:86-88 | the output chosen is a stripped, non-empty listing line mentioning "hey-aura" (any case), and there is none exactly when no line qualifies |
| SystemRecorderMac.FirstBlackHoleProps | core/meeting/system_recorder_mac.py:98-102 | searching from an index finds the first BlackHole device at or after it, and none exactly when no device from there qualifies |
| SystemRecorderMac.FindBlackHoleInput | core/meeting/system_recorder_mac.py:97-102 | the device loop returns the index of the first BlackHole device (the specification function searched from index 0) |
| SystemRecorderMac.FindBlackHoleFirst | core/meeting/system_recorder_mac.py:97-102 | the index found has input channels and a name mentioning BlackHole, no earlier device does, and there is none exactly when no device qualifies |
| SystemRecorderMac.StartPlanCases | core/meeting/system_recorder_mac.py:69-124 | recording begins exactly when not already recording, the output is not the built-in speaker, a hey-aura output and a BlackHole input exist; the chosen output mentions hey-aura |
| SystemRecorderMac.SystemAudioRecorder.constructor | core/meeting/system_recorder_mac.py:19-33 | not recording, not stopping, not skipping; empty queue and buffer, counter 0, no original device |
| SystemRecorderMac.SystemAudioRecorder.Start | core/meeting/system_recorder_mac.py:69-124 | fails and changes nothing when already recording; the built-in speaker gives a "started" recorder that records nothing; a missing hey-aura output fails without rerouting; a missing BlackHole input switches the output back and fails; otherwise the output goes to hey-aura and a fresh recording begins |
| SystemRecorderMac.SystemAudioRecorder.Reroute | core/meeting/system_recorder_mac.py:85-124 | succeeds exactly when a hey-aura output and a BlackHole input exist; with no hey-aura output nothing changes; with no BlackHole input the output is switched back; on success the output is the hey-aura line and a fresh recording begins |
| SystemRecorderMac.SystemAudioRecorder.RecordChunk | core/meeting/system_recorder_mac.py:150-205 | no change unless the loop is running and the read gave frames; otherwise the down-mixed chunk joins the recording, the segmentation steps, and the counter counts only segments the queue accepted |
| SystemRecorderMac.SystemAudioRecorder.Stop | core/meeting/system_recorder_mac.py:236-300 | nothing when not recording; in built-in-speaker mode only the skip flag is cleared; otherwise recording stops, the original output is restored, and the whole recording is returned, or none when empty |
| SystemRecorderMac.SystemAudioRecorder.GetSpeechSegments | core/meeting/system_recorder_mac.py:301-314 | nothing in built-in-speaker mode; otherwise the queue is drained and its segments returned in FIFO order |
| SystemRecorderWin.SystemAudioRecorder.constructor | core/meeting/system_recorder_win.py:20-30 | not recording or stopping, empty queue and buffer, counter 0 |
| SystemRecorderWin.SystemAudioRecorder.Start | core/meeting/system_recorder_win.py:32-50 | succeeds exactly when not already recording and the loopback device opens; a failure changes nothing; success begins a fresh recording and keeps the queue |
| SystemRecorderWin.SystemAudioRecorder.RecordChunk | core/meeting/system_recorder_win.py:63-106 | the loop continues only while recording and no read raised; an empty read changes nothing; otherwise the down-mixed chunk joins the recording, the segmentation steps, and only a queued segment is counted |
| SystemRecorderWin.SystemAudioRecorder.Stop | core/meeting/system_recorder_win.py:120-137 | none when not recording; otherwise the flags are set and the whole recording is returned, or none when nothing was recorded |
| SystemRecorderWin.SystemAudioRecorder.GetSpeechSegments | core/meeting/system_recorder_win.py:139-148 | the queue drained in FIFO order, nothing else changed |
| WinVad.GcdDivides | archive/test_record_win_vad.py:46 | `math.gcd` divides both arguments and is positive unless both are zero |
| WinVad.Combine | archive/test_record_win_vad.py:46 | a number whose divisor and remainder are multiples of `g` is a multiple of `g` |
| WinVad.GcdDividesBoth | archive/test_record_win_vad.py:46-48 | the gcd of two naturals, not both zero, divides both exactly |
| WinVad.ResampleFactors | archive/test_record_win_vad.py:45-48 | `up` and `down` are positive and `up * src == down * dst`, so the rate ratio is preserved |
| WinVad.CrossMultiply | archive/test_record_win_vad.py:45-48 | two multiples of the gcd cross-multiplied by their cofactors agree, with positive cofactors for positive numbers |
| WinVad.DefaultResampleFactors | archive/test_record_win_vad.py:45-48 | 48 kHz to 16 kHz resamples by `up = 1`, `down = 3` |
| WinVad.Ceil | archive/test_record_win_vad.py:103 | `math.ceil`: the least integer not below its argument |
| WinVad.Round | archive/test_record_win_vad.py:102 | Python's `round` lands within one half of its argument |
| WinVad.DerivedCounts | archive/test_record_win_vad.py:101-109 | every count is at least 1; the VAD frame is 512 samples at 16 kHz and 256 otherwise; the pre-pad, post-pad and end-silence counts cover their durations |
| WinVad.DefaultCounts | archive/test_record_win_vad.py:14-22 | with the script's constants: 2400-sample blocks, 4 pre-pad and 4 post-pad blocks, 32 frames of silence to close a segment |
| WinVad.WriterCalls | archive/test_record_win_vad.py:63-91 | `start` is a no-op while a file is open, `write` and `close_with_postpad` while none is; closing appends the file with the first `min(postpad, len(post))` trailing blocks; `seg_idx` counts the files ever opened |
| WinVad.SegmentWriter.constructor | archive/test_record_win_vad.py:54-61 | no file open, nothing written, `seg_idx` 0 |
| WinVad.SegmentWriter.Start | archive/test_record_win_vad.py:63-77 | the new state is `start` of the old |
| WinVad.SegmentWriter.Write | archive/test_record_win_vad.py:78-81 | the new state is `write` of the old |
| WinVad.SegmentWriter.CloseWithPostpad | archive/test_record_win_vad.py:82-91 | the new state is `close_with_postpad` of the old |
| WinVad.WriteAll | archive/test_record_win_vad.py:194-195 | writing several blocks appends them all to an open file and does nothing without one |
| WinVad.WriteAllSnoc | archive/test_record_win_vad.py:194-195 | writing one more block is one more `write` |
| WinVad.FrameStepCases | archive/test_record_win_vad.py:163-179 | each frame joins the window, which keeps the last five probabilities; a window mean at the threshold resets the silent-frame run and marks speech, otherwise the run grows by one; one frame is consumed |
| WinVad.VadFramesLeftover | archive/test_record_win_vad.py:163-179 | the loop consumes whole frames from the front and leaves less than one frame; without a speech frame the run grows by the number of frames consumed |
| WinVad.RunFrames | archive/test_record_win_vad.py:163-179 | the frame loop as written computes the frame specification |
| WinVad.InitialSessionInv | archive/test_record_win_vad.py:124-132 | the initial state satisfies the session invariant |
| WinVad.SegStepInv | archive/test_record_win_vad.py:182-206 | one block keeps the invariant: the pre-roll ends the recording, the open file with its waiting silent blocks ends the recording, every closed file is a stretch of consecutive recorded blocks, and `seg_idx` counts the files opened |
| WinVad.CloseKeepsSlices | archive/test_record_win_vad.py:200-206 | a closed file is the open file plus the first post-pad blocks, consecutive in the recording |
| WinVad.ChunkStepInv | archive/test_record_win_vad.py:136-206 | the whole block loop keeps the invariant |
| WinVad.AsWrittenDuplicatesStartBlock | archive/test_record_win_vad.py:182-188 | as written, a segment that starts on the first block writes that block twice, which is not a stretch of the recording |
| WinVad.Shutdown | archive/test_record_win_vad.py:210-216 | no file stays open; an open segment is closed under the same post-pad rule; otherwise nothing changes |
| WinVad.LoopbackSession.constructor | archive/test_record_win_vad.py:123-132 | the loop's initial locals and a fresh writer |
| WinVad.LoopbackSession.FeedVad | archive/test_record_win_vad.py:156-179 | the resampled block joins the 16 kHz buffer and the frame loop runs over it from a cleared speech flag |
| WinVad.LoopbackSession.Segment | archive/test_record_win_vad.py:182-206 | the new state is the segment step of the old (with the corrected start) |
| WinVad.LoopbackSession.WriteAllMethod | archive/test_record_win_vad.py:193-196 | the loop writes every waiting block in order |
| WinVad.LoopbackSession.ProcessBlock | archive/test_record_win_vad.py:137-206 | an empty read changes nothing; otherwise the block joins the recording, its mono 16 kHz copy feeds the frame loop, then the segment step runs |
| WinVad.LoopbackSession.Close | archive/test_record_win_vad.py:210-216 | the new state is the shutdown of the old |
| DemoMixer.FullChunksProps | archive/demo_buffered_mixed_recording.py:178-188 | every chunk cut has exactly `chunk_size` samples, the leftover is shorter, and chunks plus leftover are the input in order |
| DemoMixer.FullChunksIncremental | archive/demo_buffered_mixed_recording.py:167-188 | reading in two pieces emits the same chunks as reading everything at once, the first piece's leftover carried into the second |
| DemoMixer.FileChunksProps | archive/demo_buffered_mixed_recording.py:279-285 | the file's chunks cover the audio in order, none is empty, and only the last may be shorter than `chunk_size` |
| DemoMixer.MicChunksMatchFileChunks | archive/demo_buffered_mixed_recording.py:178-200 | the microphone's chunks, with the leftover saved at stop, are exactly the chunks the file path cuts from the same samples |
| DemoMixer.CutChunks | archive/demo_buffered_mixed_recording.py:181-188 | the inner loop computes the full chunks and the leftover |
| DemoMixer.SliceFile | archive/demo_buffered_mixed_recording.py:279-285 | the slicing loop computes the file's chunks |
| DemoMixer.PushBackFlatten | archive/demo_buffered_mixed_recording.py:329-334 | pushing a chunk's remainder back to the front of its deque leaves exactly the unconsumed samples, in order |
| DemoMixer.MixBothProps | archive/demo_buffered_mixed_recording.py:322-334 | with both deques non-empty the step mixes the common length, each sample the clipped average of the two scaled samples, and each deque loses exactly those samples from its front |
| DemoMixer.PushBackNonEmpty | archive/demo_buffered_mixed_recording.py:329-334 | a pushed-back remainder is never empty |
| DemoMixer.MixMicOnlyProps | archive/demo_buffered_mixed_recording.py:336-337 | with only microphone chunks the front chunk is scaled and clipped and leaves the deque |
| DemoMixer.MixSystemOnlyProps | archive/demo_buffered_mixed_recording.py:338-339 | with only system chunks, symmetrically |
| DemoMixer.MixOnceNonEmpty | archive/demo_buffered_mixed_recording.py:310-350 | every step produces a non-empty chunk and keeps the deques free of empty chunks |
| DemoMixer.MixOnceProgress | archive/demo_buffered_mixed_recording.py:303-350 | every step lowers the number of pending samples, so the loop after stop ends |
| DemoMixer.BufferedMixedRecorder.constructor | archive/demo_buffered_mixed_recording.py:114-147 | `chunk_size = int(sr * 0.25)`, volumes 1.0 and 0.8, empty deques, not recording, zero statistics |
| DemoMixer.BufferedMixedRecorder.MicRead | archive/demo_buffered_mixed_recording.py:169-188 | the down-mixed block joins the leftover, the full chunks are queued and counted, and the rest stays as the leftover |
| DemoMixer.BufferedMixedRecorder.MicFinish | archive/demo_buffered_mixed_recording.py:195-200 | a non-empty leftover is queued and counted as one last chunk |
| DemoMixer.BufferedMixedRecorder.ProcessSystemAudioFile | archive/demo_buffered_mixed_recording.py:266-285 | a missing file queues nothing; otherwise the 16-bit samples scaled by 1/32768 are cut into chunks, queued and counted |
| DemoMixer.BufferedMixedRecorder.MixStep | archive/demo_buffered_mixed_recording.py:306-350 | the deques become the mixing step's result, the mixed chunk is appended and counted |
| DemoMixer.BufferedMixedRecorder.DrainMixing | archive/demo_buffered_mixed_recording.py:303-376 | after stop the loop ends with both deques empty, only appends to the mixed output, and takes at most one step per pending sample |
| TranscriptionProcessor.PunctuationNotSpace | core/meeting/transcription_processor.py:121 | no punctuation character is whitespace |
| TranscriptionProcessor.FinaliseProps | core/meeting/transcription_processor.py:119-121 | the corrected finaliser gives the stripped text followed by at most one added full stop, ends with punctuation, has no surrounding whitespace, and is a fixed point |
| TranscriptionProcessor.FinaliseAgrees | core/meeting/transcription_processor.py:121 | without trailing whitespace the code as written agrees with the corrected finaliser |
| TranscriptionProcessor.FinaliseAsWrittenDoubleStop | core/meeting/transcription_processor.py:121 | as written "Hi. " becomes "Hi.."; corrected it is "Hi." |
| TranscriptionProcessor.SegmentEntry | core/meeting/transcription_processor.py:88-132 | an entry is made exactly when the processed audio lasts at least half a second, transcription did not raise and the text is not blank; it carries the time, the finalised text and the source |
| TranscriptionProcessor.MeetingTranscriptionProcessor.constructor | core/meeting/transcription_processor.py:17-29 | no transcripts, both flags cleared, no threads |
| TranscriptionProcessor.MeetingTranscriptionProcessor.StartTranscriptionProcessing | core/meeting/transcription_processor.py:31-46 | the microphone thread always starts; the system thread only with a system recorder not in skip mode |
| TranscriptionProcessor.MeetingTranscriptionProcessor.ProcessMicrophoneSegment | core/meeting/transcription_processor.py:57-139 | the segment's entry, if any, is appended tagged "microphone"; the active flag stays set after a too-short segment and is cleared otherwise |
| TranscriptionProcessor.MeetingTranscriptionProcessor.ProcessSystemSegment | core/meeting/transcription_processor.py:164-234 | the segment's entry, if any, is appended tagged "system"; the active flag ends cleared on every path |
| TranscriptionProcessor.MeetingTranscriptionProcessor.MicrophoneQueueEmpty | core/meeting/transcription_processor.py:141-143 | a queue time-out clears the microphone flag and nothing else |
| TranscriptionProcessor.MeetingTranscriptionProcessor.WaitForTranscriptionCompletion | core/meeting/transcription_processor.py:254-275 | the wait stops at the first poll where both sides are idle (the system side only when its thread exists) or reading failed, and times out exactly when there is none |
| TranscriptionProcessor.MeetingTranscriptionProcessor.ClearTranscripts | core/meeting/transcription_processor.py:297-299 | the list is emptied and nothing else changes |
| TranscriptionProcessor.MeetingTranscriptionProcessor.CleanupResources | core/meeting/transcription_processor.py:301-315 | the list is emptied and both flags cleared |
| MeetingExporter.TwoDigitsRoundTrip | core/meeting/meeting_exporter.py:63 | the two digits of `%02d` read back as the number |
| MeetingExporter.Clock | core/meeting/meeting_exporter.py:63 | `%H:%M:%S` is eight characters with colons at positions 2 and 5 |
| MeetingExporter.ClockRoundTrip | core/meeting/meeting_exporter.py:63-64 | the clock text reads back as the time of day of the stamp |
| MeetingExporter.InsertByTimeProps | core/meeting/meeting_exporter.py:50 | inserting into a time-sorted list keeps it sorted and adds exactly that entry |
| MeetingExporter.InsertByTimeMultiset | core/meeting/meeting_exporter.py:50 | insertion adds exactly the inserted entry to the list |
| MeetingExporter.InsertByTimeBound | core/meeting/meeting_exporter.py:50 | a lower bound on the stamps of the list and the entry bounds the result |
| MeetingExporter.SortedCons | core/meeting/meeting_exporter.py:50 | an entry no later than every entry of a sorted list heads a sorted list |
| MeetingExporter.SortedTail | core/meeting/meeting_exporter.py:50 | the tail of a sorted list is sorted and its head is its earliest entry |
| MeetingExporter.InsertByTimeSorted | core/meeting/meeting_exporter.py:50 | insertion into a sorted list keeps it sorted |
| MeetingExporter.SortByTimeProps | core/meeting/meeting_exporter.py:50 | `sorted(..., key=timestamp)` gives ascending time stamps and a permutation of the entries |
| MeetingExporter.SortByTimeSorted | core/meeting/meeting_exporter.py:50 | the sorted list has ascending time stamps |
| MeetingExporter.SortByTimeMultiset | core/meeting/meeting_exporter.py:50 | the sorted list is a permutation of the entries |
| MeetingExporter.AtTimeNone | core/meeting/meeting_exporter.py:50 | no entry is stamped before the earliest stamp of a list |
| MeetingExporter.AtTimeSnoc | core/meeting/meeting_exporter.py:50 | appending an entry extends its time stamp's group at the end |
| MeetingExporter.AtTimeInsert | core/meeting/meeting_exporter.py:50 | insertion puts an entry after the others with the same stamp |
| MeetingExporter.SortByTimeStable | core/meeting/meeting_exporter.py:50 | Python's sort is stable: entries with the same stamp keep their original order |
| MeetingExporter.Rule | core/meeting/meeting_exporter.py:57 | the rule is 60 `=` characters |
| MeetingExporter.Lines | core/meeting/meeting_exporter.py:61-63 | one `[HH:MM:SS] tag text` line per entry, in order |
| MeetingExporter.TextOnlyLines | core/meeting/meeting_exporter.py:61-64 | one `[HH:MM:SS] text` line per entry for the summariser, in order |
| MeetingExporter.CountSourceSnoc | core/meeting/meeting_exporter.py:75-80 | counting a source over one more entry adds one exactly when it has that source |
| MeetingExporter.CountSourceInsert | core/meeting/meeting_exporter.py:75-80 | insertion adds one to the count of the inserted entry's source |
| MeetingExporter.CountSourceSorted | core/meeting/meeting_exporter.py:75-80 | the reported per-source counts are those of the unsorted list |
| MeetingExporter.WithSummary | core/meeting/meeting_exporter.py:82-100 | a failed summary leaves the file as it is; otherwise the summary block and a rule go in front of the existing content |
| MeetingExporter.WithSummaryKeepsContent | core/meeting/meeting_exporter.py:70-100 | the transcript written first always survives at the end of the file |
| MeetingExporter.FormatEntries | core/meeting/meeting_exporter.py:61-64 | the loop produces the file lines, the summariser lines and the per-source counts |
| MeetingExporter.LinesSnoc | core/meeting/meeting_exporter.py:61-64 | formatting one more entry appends exactly its line |
| MeetingExporter.FormatPrefix | core/meeting/meeting_exporter.py:61-80 | one more loop step appends that entry's two lines and counts its source |
| MeetingExporter.SaveTranscripts | core/meeting/meeting_exporter.py:48-100 | the file is the header, the sorted entries' lines and the footer, with the summary of the sorted text-only lines put in front when it succeeds; the counts are those of the list |
| MeetingExporter.FlattenFramed | core/meeting/meeting_exporter.py:55-76 | the file text is the header, the joined lines and the footer |
| MeetingExporter.SaveMeetingResults | core/meeting/meeting_exporter.py:30-46 | nothing without a start time; the transcript file exactly for a non-empty list; the audio exactly when present and non-empty, as clipped 16-bit samples |
| MeetingUtils.KeyboardDisabledAppend | core/meeting_utils.py:38-40 | calls that do not touch the keyboard listeners leave their state as it was |
| MeetingUtils.KeyboardAfterStartStop | core/meeting_utils.py:29-86 | after a start the listeners are disabled; after a stop they are enabled again, whether or not saving raised |
| MeetingUtils.MeetingRecorder.constructor | core/meeting_utils.py:12-20 | not in meeting mode, no start time, no calls made |
| MeetingUtils.MeetingRecorder.StartMeetingRecording | core/meeting_utils.py:29-47 | a no-op in meeting mode; otherwise meeting mode with the start time, and the calls clear, disable (the Fn listener too when there is one), start recording, start transcription, in that order |
| MeetingUtils.MeetingRecorder.StopMeetingRecording | core/meeting_utils.py:49-86 | a no-op outside meeting mode; otherwise the audio stops while `meeting_stopping` is raised, meeting mode ends, the wait and the save follow, then cleanup and re-enabling run even when saving raised |
| MeetingUtils.MeetingRecorder.ToggleMeetingRecording | core/meeting_utils.py:22-27 | meeting mode flips, with the start or the stop calls |
| MeetingUtils.MeetingRecorder.CleanupResources | core/meeting_utils.py:88-99 | an active meeting is stopped first; then both processors are cleaned up, and meeting mode is off |
| Keyboard.StartRecSpec | app.py:148-154 | `start_rec` is logged; recording begins unless in meeting mode (it stays on if already on); mode and meeting mode unchanged |
| Keyboard.StopRecSpec | app.py:253-257 | `stop_rec` is logged and recording ends |
| Keyboard.Transcriber.constructor | app.py:148-154 | not recording, no mode, no meeting, nothing logged |
| Keyboard.Transcriber.StartRecording | app.py:148-154 | the new state is `start_rec` of the old |
| Keyboard.Transcriber.StopRecording | app.py:253-257 | the new state is `stop_rec` of the old |
| Keyboard.Combo | core/keyboard_utils.py:227-238 | dictation exactly for Ctrl+Win without Alt, command exactly for Win+Alt without Ctrl, nothing otherwise |
| Keyboard.ResetKeys | core/keyboard_utils.py:211-216 | all three keys up and the last key time 0; the disabled flag kept |
| Keyboard.ResetOldWhen | core/keyboard_utils.py:240-246 | keys are reset exactly when more than 0.5 s passed since the last press and nothing is recording |
| Keyboard.PressStarts | core/keyboard_utils.py:248-277 | a press starts at most one recording, only when enabled, off macOS, not recording and when the pressed key completes a combination; the mode is that combination's |
| Keyboard.ReleaseStops | core/keyboard_utils.py:279-311 | a release stops recording exactly when it releases a modifier during recording and leaves neither combination held; keys are reset when all are up and nothing records |
| Keyboard.KeysInvPreserved | core/keyboard_utils.py:248-322 | every transition keeps "disabled means no key held", and a disabled handler ignores every event |
| Keyboard.KeyboardEventHandler.constructor | core/keyboard_utils.py:195-209 | all keys up, last key time 0, enabled |
| Keyboard.KeyboardEventHandler.ResetKeyStates | core/keyboard_utils.py:211-216 | the new state is the reset of the old |
| Keyboard.KeyboardEventHandler.CheckKeyCombinations | core/keyboard_utils.py:218-238 | the transcriber's new state is the combination check on the old |
| Keyboard.KeyboardEventHandler.ResetOldKeys | core/keyboard_utils.py:240-246 | the new key state is the time-out reset of the old |
| Keyboard.KeyboardEventHandler.OnPress | core/keyboard_utils.py:248-277 | the handler and the transcriber end in the press transition's states |
| Keyboard.KeyboardEventHandler.OnRelease | core/keyboard_utils.py:279-311 | the handler and the transcriber end in the release transition's states |
| Keyboard.KeyboardEventHandler.DisableAllListeners | core/keyboard_utils.py:313-317 | disabled, with the keys reset |
| Keyboard.KeyboardEventHandler.EnableAllListeners | core/keyboard_utils.py:319-322 | only the disabled flag is cleared |
| Keyboard.FnInvPreserved | core/keyboard_utils.py:44-129 | the Fn listener keeps its invariant; while disabled it starts and stops nothing; in meeting mode every event is ignored |
| Keyboard.FnEventStarts | core/keyboard_utils.py:64-124 | an event starts command mode exactly when Ctrl is down with Fn held or pressed, nothing records, the listener is enabled and Ctrl was not yet counted; any other effect is nothing, one stop, or a dictation start; releasing Fn clears it |
| Keyboard.FnKeyListener.constructor | core/keyboard_utils.py:29-36 | Fn and Ctrl up, no press time, enabled |
| Keyboard.FnKeyListener.EventCallback | core/keyboard_utils.py:44-129 | the listener and the transcriber end in the event transition's states |
| Keyboard.FnKeyListener.DelayedTrigger | core/keyboard_utils.py:156-162 | the transcriber's new state is the delayed dictation check on the old |
| Keyboard.FnKeyListener.DisableAllListeners | core/keyboard_utils.py:180-185 | disabled, Fn and Ctrl up, no press time |
| Keyboard.FnKeyListener.EnableAllListeners | core/keyboard_utils.py:187-189 | only the disabled flag is cleared |
| CommandMode.Find | core/command_mode.py:19 | a found occurrence lies inside the text, at or after the start |
| CommandMode.FindSpec | core/command_mode.py:19 | the occurrence found is the leftmost one, and none is found only when there is none |
| CommandMode.FindFirst | core/command_mode.py:19 | an occurrence with none before it is the one found |
| CommandMode.WordRun | core/command_mode.py:16 | the tag name's run of word characters stays inside the text |
| CommandMode.WordRunSpec | core/command_mode.py:16 | the run is made of word characters and stops at a non-word character |
| CommandMode.MatchAt | core/command_mode.py:16 | a match consumes at least one character and no more than the text |
| CommandMode.MatchClose | core/command_mode.py:16 | the lazy part of a match ends inside the text |
| CommandMode.MatchAtShape | core/command_mode.py:16 | a match is a tagged call `<name>content</name>` with a word-character name |
| CommandMode.SearchTagAbsent | core/command_mode.py:18-20 | without the opening tag the search finds nothing |
| CommandMode.SearchTagTagged | core/command_mode.py:18-20 | a leading tagged block with no earlier closing tag is found, with its stripped content |
| CommandMode.ParseThinkTagged | core/command_mode.py:18-20 | `parse_think` returns the stripped content of a leading think block |
| CommandMode.ParseTagged | core/command_mode.py:15-16 | a tagged call followed by anything parses as that call (name and stripped content) followed by the parse of the rest |
| CommandMode.MatchAtTagged | core/command_mode.py:16 | the pattern matches a leading tagged call exactly, name, content and end |
| CommandMode.MatchAtParts | core/command_mode.py:16 | `<`, a whole word run, `>` and the first closing tag after it make a match with that name and content |
| CommandMode.TaggedParts | core/command_mode.py:16 | the opening tag, the name and the content lie at their offsets in a tagged call |
| CommandMode.WordRunName | core/command_mode.py:16 | the word run after `<` is exactly a name followed by a non-word character |
| CommandMode.ParseCalls | core/command_mode.py:15-16 | round trip: a reply written as a sequence of tagged calls parses to exactly those calls, in order, contents stripped |
| CommandMode.Named | core/command_mode.py:87-88 | the filtered calls are no more than the calls, and every one names a member of the list |
| CommandMode.NamedFirst | core/command_mode.py:88-117 | the first filtered call is the first call, in reply order, that names a command |
| CommandMode.StripAll | core/command_mode.py:33-56 | every part is stripped, and no part is lost |
| CommandMode.Parts | core/command_mode.py:33-56 | splitting on the vertical bar gives at least one part |
| CommandMode.ClaudeCodeArgs | core/command_mode.py:32-54 | with no project the text goes to the current Cursor window and succeeds as that does; an unknown project fails; a known one opens its path with the text and succeeds unless opening raises |
| CommandMode.RespondToEmailArgs | core/command_mode.py:55-62 | the reply succeeds exactly when the argument contains a vertical bar; the id is the first stripped part and the body the other stripped parts re-joined by vertical bars |
| CommandMode.RespondToEmailSimple | core/command_mode.py:55-62 | an id and a body without vertical bars send the stripped body to the stripped id |
| CommandMode.ExecCmdKnown | core/command_mode.py:25-64 | only the four known commands can succeed, and say and ask always do |
| CommandMode.RunTools | core/command_mode.py:90-96 | each tool is called once, in order, as consecutive tool calls; the messages are exactly `ToolMsgs`: one "Tool result from" user message per result that is not None, in order; `tool_exec` holds exactly when some call returned a result |
| CommandMode.ToolMsgsProps | core/command_mode.py:90-96 | at most one message per tool, each a tool result, and none exactly when every tool call returned None |
| CommandMode.Attempt | core/command_mode.py:73-124 | the round equals `AttemptSpec`: the tool results of the first reply's first three tool calls; a second LLM call exactly when some tool returned a result; the reply is the last LLM answer stripped; a command is executed exactly when the last reply's first command exists and succeeds, and it is that command; a first reply whose first command succeeds without tools ends the round at once |
| CommandMode.AttemptSpecProps | core/command_mode.py:73-124 | one or two LLM calls and at most three tool calls; two exactly when a tool returned a result; the reply is the last LLM answer; only tool results are added; executed exactly when the last reply's first command succeeds |
| CommandMode.CommandModeLoop | core/command_mode.py:66-127 | the messages, the executed command and the call counts equal `CommandModeSpec`: the prompt, the first round, and the second round only when the first executed nothing, the second starting at the first one's next LLM and tool calls; nothing is executed exactly when neither round's last reply has a first command that succeeds |
| CommandMode.CommandModeProps | core/command_mode.py:66-127 | the prompt is recorded first; at most four LLM calls and six tool calls; only tool results sit between the prompt and the final assistant message; a failure means both rounds ran and neither round's last reply had a succeeding first command; a success records the reply whose first command was executed; a tool-free succeeding first reply ends after one LLM call |
| LlmContext.Recent | core/llm_context.py:49-52 | only messages later than two hours before now are kept, no more than there were |
| LlmContext.RecentKeeps | core/llm_context.py:49-52 | every message inside the two-hour window survives the filter |
| LlmContext.RecentAll | core/llm_context.py:49-52 | a history entirely inside the window is kept whole |
| LlmContext.GroupProps | core/llm_context.py:54-61 | the grouping loop's rounds followed by its current round are exactly the input; rounds are non-empty, a user message appears only at a round's head, and every round after the first starts with one |
| LlmContext.RoundsProps | core/llm_context.py:54-63 | the rounds partition the filtered messages in order and have the round shape |
| LlmContext.HistoryIsSuffix | core/llm_context.py:65-66 | the history loaded is a contiguous suffix of the recent messages, starting with a user message unless it is all of them |
| LlmContext.HistoryKeepsFewRounds | core/llm_context.py:65-66 | with at most eight rounds in the window nothing recent is dropped |
| LlmContext.RepoList | core/llm_context.py:30 | without repositories the list is empty |
| LlmContext.RepoListLines | core/llm_context.py:30 | each repository gets exactly one `  - name` line, in order |
| LlmContext.SystemPromptPlain | core/llm_context.py:26-32 | a template without the three placeholders is sent unchanged |
| LlmContext.SystemPromptFilled | core/llm_context.py:26-32 | a template holding the three placeholders once each, in order, becomes the template with the repository list (empty without repositories), the window title and the time in their places |
| LlmContext.FillThree | core/llm_context.py:29-32 | the three chained `replace` calls, each pattern occurring once between text clear of it, fill the three holes in order |
| LlmContext.PlaceholdersClear | core/llm_context.py:29-32 | no placeholder can start inside a later one, so an earlier replacement never touches a later placeholder |
| LlmContext.Request | core/llm_context.py:82-88 | the request is the system prompt, then every history message's role and content in order, then the prompt as a user message only when it is non-empty |
| LlmContext.GroupRounds | core/llm_context.py:54-63 | the grouping loop returns the rounds of the filtered messages |
| LlmContext.Context.constructor | core/llm_context.py:12-13 | the in-memory history starts empty |
| LlmContext.Context.LoadHist | core/llm_context.py:34-66 | a missing or undecodable file empties the history; otherwise it is the last eight rounds of the last two hours; the file is not changed |
| LlmContext.Context.AddMsg | core/llm_context.py:68-80 | one message stamped now is appended and the file then holds the whole list |
| LlmContext.ReloadAfterAdd | core/llm_context.py:34-80 | saving a history inside the window with at most eight rounds and loading it again gives it back unchanged |
| LlmRewriter.CacheKeyInjective | core/llm_rewriter.py:38 | in dictation mode two texts with the same cache key are the same text |
| LlmRewriter.ExtractPlain | core/llm_rewriter.py:62-72 | a reply without a `<correct>` block is returned whole, stripped |
| LlmRewriter.ExtractTagged | core/llm_rewriter.py:62-72 | a reply starting with a `<correct>` block gives that block's stripped content |
| LlmRewriter.DistinctCard | core/llm_rewriter.py:74-80 | a duplicate-free key order has as many distinct keys as entries |
| LlmRewriter.IndexedSize | core/llm_rewriter.py:74-80 | the cache holds as many entries as its insertion order, never more than 100 |
| LlmRewriter.InsertedProps | core/llm_rewriter.py:75-80 | after an insertion and any eviction the order stays within 100 and duplicate-free, ends with the new key, and holds nothing else new |
| LlmRewriter.Rewriter.constructor | core/llm_rewriter.py:8-26 | the cache starts empty; the enabled flag and the client come from the configuration |
| LlmRewriter.Rewriter.EvictOldest | core/llm_rewriter.py:76-80 | the 50 oldest keys are deleted and the other entries keep their values |
| LlmRewriter.Rewriter.Rewrite | core/llm_rewriter.py:28-86 | disabled, clientless or non-dictation requests return the text untouched; a cache hit returns the cached value without the LLM; otherwise one request is made and a failure returns the text and caches nothing, while a reply's extracted text is returned and cached under `mode:text`, the oldest half going past 100 entries, every other entry unchanged; the cache never exceeds 100 |
| LlmRewriter.Registry.constructor | core/llm_rewriter.py:90 | no instance yet |
| LlmRewriter.Registry.GetRewriter | core/llm_rewriter.py:92-97 | the first call builds a fresh rewriter with an empty cache; every later call returns that same object |
| Whisper.RunLen | core/transcription/whisper_.py:70 | the leading run has at least one character and fits in the text |
| Whisper.Dehallucinate | core/transcription/whisper_.py:67-73 | the filter never lengthens the text and keeps its first character |
| Whisper.Repeat | core/transcription/whisper_.py:70 | n copies of one character |
| Whisper.RunLenConcat | core/transcription/whisper_.py:70 | a run of n copies followed by a different character has run length n |
| Whisper.RunShape | core/transcription/whisper_.py:70 | the leading run is copies of the first character and is maximal |
| Whisper.ShortRunKept | core/transcription/whisper_.py:67-73 | a run of fewer than 15 copies, or of newlines, is copied through whole |
| Whisper.RepeatCons | core/transcription/whisper_.py:70 | a run of n copies is one copy followed by a run of n - 1 |
| Whisper.KeptStep | core/transcription/whisper_.py:67-73 | a character that starts no long run is copied and the scan moves on by one |
| Whisper.LongRunCollapsed | core/transcription/whisper_.py:67-73 | a run of 15 or more copies of a character other than a newline becomes one copy |
| Whisper.NoLongRunConcat | core/transcription/whisper_.py:70 | prefixing a clean text with a short run keeps it clean |
| Whisper.DehallucinateClean | core/transcription/whisper_.py:67-73 | the filtered text has no run of 15 or more copies of a non-newline character |
| Whisper.CleanUnchanged | core/transcription/whisper_.py:67-73 | a text without such runs is returned unchanged |
| Whisper.DehallucinateIdempotent | core/transcription/whisper_.py:67-73 | filtering twice is filtering once |
| Whisper.ShortTextUnchanged | core/transcription/whisper_.py:67-73 | a text shorter than 15 characters is never changed |
| Whisper.ShortNoLongRun | core/transcription/whisper_.py:70 | a text shorter than 15 characters has no long run |
| Whisper.Language | core/transcription/whisper_.py:76-81 | a non-empty `language` wins over `lang`, and "auto" becomes automatic detection |
| Whisper.ToSimplifiedChinese | core/transcription/whisper_.py:87-94 | conversion to simplified Chinese runs exactly for language codes starting with "zh" |
| Whisper.Transcribe | core/transcription/whisper_.py:75-97 | on both platforms the returned text has no long run, whatever the recogniser and the converter return |
| Whisper.TranscribePassThrough | core/transcription/whisper_.py:75-97 | outside Chinese a recognised text without long runs is returned exactly as recognised (segments joined on Windows) |
| Whisper.SupportedLanguages | core/transcription/whisper_.py:99 | every language is supported, written `*` |
| TranscriptionFactory.CreateTranscriberProps | core/transcription/__init__.py:3-27 | an unsupported string is reported as itself, and a Whisper recogniser is only built for a string mentioning "whisper" in some case |
| TranscriptionFactory.LowerKeeps | core/transcription/__init__.py:12 | lower-casing keeps a lower-case infix |
| TranscriptionFactory.PrefixContains | core/transcription/__init__.py:15 | a string starting with a prefix contains every prefix of that prefix |
| TranscriptionFactory.PrefixLower | core/transcription/__init__.py:12-15 | a name starting with "whisper-" mentions "whisper" once lower-cased |
| TranscriptionFactory.LocalWhisperPath | core/transcription/__init__.py:8-10 | an existing path mentioning "whisper" is passed through as it is, even when it starts with "whisper-" |
| TranscriptionFactory.RepoWhisper | core/transcription/__init__.py:12-14 | a non-local repository id mentioning "whisper" in any case and containing "/" is passed through unchanged |
| TranscriptionFactory.WhisperVariant | core/transcription/__init__.py:15-19 | `whisper-<size>` builds Whisper with the size alone |
| TranscriptionFactory.SlashAfterPrefix | core/transcription/__init__.py:12-15 | the "whisper-" prefix adds no "/" |
| TranscriptionFactory.NamedModel | core/transcription/__init__.py:3-27 | a name with no 'w' or 'W' builds NeMo for "parakeet", FunASR for "funasr" and is rejected otherwise |
| TranscriptionFactory.FixedNames | core/transcription/__init__.py:20-25 | "parakeet" builds NeMo and "funasr" builds FunASR with its fixed model id, whether or not such a path exists |
| TranscriptionFactory.NoW | core/transcription/__init__.py:8-12 | a string without 'w' or 'W' mentions "whisper" in no case |
| TranscriptionFactory.ContainsHead | core/transcription/__init__.py:8 | a string containing an infix contains its first character |
| TranscriptionFactory.UnsupportedExactly | core/transcription/__init__.py:3-27 | `ValueError` is raised exactly for the strings no branch accepts |
| WakeWord.Wrap16 | core/wakeword.py:21-24 | the int16 cast lands in range, agrees with its input modulo 65536, and keeps in-range values |
| WakeWord.ToPcm | core/wakeword.py:21-24 | the conversion keeps the length; float32 is clipped and scaled, other integers wrapped to 16 bits |
| WakeWord.Examined | core/wakeword.py:26 | the examined samples are the first min(1.5 s, length) samples |
| WakeWord.FrameCountAsWrittenRange | core/wakeword.py:29 | the loop as written visits a frame exactly when its start is below `L - 1280`, and only whole frames |
| WakeWord.FrameCountRange | core/wakeword.py:27-32 | the corrected loop visits exactly the whole frames |
| WakeWord.FrameCountDiffers | core/wakeword.py:29 | the strict bound drops the last whole frame exactly when the prefix is a non-zero multiple of 1280 samples |
| WakeWord.SkippedLastFrame | core/wakeword.py:29 | 2560 samples hold two frames and only one is scored |
| WakeWord.Frame | core/wakeword.py:30 | a frame is 1280 samples |
| WakeWord.MaxWithProps | core/wakeword.py:31-32 | the running maximum bounds its start and every value and is one of them |
| WakeWord.ConfidenceIsMax | core/wakeword.py:27-32 | the confidence is at least 0 and every prediction for every scored frame, and is 0 or one of them |
| WakeWord.DetectionAsWritten | core/wakeword.py:14-38 | the reported confidence is never negative |
| WakeWord.MissedInLastFrame | core/wakeword.py:29 | a wake word in the second frame of 2560 samples is missed as written and found when every whole frame is scored |
| WakeWord.DetectionIff | core/wakeword.py:14-38 | with a non-negative threshold the wake word is detected exactly when some prediction for some whole frame of the first 1.5 s exceeds it |
| WakeWord.DetectFromAudio | core/wakeword.py:14-38 | the frame loop returns the detection function's result, `(False, 0.0)` when loading or scoring raises |
| I18n.DetectSystemLanguage | core/i18n.py:13-18 | "zh…" locales give "zh", "en…" ones "en", anything else the default |
| I18n.DetectDefault | core/i18n.py:13-18 | the default is chosen exactly when the locale is missing or neither Chinese nor English |
| I18n.UntranslatedFallback | core/i18n.py:27-28 | a message missing from the catalogue is shown untranslated |
| I18n.I18nManager.constructor | core/i18n.py:6-11 | the current language is the detected system language and its translator is installed |
| I18n.I18nManager.SetLanguage | core/i18n.py:20-25 | the code is always recorded; its catalogue is installed, or `NullTranslations` when there is none |
| I18n.I18nManager.GetText | core/i18n.py:27-28 | without a catalogue the message comes back unchanged |
| I18n.I18nManager.NGetText | core/i18n.py:30-31 | without a catalogue the singular is chosen exactly when n is 1, else the plural |
| Common.LStripSuffix | core/command_mode.py:16 | `lstrip` removes a run of leading whitespace and nothing else |
| Common.RStripPrefix | core/command_mode.py:16 | `rstrip` removes a run of trailing whitespace and nothing else |
| Common.Strip | core/command_mode.py:16 | the stripped text is empty exactly for an all-whitespace input, and otherwise neither starts nor ends with whitespace |
| Common.StripEmpty | core/command_mode.py:16 | stripping both ends leaves nothing exactly when the input is all whitespace |
| Common.Lower | core/transcription/__init__.py:12 | lower-casing keeps the length and lowers each character |
| Common.ReplaceAbsent | core/transcription/__init__.py:18 | replacing an absent pattern changes nothing |
| Common.ReplaceSkip | core/llm_context.py:29-32 | `str.replace` copies a prefix in which no occurrence can start, then goes on after it |
| Common.ReplaceFront | core/llm_context.py:29-32 | an occurrence at the front is replaced and the scan resumes after it |
| Common.ReplaceClear | core/llm_context.py:29-32 | a string in which no occurrence can start is left unchanged |
| Common.ReplaceOne | core/llm_context.py:29-32 | a single occurrence between such strings is the one replaced |
| Common.ClearConcat | core/llm_context.py:29-32 | two strings in which no occurrence can start make such a string together |
| Common.Split | core/command_mode.py:33 | a split has at least one part and no part contains the separator |
| Common.JoinSplit | core/command_mode.py:56-58 | joining the parts of a split with the separator gives the text back |
| Common.SplitConcat | core/command_mode.py:56 | splitting at a separator splits each side independently |
| Common.SplitAbsent | core/command_mode.py:56-57 | a text without the separator splits into itself alone |
| Common.SplitPresent | core/command_mode.py:56-57 | a text with the separator splits into at least two parts |
| Common.SplitJoin | core/command_mode.py:56-58 | splitting a join of separator-free parts gives the parts back |
| Common.FlattenLength | core/meeting/audio_processor.py:350-352 | the concatenation of chunks is as long as the chunks together |
| Common.FlattenAppend | core/meeting/audio_processor.py:350-352 | concatenation distributes over appending chunk lists |
| Common.LastK | core/audio_utils.py:154 | the last k items, or all when fewer, as a suffix |
| Common.PadTo | core/audio_utils.py:154 | zero padding keeps the samples and fills the rest with zeros up to the length |
| Common.Clip | core/wakeword.py:22 | a clipped sample lies in [-1, 1], and one already inside is unchanged |
| Common.ClipAll | core/wakeword.py:22 | every sample is clipped and none is lost |
| Common.ToInt16 | core/meeting/meeting_exporter.py:111 | a converted sample lies within ±32767 and is the clipped, scaled sample truncated toward zero |
| Common.ToInt16All | core/meeting/meeting_exporter.py:111 | every sample is converted and none is lost |

## Left out

- Threads, locks, queues between threads and timeouts: each capture or worker loop is modelled as the sequence of steps it performs, one call per chunk; interleavings are not modelled.
- Audio I/O, the file system, subprocesses, the tray, clipboard and keyboard hooks: these are inputs, or calls recorded in a call log.
- The ONNX/Silero and openWakeWord models, the ASR back ends (faster-whisper, mlx-whisper, NeMo, FunASR) and the traditional-to-simplified converter: these are function parameters.
- Floating-point rounding: samples are exact reals. Loudness normalisation, noise reduction and resampling values are parameters; only lengths and the order of steps are modelled.
- Timestamps are whole seconds, and the silence thresholds are compared in samples.
- `\w` and `str.isspace` / `str.lower` are modelled for ASCII only.
- DemoMixer.BufferedMixedRecorder.constructor: requires a sample rate of at least 4, because a smaller one makes the chunk size 0 and the demo's slicing loop endless.
- The demo mixer's microphone stream is one-channel; a read error on the mac loopback is a no-op.
- SileroVAD initialisation and `_predict_chunk` (the ONNX session) are not modelled; the probability per window is a parameter, and in the Silero window segmenter and the loopback recorder it is a function of the window alone, although the torch model keeps recurrent state between calls so that identical windows can score differently; no proved property depends on the scores themselves.
- AudioProcessor.MeetingAudioProcessor.StartAudioRecording: the stream and thread handling of `stop_audio_recording` and the stream-exception path of `_microphone_recording_loop` are not modelled.
- The summary prompt, the summary LLM call and the MP3 conversion of the exporter are not modelled; the summary is a parameter.
- MeetingUtils.MeetingRecorder.StopMeetingRecording: `save_meeting_results` is imported at module level in `core/meeting_utils.py`, while `core/meeting/meeting_exporter.py` defines it as a method; it is modelled as the exporter's function.
- Keyboard.Transcriber.StartRecording: only the state change of `start_rec`/`stop_rec` in `app.py` is modelled, not their thread clean-up or audio stream.
- LlmRewriter.Rewriter.Rewrite: prompt formatting, the hotword list and the printed `<compare>` block are not modelled.
- LlmContext: the repository scan (`scan`, which walks the file system) and the HTTP/ollama dispatch of `call_llm` are not modelled; the repository names and the LLM reply are inputs.
- I18n.I18nManager.NGetText: a catalogue's plural forms follow the `n != 1` rule only; loading `.mo` files and the module-level `_`/`ngettext` wrappers are not modelled.
- WakeWord.ToPcm: float64 input is not modelled; dtypes other than float32 and int16 are modelled as integers. The `if not model` check is folded into `raises`.
- Whisper initialisation and warm-up are not modelled.
- TranscriptionProcessor.MeetingTranscriptionProcessor.GetTranscripts is a plain getter.
- WakeWord.DetectFromAudio: scores every whole 1280-sample frame, the correction of the Findings row for core/wakeword.py:29; the loop as written, which skips the last whole frame, is WakeWord.DetectionAsWritten.
- TranscriptionProcessor.SegmentEntry: finalises the text with the corrected punctuation test of the Findings row for core/meeting/transcription_processor.py:121 (the stripped text's last character); the test as written, on the unstripped text, is TranscriptionProcessor.FinaliseAsWritten, and the two agree on text without trailing whitespace (TranscriptionProcessor.FinaliseAgrees).
- WinVad.LoopbackSession.Segment: starts a segment by writing the pre-buffer only, the correction of the Findings row for archive/test_record_win_vad.py:186-187; the start as written, which writes the current block a second time, is WinVad.StartSegmentAsWritten.

## Findings

| source | as written | input that shows it | evidently intended | confidence | as-written member | corrected member |
|---|---|---|---|---|---|---|
| core/meeting/transcription_processor.py:121 | the test for final punctuation looks at the last character of the unstripped text, then appends "." to the stripped text | "Hi. " gives "Hi.." | add a full stop only when the stripped text does not already end with punctuation | high, not executed | TranscriptionProcessor.FinaliseAsWrittenDoubleStop | TranscriptionProcessor.FinaliseProps |
| archive/test_record_win_vad.py:186-187 | when a segment starts, the pre-buffer is written and then the current block again, although the pre-buffer already ends with it | any block that triggers speech: the file holds that block twice in a row | write the pre-buffer only, so that each closed file is a slice of the recording | high, not executed | WinVad.AsWrittenDuplicatesStartBlock | WinVad.SegStepInv |
| core/wakeword.py:29 | `range(0, L - 1280, 1280)` stops before the last whole frame when L is a non-zero multiple of 1280 | 2560 int16 samples with the wake word in the second frame: not detected | score every whole 1280-sample frame | high, not executed | WakeWord.MissedInLastFrame | WakeWord.DetectFromAudio |
