# Pronunciation practice frontend: a Dafny model

This project models the browser side of a pronunciation-practice
application. A user picks a text, reads it aloud into the microphone, and
sends the recording to a server, which returns the words that were
mispronounced. Those words can be saved and practised one at a time.

The model covers:

- **The recorder** (`frontend/js/recording.js`):
  - MIME-type negotiation against `MediaRecorder.isTypeSupported` (module `Codec`);
  - the main recorder's life cycle: initialisation, start and its guards, chunk delivery, stop, processing into a WAV, errors, the timer and the visualisation loop, cleanup and reset. The states are values in `Lifecycle`, and the class `Recorder.MainRecorder` is proved against them;
  - the 16-bit PCM WAV serialiser over `DataView`-style array writes (module `Wav`);
  - the separate practice recorder (module `Practice`).
- **Application logic** (`frontend/js/app.js`):
  - extracting problem words from an analysis result (module `ProblemWords`);
  - the `showPage` guards and `goBack`;
  - the practice-session filter and `nextWord`;
  - the checks made before analysis (module `App`).
- **Utilities** (`frontend/js/utils.js`): `formatTime`, `truncateText`, `formatNumber` and the three validators (module `Utils`).
- **API wrappers** (`frontend/js/api.js`):
  - the guards of `analyzeAudio`;
  - how `saveProblemWords` normalises its result;
  - the `parseInt` id check of `updateText`;
  - the fallback values of `getMyWords`, `getWordStats` and `getAdminStats` (module `Api`).

Some things sit outside the code and are modelled as inputs:

- **Platform answers** are parameters: codec support, the microphone grant or refusal, whether the `AudioContext` and its source node can be built, whether `MediaRecorder.start` succeeds, and the decoded audio. The `MediaRecorder` constructor is not a parameter of its own: it accepts a type exactly when codec support says the type is supported.
- **Server replies** are parameters too.
- **Time** is passed as a number of milliseconds.

Some JavaScript built-ins have their own definitions in `Js`:

- `trim`;
- `toString` and `padStart`;
- truncating `%`;
- `Math.floor`;
- `parseInt`.

Samples are real numbers. A `Float32Array` value times 32767 is exact in a double, so truncating it over the reals matches `setInt16`.

## Model

| member | source | states |
|---|---|---|
| Codec.FirstSupported | frontend/js/recording.js:41-56 | the chosen type is a candidate the platform supports, and there is none exactly when no candidate is supported |
| Codec.FirstSupportedIsFirst | frontend/js/recording.js:138-152 | the choice is the earliest supported entry: the first supported candidate after unsupported ones is the one picked |
| Codec.ChooseMimeType | frontend/js/recording.js:138-152 | the loop with `break` returns the first supported type, and "audio/webm" when none is supported |
| Codec.FindSupportedMimeType | frontend/js/recording.js:49-60 | the initialisation loop finds the first supported type, or reports the error it throws when none is supported |
| Codec.FallbackOnlyWhenUnsupported | frontend/js/recording.js:138-152 | the fallback is itself on the list, so a start that falls back hands MediaRecorder a type the platform refuses; the chosen type is supported exactly when some candidate is |
| Codec.PracticeAgreesWithMain | frontend/js/recording.js:718-730 | when the practice list has a supported type, both recorders pick the same type; when the main list has none, neither does the practice list |
| Wav.HeaderLayout | frontend/js/recording.js:403-416 | every header field sits at its offset, little-endian: RIFF, size 36 + dataSize, WAVE, "fmt ", 16, PCM 1, channels, rate, byte rate, block align, 16 bits, "data", dataSize |
| Wav.WavFileSize | frontend/js/recording.js:393-400 | the file is 44 + 2n bytes for n samples |
| Wav.QuantizeRange | frontend/js/recording.js:420-425 | a stored sample never wraps: it lies in [-32767, 32767], full scale maps to +/-32767 and the sign is kept |
| Wav.SampleBytesRoundTrip | frontend/js/recording.js:423-425 | a sample's two bytes read back, as a signed int16, as its quantised value |
| Wav.SampleAt | frontend/js/recording.js:422-427 | sample k sits at bytes 44+2k and 45+2k as its quantised int16 |
| Wav.ParseHeaderRoundTrip | frontend/js/recording.js:403-416 | the header reads back as the rate, channel count and data size it was written with, when no field wraps |
| Wav.DecodePcmBytes | frontend/js/recording.js:422-427 | decoding the payload gives the quantised samples, in order |
| Wav.ParseWavFile | frontend/js/recording.js:391-430 | reading back a written file gives its rate, its channel count and the quantised samples, in order |
| Wav.QuantizeDequantize | frontend/js/recording.js:422-427 | quantisation is the inverse of decoding on the int16 range |
| Wav.ReencodeIdentical | frontend/js/recording.js:391-430 | decoding a written file and writing the decoded samples again gives the same bytes |
| Wav.InterleaveAt | frontend/js/recording.js:379-385 | the interleaved buffer has frames * channels samples, and channel c of frame i is at index i * channels + c |
| Wav.SetUint16 | frontend/js/recording.js:409-414 | stores v modulo 2^16 low byte first at the offset and changes no other byte |
| Wav.SetUint32 | frontend/js/recording.js:405-416 | stores v modulo 2^32 little-endian at the offset and changes no other byte |
| Wav.SetInt16 | frontend/js/recording.js:425 | stores the Number truncated toward zero, modulo 2^16, and changes no other byte |
| Wav.WriteString | frontend/js/recording.js:433-437 | writes one byte per character (its code modulo 256) from the offset on, and changes no other byte |
| Wav.WriteHeader | frontend/js/recording.js:403-416 | the header writes, in the source's order, leave exactly the 44-byte header at the front and change no other byte |
| Wav.CreateWavFromFloat32Array | frontend/js/recording.js:391-430 | the buffer is exactly the header followed by every sample clamped, scaled and stored as int16 |
| Wav.WriteFrame | frontend/js/recording.js:382-384 | frame i's samples land in their slot, channel by channel, and the earlier slots are untouched |
| Wav.InterleaveChannels | frontend/js/recording.js:379-385 | the buffer is the frame-major interleaving of the channels |
| Wav.AudioBufferToWav | frontend/js/recording.js:368-388 | the WAV is the serialisation of the interleaved channels at the buffer's rate and channel count |
| Lifecycle.TimerTextReadsBack | frontend/js/recording.js:449-464 | the timer text reads back as the elapsed time truncated to hundredths, with seconds below 60 and minutes that may exceed two digits |
| Lifecycle.TickShowsElapsed | frontend/js/recording.js:449-464 | a tick changes only the timer text, which then shows the time since the start |
| Lifecycle.CleanupReleases | frontend/js/recording.js:649-691 | after cleanup no stream, stored timer, animation, active recorder or open context is held; the capture, the WAV and the recording flag are untouched; intervals and contexts leaked earlier are not released |
| Lifecycle.CleanupIdempotent | frontend/js/recording.js:649-691 | a second cleanup changes nothing |
| Lifecycle.ResetState | frontend/js/recording.js:301-308 | the flag, the recorder and the chunks are cleared and the screen is idle; the stream, context, timer, animation and last WAV are kept |
| Lifecycle.ResetRecordingIdle | frontend/js/recording.js:311-334 | after resetRecording no recorder, stream, stored timer, animation or open context is held or running, a new start is not refused as already recording, and the last WAV stays available; leaked intervals and contexts stay |
| Lifecycle.AdviceOnlyForRefusals | frontend/js/recording.js:200-217 | the three specific hints answer only getUserMedia refusals; every other failure shows its message |
| Lifecycle.Initialize | frontend/js/recording.js:26-100 | initialisation is ready exactly when both APIs exist, a type is supported, the microphone is granted and the audio graph is built; then it holds a live stream, an open context and an analyser; every failure releases the stream, the timer, the animation and the context and keeps the capture; a failure before the audio context exists leaves exactly the cleaned-up state |
| Lifecycle.ConnectGraph | frontend/js/recording.js:77-90 | the graph step is ready exactly when the graph is built; a missing AudioContext class fails as a TypeError, a throwing constructor or source node as a rejection; a failure releases the granted stream and leaves nothing for a second cleanup |
| Lifecycle.GrantedButGraphFails | frontend/js/recording.js:64-98 | a granted microphone whose audio graph cannot be built fails the start and leaves no stream and no recording |
| Lifecycle.StartGuards | frontend/js/recording.js:107-123 | no user, no text, or a recording already running: the start is refused in that order and nothing changes |
| Lifecycle.StartClearsCapture | frontend/js/recording.js:126-128 | once past the guards the previous WAV and chunks are gone, whatever follows |
| Lifecycle.StartReusesLiveStream | frontend/js/recording.js:132-135 | a live stream is reused, so the microphone's answer does not matter |
| Lifecycle.StartSucceeds | frontend/js/recording.js:138-195 | a successful start records with the first supported type, runs the timer from zero and animates only with an analyser |
| Lifecycle.AcquireReady | frontend/js/recording.js:132-135 | a successful acquisition leaves a live stream and the capture as it was |
| Lifecycle.LaunchStarted | frontend/js/recording.js:138-195 | a launch that starts records with the first supported type |
| Lifecycle.TimerTextZero | frontend/js/recording.js:442-446 | the timer shows "00:00.00" at the start |
| Lifecycle.StartFailureReleases | frontend/js/recording.js:182-217 | a failed start holds no stream, stored timer or animation and shows the error; it leaves the recording flag set exactly when MediaRecorder.start threw |
| Lifecycle.StartThrowLeavesFlagSet | frontend/js/recording.js:181-217 | when MediaRecorder.start throws, the flag stays set with an inactive recorder and no capture, so every later start is refused; a stop (processing the empty capture) or resetRecording clears it |
| Lifecycle.StartTwice | frontend/js/recording.js:118-123 | a second start after a successful one is refused and changes nothing |
| Lifecycle.DeliverAppendsNonEmpty | frontend/js/recording.js:163-168 | delivered data appends exactly the non-empty chunks, in arrival order, and touches nothing else |
| Lifecycle.ProcessDropsRecorder | frontend/js/recording.js:263-298 | processing ends without a recorder and keeps the chunks |
| Lifecycle.ProcessSuccess | frontend/js/recording.js:263-298 | success is reported exactly when a non-empty capture decoded, and the stored WAV is then the decoded audio's |
| Lifecycle.ProcessFailure | frontend/js/recording.js:263-298 | on every failure the previous WAV stays, and an empty capture is reported as such |
| Lifecycle.ProcessedWavReadsBack | frontend/js/recording.js:263-298 | the stored WAV reads back as the quantised, interleaved decoded samples at the decoded rate |
| Lifecycle.StopEffect | frontend/js/recording.js:221-260 | a stop with no recording in progress changes nothing; otherwise it ends the recording, the stored timer and the animation, and leaked intervals keep running |
| Lifecycle.LeaksPersist | frontend/js/recording.js:442-472 | cleanup, both resets, recorder errors, chunk delivery, a track ending, an animation frame and a timer tick keep the counts of leaked intervals and contexts |
| Lifecycle.ProcessLeaksOnDecodeFailure | frontend/js/recording.js:339-363 | processing leaves one more AudioContext open exactly when the capture reaches convertToWAV and the decode fails, and a stop does so exactly when it processes at once with such a decode; neither changes the leaked intervals |
| Lifecycle.FailedDecodeLeaksContext | frontend/js/recording.js:263-298 | start, a non-empty chunk, stop, onstop with a failing decode: the error is shown and one more AudioContext stays open |
| Lifecycle.StartOnlyAddsLeaks | frontend/js/recording.js:103-218 | a start never lowers the counts of leaked intervals and contexts |
| Lifecycle.RestartAfterErrorLeaksInterval | frontend/js/recording.js:175-195 | start, recorder error, start again: the second start succeeds and orphans the first interval, which survives stop and resetRecording and overwrites the "00:00" shown by the reset at its next tick |
| Lifecycle.RestartAfterTrackEndLeaksContext | frontend/js/recording.js:78-80 | start, stop, the track ends, start again: the new initialisation replaces the still-open AudioContext without closing it |
| Lifecycle.FirstStartLaunched | frontend/js/recording.js:136-160 | a successful start had the MediaRecorder API and a supported type |
| Lifecycle.OnErrorKeepsTimer | frontend/js/recording.js:175-179 | after a recorder error a running timer keeps running |
| Lifecycle.StuckAfterPlatformStop | frontend/js/recording.js:170-173 | if the platform stops the recorder and onstop runs first, isRecording stays true with no recorder: stop and start both refuse until resetRecording |
| Lifecycle.FrameEndsAnimationAfterError | frontend/js/recording.js:486-529 | after an error the animation is still scheduled and the next frame ends it; a frame never restarts a stopped animation |
| Lifecycle.InitialValid | frontend/js/recording.js:4-21 | the initial recordingState meets the invariant: an active recorder implies recording, animation implies an analyser, no empty chunk, and any WAV is well formed |
| Lifecycle.StartPreservesValid | frontend/js/recording.js:103-218 | startRecording keeps the invariant |
| Lifecycle.AcquirePreservesValid | frontend/js/recording.js:132-135 | acquiring the microphone keeps the invariant |
| Lifecycle.StartFailurePreservesValid | frontend/js/recording.js:200-217 | the start's catch block keeps the invariant |
| Lifecycle.LaunchPreservesValid | frontend/js/recording.js:138-195 | starting the MediaRecorder keeps the invariant |
| Lifecycle.ProcessPreservesValid | frontend/js/recording.js:263-298 | processing keeps the invariant |
| Lifecycle.StopPreservesValid | frontend/js/recording.js:221-260 | stopRecording keeps the invariant |
| Lifecycle.OnDataPreservesValid | frontend/js/recording.js:163-168 | ondataavailable keeps the invariant |
| Lifecycle.OnErrorPreservesValid | frontend/js/recording.js:175-179 | onerror keeps the invariant |
| Lifecycle.TrackEndedPreservesValid | frontend/js/recording.js:170-173 | a platform-ended track keeps the invariant |
| Lifecycle.CleanupPreservesValid | frontend/js/recording.js:649-691 | cleanup keeps the invariant |
| Lifecycle.ResetRecordingPreservesValid | frontend/js/recording.js:311-334 | resetRecording keeps the invariant |
| Lifecycle.DrawFramePreservesValid | frontend/js/recording.js:486-529 | an animation frame keeps the invariant |
| Lifecycle.TickPreservesValid | frontend/js/recording.js:449-464 | a timer tick keeps the invariant |
| Recorder.MainRecorder.constructor | frontend/js/recording.js:4-21 | the fields hold the initial recordingState |
| Recorder.MainRecorder.UpdateRecordingTimer | frontend/js/recording.js:449-464 | the object takes the tick's state and keeps the invariant |
| Recorder.MainRecorder.StartRecordingTimer | frontend/js/recording.js:442-446 | the start time is now, the timer runs and shows zero; an interval still scheduled is overwritten and counted as leaked; nothing else changes |
| Recorder.MainRecorder.StopRecordingTimer | frontend/js/recording.js:467-472 | only the timer stops |
| Recorder.MainRecorder.StartAudioVisualization | frontend/js/recording.js:477-533 | the animation runs exactly when there is an analyser and a recording; nothing else changes |
| Recorder.MainRecorder.StopAudioVisualization | frontend/js/recording.js:536-546 | only the animation stops |
| Recorder.MainRecorder.OnAnimationFrame | frontend/js/recording.js:486-529 | the object takes the frame's state and keeps the invariant |
| Recorder.MainRecorder.CleanupRecordingResources | frontend/js/recording.js:649-691 | the object takes the cleaned-up state and keeps the invariant |
| Recorder.MainRecorder.ResetRecordingState | frontend/js/recording.js:301-308 | the object takes the reset state and keeps the invariant |
| Recorder.MainRecorder.ResetRecording | frontend/js/recording.js:311-334 | the object takes resetRecording's state and keeps the invariant |
| Recorder.MainRecorder.InitializeRecordingSystem | frontend/js/recording.js:26-100 | the outcome and the new fields are those of initialisation, ready or failed, and the invariant holds |
| Recorder.MainRecorder.ConnectAudioGraph | frontend/js/recording.js:77-98 | the outcome and the new fields are those of the graph step, with an old open context counted as leaked, and the invariant holds |
| Recorder.MainRecorder.FailStart | frontend/js/recording.js:200-217 | the fields and outcome are those of the start's catch block |
| Recorder.MainRecorder.LaunchRecorder | frontend/js/recording.js:138-217 | the fields and outcome are those of launching the MediaRecorder, a throwing start included |
| Recorder.MainRecorder.BeginRecording | frontend/js/recording.js:182-195 | the recorder records with the given type, the flag is set, the timer runs from now and the animation follows the analyser |
| Recorder.MainRecorder.StartRecording | frontend/js/recording.js:103-218 | the fields and outcome are those of a start in that environment, and the invariant holds |
| Recorder.MainRecorder.OnDataAvailable | frontend/js/recording.js:163-168 | only a non-empty chunk is appended, and the invariant holds |
| Recorder.MainRecorder.ProcessRecording | frontend/js/recording.js:263-298 | the fields are those of processing the capture, a failed decode counting the conversion's AudioContext as leaked, and the invariant holds |
| Recorder.MainRecorder.StoreWav | frontend/js/recording.js:278-297 | the WAV of the decoded audio becomes the current blob, success shows and the recorder is dropped |
| Recorder.MainRecorder.OnStop | frontend/js/recording.js:170-173 | onstop processes the capture |
| Recorder.MainRecorder.StopRecording | frontend/js/recording.js:221-260 | the fields are those of a stop, and the invariant holds |
| Recorder.MainRecorder.OnRecorderError | frontend/js/recording.js:175-179 | the fields are those after a recorder error, and the invariant holds |
| Recorder.MainRecorder.OnTrackEnded | frontend/js/recording.js:170-173 | the platform's own stop leaves an inactive recorder and an ended stream |
| Practice.StartPracticeEffect | frontend/js/recording.js:703-794 | a start while recording is ignored, a refused microphone changes nothing, and a successful start records with the practice list's first supported type (or the fallback) from no chunks, keeping the previous WAV |
| Practice.FailedStartKeepsStream | frontend/js/recording.js:703-797 | a start that fails after the microphone was granted keeps the stream live; after the constructor's rejection it is not recording and a stop releases nothing; after a throwing start the flag and the timer are on and a stop releases the stream |
| Practice.PracticeStartThrowLooksRecording | frontend/js/recording.js:765-797 | a practice start whose MediaRecorder.start throws fails, yet leaves the flag and the timer on, so the next start is ignored |
| Practice.StopPracticeReleases | frontend/js/recording.js:796-862 | a stop releases the stored stream, stops the timer and shows "00:00", keeping the chunks for onstop; a stop while not recording changes nothing; streams leaked by earlier starts stay held |
| Practice.StartPracticeLeaks | frontend/js/recording.js:709-715 | a start leaks a stream exactly when it is granted a new one while the stored one is still live, and leaks no context |
| Practice.PracticeLeaksPersist | frontend/js/recording.js:742-850 | chunk delivery and timer ticks keep the counts of leaked streams and contexts |
| Practice.FailThenStartLeaksStream | frontend/js/recording.js:703-811 | a start that fails after the grant, a start that succeeds, then a stop: the stop releases only the second stream and the first stays held |
| Practice.PracticeOnStopEffect | frontend/js/recording.js:748-763 | onstop replaces the WAV with the decoded audio's WAV exactly when there is a capture that decodes; otherwise the WAV stays, and a failed decode leaves one more AudioContext open; nothing else changes |
| Practice.EmptyTakeKeepsPreviousWav | frontend/js/recording.js:703-763 | a take with no chunk leaves the previous take's WAV in place |
| Practice.PracticeDeliver | frontend/js/recording.js:742-746 | delivered data appends exactly the non-empty chunks, in order |
| Practice.PracticeTimerReadsBack | frontend/js/recording.js:838-850 | the practice timer text reads back as the whole seconds elapsed |
| Practice.PracticeTimerIsFormatTime | frontend/js/recording.js:844-848 | the practice timer text is formatTime of the whole seconds |
| Practice.PracticeInitialValid | frontend/js/recording.js:696-701 | the initial practice state has no empty chunk and no malformed WAV |
| Practice.StartPracticePreservesValid | frontend/js/recording.js:703-794 | a start keeps the practice invariant |
| Practice.PracticeOnDataPreservesValid | frontend/js/recording.js:742-746 | ondataavailable keeps the practice invariant |
| Practice.PracticeOnStopPreservesValid | frontend/js/recording.js:748-763 | onstop keeps the practice invariant |
| Practice.StopPracticePreservesValid | frontend/js/recording.js:796-832 | a stop keeps the practice invariant |
| Practice.PracticeRecorder.constructor | frontend/js/recording.js:696-701 | the fields hold the initial practiceRecordingState |
| Practice.PracticeRecorder.StartPracticeRecording | frontend/js/recording.js:703-794 | the fields and outcome are those of a practice start, and the invariant holds |
| Practice.PracticeRecorder.OnDataAvailable | frontend/js/recording.js:742-746 | only a non-empty chunk is appended |
| Practice.PracticeRecorder.OnStop | frontend/js/recording.js:748-763 | the fields are those of the practice onstop |
| Practice.PracticeRecorder.StopPracticeRecording | frontend/js/recording.js:796-832 | the fields are those of a practice stop |
| Practice.PracticeRecorder.OnTimerTick | frontend/js/recording.js:844-849 | a tick changes only the practice timer text |
| ProblemWords.ExtractProblemWords | frontend/js/app.js:373-421 | the loops compute the specification: at most 15 trimmed, distinct, non-empty words from error_words, problem_words and errors |
| ProblemWords.PushReferenceWords | frontend/js/app.js:384-391 | the error_words loop pushes every non-blank reference word, in order, without an includes check |
| ProblemWords.PushNew | frontend/js/app.js:394-401 | a loop with the includes check pushes each non-blank word that is not there yet |
| ProblemWords.PushErrorWords | frontend/js/app.js:404-415 | the errors loop runs that loop over each entry's words, in turn |
| ProblemWords.DedupeElems | frontend/js/app.js:418 | deduplication keeps exactly the values of its input |
| ProblemWords.DedupeNoDuplicates | frontend/js/app.js:418 | deduplication leaves no value twice |
| ProblemWords.DedupeFirstOccurrence | frontend/js/app.js:418 | deduplication keeps the order of first occurrences |
| ProblemWords.AddNewDedupe | frontend/js/app.js:394-415 | the includes check changes nothing after trimming and deduplicating: skipping a word already pushed gives the same result as pushing it |
| ProblemWords.NonEmptyKeeps | frontend/js/app.js:418 | every candidate is non-empty once trimmed, so the final filter removes nothing |
| ProblemWords.PushedIsCandidates | frontend/js/app.js:384-415 | the three loops with their includes checks give the same final words as pushing every candidate |
| ProblemWords.ProblemWordsShape | frontend/js/app.js:373-421 | at most 15 words, each trimmed and non-empty, none twice; no result without feedback |
| ProblemWords.ProblemWordsOrder | frontend/js/app.js:373-421 | each word is a trimmed candidate, in order of first occurrence among the trimmed candidates |
| ProblemWords.ProblemWordsComplete | frontend/js/app.js:373-421 | with at most 15 distinct trimmed candidates, every non-blank candidate appears in trimmed form |
| App.ShowPageSafe | frontend/js/app.js:12-112 | showPage, with the redirects of loadPageData and loadPracticeSession, shows a page the user may see, and it becomes the current page; an id with no element shows no page and keeps the current page; a permitted page asked for is the one shown |
| App.ShowPageGuards | frontend/js/app.js:15-27 | no user means the login page for a protected page, a non-administrator asking for admin gets the library, and a practice session with no current word ends on the practice page |
| App.BackTargetReachesHome | frontend/js/app.js:64-76 | going back always moves except at home, and three steps back reach home from anywhere |
| App.SelectPracticeWordsCounts | frontend/js/app.js:626 | the filter keeps each word practised fewer than three times, as often as it occurs, and drops every other |
| App.SelectPracticeWordsAppend | frontend/js/app.js:626 | the filter keeps the original order: filtering a concatenation is concatenating the filtered parts |
| App.SessionVisitsInOrder | frontend/js/app.js:740-759 | after k < n calls of nextWord on n words, the index is k |
| App.SessionEndsAfterLastWord | frontend/js/app.js:740-759 | the n-th call finishes the session and clears the list; no earlier call does |
| App.PracticeSession.constructor | frontend/js/app.js:8-9 | no words and index 0 |
| App.PracticeSession.StartPracticeSession | frontend/js/app.js:617-638 | no words, or no word needing practice, refuses and changes nothing; otherwise the selected words start at index 0 |
| App.PracticeSession.NextWord | frontend/js/app.js:740-759 | the fields and the finished flag are those of one step of the session |
| App.AnalyzeGuardOrder | frontend/js/app.js:852-883 | refusals come in the order no recording, no text, too short, and window.audioBlob wins over the recorder's blob |
| App.GuardsDisagree | frontend/js/app.js:880-883 | a recording of 1000 to 9999 bytes passes this check and is then refused by analyzeAudio as too short |
| App.RecordedWavThresholds | frontend/js/app.js:880-883 | the recorder's own WAV of n samples passes this check from n = 478 on, but is sent only for 4978 <= n <= 26214378 |
| Api.ParseIntRoundTrip | frontend/js/api.js:370 | parseInt reads an integer's own text back and ignores anything after it that does not continue the number |
| Api.ParseSigned | frontend/js/api.js:370 | a '-' before a magnitude parseInt reads negates it |
| Api.UpdateText | frontend/js/api.js:366-384 | the request is a PUT to "/admin/texts/" + the parsed id exactly when parseInt finds a number, else the "Invalid text ID" error |
| Api.UpdateTextPathReadsBack | frontend/js/api.js:366-384 | the path names the parsed id, so "12abc" updates text 12 |
| Api.UpdateTextWithIntegerId | frontend/js/api.js:366-384 | an integer id is used as it is |
| Api.AnalyzeAudioGuards | frontend/js/api.js:164-181 | a request is made exactly for a blob of 10000 to 52428800 bytes, and the refusals come in the order empty, short, large |
| Api.AnalyzeAudioIgnoresType | frontend/js/api.js:169-171 | the MIME type only decides whether a warning is logged, never whether the blob is sent |
| Api.AnalyzeAudioForm | frontend/js/api.js:183-195 | the form carries text_id, the blob as recording.wav, and the fixed fields in order, with user_id last when there is a user |
| Api.RecordedWavIsSent | frontend/js/api.js:164-181 | the recorder's WAV of n samples is sent exactly when 4978 <= n <= 26214378, and never draws the type warning |
| Api.SaveProblemWordsSuccess | frontend/js/api.js:261-295 | the result always has a defined success: the server's when it sent one, true for any other reply, false when the request failed or the reply was null |
| Api.SaveProblemWordsDefaults | frontend/js/api.js:276-283 | without saved_words in the reply the caller's words are reported saved, and a non-empty server message is kept |
| Api.GetMyWords | frontend/js/api.js:297-304 | the reply, or the empty list when the request fails |
| Api.GetWordStats | frontend/js/api.js:328-340 | the reply, or all four counts zero when the request fails |
| Api.GetAdminStats | frontend/js/api.js:395-406 | the reply, or all three counts zero when the request fails |
| Utils.ClockFields | frontend/js/utils.js:159-165 | for s >= 0 the fields are whole minutes and whole seconds below 60, and together they make the whole seconds |
| Utils.FormatTimeReadsBack | frontend/js/utils.js:159-165 | NaN or a negative number shows "00:00"; otherwise the text reads back as the whole seconds, with two-digit seconds below 60 after the colon |
| Utils.TruncateText | frontend/js/utils.js:168-171 | a text that fits is returned unchanged; a longer one becomes its first maxLength - 3 characters (none if that is negative) and "..." |
| Utils.TruncateIdempotent | frontend/js/utils.js:168-171 | truncating twice is truncating once |
| Utils.TruncateBounded | frontend/js/utils.js:168-171 | a result is never longer than the larger of maxLength and 3, and a cut text keeps a prefix of the original |
| Utils.CommaBeforeIsPattern | frontend/js/utils.js:175 | the computed insertion test matches the regular expression `\B(?=(\d{3})+(?!\d))` at every position |
| Utils.FormatPrefixStrips | frontend/js/utils.js:175 | formatNumber only inserts commas: deleting commas from the output gives the input without its commas |
| Utils.FormatNumberStrips | frontend/js/utils.js:175 | the same, for the whole string |
| Utils.CommaOnDigits | frontend/js/utils.js:175 | on a digit string, a comma goes before position p exactly when p is not the first and a multiple of three digits follows |
| Utils.FormatNumberDigits | frontend/js/utils.js:175 | on a digit string formatNumber groups by three from the right |
| Utils.GroupThousandsStrips | frontend/js/utils.js:175 | the grouped digits give back the digits |
| Utils.GroupThousandsLength | frontend/js/utils.js:175 | the grouping does not start with a comma and has one comma per complete group of three after the first digit |
| Utils.FormatNumberNat | frontend/js/utils.js:175 | a non-negative integer's decimal digits are grouped by three from the right |
| Utils.DigitBlock | frontend/js/utils.js:175 | a digit block with no word character before it and no digit after it is formatted as the digits alone would be |
| Utils.FormatNumberGroupsFraction | frontend/js/utils.js:175 | as written, "a.f" is formatted as the grouped a, ".", and the grouped f: the fraction's digits get commas too |
| Utils.FormatNumberDecimalExample | frontend/js/utils.js:175 | "1234.5678" becomes "1,234.5,678" |
| Utils.FormatNumberIntegerPartKeepsFraction | frontend/js/utils.js:175 | the corrected grouping groups the integer digits by three from the right and keeps the fraction unchanged |
| Utils.IsValidEmailMatchesPattern | frontend/js/utils.js:181-184 | accepted exactly when the text is a non-empty part, '@', a non-empty part, '.', a non-empty part, with no whitespace and no '@' in any part |
| Utils.IsValidPassword | frontend/js/utils.js:187-189 | null or undefined are invalid, and a string is valid exactly when it has at least 6 characters (the empty-string test is subsumed) |
| Utils.MatchWordCharsIff | frontend/js/utils.js:192-195 | the bounded repetition matches exactly the letters, digits and underscores of length within its bounds |
| Utils.IsValidUsernameIff | frontend/js/utils.js:192-195 | a username is valid exactly when it has 3 to 20 characters, all ASCII letters, digits or underscores |

## Left out

- NaN, Infinity, -0 and floating-point rounding are not modelled: samples and times are reals, and formatTime's NaN case is an explicit alternative.
- Api.ParseIntRoundTrip: covers integers written in decimal. It does not cover parseInt's loss of precision above 2^53, its hexadecimal prefix, or the exponent form that Number.prototype.toString uses for large values.
- The validators and parseInt take strings (or null/undefined for isValidPassword). JavaScript's coercion of other values to strings is not modelled.
- Strings are sequences of characters. UTF-16 surrogate pairs, which change `length` and `substring` in JavaScript, are not distinguished.
- App.ShowPageSafe: requires the document to have login, library and practice pages. The source assumes the same: showPage and the loaders redirect to them without checking.
- Asynchrony is not modelled. Awaits, promise ordering and timers are single steps, and the platform's answers (codec support, getUserMedia, the audio graph, MediaRecorder.start, decodeAudioData) are parameters. The MediaRecorder constructor's answer follows from codec support.
- Not modelled:
  - the DOM: status texts, button states, classes, scrolling, the navigation links' highlight;
  - drawing on the canvas;
  - console logging;
  - showError, showSuccess and showInfo message text.
- Network requests and apiFetch are left out. Each API call is modelled by how it ended: a reply, a null reply, or a thrown error.
- Lifecycle.Tick: requires `now` not to be earlier than the start time. Clocks going backwards are not modelled.
- Practice.PracticeTick: requires `now` not to be earlier than the start time, for the same reason.
- Practice.StartPractice: assumes the #practice-timer element exists. Without it startPracticeTimer schedules no interval, while the model sets timerRunning.
- Lifecycle.Begin and Recorder.MainRecorder.StartAudioVisualization: assume the #audio-visualizer element exists. Without it startAudioVisualization schedules no frame, while the model sets animationRunning whenever there is an analyser.
- Lifecycle.ErrorName: a throwing MediaRecorder.start is named "InvalidStateError". The platform may also use NotSupportedError or SecurityError, which get the same generic advice.
- Navigation never stops a recording. The source reads `window.recordingState`, which recording.js never assigns, so ShowPage does not touch the recorder.
- checkRecordingSupport, updateRecordingUI, updateFileInfo and savePracticeRecording are not modelled. They only render state or download a file.
- The page loaders are modelled only by their redirects: recording without a text and results without an analysis go to the library, and loadPracticeSession without a current word goes to practice. What they fetch and render is not modelled.
- Two animation loops can run at once when a start follows a recorder error before the next frame. The model keeps one animation flag, because the older loop ends by itself at its first frame after the stop.
- admin.js is not part of this model.
- The saveProblemWords success field is modelled as a boolean. A server reply whose `success` is some other defined value is passed through unchanged.
- Deliberate as-written behaviours, kept in the model and stated as lemmas, not corrected:
  - after onerror the recording timer keeps running (Lifecycle.OnErrorKeepsTimer);
  - a start after a recorder error orphans the running interval, which nothing clears (Lifecycle.RestartAfterErrorLeaksInterval);
  - a new initialisation after the track ended leaves the old AudioContext open (Lifecycle.RestartAfterTrackEndLeaksContext);
  - a practice start that fails after the microphone was granted keeps the stream (Practice.FailedStartKeepsStream), and the next start leaks it (Practice.FailThenStartLeaksStream);
  - a MediaRecorder.start that throws leaves the recording flag set, in both recorders (Lifecycle.StartThrowLeavesFlagSet, Practice.PracticeStartThrowLooksRecording);
  - a WAV conversion whose decode fails leaves its AudioContext open, for both recorders (Lifecycle.FailedDecodeLeaksContext, Practice.PracticeOnStopEffect);
  - after the platform stops the recorder, isRecording can stay true (Lifecycle.StuckAfterPlatformStop);
  - the 1000-byte check of analyzeAndShowResults and the 10000-byte check of analyzeAudio disagree (App.GuardsDisagree);
  - updateText accepts ids with trailing text (Api.UpdateTextPathReadsBack);
  - a null reply from /words/save gives success false (Api.SaveProblemWordsSuccess).

## Findings

| source | as written | input that shows it | evidently intended | confidence | as-written member | corrected member |
|---|---|---|---|---|---|---|
| frontend/js/utils.js:175 | the thousands pattern also matches inside the fraction, because the fraction is a digit run of its own that ends the string | 1234.5678 gives "1,234.5,678" | group only the integer part: "1,234.5678" | not executed | Utils.FormatNumberGroupsFraction, Utils.FormatNumberDecimalExample | Utils.FormatNumberIntegerPartKeepsFraction |
