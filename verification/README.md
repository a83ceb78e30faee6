# Kinesis Video Streams producer: verified model

The Kinesis Video Streams producer SDK for C++ wraps a C library. The logic that is its own runs once per
frame, per file and per callback: timestamps that must stay continuous across files and retries, a resume
index moved by acknowledgements, a status shared between threads, a registry of native handles, a credential
cache and a growing buffer. This project models that logic and proves what it promises over whole runs.

| module | models |
|---|---|
| `Words` | 32 and 64 bit words, the signed trip through `chrono::nanoseconds`, status codes, ordered-map iteration |
| `Epochs` | the history of stamped frames, cut into epochs by end of stream; shared by both upload samples |
| `FileUpload` | the callbacks of the appsink upload sample, as functions of the shared data |
| `FileUploadProtocol` | whole upload runs: callbacks and retry driver as one step system with its history |
| `FileUploadAcks` | which persisted acknowledgements move the resume index |
| `FileUploadDriver` | termination of the retry driver |
| `FileUploadSession` | the upload sample as written: fields, callbacks, loops, proved to be runs of the protocol |
| `AudioVideoUpload` | the two-track sample: shared timestamps and the two-phase end of stream |
| `StartBarrier` | the two-track start barrier with its condition variable |
| `KvsSinkStatus` | the error protocol of the sink element, load and store of the status as separate steps |
| `KvsSinkFrames` | the frame path of the sink element |
| `KvsSinkPads` | pads, track ids and declared tracks of the sink element |
| `ThreadSafeMaps`, `Registry` | the handle registry of the producer and the once-only free |
| `Credentials` | the credential cache and its unit conversions |
| `PutFrameHelpers` | the growing frame buffer |
| `ResumeLoop` | the upload loop of the sink-element sample |

Concurrency is modelled by steps: each atomic part of a callback is one step, a run is any sequence of steps,
and results are stated for every run. Calls into the C library appear as their outcome (`initOk`,
`stopSyncOk`, `putOk`, a fresh handle), and a status code appears as the three bits its macros reveal.
Fields that the callbacks update in place are classes; their methods are proved to do what the step functions
do, and the loops of the drivers are proved to produce runs of the step systems.

## Where the code does not keep the obvious promise

Each of these has a lemma with the input, and the condition under which the promise holds.

- A file whose upload ends without a key frame inherits an older frame's timestamp, and ACKs of older frames
  can then pass it (`FileUploadAcks.KeylessUploadIsPassedByForeignAck`). This is so exactly when a key frame
  put since the last reset has the nonzero timecode of the last key frame stamped and the files in front can
  be passed (`KeylessEndCanBePassedIff`); in runs without such an end the promise holds.
- In realtime mode a fatal error stored between the load of a retriable error and the store of success is
  overwritten; it sticks if and only if it is stored outside that window (`KvsSinkStatus`).
- The start barrier lets a frame through too early after a first sample outside PLAYING, for live sources, and when
  the next file follows a time-out without a reset (`StartBarrier.LostGuardPutsEarly`); `CalmIsExact` states the
  exact condition of an upload, `LiveIsEarlyIff` the exact runs of a live source.
- Two tracks whose end-of-stream callbacks overlap move base_pts not at all, so the next file shares their time
  window (`AudioVideoUpload.OverlapHappens`), exactly in that case (`LaterFilesLieAboveIff`).
- With two tracks the first video key frame is not flagged, so a first file with a single one records 0, which no
  ACK matches (`AudioVideoUpload.RecordedIsLastFlagged`).
- A failed stream creation with only an audio pad leaves the default track marked as audio; a video pad added
  before the next attempt is then declared with the wrong kind, exactly in that case
  (`KvsSinkPads.ReadyDeclaresEveryFrameIff`).
- Releasing one of two pads before READY leaves the media type as it was, so a track without a pad is declared
  (`KvsSinkPads.ReleasedTrackStaysDeclared`), exactly when the media type no longer fits (`EveryTrackIsFedIff`).
- A frame buffer request above 2863311530 bytes wraps the new size below the request (`PutFrameHelpers`).
- `getAt` finds nothing but index 0, so it meets its documentation only there and out of range
  (`ThreadSafeMaps.AtIsDocumentedIff`).

## Model

Methods without a row are proved equal to a step function; lemmas without a row are steps of
a proof.

| member | source | states |
|---|---|---|
| Words.SignedTripIsExact | src/gstreamer/gstkvssink.cpp:1252-1262 | sending an unsigned stamp through signed nanoseconds and back loses nothing, so a frame's time in units is its nanosecond time floored |
| Epochs.FramedImpliesSeparated | samples/kvs_gstreamer_sample.cpp:299-324 | frames inside tiled windows are separated between epochs in nanoseconds, units and milliseconds |
| FileUpload.PutIff | samples/kvs_gstreamer_sample.cpp:361-372 | exactly which buffers are put, by their flags, times and mapping; the flow is an error exactly after a failing status |
| FileUpload.LiveFrame | samples/kvs_gstreamer_sample.cpp:380-399 | a live frame with absolute times lies as far after the start as its buffer after the first one, if and only if that fits 64 bits; otherwise it keeps its own time; valid decoding times are kept, missing ones follow 1 ms after the last |
| FileUploadProtocol.EpochsNeverOverlap | samples/kvs_gstreamer_sample.cpp:385-393 | in every run with aborts, resumes and dropped buffers of any kind, frames between two ends of stream lie in [start + base, start + base + max], and frames of different epochs stay strictly apart after every rounding |
| FileUploadProtocol.FramesKeepTheirPlace | samples/kvs_gstreamer_sample.cpp:385-393 | in every run each frame is stamped start + the lengths of all epochs before its own, 1 ms after each, + the presentation time its buffer came with, an epoch being as long as its latest buffer |
| FileUploadProtocol.StartedOncePerSession | samples/kvs_gstreamer_sample.cpp:350-359 | codec data is submitted exactly once per session, before its first frame, in every run |
| FileUploadProtocol.ReportStopsIff | samples/kvs_gstreamer_sample.cpp:243-266 | a reported failure that can be retried or not recovered from stops the upload until the driver takes over, no frame being stamped; any other report changes nothing |
| FileUploadProtocol.RunKeepsTimeInv | samples/kvs_gstreamer_sample.cpp:1154-1214 | the timestamp invariant holds after every run of frames, ends, errors, acknowledgements and driver steps |
| FileUploadProtocol.BudgetRulesOutOverflow | samples/kvs_gstreamer_sample.cpp:385-388 | a bound on the presentation times of frames that are not dropped and the number of ends, known before the run, excludes every 64-bit overflow |
| FileUploadProtocol.KthFrameDecodesAtKMilliseconds | samples/kvs_gstreamer_sample.cpp:376-383 | the k-th frame that is not dropped, counted across files, retries and aborts, decodes at k ms |
| FileUploadProtocol.PutFramesCarryTheLoggedTimes | samples/kvs_gstreamer_sample.cpp:314-424 | the log keeps the presentation time, key flag and file of each stamped buffer, and the frame handed to the producer carries exactly the logged times in 100 ns units |
| FileUploadAcks.IndexPassesOnlyOwnCompletion | samples/kvs_gstreamer_sample.cpp:277-292 | in runs without an exposed end, the resume index is monotone and passes a file only on the persisted ACK of the last key frame of a completed upload of that file in this session; every frame of the session with that timecode is of that file and upload |
| FileUploadAcks.EveryPassedFileWasAcknowledged | samples/kvs_gstreamer_sample.cpp:277-292 | every file below the resume index was passed by such an acknowledgement at some point of the run |
| FileUploadAcks.MatchIsOwnCompletion | samples/kvs_gstreamer_sample.cpp:281-286 | under the invariants neither an ACK of another file nor a timestamp recorded in an earlier session or without a key frame can match |
| FileUploadAcks.MatchIffRecordedTimecode | samples/kvs_gstreamer_sample.cpp:283-286 | an ACK matches if and only if it names the nonzero timecode of the last key frame recorded for the resume file |
| FileUploadAcks.RunKeepsAckInv | samples/kvs_gstreamer_sample.cpp:299-312 | the invariants linking records, sessions, epochs and files, and making records without a key frame harmless, hold after every run |
| FileUploadAcks.StepKeepsInv | samples/kvs_gstreamer_sample.cpp:1156-1212 | every callback and driver step keeps the invariant over records, sessions, epochs and files |
| FileUploadAcks.StepKeepsKeyless | samples/kvs_gstreamer_sample.cpp:299-312 | a record made without a key frame stays unable to pass its file: no frame of the session has its timecode, or a file in front is stuck |
| FileUploadAcks.KeylessEndCanBePassedIff | samples/kvs_gstreamer_sample.cpp:281-308 | the condition is exact: an upload ending without a key frame can be passed by ACKs of frames put since the last reset if and only if such a frame has the nonzero timecode of the last key frame stamped and the files in front can be passed; those ACKs then name frames stamped before the upload began |
| FileUploadAcks.KeylessUploadIsPassedByForeignAck | samples/kvs_gstreamer_sample.cpp:307-308 | a conforming run up to an exposed end without a key frame, and two ACKs the environment may then send for the first file's frame, the second of which passes a file with no frame |
| FileUploadDriver.DriverIsBounded | samples/kvs_gstreamer_sample.cpp:1152-1214 | under any interleaving with acknowledgements the driver makes boundedly many steps, at most 3 n pipeline runs and at most 3 passes |
| FileUploadDriver.StepUsesRank | samples/kvs_gstreamer_sample.cpp:1155-1214 | each driver step lowers the measure (passes left, files left); no callback raises it |
| FileUploadDriver.DriverDecides | samples/kvs_gstreamer_sample.cpp:1156-1212 | the driver stops if a pipeline cannot start, on a fatal failure, on the confirmed last file, or after the last failed pass, and only then; it starts a new pass, status cleared and all else kept, on a retriable failure, an unconfirmed last file or nothing to upload while passes are left; else it goes on to the next file |
| FileUploadDriver.NothingAfterTheEnd | samples/kvs_gstreamer_sample.cpp:1173-1191 | after a fatal failure or the confirmed last file no later pipeline starts and no frame is stamped, whatever happens |
| FileUploadDriver.RetryResumes | samples/kvs_gstreamer_sample.cpp:1199-1212 | after a pass that failed with passes left, the next pipeline is that of the resume file, in a new session with the failure forgotten |
| FileUploadDriver.FinishedForAReason | samples/kvs_gstreamer_sample.cpp:1152-1214 | every finished run has the event that ended it, and for one of those reasons |
| FileUploadDriver.AckThrowsIffAllPassed | samples/kvs_gstreamer_sample.cpp:281-283 | over every run a persisted ACK makes the handler throw exactly when all files have been passed |
| FileUploadSession.CustomData.OnNewSample | samples/kvs_gstreamer_sample.cpp:332-424 | the field updates and the frame are those of the protocol's frame step |
| FileUploadSession.CustomData.OnEndOfStream | samples/kvs_gstreamer_sample.cpp:299-312 | moves base, clears the maximum and records the key frame time as the protocol's end step does |
| FileUploadSession.CustomData.OnFragmentAck | samples/kvs_gstreamer_sample.cpp:277-292 | moves the index exactly on a match, and throws exactly when all files are persisted |
| FileUploadSession.CustomData.OnStreamError | samples/kvs_gstreamer_sample.cpp:243-266 | stores the status exactly when the pipeline is to be terminated |
| FileUploadSession.CustomData.RunPipeline | samples/kvs_gstreamer_sample.cpp:1028-1086 | a pipeline run with any callbacks is a run of the protocol |
| FileUploadSession.CustomData.UploadPass | samples/kvs_gstreamer_sample.cpp:1156-1197 | one pass over the unpersisted files is a run of the protocol, and asks for a retry exactly if the pass failed in a way that a retry can help |
| FileUploadSession.CustomData.UploadFiles | samples/kvs_gstreamer_sample.cpp:1152-1214 | the driver terminates, its execution is a run of the protocol that ends for one of the stated reasons, it starts at most 3 n pipelines, and it exits with 1 exactly when one of them failed to start |
| AudioVideoUpload.AdvancesAtMostOncePerPipeline | samples/kvs_gstreamer_audio_video_sample.cpp:557-577 | in every interleaving of the two end-of-stream callbacks base moves at most once, and when both are done exactly once if and only if they did not overlap |
| AudioVideoUpload.RecordingStep | samples/kvs_gstreamer_audio_video_sample.cpp:564-573 | the step that moves base also records the file's timestamp, and only when neither track has frames left |
| AudioVideoUpload.StepKeepsEosInv | samples/kvs_gstreamer_audio_video_sample.cpp:557-577 | the invariant of the two-phase end of stream is kept by every step |
| AudioVideoUpload.EpochsNeverOverlap | samples/kvs_gstreamer_audio_video_sample.cpp:479-490 | without 64-bit overflow, in every interleaving, frames of both tracks lie in the windows of their epochs and epochs stay apart after rounding |
| AudioVideoUpload.FramesKeepTheirPlace | samples/kvs_gstreamer_audio_video_sample.cpp:479-488 | frames of both tracks are stamped start + the lengths of all epochs before their own, 1 ms after each, + their own presentation time |
| AudioVideoUpload.StampedIff | samples/kvs_gstreamer_audio_video_sample.cpp:428-472 | exactly which buffers are stamped and put, by their flags, times and mapping, and which of them are flagged |
| AudioVideoUpload.BudgetRulesOutOverflow | samples/kvs_gstreamer_audio_video_sample.cpp:479-487 | a bound on the presentation times of frames that are not dropped and the number of ends excludes every 64-bit overflow |
| AudioVideoUpload.LaterFilesLieAboveIff | samples/kvs_gstreamer_audio_video_sample.cpp:557-577 | when both tracks have ended and some frame lies in the epoch of the pipeline, the frames so far stay below all frames of all later files, after every rounding, if and only if the two end-of-stream callbacks did not overlap; after an overlap the next file shares the window |
| AudioVideoUpload.OverlapHappens | samples/kvs_gstreamer_audio_video_sample.cpp:557-577 | a run in which the callbacks overlap, base does not move, and the next file's first frame does not lie above the first file |
| AudioVideoUpload.RecordedIsLastFlagged | samples/kvs_gstreamer_audio_video_sample.cpp:466-488 | what an end of stream records is the time of the last flagged key frame; exactly the first of all video key frames of the run is not flagged, so with a single one 0 is recorded |
| AudioVideoUpload.CustomData.OnNewSample | samples/kvs_gstreamer_audio_video_sample.cpp:428-504 | fields and frame are those of the frame step, the first video key frame unflagged |
| AudioVideoUpload.CustomData.LoadEos | samples/kvs_gstreamer_audio_video_sample.cpp:558 | the load is the first step of the two-phase end of stream: it leaves the shared fields alone and the thread holding what it loaded |
| AudioVideoUpload.CustomData.StoreEos | samples/kvs_gstreamer_audio_video_sample.cpp:558-577 | the rest of the callback is the second step, acting on what was loaded, whatever was stored since |
| StartBarrier.NoFrameBeforeAllCodecData | samples/kvs_gstreamer_audio_video_sample.cpp:386-423 | uploading, no frame of any track is put before codec data of both tracks, in every interleaving and for every time-out, if no track delivers first outside PLAYING while the other has delivered nothing and no file follows a half-started one without a reset |
| StartBarrier.GuardIsExact | samples/kvs_gstreamer_audio_video_sample.cpp:386-423 | uploading, a state leads to no early frame if and only if every started track outside its callback faces an open barrier |
| StartBarrier.CalmIsExact | samples/kvs_gstreamer_audio_video_sample.cpp:386-423 | that condition is exact: the first event that violates it, and no other, lets a conforming continuation put a frame too early |
| StartBarrier.StepKeepsGuardedIff | samples/kvs_gstreamer_audio_video_sample.cpp:386-423 | a step keeps the guard exactly when it meets the condition, and no frame is early behind the guard |
| StartBarrier.GuardCanBeLost | samples/kvs_gstreamer_audio_video_sample.cpp:401-417 | the guard fails after a first sample outside PLAYING, after one of a live source, and when the next file follows a time-out without a reset |
| StartBarrier.LostGuardPutsEarly | samples/kvs_gstreamer_audio_video_sample.cpp:401-417 | in each of these cases the track's next buffer that is not dropped is put too early |
| StartBarrier.LiveIsEarlyIff | samples/kvs_gstreamer_audio_video_sample.cpp:407-462 | for a live source, in every interleaving, PLAYING or not, a frame is put too early if and only if one track delivers a buffer that is put, not as its first, before the other has delivered any |
| StartBarrier.OpenBarrierPutsAll | samples/kvs_gstreamer_audio_video_sample.cpp:386-418 | once both tracks have submitted codec data, in every continuation without a reset every buffer offered is put, no track between callbacks is held, and none stops |
| StartBarrier.OpenBarrierPutsEverySample | samples/kvs_gstreamer_audio_video_sample.cpp:390 | with both tracks between callbacks these are all samples that are not dropped |
| StartBarrier.SampleIsAnswered | samples/kvs_gstreamer_audio_video_sample.cpp:390-413 | a sample passes, is held or returns without a frame exactly by what codec data has been submitted; none is refused |
| StartBarrier.WaiterIsAnswered | samples/kvs_gstreamer_audio_video_sample.cpp:411-418 | a waiter passes once both tracks have submitted, time-out or not; else it fails on a time-out and waits on until then |
| StartBarrier.AllStartedMeansBoth | samples/kvs_gstreamer_audio_video_sample.cpp:348-362 | the size-and-flags test is true exactly when both tracks have submitted codec data |
| StartBarrier.AllStreamStarted | samples/kvs_gstreamer_audio_video_sample.cpp:348-362 | the loop that stops at the first false flag computes that test |
| StartBarrier.Barrier.Enter | samples/kvs_gstreamer_audio_video_sample.cpp:386-413 | marks the track started, always, and decides whether to put, return or wait |
| StartBarrier.Barrier.Resume | samples/kvs_gstreamer_audio_video_sample.cpp:411-418 | a waiter puts if all have started, fails on a time-out, and otherwise waits on |
| KvsSinkStatus.OfflineFailStop | src/gstreamer/gstkvssink.cpp:1297-1322 | if the library reports failures only, then after a failing status is stored offline nothing restores success, at most the frame in flight is put, and every later load ends in an error |
| KvsSinkStatus.OfflineStopsAfterReport | src/gstreamer/KvsSinkStreamCallbackProvider.cpp:35-36 | the same for any run from the start, split where the report is stored |
| KvsSinkStatus.OfflineNeverResets | src/gstreamer/gstkvssink.cpp:1310-1315 | offline runs never reach the reset of the stream |
| KvsSinkStatus.LoadedStatusDecides | src/gstreamer/gstkvssink.cpp:1307-1322 | success passes, a retriable failure in realtime resets first, any other failure is an error |
| KvsSinkStatus.EveryBufferIsAnswered | src/gstreamer/gstkvssink.cpp:1297-1322 | in every interleaving each buffer is passed on or answered by an error, exactly once |
| KvsSinkStatus.RecoverableReportsAreIgnored | src/gstreamer/KvsSinkStreamCallbackProvider.cpp:35 | reports of recoverable errors make no difference to any run |
| KvsSinkStatus.FatalFailStop | src/gstreamer/gstkvssink.cpp:1297-1322 | in realtime as offline, while a fatal status sticks at most the buffer in flight passes, the stream is not reset, and every other buffer returns an error |
| KvsSinkStatus.ResetsConsumeReports | src/gstreamer/gstkvssink.cpp:1307-1322 | between any two points of any run the resets are covered by the non-recoverable reports in between and one pending failure |
| KvsSinkStatus.ResetsNeverExceedReports | src/gstreamer/gstkvssink.cpp:1307-1322 | over a whole run stream resets never exceed non-recoverable reports |
| KvsSinkStatus.NewReportBetweenResets | src/gstreamer/gstkvssink.cpp:1316-1321 | each further reset needs a report stored after the previous one |
| KvsSinkStatus.FatalSticksIffOutsideWindow | src/gstreamer/gstkvssink.cpp:1297-1320 | a stored fatal status survives every continuation without milder reports if and only if no reset is between its load and its store |
| KvsSinkStatus.RealtimeCanLoseAFatalError | src/gstreamer/gstkvssink.cpp:1316-1321 | a realtime run in which a fatal report is lost and no buffer fails |
| KvsSinkStatus.CustomData.OnStreamError | src/gstreamer/KvsSinkStreamCallbackProvider.cpp:27-41 | stores and signals exactly the non-recoverable statuses |
| KvsSinkStatus.CustomData.Decide | src/gstreamer/gstkvssink.cpp:1307-1318 | error, reset or go on, decided by the loaded status alone |
| KvsSinkFrames.PtsIsOneTranslation | src/gstreamer/gstkvssink.cpp:1376-1391 | in every realtime session, buffers without a valid presentation time included, each valid one gets floor((start + pts - first) / 100) over the integers if and only if that time fits 64 bits, although the code wraps |
| KvsSinkFrames.PtsKeepsOrderAndGaps | src/gstreamer/gstkvssink.cpp:1376-1391 | order is kept and gaps are exact up to one unit between any two frames of a session with valid presentation times |
| KvsSinkFrames.LatchedOnce | src/gstreamer/gstkvssink.cpp:1376-1384 | the first mapped buffer latches the clock and the first one with a valid presentation time latches that, which may be different buffers; no other buffer changes either |
| KvsSinkFrames.OfflinePtsIsShifted | src/gstreamer/gstkvssink.cpp:1339-1346 | offline frames decode at 0 and are presented at their time plus the file start time if and only if the sum fits 64 bits |
| KvsSinkFrames.PutIff | src/gstreamer/gstkvssink.cpp:1324-1356 | exactly which buffers are put, by their flags, times and mapping; dropped ones leave no trace |
| KvsSinkFrames.FrameIdentity | src/gstreamer/gstkvssink.cpp:1352-1396 | a frame keeps its pad's track, starts a fragment if it is no delta and not audio beside video, and its signal carries its own time |
| KvsSinkFrames.OriginalTimes | src/gstreamer/gstkvssink.cpp:1343-1389 | with original times both times of a frame are its decoding time, or 2 ms after the last where that is missing |
| KvsSinkFrames.EverySessionStartsAfresh | src/gstreamer/gstkvssink.cpp:1674-1675 | whatever went before, the transition to READY starts indices at 0 and a translation of its own |
| KvsSinkFrames.DecodingTimesAscend | src/gstreamer/gstkvssink.cpp:1339-1351 | if valid incoming decoding times do not go below the last recorded one and synthesis does not overflow, realtime decoding times never go down over a run; a valid one is kept, and a synthesised one is exactly 2 ms above the last recorded one |
| KvsSinkFrames.SignalAccounting | src/gstreamer/gstkvssink.cpp:1264-1286 | metric signals number the successful key frames, plus one if the first successful frame was not one; exactly the first says it is first |
| KvsSinkFrames.FirstSignalIsFirstGoodPut | src/gstreamer/gstkvssink.cpp:1274-1280 | the signal that says it is first is emitted for the first successful put |
| KvsSinkFrames.IndexIsPutsBefore | src/gstreamer/gstkvssink.cpp:1354-1396 | indices are 0, 1, 2, ... modulo 2^32; dropped and unmapped buffers take none |
| KvsSinkFrames.CustomData.HandleBuffer | src/gstreamer/gstkvssink.cpp:1324-1396 | the fields, the frame put with its track id, and the signal are those of the frame step |
| KvsSinkFrames.CustomData.KeyFlag | src/gstreamer/gstkvssink.cpp:1358-1375 | with audio and video only video frames start a fragment, otherwise every non-delta frame does |
| KvsSinkPads.ReadyDeclaresEveryPadIff | src/gstreamer/gstkvssink.cpp:418-478 | after any requests, releases and failed transitions in NULL, the transition to READY declares every pad's track with its own kind if and only if there is no video pad or no failed attempt had created an audio-only stream |
| KvsSinkPads.ReadyDeclaresEveryFrameIff | src/gstreamer/gstkvssink.cpp:1352-1396 | under the same condition, and only then, every frame put in any run of buffers from the pads carries a declared track id of its pad's kind |
| KvsSinkPads.MarkedAudioIffAttempted | src/gstreamer/gstkvssink.cpp:427 | the default track is marked as audio exactly after a failed attempt that created an audio-only stream |
| KvsSinkPads.FirstReadyDeclaresEveryPad | src/gstreamer/gstkvssink.cpp:1684-1687 | hence always when the first stream creation is the successful one |
| KvsSinkPads.FailedAudioAttemptMislabelsVideo | src/gstreamer/gstkvssink.cpp:422-427 | a run in which a failed audio-only creation makes a video pad's track be declared as audio |
| KvsSinkPads.RunKeepsPadInv | src/gstreamer/gstkvssink.cpp:1418-1604 | at most one pad per kind, counters equal to the collect list, and track id 2 only with audio and video, after every run |
| KvsSinkPads.RequestAddsUnlessPresent | src/gstreamer/gstkvssink.cpp:1436-1489 | a request is refused exactly if there is a pad of its kind, and else adds one under a new name, counts it and sets the media type to that of the pads there are |
| KvsSinkPads.ReleaseRemovesExactly | src/gstreamer/gstkvssink.cpp:1503-1523 | a release takes exactly the named pad off the list, leaves the others in order, and lowers the counter of its kind |
| KvsSinkPads.ReleasedKindCanBeRequested | src/gstreamer/gstkvssink.cpp:1436-1523 | a kind whose pad was released can be requested again |
| KvsSinkPads.ReadyNumbersTracks | src/gstreamer/gstkvssink.cpp:1536-1604 | the transition to READY gives audio beside video track 2, every other pad track 1, and leaves the rest of each pad alone |
| KvsSinkPads.EveryTrackIsFedIff | src/gstreamer/gstkvssink.cpp:418-475 | every declared track has a pad if and only if there is a pad and the media type still fits the pads; a release does not take a track back |
| KvsSinkPads.ReleasedTrackStaysDeclared | src/gstreamer/gstkvssink.cpp:1498-1523 | two requests and a release after which a track without a pad is declared |
| KvsSinkPads.KvsSink.RequestNewPad | src/gstreamer/gstkvssink.cpp:1418-1496 | refuses a second pad of a kind and otherwise adds, counts and sets the media type |
| KvsSinkPads.KvsSink.ReleaseNamedPad | src/gstreamer/gstkvssink.cpp:1498-1523 | the loop over the collect list is that release |
| KvsSinkPads.KvsSink.InitTrackData | src/gstreamer/gstkvssink.cpp:1525-1604 | the loop gives every pad the track id of its kind when both kinds are present |
| KvsSinkPads.KvsSink.CreateVideoStream | src/gstreamer/gstkvssink.cpp:418-478 | the declared tracks, and the lasting mark left by an audio-only definition |
| ThreadSafeMaps.ThreadSafeMap.Put | src/ThreadSafeMap.h:23-26 | an existing entry wins |
| ThreadSafeMaps.AtIsDocumentedIff | src/ThreadSafeMap.h:42-66 | the lookup returns the documented value, that at the index in iteration order or nothing, if and only if the index is at most 0 or out of range |
| ThreadSafeMaps.ThreadSafeMap.GetAt | src/ThreadSafeMap.h:47-66 | the loop, whose counter never advances, finds the entry with the least key for index 0 and nothing for any other index |
| Registry.RegistryIsSafe | src/KinesisVideoProducer.cpp:135-225 | after every run of creations, repeated frees, drops and mass frees each key is its stream's handle, the registered streams are the live ones, and each stream released at most once and only a live native stream |
| Registry.MassFreeIsFinal | src/KinesisVideoProducer.cpp:218-225 | the destructor's mass free leaves nothing registered or alive, with one native release per stream, and every later free or drop does nothing |
| Registry.FreeManyTakesOff | src/KinesisVideoProducer.cpp:200-216 | each iteration of the mass free removes one entry and makes one native release |
| Registry.FreeTwiceIsFreeOnce | src/KinesisVideoStream.cpp:151-156 | freeing a stream again changes nothing |
| Registry.CreatedStreamIsRegisteredIffFresh | src/KinesisVideoProducer.cpp:152-153 | a created stream is registered if and only if its handle names no live stream |
| Registry.FailedCreationLeavesNoTrace | src/KinesisVideoProducer.cpp:142-150 | a failed creation registers nothing and releases no native stream |
| Registry.KinesisVideoProducer.CreateStream | src/KinesisVideoProducer.cpp:135-156 | a failed creation frees the new object and registers nothing |
| Registry.KinesisVideoProducer.FreeStream | src/KinesisVideoProducer.cpp:182-198 | saves the handle, frees once, and removes the saved key; throws on null |
| Registry.KinesisVideoProducer.FreeStreams | src/KinesisVideoProducer.cpp:200-216 | the loop empties the registry, freeing the first stream each time |
| Credentials.ReturnedCredentialIsFresh | src/Auth.cpp:16-42 | for every clock with now + grace below 2^64 ns and whatever expiration the provider sets, the maximum included, each returned credential was fetched in this call or stays valid for the grace period |
| Credentials.UnforcedRefreshesAreSpread | samples/kvs_gstreamer_sample.cpp:198-216 | with a provider that grants a fixed lifetime, and expirations below 2^64 ns, unforced refreshes lie more than lifetime - grace - 1 s apart, forced ones between them or not |
| Credentials.ExpirationCoversFetches | src/Auth.cpp:32-42 | the cached expiration never lags behind an earlier fetch |
| Credentials.MaximumPassesThroughMinusOne | src/Auth.h:24 | the maximum expiration becomes -1 second and comes back as itself |
| Credentials.ScaledMaximum | src/Auth.cpp:109 | scaling the maximum by any unit k wraps to 2^64 - k |
| Credentials.StaticExpirationReported | src/Auth.cpp:158 | static credentials report an expiration of 2^64 - 10^7 units |
| Credentials.StaticCredentialsFetchedOnce | src/Auth.h:213-219 | static credentials are fetched by the first call and the forced ones and by no other, for all clock values with now + grace up to 2^64 - 10^9 ns |
| Credentials.CredentialProvider.RefreshCredentials | src/Auth.cpp:32-42 | fetches and sets the rotation time exactly when the refresh condition holds |
| PutFrameHelpers.BufferHoldsRequestIff | src/common/PutFrameHelper.cpp:34-41 | the returned buffer holds the request if and only if it did before or the request is at most 2863311530 |
| PutFrameHelpers.GrowthIsGeometric | src/common/PutFrameHelper.cpp:34-41 | for bounded requests every buffer holds its request, k reallocations grow it by at least (3/2)^k, and the size stays within the bound and a half |
| PutFrameHelpers.ReallocationsAreLogarithmic | src/common/PutFrameHelper.cpp:34-41 | hence 3^k s0 is at most 2^k times the bound and a half |
| PutFrameHelpers.PutFrameHelper.GetFrameDataBuffer | src/common/PutFrameHelper.cpp:34-41 | reallocates only when the request is larger and returns a buffer of the recorded size |
| ResumeLoop.UploadFiles | samples/kvssink_gstreamer_sample.cpp:806-861 | for any outcomes the loop ends, uploads files 0 to k - 1 exactly once each in order with k the resume index, fails at most 3 times, makes no attempt after one that may not be retried, and reads the index in range when retries are exhausted |
| ResumeLoop.UploadPass | samples/kvssink_gstreamer_sample.cpp:810-844 | a pass uploads from the resume index on and stops at its first failure |
| ResumeLoop.InOrderUploadsOnceEach | samples/kvssink_gstreamer_sample.cpp:810-838 | attempts that each take the first file not yet uploaded upload every file once, in order |

## Left out

- The C library: content view, rollback, ACK purging and stream state machine are not part of this model; its
  calls appear as outcomes chosen by the environment.
- GStreamer pipeline construction, caps negotiation, codec data contents, device probing, argument parsing,
  logging, environment variables, network and TLS: I/O and foreign calls.
- The read of the file path for logging at samples/kvs_gstreamer_sample.cpp:1203; its index is in range only
  while a file is unpersisted.
- FileUploadProtocol.Step: the frame callback is one step at its status load, so a frame in flight while an
  error is stored counts as earlier; the split load and store is modelled for the sink element instead.
- FileUploadSession.CustomData.RunPipeline: callbacks arrive while a pipeline runs; the step system also lets
  acknowledgements and errors arrive between pipelines, and its results cover those.
- FileUpload.LiveFrame: states one live frame against the latched time; the whole-session form is proved for the
  sink element. Event metadata put after key frames is not modelled.
- FileUploadProtocol.EpochsNeverOverlap: assumes valid presentation times of frames that are not dropped and no
  64-bit overflow, the latter derived from a budget in `BudgetRulesOutOverflow`.
- FileUploadAcks.IndexPassesOnlyOwnCompletion: assumes ACKs that name key frames put since the last reset, and no
  exposed end of an upload without a key frame; the second assumption is shown to be exact.
- AudioVideoUpload.EpochsNeverOverlap: assumes no 64-bit overflow, derived from a budget in
  `BudgetRulesOutOverflow`; running time conversion of live sources is not modelled.
- AudioVideoUpload.RecordedIsLastFlagged: acknowledgements and the driver of the two-track sample are not
  modelled. The ACK handler and error handler are those of the single-track sample, the driver differs in
  ignoring a pipeline that failed to start, and because the first key frame is unflagged the single-track
  theorem about the resume index does not carry over unchanged.
- KvsSinkStatus.OfflineFailStop: assumes that the library reports failures only.
- KvsSinkFrames.DecodingTimesAscend: assumes that valid incoming decoding times do not go below the last recorded
  one and that synthesis does not overflow.
- Credentials.UnforcedRefreshesAreSpread: assumes clock and expirations below 2^64 ns; a larger expiration wraps in
  the comparison. The static providers, which set such an expiration, have their own result.
- Credentials.ReturnedCredentialIsFresh: assumes now + grace below 2^64 ns.
- Registry.RegistryIsSafe: stream objects are named by creation order, so reference counts and aliasing of
  shared pointers are not captured; assumes live handles are fresh and native release invalidates the handle,
  as the C library does. The copy constructor of the stream class is not modelled.
- ThreadSafeMaps.ThreadSafeMap.GetAt: one atomic operation, as the mutex makes it; `getMap`, which bypasses
  the mutex, is not modelled.
- KvsSinkFrames.PtsIsOneTranslation: assumes that the system clock does not read 2^64 - 1 ns, the mark of an
  invalid time; buffers without a valid presentation time have no promised stamp.
- KvsSinkFrames.CustomData.HandleBuffer: a null buffer only logs, and exceptions thrown by the metrics getters
  are not modelled.
- KvsSinkPads.ReadyDeclaresEveryPadIff: `gst_element_add_pad` failures, pads requested after READY, reuse of
  an element after an audio-only session, codec ids and content types, and the delays between attempts to
  create the stream are not modelled; a refused template changes nothing.
- Credentials.RefreshesExactly: the grace period is a parameter, its constants belong to the C library; key
  strings and the serialized token are not modelled.
- The multistream, file-uploader and intermittent samples, `KvsSinkUtil`, `StreamDefinition`, the callback
  tables, property accessors and metrics wrappers: forwarding or easier variants of what is modelled.
