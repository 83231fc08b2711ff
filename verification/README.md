# Camera streamer verification

A Dafny 4.11 model of the streaming core of the Android camera streamer: the Java class
`Camera2GstStreamer`, the native GStreamer/RTSP layer in `camera2_gst_streamer.cpp`, the gRPC status
fan-out in `StrmOutGrpcServer` and the flag printer. Check it with `dafny verify dfyconfig.toml`.

| file | subject |
|---|---|
| `KeyframeGate.dfy` | which encoder buffers reach which media, as an interleaving of lock-granular steps |
| `StreamerLifecycle.dfy` | start, stop, encoder restart and error threads around the streamer's monitor |
| `MediaRefs.dfy` | ownership of the native module's references on the appsrcs and the cached pipeline |
| `StatusFanout.dfy` | status broadcasts, priming of new subscribers, cancels at any moment |
| `SessionClock.dfy` | normalised timestamps, the clamped EMA of the A/V offset, corrected audio timestamps |
| `PcmTiming.dfy` | PCM buffer durations on both sides |
| `Arithmetic.dfy`, `Options.dfy` | multiplication and division facts, the option type |
| `LaunchString.dfy`, `Strings.dfy` | the Java launch-string builder and the native detection that reads it back |
| `AudioSpecificConfig.dfy` | the audio setters and the two AAC `codec_data` encoders |
| `OpusProbe.dfy` | the ordered map that stands for a bounded queue, and the latency window |
| `FlagsText.dfy` | the greedy flag printer |

Each concurrent part is a state machine (`State`, `Action`, `Enabled`, `Next`, `Run`): a step is one
locked section or one unlocked access, every choice of another thread, the platform or GStreamer is
an argument of the action, and theorems quantify over every valid run. Beside each state machine
stands a class with the fields of the source; its methods are proved to compute exactly the steps,
so the theorems about runs are theorems about the methods.

What the proofs brought to light:

* The gate does not survive an encoder restart by itself: `restartEncoder` sets `mRunning` only after
  the new encoder has been started, so frames delivered before that are lost without the gate being
  armed. For encoders that begin with CSD and then a key frame, everything that may follow stays
  decodable exactly when no media is up, or a key frame request is pending at that moment, or the new
  encoder's first frame has not been lost by then (`KeyframeGate.NewEncoderIff`). With nothing assumed
  of the encoder the conditions are those of `KeyframeGate.RestartKeepsDecodableIff` and
  `KeyframeGate.FirstFrameAfterRestartIff`. Every `start()`, the first one or one after a `stop()`, has
  the same window but is safe, since a media that came up before `mRunning` was set still has its
  request pending (`KeyframeGate.StopAndStartDecode`).
* `MAX_ENCODER_RESTARTS` bounds the restarts since the counter was last reset by three, plus one: a
  fourth can be scheduled exactly when `start()` resets the counter between `onError`'s increment and
  its decision (`StreamerLifecycle.FourthRestartIff`, with a run from the construction of the
  streamer in `StreamerLifecycle.FourRestartsSinceReset`).
* After a `start()` that goes ahead something can escape release, because its only reference is
  overwritten, exactly when encoder, camera or camera thread was still held at the call
  (`StreamerLifecycle.StartEscapesIff`): over an encoder whose restart is pending, or between a failed
  restart and the stop thread it spawned (`StreamerLifecycle.StartBeforeStopThreadEscapes`).
* `nativeGstPipelineDestroy` releases the slots before it joins the loop thread, so a media that is
  configured in between leaves a reference in `s_appsrc` when destroy returns
  (`MediaRefs.DestroyWindowKeepsReference`). The slots are empty after destroy exactly when every
  object installed in that window was cleared again (`MediaRefs.DestroyEmptiesIff`).
* That no pipeline reference is lost rests on the event order that the comment in
  `on_client_play_request` relies on: it holds exactly when no play request finds another pipeline
  cached (`MediaRefs.NothingLostIff`).
* The EMA comes to rest up to 6 ns below a constant offset and never above it
  (`SessionClock.EmaAtRest`).
* The launch string is read back correctly for every `int` rate and channel count, but the two AAC
  `codec_data` encoders agree only under the condition of `AudioSpecificConfig.CodecDataAgreesIff`;
  the setters guarantee it.

Code and comments disagree in two places; the model follows the code. The comment above
`Cam2Streamer_SetAudioLatencyDebug` says that the switch gates logging only, while both probes return
early when it is off. The comment on the flag printer assumes a table sorted from lowest to highest
value; the code works, and the theorems hold, for every order.

## Model

| member | source | states |
|---|---|---|
| `KeyframeGate.EveryMediaDecodes` | app/src/main/java/com/crestron/streamout/Camera2GstStreamer.java:1431-1494 | in every interleaving from the first lines of start() on, with any number of stop() and start() calls, and with encoder restarts where the new encoder has not delivered a frame yet or the state is safe, every P/B frame handed to a media, except that media's first buffer, chains back over consecutive encoder frames of the same media to a key frame, and with a CSD cached at configure follows a re-injected CSD and a later key frame; frames arrive in encoder order |
| `KeyframeGate.StopAndStartDecode` | app/src/main/java/com/crestron/streamout/Camera2GstStreamer.java:898-973 | the same for runs of start() and stop() without encoder restarts, with nothing assumed of encoders or states |
| `KeyframeGate.TeardownKept` | app/src/main/java/com/crestron/streamout/Camera2GstStreamer.java:954-973 | from the end of a stop() on, whatever other threads do, also between its unlock and its join, no media is up or one whose request is pending and whose CSD is known |
| `KeyframeGate.GateRun` | app/src/main/java/com/crestron/streamout/Camera2GstStreamer.java:1402-1498 | the invariant of all this, weaker while a new encoder has delivered no frame, is kept by every run that keeps to these conditions |
| `KeyframeGate.NextKeeps` | app/src/main/cpp/camera2_gst_streamer.cpp:2604-2651 | the invariant behind it holds across each step of the callback, the media lifecycle, client connects, flow control, mRunning.set(true) in start() and releaseEncoder(), and across the end of a restart in a safe state |
| `KeyframeGate.RunKeeps` | app/src/main/cpp/camera2_gst_streamer.cpp:1476-1508 | and so across every run, from any state that satisfies it |
| `KeyframeGate.CleanDelta` | app/src/main/java/com/crestron/streamout/Camera2GstStreamer.java:1484-1494 | a P/B frame that continues a decodable log is decodable and lets the next one be so |
| `KeyframeGate.CleanKey` | app/src/main/java/com/crestron/streamout/Camera2GstStreamer.java:1470-1483 | a key frame makes a log decodable, given a CSD before it |
| `KeyframeGate.BoundedResync` | app/src/main/java/com/crestron/streamout/Camera2GstStreamer.java:1438-1490 | if of the next B frames after a sync request one is a key frame, then in every interleaving, restarts included, the forced-IDR counter stays in 0..149, a closed gate withholds at most B frames, and while mRunning is set at most 149 + B P/B frames have passed since the last key frame (or since mRunning was set); without a restart consecutive key frames of one media are at most that far apart |
| `KeyframeGate.KeyGapsMeaning` | app/src/main/java/com/crestron/streamout/Camera2GstStreamer.java:1438-1452 | the bookkeeping of key-frame gaps bounds the distance of any two consecutive key frames |
| `KeyframeGate.HandleKeeps` | app/src/main/java/com/crestron/streamout/Camera2GstStreamer.java:1402-1498 | one whole callback, with any actions of other threads in its three gaps, keeps every media decodable |
| `KeyframeGate.HandedExactly` | app/src/main/java/com/crestron/streamout/Camera2GstStreamer.java:1455-1494 | without interference: exactly which buffers one callback adds to the live media, for CSD, key and P/B output and each combination of pending request, cached CSD, closed gate and flow control |
| `KeyframeGate.KeyFrameReachesMedia` | app/src/main/cpp/camera2_gst_streamer.cpp:2644-2651 | a key frame emitted while a media stays up always reaches it, as the last buffer handed over |
| `KeyframeGate.ConnectedClientStartsAtKey` | app/src/main/cpp/camera2_gst_streamer.cpp:2015-2026 | a client that connects while a media is up, at any point before the flag is consumed: whatever follows while the media stays up, it is handed no P/B frame before a key frame, and the cached CSD, if there is one, in front of all; while the flag is consumed and no key frame has come, the gate is closed and a sync request is outstanding |
| `KeyframeGate.PeriodicRequest` | app/src/main/java/com/crestron/streamout/Camera2GstStreamer.java:1438-1452 | a key frame starts the count anew, and of the P/B frames behind it exactly the 150th makes a sync request |
| `KeyframeGate.ReleasedCsdNeverInjected` | app/src/main/java/com/crestron/streamout/Camera2GstStreamer.java:1813 | after releaseEncoder no cached CSD is injected into any media until the next encoder delivers one |
| `KeyframeGate.LostFrameBreaksChain` | app/src/main/java/com/crestron/streamout/Camera2GstStreamer.java:984-1005 | a P/B frame behind a lost frame has no chain to any key frame |
| `KeyframeGate.ResumeSafeIff` | app/src/main/java/com/crestron/streamout/Camera2GstStreamer.java:984-1005 | when mRunning is set again while a media is up, all continuations stay decodable if and only if a new encoder has not delivered a frame yet, or the CSD for the media is there and a request is pending, the gate is closed, or no frame is missing from the log; holds for encoders that begin with CSD and key frame, and for encoders of which nothing is assumed |
| `KeyframeGate.NewEncoderIff` | app/src/main/java/com/crestron/streamout/Camera2GstStreamer.java:984-1005 | for any interleaving of a restart, the new encoder beginning with CSD and then a key frame: all continuations stay decodable if and only if no media is up, a request is pending at mRunning.set(true), or the first frame has not been lost by then |
| `KeyframeGate.RestartKeepsDecodableIff` | app/src/main/java/com/crestron/streamout/Camera2GstStreamer.java:984-1005 | for any interleaving of a restart that loses a frame: all continuations stay decodable if and only if no media is up, or a request is pending at mRunning.set(true) and the CSD for it is there |
| `KeyframeGate.FirstFrameAfterRestartIff` | app/src/main/java/com/crestron/streamout/Camera2GstStreamer.java:984-1005 | the same once the next frame is known: it must be a key frame or a request must be pending, and the CSD must be there |
| `KeyframeGate.StreamGate.HandleEncoderOutput` | app/src/main/java/com/crestron/streamout/Camera2GstStreamer.java:1402-1498 | the callback over the mutable fields, with other threads in its gaps, ends in exactly the state the step functions give |
| `KeyframeGate.StreamGate.OnOutputBufferAvailable` | app/src/main/java/com/crestron/streamout/Camera2GstStreamer.java:1402-1498 | the same call for its caller: no media is left with a frame it cannot decode |
| `KeyframeGate.StreamGate.NativePushEncodedBuffer` | app/src/main/cpp/camera2_gst_streamer.cpp:2604-2651 | no appsrc: nothing; flow control closed: a P/B frame is dropped and a key frame requested; otherwise the buffer is handed over |
| `KeyframeGate.StreamGate.NativeConsumeKeyframeRequest` | app/src/main/cpp/camera2_gst_streamer.cpp:3259-3268 | returns the flag and clears it, nothing else changes |
| `KeyframeGate.StreamGate.OnMediaConfigure` | app/src/main/cpp/camera2_gst_streamer.cpp:1476-1508 | a new media starts empty, with data wanted and a key frame requested; an audio-only media leaves the video appsrc alone |
| `KeyframeGate.StreamGate.DropAppsrc` | app/src/main/cpp/camera2_gst_streamer.cpp:1060-1087 | the live media ends and flow control closes |
| `KeyframeGate.StreamGate.OtherThread` | app/src/main/cpp/camera2_gst_streamer.cpp:2015-2026 | each action of another thread (client connected, need-data, enough-data, configure, unprepared, destroy, init, stop): which flags it raises or clears, what it does to the media, and what it leaves alone |
| `KeyframeGate.StreamGate.FinishStart` | app/src/main/java/com/crestron/streamout/Camera2GstStreamer.java:933-943 | setting mRunning at the end of start(), the first one or one after a stop(), keeps the invariant, whatever medias came up and frames were lost before |
| `KeyframeGate.StreamGate.ReleaseEncoder` | app/src/main/java/com/crestron/streamout/Camera2GstStreamer.java:1802-1817 | the cached CSD, the closed gate and the counter are gone; the invariant is kept |
| `KeyframeGate.StreamGate.FinishRestart` | app/src/main/java/com/crestron/streamout/Camera2GstStreamer.java:1003 | whatever follows stays decodable if and only if the new encoder has not delivered a frame yet or the state was safe |
| `StreamerLifecycle.StopIsFinal` | app/src/main/java/com/crestron/streamout/Camera2GstStreamer.java:954-973 | after a completed stop() with no later start(), in every interleaving of restart, stop and error threads, the streamer never counts as running again, and once no thread is left everything is released |
| `StreamerLifecycle.NextKeeps` | app/src/main/java/com/crestron/streamout/Camera2GstStreamer.java:898-1005 | the lifecycle invariant (what is held at each point of each monitor method, who will release what a late restart creates) survives each step of each thread |
| `StreamerLifecycle.OneServer` | app/src/main/cpp/camera2_gst_streamer.cpp:3039-3076 | server, loop and context are set and cleared together, two servers never coexist, and with the monitor free the Java flag equals the existence of the server |
| `StreamerLifecycle.NeverAbandoned` | app/src/main/java/com/crestron/streamout/Camera2GstStreamer.java:1336-1355 | in every run, with the monitor free and the streamer not running, either everything is released or a restart thread, a stop thread or a pending decision exists, also beyond the restart limit |
| `StreamerLifecycle.StopThreadsDrain` | app/src/main/java/com/crestron/streamout/Camera2GstStreamer.java:1347-1353 | left to themselves the spawned stop threads end one after the other, with everything released and none left |
| `StreamerLifecycle.OldSessionMasksFailure` | app/src/main/java/com/crestron/streamout/Camera2GstStreamer.java:1591-1593 | a capture session that cannot be configured stops start() only if no older session is left |
| `StreamerLifecycle.RestartBudget` | app/src/main/java/com/crestron/streamout/Camera2GstStreamer.java:1336-1355 | since the counter's last reset at most three restarts are scheduled, plus one decision that was pending at the reset |
| `StreamerLifecycle.FourthRestartIff` | app/src/main/java/com/crestron/streamout/Camera2GstStreamer.java:1336-1355 | after a start() that resets the counter a fourth restart can be scheduled, each error coming from a held encoder that reports only one, if and only if a decision of onError was pending at the reset |
| `StreamerLifecycle.FourRestartsSinceReset` | app/src/main/java/com/crestron/streamout/Camera2GstStreamer.java:1336-1355 | such a run exists from the construction of the streamer on: the stream comes up, its encoder fails, start() resets the counter, and three more encoders fail once each |
| `StreamerLifecycle.StartEscapesIff` | app/src/main/java/com/crestron/streamout/Camera2GstStreamer.java:898-947 | after a start() that goes ahead some continuation without another start() overwrites what is held if and only if encoder, camera or camera thread is held at the call |
| `StreamerLifecycle.StartBeforeStopThreadEscapes` | app/src/main/java/com/crestron/streamout/Camera2GstStreamer.java:995-1002 | a start() between a failed restart and its stop thread can lose the camera thread |
| `StreamerLifecycle.NoneEscapesRelease` | app/src/main/java/com/crestron/streamout/Camera2GstStreamer.java:1786-1817 | if every start() that goes ahead finds encoder, camera and camera thread released, no encoder, surface, session, camera, camera thread or recorder is overwritten while held in any run |
| `StreamerLifecycle.NothingEscapesIff` | app/src/main/java/com/crestron/streamout/Camera2GstStreamer.java:1786-1817 | in any run nothing is overwritten while held if and only if no step creates what is held |
| `StreamerLifecycle.StartOverEncoderOverwrites` | app/src/main/java/com/crestron/streamout/Camera2GstStreamer.java:898-947 | every start() that goes ahead over a held encoder loses it as soon as it creates its own |
| `StreamerLifecycle.FailedEncoderStaysHeld` | app/src/main/java/com/crestron/streamout/Camera2GstStreamer.java:1336-1355 | and a fatal encoder error leaves exactly that: not running, the encoder held, its restart pending |
| `StreamerLifecycle.CameraStreamer.Start` | app/src/main/java/com/crestron/streamout/Camera2GstStreamer.java:898-947 | ignored when running or unavailable; succeeds when each part does, then running with a live server and what was opened; after any failure everything is released |
| `StreamerLifecycle.CameraStreamer.Stop` | app/src/main/java/com/crestron/streamout/Camera2GstStreamer.java:954-973 | releases everything, wherever codec errors and camera losses fall |
| `StreamerLifecycle.CameraStreamer.RestartEncoder` | app/src/main/java/com/crestron/streamout/Camera2GstStreamer.java:984-1005 | running again exactly if the new encoder is connected to a camera that was still there, otherwise a stop thread is on its way; the server is untouched; never running after a completed stop |
| `StreamerLifecycle.CameraStreamer.OnCodecError` | app/src/main/java/com/crestron/streamout/Camera2GstStreamer.java:1336-1355 | running is cleared; a fatal error is counted and awaits its decision, any other spawns a stop thread; nothing held changes |
| `StreamerLifecycle.CameraStreamer.ActOnError` | app/src/main/java/com/crestron/streamout/Camera2GstStreamer.java:1342-1354 | up to the third attempt exactly one restart thread is spawned, from the fourth on exactly one stop thread; the invariant and the budget are kept |
| `MediaRefs.EveryReferenceOwned` | app/src/main/cpp/camera2_gst_streamer.cpp:1060-1084 | in every interleaving nothing is released twice or used after its last release, and every reference belongs to the media, a slot, a local of the loop thread, a dump holder or the record of overwritten pointers |
| `MediaRefs.NextConserves` | app/src/main/cpp/camera2_gst_streamer.cpp:1476-1480 | each single step keeps that ledger balanced |
| `MediaRefs.VideoSourceInstalled` | app/src/main/cpp/camera2_gst_streamer.cpp:1476-1480 | from the lookup on, and until the next configure with video, unprepared or destroy, s_appsrc is the source that was found, or the old one if the media has no video |
| `MediaRefs.AudioSourceInstalled` | app/src/main/cpp/camera2_gst_streamer.cpp:1595-1596 | the same for s_audio_appsrc |
| `MediaRefs.PlayedPipelineCached` | app/src/main/cpp/camera2_gst_streamer.cpp:1733-1741 | a played pipeline stays the cached one until another is played, unprepared or destroy |
| `MediaRefs.FaultsAreSeen` | app/src/main/cpp/camera2_gst_streamer.cpp:3017-3030 | use or release of an object that is gone raises the fault which the ledger results exclude |
| `MediaRefs.NothingLostIff` | app/src/main/cpp/camera2_gst_streamer.cpp:1721-1741 | no pipeline reference is lost if and only if no play request finds another pipeline cached |
| `MediaRefs.OrderGuards` | app/src/main/cpp/camera2_gst_streamer.cpp:1721-1741 | the order unprepared(old), or a destroy that no play request straddles, before play-request(new) implies that guard |
| `MediaRefs.ReferencesConserved` | app/src/main/cpp/camera2_gst_streamer.cpp:1595-1596 | under that order the module's references on each object are exactly its slots, locals and dump holders |
| `MediaRefs.DumpHoldsPipeline` | app/src/main/cpp/camera2_gst_streamer.cpp:3239-3255 | a dump's pipeline stays alive until the dump lets go, whatever unprepared and destroy do meanwhile |
| `MediaRefs.DestroyEmptiesIff` | app/src/main/cpp/camera2_gst_streamer.cpp:3017-3065 | for anything other threads do between the unlock and the join of destroy: all slots are empty when it returns if and only if no object was installed without a later release of the slots |
| `MediaRefs.DestroyWindowKeepsReference` | app/src/main/cpp/camera2_gst_streamer.cpp:3017-3065 | a configure between the unlock and the join of destroy leaves its appsrc in the slot after destroy, still accounted for |
| `MediaRefs.NativeModule.OnMediaUnprepared` | app/src/main/cpp/camera2_gst_streamer.cpp:1060-1084 | all three slots are empty afterwards and the ledger balances |
| `MediaRefs.NativeModule.OnMediaConfigure` | app/src/main/cpp/camera2_gst_streamer.cpp:1476-1480 | each slot holds the object the media brought, or what it held before; old references are released exactly when replaced; the ledger balances |
| `MediaRefs.NativeModule.CachePlayingPipeline` | app/src/main/cpp/camera2_gst_streamer.cpp:1721-1741 | the played pipeline is cached with one reference however many clients play; one is lost exactly when another pipeline was cached; the appsrcs are untouched |
| `MediaRefs.NativeModule.DestroyLockedSection` | app/src/main/cpp/camera2_gst_streamer.cpp:3017-3060 | all slots are released and the ledger balances |
| `MediaRefs.NativeModule.RefFullPipeline` | app/src/main/cpp/camera2_gst_streamer.cpp:3273-3279 | hands out the cached pipeline with a reference of its own, or nothing |
| `MediaRefs.NativeModule.RefAppsrcs` | app/src/main/cpp/camera2_gst_streamer.cpp:404-407 | hands a dump both appsrcs with references of its own |
| `StatusFanout.SubscribersSeeEverything` | app/src/main/java/com/crestron/streamout/StrmOutGrpcServer.java:320-368 | between critical sections every subscriber that neither cancelled nor failed has its snapshot followed by every broadcast since registration in order, and its last message for its id is the current status; one that left saw a prefix of that |
| `StatusFanout.NextKeeps` | app/src/main/java/com/crestron/streamout/StrmOutGrpcServer.java:48-81 | every subscriber stays level, unprimed or next in line across each step, also in the middle of a broadcast from which clients are being removed |
| `StatusFanout.LatestOfIdeal` | app/src/main/java/com/crestron/streamout/StrmOutGrpcServer.java:48-57 | the snapshot stands for the whole history before registration as far as the subscriber's id is concerned |
| `StatusFanout.CancelledGetsNothing` | app/src/main/java/com/crestron/streamout/StrmOutGrpcServer.java:320-345 | a client that has cancelled is sent nothing any more, also if it is still on the list or in the middle of a broadcast |
| `StatusFanout.HandledCancelIsFinal` | app/src/main/java/com/crestron/streamout/StrmOutGrpcServer.java:346-368 | once its cancel handler has run, a client is never on the list again |
| `StatusFanout.StatusHub.StreamStatusFromNative` | app/src/main/java/com/crestron/streamout/StrmOutGrpcServer.java:59-81 | one broadcast is recorded, becomes the current status of its id, and brings every live subscriber level, although clients may leave before each send |
| `StatusFanout.StatusHub.StreamoutWatchStatus` | app/src/main/java/com/crestron/streamout/StrmOutGrpcServer.java:313-368 | the new subscriber's first message is the current status of its id, before any later broadcast |
| `StatusFanout.StatusHub.Send` | app/src/main/java/com/crestron/streamout/StrmOutGrpcServer.java:320-345 | a cancelled or failing client leaves the list, any other gets the message |
| `SessionClock.SessionInvariant` | app/src/main/cpp/camera2_gst_streamer.cpp:2909-2946 | base and last video timestamp live and die together, an EMA exists only with a base, audio is stamped exactly when timed and a base exists, and then the correction is set and at most half a second |
| `SessionClock.VideoStamps` | app/src/main/cpp/camera2_gst_streamer.cpp:2730-2741 | the first timed frame of each session, also after a reconnect, is stamped 0, each later one by its distance from it |
| `SessionClock.VideoGaps` | app/src/main/cpp/camera2_gst_streamer.cpp:2730-2741 | gaps between camera timestamps of one session are preserved exactly |
| `SessionClock.UntimedIgnored` | app/src/main/cpp/camera2_gst_streamer.cpp:2730-2741 | CSD buffers and buffers without a positive timestamp leave the clock alone and get no timestamp |
| `SessionClock.AudioStamps` | app/src/main/cpp/camera2_gst_streamer.cpp:2909-2948 | in terms of the events: an audio buffer's sample is its offset from the last video frame, both counted from the session's first frame, clamped to 0..500 ms; its stamp is its distance from the first frame less the EMA, or 0 |
| `SessionClock.AudioStampsInEventTime` | app/src/main/cpp/camera2_gst_streamer.cpp:2909-2948 | for buffers not before the first frame the sample is the clamped difference of the two timestamps, and stamp and correction make up the distance from the first frame unless the stamp is 0 |
| `SessionClock.EmaWithinSamples` | app/src/main/cpp/camera2_gst_streamer.cpp:2914-2939 | the EMA stays between the smallest and the largest clamped sample of its session |
| `SessionClock.EmaError` | app/src/main/cpp/camera2_gst_streamer.cpp:122-128 | exact error recursion with truncation: the initial error times (17/20)^n plus at most 19/3 ns |
| `SessionClock.EmaConverges` | app/src/main/cpp/camera2_gst_streamer.cpp:122-128 | with a constant offset the error after n updates is at most (17/20)^n of the initial one plus 7 ns; 29 updates leave 1% plus 7 ns |
| `SessionClock.EmaAtRest` | app/src/main/cpp/camera2_gst_streamer.cpp:2914-2939 | the EMA stops moving if and only if it lies from 0 to 6 ns below the offset |
| `SessionClock.EmaFollowsRun` | app/src/main/cpp/camera2_gst_streamer.cpp:2914-2939 | in a run with a constant clamped offset the EMA is the n-fold update, n being the number of sampled audio buffers |
| `SessionClock.CorrectedAudioMonotone` | app/src/main/cpp/camera2_gst_streamer.cpp:2909-2948 | raw spacing at least D and a band of clamped offsets of width W with 3W <= 20D imply that corrected audio timestamps never go back over the session |
| `SessionClock.ResidualBound` | app/src/main/cpp/camera2_gst_streamer.cpp:2911-2948 | if the offsets of a session's audio buffers from the video frames before them lie in a band of width W inside 0..500 ms, every corrected audio timestamp lies within 17W/20 + 1 ns of the last video timestamp, saturation at 0 included |
| `SessionClock.AudioNeverGoesBack` | app/src/main/cpp/camera2_gst_streamer.cpp:2909-2948 | the monotonicity result in event timestamps: capture spacing at least D and clamped offsets in a band of width W with 3W <= 20D |
| `SessionClock.SessionTimer.ResetTimeline` | app/src/main/cpp/camera2_gst_streamer.cpp:1121-1123 | base, last video timestamp and EMA are cleared together |
| `SessionClock.SessionTimer.StampVideo` | app/src/main/cpp/camera2_gst_streamer.cpp:2730-2741 | the mutable fields follow the step function, the stamp is the specified one, the invariant is kept |
| `SessionClock.SessionTimer.StampAudio` | app/src/main/cpp/camera2_gst_streamer.cpp:2909-2948 | the same for audio |
| `PcmTiming.UnknownChannelsAreMono` | app/src/main/cpp/camera2_gst_streamer.cpp:2956-2964 | an unknown channel count counts as mono |
| `PcmTiming.DurationConserved` | app/src/main/cpp/camera2_gst_streamer.cpp:2956-2964 | summed native durations never exceed the exact playing time and fall short by less than 1 ns per buffer |
| `PcmTiming.NativeAgreesWithJava` | app/src/main/java/com/crestron/streamout/Camera2GstStreamer.java:2070-2089 | for whole-sample buffers the native duration lies 0 to 999 ns above the Java duration used to back-date the same buffer |
| `LaunchString.DetectionRoundTrip` | app/src/main/java/com/crestron/streamout/Camera2GstStreamer.java:1683-1751 | for every mode, codec, parser flag, audio codec and every int rate and channel count, native detection on the built string recovers mode, codec, rate, channels and the raw-PCM flag, with the defaults where there is no such branch |
| `LaunchString.DetectedIffExpected` | app/src/main/cpp/camera2_gst_streamer.cpp:2235-2254 | each key is found in the string if and only if the builder meant it |
| `LaunchString.NumberDetected` | app/src/main/cpp/camera2_gst_streamer.cpp:2261-2269 | the number behind the first "rate=(int)" or "channels=(int)" is the one the builder printed |
| `LaunchString.Nowhere` | app/src/main/java/com/crestron/streamout/Camera2GstStreamer.java:1635-1681 | no search key occurs by accident, not even across words or inside printed numbers and codec_data |
| `LaunchString.CodecDataCarried` | app/src/main/java/com/crestron/streamout/Camera2GstStreamer.java:1635-1643 | the first codec_data field of an AAC launch string holds exactly what the caps builder printed |
| `LaunchString.LaunchStringCarriesFormat` | app/src/main/cpp/camera2_gst_streamer.cpp:1567-1573 | after any setter calls, the codec_data found in the string denotes the bytes the native side rebuilds from what it detected, and a decoder reads from them AAC-LC, the stored rate in hertz and the stored channel count |
| `Strings.BehindIsFirst` | app/src/main/cpp/camera2_gst_streamer.cpp:2261-2269 | the search finds the first occurrence |
| `Strings.AbsentIff` | app/src/main/cpp/camera2_gst_streamer.cpp:2235-2254 | and fails exactly when there is none |
| `Strings.AtoiDecimal` | app/src/main/cpp/camera2_gst_streamer.cpp:2266-2268 | atoi inverts Java's decimal printing for every int, whatever non-digit follows |
| `AudioSpecificConfig.IndexInvertsTable` | app/src/main/java/com/crestron/streamout/Camera2GstStreamer.java:1607-1623 | the switch inverts the frequency table of ISO/IEC 14496-3 (index to hertz) and yields -1 exactly for rates that are not in it |
| `AudioSpecificConfig.CodecDataAgreesIff` | app/src/main/java/com/crestron/streamout/Camera2GstStreamer.java:1635-1643 | the bytes denoted by Java's hexadecimal codec_data equal the two native bytes if and only if the rate is in the table and the shifted channel count fits sixteen bits |
| `AudioSpecificConfig.NativeDecodes` | app/src/main/cpp/camera2_gst_streamer.cpp:1562-1573 | for any rate and any channel count below 16 the native bytes decode, by section 1.6.2.1 of ISO/IEC 14496-3 and the decoder's own table, to object type 2, the rate in hertz (44100 for one in no table) and the channel count |
| `AudioSpecificConfig.ReadHex4` | app/src/main/java/com/crestron/streamout/Camera2GstStreamer.java:1638 | reading the four printed digits gives back the two bytes, high byte first |
| `AudioSpecificConfig.SettersKeepSupported` | app/src/main/java/com/crestron/streamout/Camera2GstStreamer.java:646-688 | any sequence of setter calls keeps a supported rate and one or two channels |
| `AudioSpecificConfig.SettersKeepCodecData` | app/src/main/java/com/crestron/streamout/Camera2GstStreamer.java:646-688 | so both sides' codec_data agree and a decoder reads the stored rate in hertz and channel count |
| `AudioSpecificConfig.LastSetterWins` | app/src/main/java/com/crestron/streamout/Camera2GstStreamer.java:646-688 | after any calls, a supported value is stored and any other ignored, nothing else changes, and Opus forces 48 kHz |
| `AudioSpecificConfig.AudioSettings.SetAudioSampleRate` | app/src/main/java/com/crestron/streamout/Camera2GstStreamer.java:646-653 | a rate of the table is stored, any other changes nothing; a supported configuration stays supported |
| `AudioSpecificConfig.AudioSettings.SetAudioChannelCount` | app/src/main/java/com/crestron/streamout/Camera2GstStreamer.java:662-670 | mono and stereo are stored, anything else changes nothing |
| `AudioSpecificConfig.AudioSettings.SwitchOpus` | app/src/main/java/com/crestron/streamout/Camera2GstStreamer.java:681-688 | setUseOpus: enabling forces 48 kHz, disabling leaves the rate |
| `OpusProbe.SinkIsEnqueueIff` | app/src/main/cpp/camera2_gst_streamer.cpp:771-789 | the ordered map acts as a queue of 64 that drops its oldest entry if and only if the new timestamp exceeds all those in the map |
| `OpusProbe.EvictDropsOldest` | app/src/main/cpp/camera2_gst_streamer.cpp:783-786 | the capping loop drops oldest entries and keeps the newest 64 in order |
| `OpusProbe.MapIsBacklog` | app/src/main/cpp/camera2_gst_streamer.cpp:771-837 | with increasing timestamps and no overflow since the reset the map is exactly the inputs not yet paired, oldest first |
| `OpusProbe.KthOutputPairsWithKthInput` | app/src/main/cpp/camera2_gst_streamer.cpp:806-815 | and the k-th output is paired with the arrival of the k-th input |
| `OpusProbe.SumBounds` | app/src/main/cpp/camera2_gst_streamer.cpp:817-837 | count times minimum <= sum <= count times maximum |
| `OpusProbe.AverageInRange` | app/src/main/cpp/camera2_gst_streamer.cpp:817-837 | so the reported average lies between the reported minimum and maximum |
| `OpusProbe.ProbeState.SinkProbe` | app/src/main/cpp/camera2_gst_streamer.cpp:771-789 | the map never exceeds 64 entries and becomes the enqueued queue exactly for a newest timestamp |
| `OpusProbe.ProbeState.SrcProbe` | app/src/main/cpp/camera2_gst_streamer.cpp:791-837 | the oldest arrival leaves the map, its latency (0 on clock skew) joins the window, and exactly every hundredth one reports and clears the statistics, which are those of the window |
| `OpusProbe.ProbeState.Reset` | app/src/main/cpp/camera2_gst_streamer.cpp:760-769 | map and statistics are empty |
| `FlagsText.PickPartitions` | app/src/main/cpp/gst_element_print_properties.cpp:587-605 | every bit of the word is in exactly one shown value or in the residue, and nothing else is shown |
| `FlagsText.NothingFitsResidue` | app/src/main/cpp/gst_element_print_properties.cpp:587-605 | no non-zero table value fits into what is left over |
| `FlagsText.CompleteTableLeavesNothing` | app/src/main/cpp/gst_element_print_properties.cpp:587-605 | the residue is empty if each set bit has its own entry, whatever else the table holds and in whatever order |
| `FlagsText.PickedApart` | app/src/main/cpp/gst_element_print_properties.cpp:592-602 | two shown values never share a bit |
| `FlagsText.SubtractionClears` | app/src/main/cpp/gst_element_print_properties.cpp:599 | subtracting a contained value clears exactly its bits |
| `FlagsText.NumberInjective` | app/src/main/cpp/gst_element_print_properties.cpp:592 | comparing words as numbers compares their bits |
| `FlagsText.JoinSeparates` | app/src/main/cpp/gst_element_print_properties.cpp:594-597 | the text is the nicks in the order picked, with the separator between neighbours only |
| `FlagsText.FlagsToString` | app/src/main/cpp/gst_element_print_properties.cpp:573-610 | the nick of the first exact match, else the picked nicks from high to low position with separators in between, else "(none)" |

## Left out

- GStreamer, GLib, the RTSP server, MediaCodec, Camera2, AudioRecord, JNI and gRPC appear only as choices of the environment; the payload of buffers, mapping failures and push return codes are not modelled. "Handed over" means that the push was called.
- KeyframeGate.EveryMediaDecodes: a `releaseEncoder` by `stop()` in the middle of a callback is not modelled; `KeyframeGate.ResumeSafeIff` says exactly which restarts are safe. Two encoders that deliver at the same time, as after a start() over a pending restart, are not modelled.
- Timestamps: nanoseconds and rates are unbounded integers, so 64-bit wrap-around is not modelled; the EMA uses the exact 3/20 where the source uses the double 0.15.
- PcmTiming.DurationConserved: the fixed duration of AAC frames is not covered.
- StreamerLifecycle.CameraStreamer.RestartEncoder: one fatal codec error is decided at a time; an error may be reported at any time once a codec has been created, so that callbacks of released or overwritten codecs are included; a camera that answers after its opener stopped waiting is not modelled.
- Reference fields of the lifecycle are booleans grouped in records; the identity of encoder and camera objects is not modelled, only whether one is overwritten while held.
- StatusFanout.StatusHub.Send: what clients received, whether they cancelled and the history of broadcasts are fields of the hub only so that contracts can speak of them.
- LaunchString.DetectionRoundTrip: a launch string set by `setCustomPipeline` bypasses the builder and is not covered. Searches and numbers are those of `strstr` and `atoi` without overflow.
- AudioSpecificConfig.SettersKeepSupported: "Opus implies 48 kHz" is not an invariant of the code, since a later `setAudioSampleRate` may change the rate.
- FlagsText.FlagsToString: a flags word is the set of its bit positions below 32, not a machine integer; `FlagsText.SubtractionClears` and `FlagsText.NumberInjective` relate sets and numbers.
- OpusProbe.KthOutputPairsWithKthInput: the k-th input is the k-th one the probe recorded since the reset; frames inside the encoder when the probes are switched on are not known to it.
- The failure exits of `nativeGstPipelineInit`, the periodic timer, socket options, CPU pinning, SDP attributes, property and DOT dumps, logging, `recommendedBitRate`, the debug commands, configuration and permission code would add only single-branch members.
