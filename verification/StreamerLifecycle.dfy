/**
 The lifecycle monitor of Camera2GstStreamer: start, stop and restartEncoder run under the object's
 monitor, codec errors and camera disconnects arrive at any time from other threads, and onError
 spawns restart and stop threads.  A step is one piece of a monitor method; errors and disconnects
 may fall between any two steps.  Every choice the platform makes is an argument of the action.
 */
module StreamerLifecycle {
  import opened Options

  const MAX_ENCODER_RESTARTS: nat := 3

  /** The next piece of the method that holds the monitor. */
  datatype Monitor =
    | Free
    | StartEncoder | StartCamera | StartSession | StartGst | StartAudio | StartDone
    | StopAudio | StopCamera | StopEncoder | StopGst | StopJoin
    | RestartRelease | RestartInit | RestartSession | RestartDone
  {
    predicate InStart() {
      StartEncoder? || StartCamera? || StartSession? || StartGst? || StartAudio? || StartDone?
    }
  }

  /** References held by the streamer: true means not null.  `codec` tells whether a MediaCodec was
      ever created, `overwritten` counts the objects whose only reference was overwritten. */
  datatype Held = Held(
    encoder: bool,
    surface: bool,
    session: bool,
    camera: bool,
    cameraThread: bool,
    audio: bool,
    codec: bool,
    overwritten: nat)

  /** s_server, s_loop and s_context, and how many RTSP servers exist. */
  datatype Native = Native(server: bool, loop: bool, context: bool, liveServers: nat)

  /** Spawned threads that have not entered the monitor, and the restart counter.  `deciding` is
      onError between its increment and the decision it takes on it; `scheduled` counts restarts
      since the counter was last reset, `carried` the decisions that were pending at that reset. */
  datatype Threads = Threads(
    restarts: nat,
    stops: nat,
    restartCount: nat,
    deciding: Option<nat>,
    scheduled: nat,
    carried: nat)

  /** `stopped`: a stop() has completed and no start() has begun since. */
  datatype State = State(
    monitor: Monitor,
    running: bool,
    gstStarted: bool,
    held: Held,
    native: Native,
    threads: Threads,
    stopped: bool)

  datatype EncoderOutcome = AudioOnly | NoCodec | ConfigureFails | StartFails | Works
  datatype CameraOutcome = OpenThrows | NoAnswer | OpenFails | Opened
  datatype SessionOutcome = SessionThrows | ConfigureFailed | Configured
  datatype AudioOutcome = NoAudio | AudioThrows | Capturing

  datatype Action =
    | CallStart(available: bool)
    | InitEncoder(enc: EncoderOutcome)
    | OpenCamera(cam: CameraOutcome)
    | CreateSession(ses: SessionOutcome)
    | InitGst(ok: bool)
    | StartCapture(aud: AudioOutcome)
    | FinishStart
    | CallStop
    | RunStopThread
    | ReleaseAudio
    | ReleaseCamera
    | ReleaseEncoder
    | DestroyLocked
    | DestroyJoin
    | RunRestartThread
    | RestartReleases
    | FinishRestart
    // from other threads, at any time
    | CodecError(fatal: bool)
    | Decide
    | CameraLost

  // ---------------------------------------------------------------------------
  // The steps
  // ---------------------------------------------------------------------------

  function Count(b: bool): nat { if b then 1 else 0 }

  function EnterStop(s: State): (t: State)
    ensures t.held == s.held
  {
    if !s.held.encoder && !s.held.camera && !s.gstStarted
    then s.(running := false, monitor := Free, stopped := true)   // nothing to release
    else s.(running := false, monitor := StopAudio)
  }

  /** A restart decision that onError has counted but not yet acted on. */
  function Pending(w: Threads): nat {
    Count(w.deciding.Some? && w.deciding.value <= MAX_ENCODER_RESTARTS)
  }

  function StartStep(s: State): State {
    s.(monitor := StartEncoder, stopped := false,
       threads := s.threads.(restartCount := 0, scheduled := 0, carried := Pending(s.threads)))
  }

  /** Whether initEncoder gets as far as creating the codec. */
  predicate MakesCodec(o: EncoderOutcome) {
    !o.AudioOnly? && !o.NoCodec?
  }

  predicate MakesSurface(o: EncoderOutcome) {
    o.StartFails? || o.Works?
  }

  function CreateCodec(h: Held, o: EncoderOutcome): Held {
    if MakesCodec(o)
    then h.(encoder := true, codec := true, overwritten := h.overwritten + Count(h.encoder)) else h
  }

  function CreateSurface(h: Held, o: EncoderOutcome): Held {
    if MakesSurface(o)
    then h.(surface := true, overwritten := h.overwritten + Count(h.surface)) else h
  }

  /** initEncoder up to the point where it returns or throws. */
  function CreateEncoder(h: Held, o: EncoderOutcome): Held {
    CreateSurface(CreateCodec(h, o), o)
  }

  function SpawnStop(w: Threads): Threads {
    w.(stops := w.stops + 1)
  }

  /** A failed restart leaves the cleanup to a stop thread. */
  function FailRestart(s: State): State {
    s.(monitor := Free, threads := SpawnStop(s.threads))
  }

  function InitEncoderStep(s: State, o: EncoderOutcome): (t: State)
    ensures t.held == CreateEncoder(s.held, o)
  {
    var t := s.(held := CreateEncoder(s.held, o));
    if s.monitor.StartEncoder? then
      if o.AudioOnly? then t.(monitor := StartGst)
      else if o.Works? then t.(monitor := StartCamera)
      else EnterStop(t)
    else if o.Works? then t.(monitor := RestartSession) else FailRestart(t)
  }

  function StartCameraThread(h: Held): Held {
    h.(cameraThread := true, overwritten := h.overwritten + Count(h.cameraThread))
  }

  function AssignCamera(h: Held, o: CameraOutcome): Held {
    if o.Opened? || o.OpenFails?
    then h.(camera := o.Opened?, overwritten := h.overwritten + Count(h.camera)) else h
  }

  /** The camera thread is started and the camera opened; a device that reports an error on
      opening is closed and forgotten. */
  function TryCamera(h: Held, o: CameraOutcome): Held {
    AssignCamera(StartCameraThread(h), o)
  }

  function OpenCameraStep(s: State, o: CameraOutcome): (t: State)
    ensures t.held == TryCamera(s.held, o)
  {
    var t := s.(held := TryCamera(s.held, o));
    if o.Opened? then t.(monitor := StartSession) else EnterStop(t)
  }

  /** Without a camera the call throws; a failed configuration passes only over an old session. */
  predicate SessionCreated(h: Held, o: SessionOutcome) {
    h.camera && (o.Configured? || (o.ConfigureFailed? && h.session))
  }

  function TrySession(h: Held, o: SessionOutcome): Held {
    if h.camera && o.Configured?
    then h.(session := true, overwritten := h.overwritten + Count(h.session)) else h
  }

  function CreateSessionStep(s: State, o: SessionOutcome): (t: State)
    ensures t.held == TrySession(s.held, o)
  {
    var t := s.(held := TrySession(s.held, o));
    if SessionCreated(s.held, o) then t.(monitor := if s.monitor.StartSession? then StartGst else RestartDone)
    else if s.monitor.StartSession? then EnterStop(t)
    else FailRestart(t)
  }

  /** nativeGstPipelineInit refuses a second server. */
  function InitGstStep(s: State, ok: bool): (t: State)
    ensures t.held == s.held
  {
    if s.native.server || !ok then EnterStop(s)
    else s.(native := Native(true, true, true, s.native.liveServers + 1),
            gstStarted := true, monitor := StartAudio)
  }

  function StartCaptureStep(s: State, o: AudioOutcome): State {
    var t := if o.NoAudio? then s
             else s.(held := s.held.(audio := true, overwritten := s.held.overwritten + Count(s.held.audio)));
    if o.AudioThrows? then EnterStop(t) else t.(monitor := StartDone)
  }

  function DestroyLockedStep(s: State): State {
    if !s.gstStarted then s.(monitor := Free, stopped := true)
    else s.(native := s.native.(server := false, loop := false, context := false), monitor := StopJoin)
  }

  function DestroyJoinStep(s: State): State {
    s.(native := s.native.(liveServers := if s.native.liveServers > 0 then s.native.liveServers - 1 else 0),
       gstStarted := false, monitor := Free, stopped := true)
  }

  function DecideThreads(w: Threads): Threads
    requires w.deciding.Some?
  {
    if w.deciding.value <= MAX_ENCODER_RESTARTS
    then w.(deciding := None, restarts := w.restarts + 1, scheduled := w.scheduled + 1)
    else w.(deciding := None, stops := w.stops + 1)
  }

  function ErrorThreads(w: Threads, fatal: bool): Threads {
    if fatal then w.(restartCount := w.restartCount + 1, deciding := Some(w.restartCount + 1)) else SpawnStop(w)
  }

  predicate Asynchronous(a: Action) {
    a.CodecError? || a.Decide? || a.CameraLost?
  }

  predicate AllAsync(gap: seq<Action>) {
    forall i :: 0 <= i < |gap| ==> Asynchronous(gap[i])
  }

  /** The camera is not lost meanwhile. */
  predicate CameraStays(gap: seq<Action>) {
    forall i :: 0 <= i < |gap| ==> !gap[i].CameraLost?
  }

  predicate Enabled(s: State, a: Action) {
    match a
    case CallStart(_) => s.monitor.Free?
    case InitEncoder(o) => s.monitor.StartEncoder? || (s.monitor.RestartInit? && !o.AudioOnly?)
    case OpenCamera(_) => s.monitor.StartCamera?
    case CreateSession(_) => s.monitor.StartSession? || s.monitor.RestartSession?
    case InitGst(_) => s.monitor.StartGst?
    case StartCapture(_) => s.monitor.StartAudio?
    case FinishStart => s.monitor.StartDone?
    case CallStop => s.monitor.Free?
    case RunStopThread => s.monitor.Free? && s.threads.stops > 0
    case ReleaseAudio => s.monitor.StopAudio?
    case ReleaseCamera => s.monitor.StopCamera?
    case ReleaseEncoder => s.monitor.StopEncoder?
    case DestroyLocked => s.monitor.StopGst?
    case DestroyJoin => s.monitor.StopJoin?
    case RunRestartThread => s.monitor.Free? && s.threads.restarts > 0
    case RestartReleases => s.monitor.RestartRelease?
    case FinishRestart => s.monitor.RestartDone?
    case CodecError(fatal) => s.held.codec && (fatal ==> s.threads.deciding.None?)
    case Decide => s.threads.deciding.Some?
    case CameraLost => true
  }

  function Next(s: State, a: Action): State
    requires Enabled(s, a)
  {
    match a
    case CallStart(available) => if s.running || !available then s else StartStep(s)
    case InitEncoder(o) => InitEncoderStep(s, o)
    case OpenCamera(o) => OpenCameraStep(s, o)
    case CreateSession(o) => CreateSessionStep(s, o)
    case InitGst(ok) => InitGstStep(s, ok)
    case StartCapture(o) => StartCaptureStep(s, o)
    case FinishStart => s.(running := true, monitor := Free)
    case CallStop => EnterStop(s)
    case RunStopThread => EnterStop(s.(threads := s.threads.(stops := s.threads.stops - 1)))
    case ReleaseAudio => s.(held := s.held.(audio := false), monitor := StopCamera)
    case ReleaseCamera =>
      s.(held := s.held.(session := false, camera := false, cameraThread := false), monitor := StopEncoder)
    case ReleaseEncoder => s.(held := s.held.(encoder := false, surface := false), monitor := StopGst)
    case DestroyLocked => DestroyLockedStep(s)
    case DestroyJoin => DestroyJoinStep(s)
    case RunRestartThread =>
      s.(threads := s.threads.(restarts := s.threads.restarts - 1), monitor := RestartRelease)
    case RestartReleases =>
      s.(held := s.held.(session := false, encoder := false, surface := false), monitor := RestartInit)
    case FinishRestart => s.(running := true, monitor := Free)
    case CodecError(fatal) => s.(running := false, threads := ErrorThreads(s.threads, fatal))
    case Decide => s.(threads := DecideThreads(s.threads))
    case CameraLost => s.(held := s.held.(camera := false))
  }

  const START :=
    State(Free, false, false, Held(false, false, false, false, false, false, false, 0),
          Native(false, false, false, 0), Threads(0, 0, 0, None, 0, 0), true)

  predicate ValidRun(s: State, run: seq<Action>)
    decreases run
  {
    run == [] || (Enabled(s, run[0]) && ValidRun(Next(s, run[0]), run[1..]))
  }

  function Run(s: State, run: seq<Action>): State
    requires ValidRun(s, run)
    decreases run
  {
    if run == [] then s else Run(Next(s, run[0]), run[1..])
  }

  // ---------------------------------------------------------------------------
  // The invariant
  // ---------------------------------------------------------------------------

  predicate CameraHeld(s: State) { s.held.camera || s.held.cameraThread || s.held.session }

  predicate AllReleased(s: State) {
    && !s.held.encoder && !s.held.surface && !s.held.session && !s.held.camera && !s.held.cameraThread && !s.held.audio
    && !s.gstStarted && !s.native.server && !s.native.loop && !s.native.context && s.native.liveServers == 0
  }

  /** Server bookkeeping: one server at most, and the Java flag tells whether it exists. */
  predicate ServerInv(s: State) {
    && s.native.server == s.native.loop == s.native.context
    && (s.monitor.StopJoin? ==> s.gstStarted && !s.native.server && s.native.liveServers == 1)
    && (!s.monitor.StopJoin? ==> s.gstStarted == s.native.server && s.native.liveServers == Count(s.native.server))
  }

  /** What is held at each point of the monitor methods. */
  predicate HeldInv(s: State) {
    && (s.held.encoder ==> s.held.codec)
    && (s.held.surface ==> s.held.encoder) && (s.held.session ==> s.held.encoder) && (s.held.audio ==> s.gstStarted)
    && match s.monitor
       case StartCamera => s.held.encoder
       case StartSession => s.held.encoder
       case StartGst => CameraHeld(s) ==> s.gstStarted || s.held.encoder
       case StartAudio => s.gstStarted
       case StartDone => s.gstStarted
       case StopAudio => !s.running
       case StopCamera => !s.running && !s.held.audio
       case StopEncoder => !s.running && !s.held.audio && !CameraHeld(s)
       case StopGst => !s.running && !s.held.audio && !CameraHeld(s) && !s.held.encoder
       case StopJoin => !s.running && !s.held.audio && !CameraHeld(s) && !s.held.encoder
       case RestartInit => !s.held.encoder && (CameraHeld(s) ==> s.gstStarted)
       case RestartSession => s.held.encoder && (CameraHeld(s) ==> s.gstStarted)
       case _ => CameraHeld(s) ==> s.gstStarted
  }

  /** After a completed stop nothing runs again, and whatever a late restart creates has a stop
      thread, or the method holding the monitor, to release it. */
  predicate StoppedInv(s: State) {
    s.stopped ==>
      && !s.running && !CameraHeld(s) && !s.held.audio && !s.gstStarted
      && !s.monitor.InStart() && !s.monitor.RestartDone?
      && (s.held.encoder ==>
            s.threads.stops > 0 || s.monitor.RestartSession?
            || s.monitor.StopAudio? || s.monitor.StopCamera? || s.monitor.StopEncoder?)
  }

  predicate Inv(s: State) { ServerInv(s) && HeldInv(s) && StoppedInv(s) }

  lemma EnterStopKeeps(s: State)
    requires s.native.server == s.native.loop == s.native.context && s.gstStarted == s.native.server
    requires s.native.liveServers == Count(s.native.server)
    requires s.held.encoder ==> s.held.codec
    requires (s.held.surface ==> s.held.encoder) && (s.held.session ==> s.held.encoder)
    requires s.held.audio ==> s.gstStarted
    requires CameraHeld(s) ==> s.gstStarted || s.held.encoder
    requires s.stopped ==> !CameraHeld(s) && !s.gstStarted
    ensures Inv(EnterStop(s))
  {
  }

  lemma CallStartKeeps(s: State, available: bool)
    requires Inv(s) && s.monitor.Free?
    ensures Inv(Next(s, CallStart(available)))
  {
  }

  lemma StartEncoderKeeps(s: State, o: EncoderOutcome)
    requires Inv(s) && s.monitor.StartEncoder?
    ensures Inv(InitEncoderStep(s, o))
  {
    EnterStopKeeps(s.(held := CreateEncoder(s.held, o)));
  }

  lemma RestartEncoderKeeps(s: State, o: EncoderOutcome)
    requires Inv(s) && s.monitor.RestartInit? && !o.AudioOnly?
    ensures Inv(InitEncoderStep(s, o))
  {
  }

  lemma OpenCameraKeeps(s: State, o: CameraOutcome)
    requires Inv(s) && s.monitor.StartCamera?
    ensures Inv(OpenCameraStep(s, o))
  {
    if !o.Opened? { EnterStopKeeps(s.(held := TryCamera(s.held, o))); }
  }

  lemma StartSessionKeeps(s: State, o: SessionOutcome)
    requires Inv(s) && s.monitor.StartSession?
    ensures Inv(CreateSessionStep(s, o))
  {
    if !SessionCreated(s.held, o) { EnterStopKeeps(s); }
  }

  lemma RestartSessionKeeps(s: State, o: SessionOutcome)
    requires Inv(s) && s.monitor.RestartSession?
    ensures Inv(CreateSessionStep(s, o))
  {
  }

  lemma InitGstKeeps(s: State, ok: bool)
    requires Inv(s) && s.monitor.StartGst?
    ensures Inv(InitGstStep(s, ok))
  {
    if s.native.server || !ok { EnterStopKeeps(s); }
  }

  lemma StartCaptureKeeps(s: State, o: AudioOutcome)
    requires Inv(s) && s.monitor.StartAudio?
    ensures Inv(StartCaptureStep(s, o))
  {
    if o.AudioThrows? {
      EnterStopKeeps(s.(held := s.held.(audio := true, overwritten := s.held.overwritten + Count(s.held.audio))));
    }
  }

  lemma StopEntryKeeps(s: State)
    requires Inv(s) && s.monitor.Free?
    ensures Inv(Next(s, CallStop))
    ensures s.threads.stops > 0 ==> Inv(Next(s, RunStopThread))
  {
    EnterStopKeeps(s);
    if s.threads.stops > 0 { EnterStopKeeps(s.(threads := s.threads.(stops := s.threads.stops - 1))); }
  }

  lemma StopPieceKeeps(s: State, a: Action)
    requires Inv(s) && Enabled(s, a)
    requires a.ReleaseAudio? || a.ReleaseCamera? || a.ReleaseEncoder? || a.DestroyLocked? || a.DestroyJoin?
    ensures Inv(Next(s, a))
  {
  }

  lemma RestartPieceKeeps(s: State, a: Action)
    requires Inv(s) && Enabled(s, a)
    requires a.RunRestartThread? || a.RestartReleases? || a.FinishRestart? || a.FinishStart?
    ensures Inv(Next(s, a))
  {
  }

  lemma CodecErrorKeeps(s: State, fatal: bool)
    requires Inv(s) && Enabled(s, CodecError(fatal))
    ensures Inv(Next(s, CodecError(fatal)))
  {
  }

  lemma DecideKeeps(s: State)
    requires Inv(s) && s.threads.deciding.Some?
    ensures Inv(Next(s, Decide))
  {
  }

  lemma CameraLostKeeps(s: State)
    requires Inv(s)
    ensures Inv(Next(s, CameraLost))
  {
  }

  lemma NextKeeps(s: State, a: Action)
    requires Inv(s) && Enabled(s, a)
    ensures Inv(Next(s, a))
  {
    match a
    case CallStart(available) => CallStartKeeps(s, available);
    case InitEncoder(o) =>
      if s.monitor.StartEncoder? { StartEncoderKeeps(s, o); } else { RestartEncoderKeeps(s, o); }
    case OpenCamera(o) => OpenCameraKeeps(s, o);
    case CreateSession(o) =>
      if s.monitor.StartSession? { StartSessionKeeps(s, o); } else { RestartSessionKeeps(s, o); }
    case InitGst(ok) => InitGstKeeps(s, ok);
    case StartCapture(o) => StartCaptureKeeps(s, o);
    case CallStop => StopEntryKeeps(s);
    case RunStopThread => StopEntryKeeps(s);
    case FinishStart => RestartPieceKeeps(s, a);
    case RunRestartThread => RestartPieceKeeps(s, a);
    case RestartReleases => RestartPieceKeeps(s, a);
    case FinishRestart => RestartPieceKeeps(s, a);
    case CodecError(fatal) => CodecErrorKeeps(s, fatal);
    case Decide => DecideKeeps(s);
    case CameraLost => CameraLostKeeps(s);
    case _ => StopPieceKeeps(s, a);
  }

  lemma {:induction false} RunKeeps(s: State, run: seq<Action>)
    requires Inv(s) && ValidRun(s, run)
    ensures Inv(Run(s, run))
    decreases run
  {
    if run != [] {
      NextKeeps(s, run[0]);
      RunKeeps(Next(s, run[0]), run[1..]);
    }
  }

  // ---------------------------------------------------------------------------
  // Main results
  // ---------------------------------------------------------------------------

  predicate NoStart(run: seq<Action>) {
    forall i :: 0 <= i < |run| ==> !run[i].CallStart?
  }

  lemma StaysStopped(s: State, a: Action)
    requires Enabled(s, a) && s.stopped && !a.CallStart?
    ensures Next(s, a).stopped
  {
  }

  lemma {:induction false} RunStaysStopped(s: State, run: seq<Action>)
    requires ValidRun(s, run) && s.stopped && NoStart(run)
    ensures Run(s, run).stopped
    decreases run
  {
    if run != [] {
      assert !run[0].CallStart?;
      StaysStopped(s, run[0]);
      RunStaysStopped(Next(s, run[0]), run[1..]);
    }
  }

  /** After a completed stop() and without a later start(), however restart, stop and error threads
      interleave, the streamer never counts as running again, and as soon as no method holds the
      monitor and no spawned thread is left, every resource has been released. */
  lemma StopIsFinal(before: seq<Action>, after: seq<Action>)
    requires ValidRun(START, before) && Run(START, before).stopped
    requires ValidRun(Run(START, before), after) && NoStart(after)
    ensures var s := Run(Run(START, before), after);
            && !s.running
            && (s.monitor.Free? && s.threads.restarts == 0 && s.threads.stops == 0 ==> AllReleased(s))
  {
    RunKeeps(START, before);
    RunKeeps(Run(START, before), after);
    RunStaysStopped(Run(START, before), after);
  }

  /** The Java flag tells whether the native server exists whenever no method holds the monitor;
      server, loop and context are always set or cleared together; two servers never coexist. */
  lemma OneServer(run: seq<Action>)
    requires ValidRun(START, run)
    ensures var s := Run(START, run);
            && s.native.server == s.native.loop == s.native.context
            && s.native.liveServers <= 1
            && (s.monitor.Free? ==> s.gstStarted == s.native.server && s.native.liveServers == Count(s.native.server))
  {
    RunKeeps(START, run);
  }

  /** A restart or stop thread is on its way, or onError has yet to decide which. */
  predicate Attended(w: Threads) {
    w.restarts > 0 || w.stops > 0 || w.deciding.Some?
  }

  /** With the monitor free, a streamer that does not run holds nothing or is about to be seen to. */
  predicate NotAbandoned(s: State) {
    s.monitor.Free? && !s.running ==> AllReleased(s) || Attended(s.threads)
  }

  lemma AsynchronousAttends(s: State, a: Action)
    requires NotAbandoned(s) && Enabled(s, a) && Asynchronous(a)
    ensures NotAbandoned(Next(s, a))
  {
  }

  lemma StopPieceAttends(s: State, a: Action)
    requires Inv(s) && NotAbandoned(s) && Enabled(s, a)
    requires a.CallStop? || a.RunStopThread? || a.ReleaseAudio? || a.ReleaseCamera? || a.ReleaseEncoder?
             || a.DestroyLocked? || a.DestroyJoin?
    ensures NotAbandoned(Next(s, a))
  {
  }

  lemma StartPieceAttends(s: State, a: Action)
    requires Inv(s) && NotAbandoned(s) && Enabled(s, a)
    requires a.CallStart? || a.OpenCamera? || a.InitGst? || a.StartCapture? || a.FinishStart?
    ensures NotAbandoned(Next(s, a))
  {
    if a.OpenCamera? { OpenCameraKeeps(s, a.cam); }
    if a.InitGst? { InitGstKeeps(s, a.ok); }
    if a.StartCapture? { StartCaptureKeeps(s, a.aud); }
  }

  lemma EncoderPieceAttends(s: State, a: Action)
    requires Inv(s) && NotAbandoned(s) && Enabled(s, a)
    requires a.InitEncoder? || a.CreateSession? || a.RunRestartThread? || a.RestartReleases? || a.FinishRestart?
    ensures NotAbandoned(Next(s, a))
  {
    if a.InitEncoder? && s.monitor.StartEncoder? { StartEncoderKeeps(s, a.enc); }
    if a.CreateSession? && s.monitor.StartSession? { StartSessionKeeps(s, a.ses); }
  }

  lemma NextAttends(s: State, a: Action)
    requires Inv(s) && NotAbandoned(s) && Enabled(s, a)
    ensures NotAbandoned(Next(s, a))
  {
    if Asynchronous(a) {
      AsynchronousAttends(s, a);
    } else if a.CallStart? || a.OpenCamera? || a.InitGst? || a.StartCapture? || a.FinishStart? {
      StartPieceAttends(s, a);
    } else if a.InitEncoder? || a.CreateSession? || a.RunRestartThread? || a.RestartReleases? || a.FinishRestart? {
      EncoderPieceAttends(s, a);
    } else {
      StopPieceAttends(s, a);
    }
  }

  lemma {:induction false} RunAttends(s: State, run: seq<Action>)
    requires Inv(s) && NotAbandoned(s) && ValidRun(s, run)
    ensures NotAbandoned(Run(s, run))
    decreases run
  {
    if run != [] {
      NextKeeps(s, run[0]);
      NextAttends(s, run[0]);
      RunAttends(Next(s, run[0]), run[1..]);
    }
  }

  /** Nothing is ever left held by a streamer that has stopped running: with the monitor free, either
      everything is released, or a restart thread, a stop thread or a pending decision exists, also
      beyond the restart limit and after errors that no restart can mend. */
  lemma NeverAbandoned(run: seq<Action>)
    requires ValidRun(START, run)
    ensures var s := Run(START, run);
      s.monitor.Free? && !s.running ==>
        || AllReleased(s)
        || s.threads.restarts > 0 || s.threads.stops > 0 || s.threads.deciding.Some?
  {
    RunAttends(START, run);
  }

  /** What stop threads do. */
  predicate StopWork(a: Action) {
    a.RunStopThread? || a.ReleaseAudio? || a.ReleaseCamera? || a.ReleaseEncoder? || a.DestroyLocked? || a.DestroyJoin?
  }

  ghost predicate StopWorkLeads(s: State, t: State) {
    exists run :: ValidRun(s, run) && (forall i :: 0 <= i < |run| ==> StopWork(run[i])) && Run(s, run) == t
  }

  lemma StopWorkDone(s: State)
    ensures StopWorkLeads(s, s)
  {
    assert ValidRun(s, []) && Run(s, []) == s;
  }

  lemma StopWorkStep(s: State, a: Action, t: State)
    requires Enabled(s, a) && StopWork(a) && StopWorkLeads(Next(s, a), t)
    ensures StopWorkLeads(s, t)
  {
    var run :| ValidRun(Next(s, a), run) && (forall i :: 0 <= i < |run| ==> StopWork(run[i]))
               && Run(Next(s, a), run) == t;
    assert ([a] + run)[1..] == run;
    assert ValidRun(s, [a] + run) && Run(s, [a] + run) == t;
  }

  /** The pieces of stop() behind its head. */
  function StopPieces(s: State): State
    requires s.monitor.StopAudio?
  {
    var t := Next(Next(Next(Next(s, ReleaseAudio), ReleaseCamera), ReleaseEncoder), DestroyLocked);
    if t.monitor.StopJoin? then Next(t, DestroyJoin) else t
  }

  lemma StopPiecesEnd(s: State, t: State)
    requires Inv(s) && s.monitor.StopAudio?
    ensures var u := StopPieces(s);
      && Inv(u) && u.monitor.Free? && !u.running && AllReleased(u) && u.threads == s.threads
      && (StopWorkLeads(u, t) ==> StopWorkLeads(s, t))
  {
    var s1 := Next(s, ReleaseAudio);
    var s2 := Next(s1, ReleaseCamera);
    var s3 := Next(s2, ReleaseEncoder);
    var s4 := Next(s3, DestroyLocked);
    NextKeeps(s, ReleaseAudio);
    NextKeeps(s1, ReleaseCamera);
    NextKeeps(s2, ReleaseEncoder);
    NextKeeps(s3, DestroyLocked);
    if s4.monitor.StopJoin? { NextKeeps(s4, DestroyJoin); }
    if StopWorkLeads(StopPieces(s), t) {
      if s4.monitor.StopJoin? { StopWorkStep(s4, DestroyJoin, t); }
      StopWorkStep(s3, DestroyLocked, t);
      StopWorkStep(s2, ReleaseEncoder, t);
      StopWorkStep(s1, ReleaseCamera, t);
      StopWorkStep(s, ReleaseAudio, t);
    }
  }

  /** One stop thread, from its turn to its end. */
  function AfterStopThread(s: State): State
    requires s.monitor.Free? && s.threads.stops > 0
  {
    var t := Next(s, RunStopThread);
    if t.monitor.StopAudio? then StopPieces(t) else t
  }

  lemma StopThreadEnds(s: State, t: State)
    requires Inv(s) && s.monitor.Free? && s.threads.stops > 0
    ensures var u := AfterStopThread(s);
      && Inv(u) && u.monitor.Free? && !u.running && AllReleased(u)
      && u.threads == s.threads.(stops := s.threads.stops - 1)
      && (StopWorkLeads(u, t) ==> StopWorkLeads(s, t))
  {
    var u := Next(s, RunStopThread);
    NextKeeps(s, RunStopThread);
    if u.monitor.StopAudio? { StopPiecesEnd(u, t); }
    if StopWorkLeads(AfterStopThread(s), t) { StopWorkStep(s, RunStopThread, t); }
  }

  /** Every spawned stop thread gets its turn and ends: left to themselves, the stop threads bring the
      streamer to a state in which everything is released and none of them is left. */
  lemma {:induction false} StopThreadsDrain(s: State) returns (t: State)
    requires Inv(s) && s.monitor.Free? && s.threads.stops > 0
    ensures StopWorkLeads(s, t)
    ensures t.monitor.Free? && !t.running && AllReleased(t) && t.threads == s.threads.(stops := 0)
    decreases s.threads.stops
  {
    var u := AfterStopThread(s);
    StopThreadEnds(s, u);
    if u.threads.stops > 0 {
      t := StopThreadsDrain(u);
    } else {
      t := u;
      StopWorkDone(t);
    }
    StopThreadEnds(s, t);
  }

  predicate BudgetInv(w: Threads) {
    && w.carried <= 1
    && w.scheduled + Pending(w)
       <= (if w.restartCount <= MAX_ENCODER_RESTARTS then w.restartCount else MAX_ENCODER_RESTARTS) + w.carried
  }

  lemma BudgetKept(s: State, a: Action)
    requires BudgetInv(s.threads) && Enabled(s, a)
    ensures BudgetInv(Next(s, a).threads)
  {
  }

  /** Since the counter was last reset at most three restarts have been scheduled, plus the one
      decision that may have been pending when start() reset it. */
  lemma {:induction false} RestartBudget(s: State, run: seq<Action>)
    requires BudgetInv(s.threads) && ValidRun(s, run)
    ensures BudgetInv(Run(s, run).threads)
    ensures Run(s, run).threads.scheduled <= MAX_ENCODER_RESTARTS + Run(s, run).threads.carried
    decreases run
  {
    if run != [] {
      BudgetKept(s, run[0]);
      RestartBudget(Next(s, run[0]), run[1..]);
    }
  }

  lemma CarriedKept(s: State, a: Action)
    requires Enabled(s, a) && !a.CallStart?
    ensures Next(s, a).threads.carried == s.threads.carried
  {
  }

  lemma {:induction false} RunCarriedKept(s: State, run: seq<Action>)
    requires ValidRun(s, run) && NoStart(run)
    ensures Run(s, run).threads.carried == s.threads.carried
    decreases run
  {
    if run != [] {
      assert !run[0].CallStart?;
      CarriedKept(s, run[0]);
      RunCarriedKept(Next(s, run[0]), run[1..]);
    }
  }

  /** `healthy`: the encoder that is held has not reported an error yet. */
  function Healthy(healthy: bool, a: Action): bool {
    match a
    case InitEncoder(o) => healthy || MakesCodec(o)
    case CodecError(_) => false
    case _ => healthy
  }

  /** Each error comes from an encoder that is held, and no encoder reports more than one. */
  predicate OneErrorEach(s: State, healthy: bool, run: seq<Action>)
    requires ValidRun(s, run)
    decreases run
  {
    run == [] ||
    (&& (run[0].CodecError? ==> healthy && s.held.encoder)
     && OneErrorEach(Next(s, run[0]), Healthy(healthy, run[0]), run[1..]))
  }

  /** With one error per encoder, n restarts since the last reset can be reached; `starts` tells
      whether further resets are allowed on the way. */
  ghost predicate CanSchedule(s: State, healthy: bool, starts: bool, n: nat) {
    exists run :: ValidRun(s, run) && Schedules(s, healthy, starts, n, run)
  }

  predicate Schedules(s: State, healthy: bool, starts: bool, n: nat, run: seq<Action>)
    requires ValidRun(s, run)
  {
    (starts || NoStart(run)) && OneErrorEach(s, healthy, run) && Run(s, run).threads.scheduled >= n
  }

  lemma CanScheduleNow(s: State, healthy: bool, n: nat)
    requires s.threads.scheduled >= n
    ensures CanSchedule(s, healthy, false, n)
  {
    assert ValidRun(s, []) && Schedules(s, healthy, false, n, []);
  }

  lemma CanScheduleAfter(s: State, healthy: bool, a: Action, starts: bool, n: nat)
    requires Enabled(s, a) && (a.CallStart? ==> starts) && (a.CodecError? ==> healthy && s.held.encoder)
    requires CanSchedule(Next(s, a), Healthy(healthy, a), starts, n)
    ensures CanSchedule(s, healthy, starts, n)
  {
    var t := Next(s, a);
    var run :| ValidRun(t, run) && Schedules(t, Healthy(healthy, a), starts, n, run);
    var longer := [a] + run;
    assert longer[1..] == run;
    assert ValidRun(s, longer) && Run(s, longer) == Run(t, run);
    assert Schedules(s, healthy, starts, n, longer);
  }

  lemma StartsAllowed(s: State, healthy: bool, n: nat)
    requires CanSchedule(s, healthy, false, n)
    ensures CanSchedule(s, healthy, true, n)
  {
    var run :| ValidRun(s, run) && Schedules(s, healthy, false, n, run);
    assert Schedules(s, healthy, true, n, run);
  }

  /** A fatal error of a healthy encoder, and onError's decision within the budget. */
  function Failed(s: State): State
    requires s.held.codec && s.threads.deciding.None?
  {
    Next(Next(s, CodecError(true)), Decide)
  }

  lemma FailedOutcome(s: State)
    requires s.held.codec && s.threads.deciding.None? && s.threads.restartCount < MAX_ENCODER_RESTARTS
    ensures var t, w := Failed(s), s.threads;
      t == s.(running := false, threads := w.(restartCount := w.restartCount + 1,
                                              restarts := w.restarts + 1, scheduled := w.scheduled + 1))
  {
  }

  lemma CanScheduleFailed(s: State, n: nat)
    requires s.held.codec && s.held.encoder && s.threads.deciding.None?
    requires CanSchedule(Failed(s), false, false, n)
    ensures CanSchedule(s, true, false, n)
  {
    CanScheduleAfter(Next(s, CodecError(true)), false, Decide, false, n);
    CanScheduleAfter(s, true, CodecError(true), false, n);
  }

  /** A restart thread creates an encoder that works; nothing else has happened yet. */
  function Recreated(s: State): State
    requires s.monitor.Free? && s.threads.restarts > 0
  {
    Next(Next(Next(s, RunRestartThread), RestartReleases), InitEncoder(Works))
  }

  lemma RecreatedOutcome(s: State)
    requires s.monitor.Free? && s.threads.restarts > 0
    ensures var t := Recreated(s);
      && t.monitor.RestartSession? && t.held.encoder && t.held.codec
      && t.threads == s.threads.(restarts := s.threads.restarts - 1)
  {
  }

  lemma CanScheduleRecreated(s: State, n: nat)
    requires s.monitor.Free? && s.threads.restarts > 0
    requires CanSchedule(Recreated(s), true, false, n)
    ensures CanSchedule(s, false, false, n)
  {
    var s1 := Next(s, RunRestartThread);
    var s2 := Next(s1, RestartReleases);
    CanScheduleAfter(s2, false, InitEncoder(Works), false, n);
    CanScheduleAfter(s1, false, RestartReleases, false, n);
    CanScheduleAfter(s, false, RunRestartThread, false, n);
  }

  /** One round: a restart thread creates an encoder, it fails, and the session does too. */
  lemma Round(s: State, n: nat)
    requires s.monitor.Free? && s.threads.restarts > 0
    requires s.threads.deciding.None? && s.threads.restartCount < MAX_ENCODER_RESTARTS
    ensures var t := Failed(Recreated(s));
      && Enabled(t, CreateSession(SessionThrows))
      && var u := Next(t, CreateSession(SessionThrows));
      && u.monitor.Free? && u.threads.deciding.None? && u.threads.restarts == s.threads.restarts
      && u.threads.restartCount == s.threads.restartCount + 1 && u.threads.scheduled == s.threads.scheduled + 1
      && (CanSchedule(u, false, false, n) ==> CanSchedule(s, false, false, n))
  {
    RecreatedOutcome(s);
    FailedOutcome(Recreated(s));
    var t := Failed(Recreated(s));
    var u := Next(t, CreateSession(SessionThrows));
    if CanSchedule(u, false, false, n) {
      CanScheduleAfter(t, false, CreateSession(SessionThrows), false, n);
      CanScheduleFailed(Recreated(s), n);
      CanScheduleRecreated(s, n);
    }
  }

  /** stop() from within start(), to its end. */
  lemma AbortEnds(s: State, n: nat) returns (t: State)
    requires s.monitor.StopAudio?
    ensures t.monitor.Free? && t.threads == s.threads
    ensures CanSchedule(t, false, false, n) ==> CanSchedule(s, false, false, n)
  {
    var s1 := Next(s, ReleaseAudio);
    var s2 := Next(s1, ReleaseCamera);
    var s3 := Next(s2, ReleaseEncoder);
    t := Next(s3, DestroyLocked);
    if t.monitor.StopJoin? { t := Next(t, DestroyJoin); }
    if CanSchedule(t, false, false, n) {
      if Next(s3, DestroyLocked).monitor.StopJoin? {
        CanScheduleAfter(Next(s3, DestroyLocked), false, DestroyJoin, false, n);
      }
      CanScheduleAfter(s3, false, DestroyLocked, false, n);
      CanScheduleAfter(s2, false, ReleaseEncoder, false, n);
      CanScheduleAfter(s1, false, ReleaseCamera, false, n);
      CanScheduleAfter(s, false, ReleaseAudio, false, n);
    }
  }

  /** start() creates an encoder, the old decision is taken, the new encoder fails, and start() gives
      up because the camera cannot be opened. */
  lemma FirstRound(s: State, n: nat) returns (t: State)
    requires s.monitor.StartEncoder? && Pending(s.threads) == 1
    requires s.threads.restartCount == 0
    ensures t.monitor.Free? && t.threads.deciding.None? && t.threads.restarts == s.threads.restarts + 2
    ensures t.threads.restartCount == 1 && t.threads.scheduled == s.threads.scheduled + 2
    ensures CanSchedule(t, false, false, n) ==> CanSchedule(s, false, false, n)
  {
    var s1 := Next(s, InitEncoder(Works));
    var s2 := Next(s1, Decide);
    FailedOutcome(s2);
    var s3 := Failed(s2);
    var s4 := Next(s3, OpenCamera(OpenThrows));
    t := AbortEnds(s4, n);
    if CanSchedule(t, false, false, n) {
      CanScheduleAfter(s3, false, OpenCamera(OpenThrows), false, n);
      CanScheduleFailed(s2, n);
      CanScheduleAfter(s1, true, Decide, false, n);
      CanScheduleAfter(s, false, InitEncoder(Works), false, n);
    }
  }

  /** Exactly when the budget can be exceeded: after a start() that resets the counter a fourth
      restart can be scheduled, each error coming from an encoder of its own, if and only if a
      decision of onError was pending at the reset. */
  lemma FourthRestartIff(s: State)
    requires BudgetInv(s.threads) && s.monitor.Free? && !s.running
    ensures CanSchedule(Next(s, CallStart(true)), false, false, MAX_ENCODER_RESTARTS + 1) <==> Pending(s.threads) == 1
  {
    var n := MAX_ENCODER_RESTARTS + 1;
    var r := Next(s, CallStart(true));
    if Pending(s.threads) == 1 {
      var t := FirstRound(r, n);
      Round(t, n);
      var u := Next(Failed(Recreated(t)), CreateSession(SessionThrows));
      Round(u, n);
      CanScheduleNow(Next(Failed(Recreated(u)), CreateSession(SessionThrows)), false, n);
    } else {
      forall run | ValidRun(r, run) ensures !Schedules(r, false, false, n, run) {
        BudgetKept(s, CallStart(true));
        RestartBudget(r, run);
        if NoStart(run) { RunCarriedKept(r, run); }
      }
    }
  }

  /** start() up to a running camera session. */
  lemma VideoComesUp(s: State, n: nat) returns (t: State)
    requires s.monitor.Free? && !s.running
    ensures t.monitor.StartGst? && t.held.encoder && t.held.codec && t.native == s.native
    ensures t.threads.deciding == s.threads.deciding && t.threads.restartCount == 0
    ensures t.threads.carried == Pending(s.threads) && t.threads.scheduled == 0
    ensures CanSchedule(t, true, true, n) ==> CanSchedule(s, false, true, n)
  {
    var s1 := Next(s, CallStart(true));
    var s2 := Next(s1, InitEncoder(Works));
    var s3 := Next(s2, OpenCamera(Opened));
    t := Next(s3, CreateSession(Configured));
    if CanSchedule(t, true, true, n) {
      CanScheduleAfter(s3, true, CreateSession(Configured), true, n);
      CanScheduleAfter(s2, true, OpenCamera(Opened), true, n);
      CanScheduleAfter(s1, false, InitEncoder(Works), true, n);
      CanScheduleAfter(s, false, CallStart(true), true, n);
    }
  }

  /** The rest of start(): the stream runs. */
  lemma StreamComesUp(s: State, n: nat) returns (t: State)
    requires s.monitor.StartGst? && !s.native.server
    ensures t.monitor.Free? && t.running && t.held.encoder == s.held.encoder && t.held.codec == s.held.codec
    ensures t.threads == s.threads
    ensures CanSchedule(t, true, true, n) ==> CanSchedule(s, true, true, n)
  {
    var s1 := Next(s, InitGst(true));
    var s2 := Next(s1, StartCapture(NoAudio));
    t := Next(s2, FinishStart);
    if CanSchedule(t, true, true, n) {
      CanScheduleAfter(s2, true, FinishStart, true, n);
      CanScheduleAfter(s1, true, StartCapture(NoAudio), true, n);
      CanScheduleAfter(s, true, InitGst(true), true, n);
    }
  }

  /** The encoder of the running stream fails, and start() resets the counter between onError's
      increment and its decision. */
  lemma StartOverDecision(s: State)
    requires s.monitor.Free? && s.held.encoder && s.held.codec
    requires s.threads.deciding.None? && s.threads.restartCount == 0
    requires s.threads.carried == 0 && s.threads.scheduled == 0
    ensures CanSchedule(s, true, true, MAX_ENCODER_RESTARTS + 1)
  {
    var n := MAX_ENCODER_RESTARTS + 1;
    var t := Next(s, CodecError(true));
    FourthRestartIff(t);
    StartsAllowed(Next(t, CallStart(true)), false, n);
    CanScheduleAfter(t, false, CallStart(true), true, n);
    CanScheduleAfter(s, true, CodecError(true), true, n);
  }

  /** The extra restart is real, from the construction of the streamer on: the stream comes up, its
      encoder fails, start() resets the counter, and three more encoders fail, each once. */
  lemma FourRestartsSinceReset()
    ensures CanSchedule(START, false, true, MAX_ENCODER_RESTARTS + 1)
  {
    var n := MAX_ENCODER_RESTARTS + 1;
    var video := VideoComesUp(START, n);
    var stream := StreamComesUp(video, n);
    StartOverDecision(stream);
  }

  /** What errors and disconnects can change while a method holds the monitor. */
  predicate Disturbed(s: State, t: State) {
    && t.monitor == s.monitor && t.gstStarted == s.gstStarted && t.native == s.native && t.stopped == s.stopped
    && t.held == s.held.(camera := t.held.camera) && (t.held.camera ==> s.held.camera)
    && (t.running ==> s.running) && t.threads.stops >= s.threads.stops
  }

  lemma AsynchronousDisturbs(s: State, a: Action)
    requires Enabled(s, a) && Asynchronous(a)
    ensures Disturbed(s, Next(s, a)) && (!a.CameraLost? ==> Next(s, a).held == s.held)
  {
  }

  /** A session that cannot be configured stops start() only if no older session is left, since the
      check that follows looks at the field alone. */
  lemma OldSessionMasksFailure(s: State)
    requires s.monitor.StartSession? && s.held.camera
    ensures Next(s, CreateSession(ConfigureFailed)).monitor.StartGst? <==> s.held.session
    ensures Next(s, CreateSession(ConfigureFailed)).held == s.held
  {
  }

  /** Neither encoder, camera nor camera thread is held. */
  predicate Clear(h: Held) {
    !h.encoder && !h.camera && !h.cameraThread
  }

  /** Every start() that goes ahead finds encoder, camera and camera thread released. */
  predicate CleanStarts(s: State, run: seq<Action>)
    requires ValidRun(s, run)
    decreases run
  {
    run == [] ||
    (&& (run[0] == CallStart(true) && !s.running ==> Clear(s.held))
     && CleanStarts(Next(s, run[0]), run[1..]))
  }

  /** Room for what the method holding the monitor is about to create. */
  predicate RoomInv(s: State) {
    match s.monitor
    case StartEncoder => !s.held.encoder && !s.held.surface && !CameraHeld(s)
    case StartCamera => !CameraHeld(s)
    case StartSession => !s.held.session
    case StartAudio => !s.held.audio
    case RestartInit => !s.held.encoder && !s.held.surface && !s.held.session
    case RestartSession => !s.held.session
    case _ => true
  }

  lemma RoomInStart(s: State, a: Action)
    requires Inv(s) && RoomInv(s) && Enabled(s, a) && s.monitor.InStart() && !Asynchronous(a)
    ensures RoomInv(Next(s, a))
  {
  }

  lemma RoomElsewhere(s: State, a: Action)
    requires Inv(s) && RoomInv(s) && Enabled(s, a) && !s.monitor.InStart() && !Asynchronous(a)
    requires a == CallStart(true) && !s.running ==> Clear(s.held)
    ensures RoomInv(Next(s, a))
  {
  }

  lemma RoomKept(s: State, a: Action)
    requires Inv(s) && RoomInv(s) && Enabled(s, a)
    requires a == CallStart(true) && !s.running ==> Clear(s.held)
    ensures RoomInv(Next(s, a))
  {
    if Asynchronous(a) {
      AsynchronousDisturbs(s, a);
    } else if s.monitor.InStart() {
      RoomInStart(s, a);
    } else {
      RoomElsewhere(s, a);
    }
  }

  predicate Creates(a: Action) {
    a.InitEncoder? || a.OpenCamera? || a.CreateSession? || a.StartCapture?
  }

  lemma ReleasesOverwriteNothing(s: State, a: Action)
    requires Enabled(s, a)
    requires a.ReleaseAudio? || a.ReleaseCamera? || a.ReleaseEncoder? || a.RestartReleases? || a.CameraLost?
    ensures Next(s, a).held.overwritten == s.held.overwritten
  {
  }

  lemma OthersOverwriteNothing(s: State, a: Action)
    requires Enabled(s, a) && !Creates(a)
    requires !a.ReleaseAudio? && !a.ReleaseCamera? && !a.ReleaseEncoder? && !a.RestartReleases? && !a.CameraLost?
    ensures Next(s, a).held == s.held
  {
  }

  /** An outcome that assigns a reference which is already held. */
  predicate Overwrites(s: State, a: Action) {
    match a
    case InitEncoder(o) => (MakesCodec(o) && s.held.encoder) || (MakesSurface(o) && s.held.surface)
    case OpenCamera(o) => s.held.cameraThread || ((o.Opened? || o.OpenFails?) && s.held.camera)
    case CreateSession(o) => s.held.camera && o.Configured? && s.held.session
    case StartCapture(o) => !o.NoAudio? && s.held.audio
    case _ => false
  }

  predicate NoOverwrite(s: State, run: seq<Action>)
    requires ValidRun(s, run)
    decreases run
  {
    run == [] || (!Overwrites(s, run[0]) && NoOverwrite(Next(s, run[0]), run[1..]))
  }

  lemma EncoderOverwrites(h: Held, o: EncoderOutcome)
    ensures CreateEncoder(h, o).overwritten >= h.overwritten
    ensures CreateEncoder(h, o).overwritten == h.overwritten
        <==> !((MakesCodec(o) && h.encoder) || (MakesSurface(o) && h.surface))
  {
  }

  lemma CameraOverwrites(h: Held, o: CameraOutcome)
    ensures TryCamera(h, o).overwritten >= h.overwritten
    ensures TryCamera(h, o).overwritten == h.overwritten
        <==> !(h.cameraThread || ((o.Opened? || o.OpenFails?) && h.camera))
  {
  }

  lemma CreationOverwrites(s: State, a: Action)
    requires Enabled(s, a) && (a.InitEncoder? || a.OpenCamera?)
    ensures Next(s, a).held.overwritten >= s.held.overwritten
    ensures Next(s, a).held.overwritten == s.held.overwritten <==> !Overwrites(s, a)
  {
    if a.InitEncoder? { EncoderOverwrites(s.held, a.enc); } else { CameraOverwrites(s.held, a.cam); }
  }

  lemma SessionOverwrites(s: State, o: SessionOutcome)
    requires Enabled(s, CreateSession(o))
    ensures Next(s, CreateSession(o)).held.overwritten
         == s.held.overwritten + Count(Overwrites(s, CreateSession(o)))
  {
    assert Next(s, CreateSession(o)).held == TrySession(s.held, o);
  }

  lemma AudioOverwrites(s: State, o: AudioOutcome)
    requires Enabled(s, StartCapture(o))
    ensures Next(s, StartCapture(o)).held.overwritten
         == s.held.overwritten + Count(Overwrites(s, StartCapture(o)))
  {
  }

  lemma StepOverwrites(s: State, a: Action)
    requires Enabled(s, a)
    ensures Next(s, a).held.overwritten >= s.held.overwritten
    ensures Next(s, a).held.overwritten == s.held.overwritten <==> !Overwrites(s, a)
  {
    if a.InitEncoder? || a.OpenCamera? {
      CreationOverwrites(s, a);
    } else if a.CreateSession? {
      SessionOverwrites(s, a.ses);
    } else if a.StartCapture? {
      AudioOverwrites(s, a.aud);
    } else if a.ReleaseAudio? || a.ReleaseCamera? || a.ReleaseEncoder? || a.RestartReleases? || a.CameraLost? {
      ReleasesOverwriteNothing(s, a);
    } else {
      OthersOverwriteNothing(s, a);
    }
  }

  lemma NothingOverwritten(s: State, a: Action)
    requires RoomInv(s) && Enabled(s, a)
    ensures Next(s, a).held.overwritten == s.held.overwritten
  {
    StepOverwrites(s, a);
  }

  /** In any run, an object escapes release exactly if some step creates what is already held. */
  lemma {:induction false} NothingEscapesIff(s: State, run: seq<Action>)
    requires ValidRun(s, run)
    ensures Run(s, run).held.overwritten >= s.held.overwritten
    ensures Run(s, run).held.overwritten == s.held.overwritten <==> NoOverwrite(s, run)
    decreases run
  {
    if run != [] {
      StepOverwrites(s, run[0]);
      NothingEscapesIff(Next(s, run[0]), run[1..]);
    }
  }

  /** A start() while the encoder of an earlier one is held, as after an error whose restart is still
      to come, loses that encoder as soon as it creates its own. */
  lemma StartOverEncoderOverwrites(s: State, enc: EncoderOutcome)
    requires Inv(s) && s.monitor.Free? && !s.running && s.held.encoder && MakesCodec(enc)
    ensures Next(Next(s, CallStart(true)), InitEncoder(enc)).held.overwritten > s.held.overwritten
  {
    StepOverwrites(Next(s, CallStart(true)), InitEncoder(enc));
  }

  /** Such a state arises when the encoder of a running stream fails: its restart is pending, and
      nothing keeps start() from going ahead. */
  lemma FailedEncoderStaysHeld(s: State)
    requires s.monitor.Free? && s.held.encoder && s.held.codec
    requires s.threads.deciding.None? && s.threads.restartCount < MAX_ENCODER_RESTARTS
    ensures var t := Failed(s);
      t.monitor.Free? && !t.running && t.held.encoder && t.threads.restarts == s.threads.restarts + 1
  {
    FailedOutcome(s);
  }

  /** If each start() that goes ahead finds encoder, camera and camera thread released, then none of
      them, no surface, session or recorder is ever overwritten while still held, so none escapes
      release. */
  lemma {:induction false} NoneEscapesRelease(s: State, run: seq<Action>)
    requires Inv(s) && RoomInv(s) && ValidRun(s, run) && CleanStarts(s, run)
    ensures Run(s, run).held.overwritten == s.held.overwritten
    decreases run
  {
    if run != [] {
      RoomKept(s, run[0]);
      NothingOverwritten(s, run[0]);
      NextKeeps(s, run[0]);
      NoneEscapesRelease(Next(s, run[0]), run[1..]);
    }
  }

  /** Without another start(), something is overwritten while still held. */
  ghost predicate CanEscape(s: State) {
    exists run :: ValidRun(s, run) && NoStart(run) && Run(s, run).held.overwritten > s.held.overwritten
  }

  lemma {:induction false} NoStartIsClean(s: State, run: seq<Action>)
    requires ValidRun(s, run) && NoStart(run)
    ensures CleanStarts(s, run)
    decreases run
  {
    if run != [] {
      assert !run[0].CallStart?;
      NoStartIsClean(Next(s, run[0]), run[1..]);
    }
  }

  lemma OneStep(s: State, a: Action)
    requires Enabled(s, a)
    ensures ValidRun(s, [a]) && Run(s, [a]) == Next(s, a)
  {
    var t := Next(s, a);
    assert [a][1..] == [];
    assert ValidRun(t, []) && Run(t, []) == t;
  }

  lemma TwoSteps(s: State, a: Action, b: Action)
    requires Enabled(s, a) && Enabled(Next(s, a), b)
    ensures ValidRun(s, [a, b]) && Run(s, [a, b]) == Next(Next(s, a), b)
  {
    assert [a, b][1..] == [b];
    OneStep(Next(s, a), b);
  }

  lemma HeldEncoderEscapes(s: State)
    requires s.monitor.StartEncoder? && s.held.encoder
    ensures CanEscape(s)
  {
    var a := InitEncoder(ConfigureFails);
    StepOverwrites(s, a);
    OneStep(s, a);
    assert NoStart([a]);
  }

  lemma HeldCameraEscapes(s: State)
    requires s.monitor.StartEncoder? && (s.held.camera || s.held.cameraThread)
    ensures CanEscape(s)
  {
    var a, b := InitEncoder(Works), OpenCamera(Opened);
    StepOverwrites(s, a);
    StepOverwrites(Next(s, a), b);
    TwoSteps(s, a, b);
    assert NoStart([a, b]);
  }

  /** What start() must find: something can escape release after it goes ahead, in whatever
      interleaving, if and only if encoder, camera or camera thread is still held at the call. */
  lemma StartEscapesIff(s: State)
    requires Inv(s) && s.monitor.Free? && !s.running
    ensures CanEscape(Next(s, CallStart(true))) <==> !Clear(s.held)
  {
    var r := Next(s, CallStart(true));
    if Clear(s.held) {
      NextKeeps(s, CallStart(true));
      RoomKept(s, CallStart(true));
      forall run | ValidRun(r, run) && NoStart(run) ensures Run(r, run).held.overwritten == r.held.overwritten {
        NoStartIsClean(r, run);
        NoneEscapesRelease(r, run);
      }
    } else if s.held.encoder {
      HeldEncoderEscapes(r);
    } else {
      HeldCameraEscapes(r);
    }
  }

  /** A restart whose encoder cannot be created leaves the camera thread to the stop thread it spawns;
      a start() that comes before that thread can lose it. */
  lemma StartBeforeStopThreadEscapes(s: State, enc: EncoderOutcome)
    requires Inv(s) && s.monitor.RestartInit? && !s.running && s.held.cameraThread
    requires !enc.AudioOnly? && !enc.Works?
    ensures var t := Next(s, InitEncoder(enc));
      && t.monitor.Free? && t.threads.stops == s.threads.stops + 1
      && CanEscape(Next(t, CallStart(true)))
  {
    NextKeeps(s, InitEncoder(enc));
    StartEscapesIff(Next(s, InitEncoder(enc)));
  }

  // ---------------------------------------------------------------------------
  // The code itself
  // ---------------------------------------------------------------------------

  /** The fields of Camera2GstStreamer and the statics of the native side that the lifecycle uses.
      The pieces of a monitor method are methods of their own, so that errors and disconnects can
      be placed between them. */
  class CameraStreamer {
    var running: bool     // mRunning
    var gstStarted: bool  // mGstPipelineStarted
    var held: Held        // mEncoder, mEncoderSurface, mCaptureSession, mCameraDevice, mCameraThread, mAudioRecord
    var native: Native    // s_server, s_loop, s_context
    var threads: Threads  // mRestartCount and the threads waiting for the monitor
    var monitor: Monitor  // which piece of which method runs next
    ghost var stopped: bool

    ghost function Snapshot(): State
      reads this
    {
      State(monitor, running, gstStarted, held, native, threads, stopped)
    }

    ghost predicate Valid()
      reads this
    {
      Inv(Snapshot()) && BudgetInv(Snapshot().threads)
    }

    constructor ()
      ensures Valid() && Snapshot() == START
    {
      running, gstStarted, stopped := false, false, true;
      held := Held(false, false, false, false, false, false, false, 0);
      native := Native(false, false, false, 0);
      threads := Threads(0, 0, 0, None, 0, 0);
      monitor := Free;
    }

    /** onError up to its decision. */
    method OnCodecError(fatal: bool)
      requires Valid() && Enabled(Snapshot(), CodecError(fatal))
      modifies this
      ensures Valid() && Snapshot() == Next(old(Snapshot()), CodecError(fatal))
      ensures !running && held == old(held)
      ensures if fatal then threads.deciding == Some(old(threads).restartCount + 1)
              else threads.stops == old(threads).stops + 1
    {
      NextKeeps(Snapshot(), CodecError(fatal));
      running := false;
      if fatal {
        threads := threads.(restartCount := threads.restartCount + 1);
        threads := threads.(deciding := Some(threads.restartCount));
      } else {
        threads := SpawnStop(threads);
      }
    }

    /** The decision of onError: a restart thread within the budget, a stop thread beyond it. */
    method ActOnError(attempt: nat)
      requires Valid() && threads.deciding == Some(attempt)
      modifies this
      ensures Valid() && Snapshot() == Next(old(Snapshot()), Decide)
      ensures threads.deciding.None?
      ensures if attempt <= 3 then threads.restarts == old(threads).restarts + 1 && threads.stops == old(threads).stops
              else threads.stops == old(threads).stops + 1 && threads.restarts == old(threads).restarts
    {
      NextKeeps(Snapshot(), Decide);
      BudgetKept(Snapshot(), Decide);
      threads := threads.(deciding := None);
      if attempt <= MAX_ENCODER_RESTARTS {
        threads := threads.(restarts := threads.restarts + 1, scheduled := threads.scheduled + 1);
      } else {
        threads := SpawnStop(threads);
      }
    }

    /** onDisconnected or onError of the camera device. */
    method OnCameraLost()
      requires Valid()
      modifies this
      ensures Valid() && Snapshot() == Next(old(Snapshot()), CameraLost)
      ensures held == old(held).(camera := false) && running == old(running) && threads == old(threads)
    {
      NextKeeps(Snapshot(), CameraLost);
      held := held.(camera := false);
    }

    /** Actions of other threads at one point of a monitor method; one that is not possible there
        does not happen. */
    method OtherThreads(gap: seq<Action>)
      requires Valid() && AllAsync(gap)
      modifies this
      ensures Valid() && Disturbed(old(Snapshot()), Snapshot())
      ensures CameraStays(gap) ==> held == old(held)
    {
      var i := 0;
      while i < |gap|
        invariant 0 <= i <= |gap|
        invariant Valid() && Disturbed(old(Snapshot()), Snapshot())
        invariant CameraStays(gap) ==> held == old(held)
      {
        OtherThread(gap[i]);
        i := i + 1;
      }
    }

    method OtherThread(a: Action)
      requires Valid() && Asynchronous(a)
      modifies this
      ensures Valid() && Disturbed(old(Snapshot()), Snapshot())
      ensures !a.CameraLost? ==> held == old(held)
    {
      if Enabled(Snapshot(), a) { AsynchronousDisturbs(Snapshot(), a); }
      match a {
        case CodecError(fatal) =>
          if held.codec && (!fatal || threads.deciding.None?) { OnCodecError(fatal); }
        case Decide =>
          if threads.deciding.Some? { ActOnError(threads.deciding.value); }
        case CameraLost => OnCameraLost();
      }
    }

    // -- stop() -------------------------------------------------------------

    /** The head of stop(): mRunning is cleared, and nothing else is done if nothing is held. */
    method BeginStop() returns (proceed: bool)
      requires Valid() && monitor.Free?
      modifies this
      ensures Valid() && Snapshot() == Next(old(Snapshot()), CallStop)
      ensures proceed <==> monitor.StopAudio?
    {
      NextKeeps(Snapshot(), CallStop);
      proceed := AbortInto();
    }

    /** stop() as called from the catch block of start(). */
    method AbortInto() returns (proceed: bool)
      modifies this
      ensures Snapshot() == EnterStop(old(Snapshot()))
      ensures proceed <==> monitor.StopAudio?
    {
      running := false;
      proceed := held.encoder || held.camera || gstStarted;
      if proceed { monitor := StopAudio; } else { monitor, stopped := Free, true; }
    }

    method ReleaseAudioPiece()
      requires Valid() && monitor.StopAudio?
      modifies this
      ensures Valid() && Snapshot() == Next(old(Snapshot()), ReleaseAudio)
    {
      NextKeeps(Snapshot(), ReleaseAudio);
      held := held.(audio := false);
      monitor := StopCamera;
    }

    method ReleaseCameraPiece()
      requires Valid() && monitor.StopCamera?
      modifies this
      ensures Valid() && Snapshot() == Next(old(Snapshot()), ReleaseCamera)
    {
      NextKeeps(Snapshot(), ReleaseCamera);
      held := held.(session := false);
      held := held.(camera := false);
      held := held.(cameraThread := false);
      monitor := StopEncoder;
    }

    method ReleaseEncoderPiece()
      requires Valid() && monitor.StopEncoder?
      modifies this
      ensures Valid() && Snapshot() == Next(old(Snapshot()), ReleaseEncoder)
    {
      NextKeeps(Snapshot(), ReleaseEncoder);
      held := held.(encoder := false);
      held := held.(surface := false);
      monitor := StopGst;
    }

    /** nativeGstPipelineDestroy up to the release of s_lock. */
    method DestroyLockedPiece() returns (proceed: bool)
      requires Valid() && monitor.StopGst?
      modifies this
      ensures Valid() && Snapshot() == Next(old(Snapshot()), DestroyLocked)
      ensures proceed <==> monitor.StopJoin?
    {
      NextKeeps(Snapshot(), DestroyLocked);
      proceed := gstStarted;
      if gstStarted {
        native := native.(server := false, loop := false, context := false);
        monitor := StopJoin;
      } else {
        monitor, stopped := Free, true;
      }
    }

    /** The join and the release of the server. */
    method DestroyJoinPiece()
      requires Valid() && monitor.StopJoin?
      modifies this
      ensures Valid() && Snapshot() == Next(old(Snapshot()), DestroyJoin)
    {
      NextKeeps(Snapshot(), DestroyJoin);
      native := native.(liveServers := native.liveServers - 1);
      gstStarted := false;
      monitor, stopped := Free, true;
    }

    method TearDownCapture(g0: seq<Action>, g1: seq<Action>)
      requires Valid() && monitor.StopAudio? && AllAsync(g0) && AllAsync(g1)
      modifies this
      ensures Valid() && monitor.StopEncoder?
    {
      ReleaseAudioPiece();
      OtherThreads(g0);
      ReleaseCameraPiece();
      OtherThreads(g1);
    }

    method TearDownServer(g: seq<Action>)
      requires Valid() && monitor.StopGst? && AllAsync(g)
      modifies this
      ensures Valid() && monitor.Free? && stopped && AllReleased(Snapshot())
    {
      var proceed := DestroyLockedPiece();
      if proceed {
        OtherThreads(g);
        DestroyJoinPiece();
      }
    }

    /** The teardown of stop(), errors and disconnects falling between its pieces. */
    method TearDown(g0: seq<Action>, g1: seq<Action>, g2: seq<Action>, g3: seq<Action>)
      requires Valid() && monitor.StopAudio?
      requires AllAsync(g0) && AllAsync(g1) && AllAsync(g2) && AllAsync(g3)
      modifies this
      ensures Valid() && monitor.Free? && stopped && !running && AllReleased(Snapshot())
    {
      TearDownCapture(g0, g1);
      ReleaseEncoderPiece();
      OtherThreads(g2);
      TearDownServer(g3);
    }

    /** stop() releases everything, wherever errors and disconnects fall. */
    method Stop(g0: seq<Action>, g1: seq<Action>, g2: seq<Action>, g3: seq<Action>)
      requires Valid() && monitor.Free?
      requires AllAsync(g0) && AllAsync(g1) && AllAsync(g2) && AllAsync(g3)
      modifies this
      ensures Valid() && monitor.Free? && stopped && !running && AllReleased(Snapshot())
    {
      var proceed := BeginStop();
      if proceed { TearDown(g0, g1, g2, g3); }
    }

    // -- restartEncoder() ---------------------------------------------------

    method RestartReleasesPiece()
      requires Valid() && monitor.Free? && threads.restarts > 0
      modifies this
      ensures Valid()
      ensures Snapshot() == Next(Next(old(Snapshot()), RunRestartThread), RestartReleases)
    {
      NextKeeps(Snapshot(), RunRestartThread);
      NextKeeps(Next(Snapshot(), RunRestartThread), RestartReleases);
      threads := threads.(restarts := threads.restarts - 1);
      held := held.(session := false);
      held := held.(encoder := false, surface := false);
      monitor := RestartInit;
    }

    method CreateCodecPiece(o: EncoderOutcome)
      modifies this`held
      ensures held == CreateCodec(old(held), o)
    {
      if o.ConfigureFails? || o.StartFails? || o.Works? {
        held := held.(encoder := true, codec := true, overwritten := held.overwritten + Count(held.encoder));
      }
    }

    method CreateSurfacePiece(o: EncoderOutcome)
      modifies this`held
      ensures held == CreateSurface(old(held), o)
    {
      if o.StartFails? || o.Works? {
        held := held.(surface := true, overwritten := held.overwritten + Count(held.surface));
      }
    }

    method CreateEncoderPiece(o: EncoderOutcome)
      modifies this`held
      ensures held == CreateEncoder(old(held), o)
      ensures held.encoder == (old(held).encoder || o.ConfigureFails? || o.StartFails? || o.Works?)
      ensures held.surface == (old(held).surface || o.StartFails? || o.Works?)
    {
      CreateCodecPiece(o);
      CreateSurfacePiece(o);
    }

    method RestartInitPiece(o: EncoderOutcome) returns (ok: bool)
      requires Valid() && monitor.RestartInit? && !o.AudioOnly?
      modifies this
      ensures Valid() && Snapshot() == Next(old(Snapshot()), InitEncoder(o))
      ensures ok <==> o.Works?
      ensures if ok then monitor.RestartSession? else monitor.Free?
    {
      NextKeeps(Snapshot(), InitEncoder(o));
      CreateEncoderPiece(o);
      ok := o.Works?;
      if ok { monitor := RestartSession; } else { monitor, threads := Free, SpawnStop(threads); }
    }

    method TrySessionPiece(o: SessionOutcome) returns (ok: bool)
      modifies this`held
      ensures Snapshot() == old(Snapshot()).(held := TrySession(old(Snapshot().held), o))
      ensures ok <==> SessionCreated(old(Snapshot().held), o)
    {
      ok := held.camera && (o.Configured? || (o.ConfigureFailed? && held.session));
      if held.camera && o.Configured? {
        held := held.(session := true, overwritten := held.overwritten + Count(held.session));
      }
    }

    method RestartSessionPiece(o: SessionOutcome) returns (ok: bool)
      requires Valid() && monitor.RestartSession?
      modifies this
      ensures Valid() && Snapshot() == Next(old(Snapshot()), CreateSession(o))
      ensures ok <==> SessionCreated(old(held), o)
      ensures if ok then monitor.RestartDone? else monitor.Free?
    {
      NextKeeps(Snapshot(), CreateSession(o));
      ok := TrySessionPiece(o);
      if ok { monitor := RestartDone; } else { monitor, threads := Free, SpawnStop(threads); }
    }

    /** restartEncoder(): it reaches its end only over a camera that was still there, with the new
        encoder connected to it, and then the streamer runs again; otherwise a stop thread is on its
        way. The server is left alone, and after a completed stop the end is never reached. */
    method RestartEncoder(enc: EncoderOutcome, ses: SessionOutcome, g0: seq<Action>, g1: seq<Action>, g2: seq<Action>)
      returns (ok: bool)
      requires Valid() && monitor.Free? && threads.restarts > 0 && !enc.AudioOnly?
      requires AllAsync(g0) && AllAsync(g1) && AllAsync(g2)
      modifies this
      ensures Valid() && monitor.Free? && stopped == old(stopped)
      ensures native == old(native) && gstStarted == old(gstStarted)
      ensures ok ==> enc.Works? && ses.Configured? && old(held.camera)
      ensures enc.Works? && ses.Configured? && old(held.camera) && CameraStays(g0) && CameraStays(g1) ==> ok
      ensures if ok then running && held.encoder && held.surface
              else threads.stops > old(threads.stops) && (running ==> old(running))
      ensures held.session == ok
      ensures stopped ==> !ok && !running && (held.encoder ==> threads.stops > 0)
    {
      RestartReleasesPiece();
      OtherThreads(g0);
      ok := RestartInitPiece(enc);
      if ok { ok := Reconnect(ses, g1, g2); }
    }

    /** The part of restartEncoder() after initEncoder. */
    method Reconnect(ses: SessionOutcome, g1: seq<Action>, g2: seq<Action>) returns (ok: bool)
      requires Valid() && monitor.RestartSession? && !held.session && AllAsync(g1) && AllAsync(g2)
      modifies this
      ensures Valid() && monitor.Free? && stopped == old(stopped)
      ensures native == old(native) && gstStarted == old(gstStarted)
      ensures ok ==> ses.Configured? && old(held.camera)
      ensures ses.Configured? && old(held.camera) && CameraStays(g1) ==> ok
      ensures if ok then running else threads.stops > old(threads.stops) && (running ==> old(running))
      ensures held.session == ok && held.encoder == old(held.encoder) && held.surface == old(held.surface)
    {
      OtherThreads(g1);
      ok := RestartSessionPiece(ses);
      if ok {
        OtherThreads(g2);
        FinishRestartPiece();
      }
    }

    method FinishRestartPiece()
      requires Valid() && monitor.RestartDone?
      modifies this
      ensures Valid() && Snapshot() == Next(old(Snapshot()), FinishRestart)
    {
      NextKeeps(Snapshot(), FinishRestart);
      running := true;
      monitor := Free;
    }

    /** An exception has sent start() into stop(), or stop() found nothing to do. */
    ghost predicate Aborting()
      reads this
    {
      monitor.StopAudio? || (monitor.Free? && stopped && !running && AllReleased(Snapshot()))
    }

    // -- start() ------------------------------------------------------------

    /** initEncoder as start() runs it. */
    method StartEncoderPiece(o: EncoderOutcome) returns (ok: bool)
      requires Valid() && monitor.StartEncoder?
      modifies this
      ensures Valid() && Snapshot() == Next(old(Snapshot()), InitEncoder(o))
      ensures ok <==> o.AudioOnly? || o.Works?
      ensures if !ok then Aborting() else if o.AudioOnly? then monitor.StartGst? else monitor.StartCamera?
    {
      NextKeeps(Snapshot(), InitEncoder(o));
      CreateEncoderPiece(o);
      ok := o.AudioOnly? || o.Works?;
      if o.AudioOnly? {
        monitor := StartGst;
      } else if o.Works? {
        monitor := StartCamera;
      } else {
        var _ := AbortInto();
      }
    }

    /** initCamera and createCaptureSession. */
    method StartCameraAndSession(cam: CameraOutcome, ses: SessionOutcome, g: seq<Action>) returns (ok: bool)
      requires Valid() && monitor.StartCamera? && AllAsync(g)
      modifies this
      ensures Valid() && native.server == old(native.server) && held.encoder == old(held.encoder)
      ensures if ok then monitor.StartGst? && cam.Opened? && held.session else Aborting()
      ensures cam.Opened? && ses.Configured? && CameraStays(g) ==> ok
    {
      ok := StartCameraPiece(cam);
      if !ok { return; }
      OtherThreads(g);
      ok := StartSessionPiece(ses);
    }

    /** initEncoder, initCamera and createCaptureSession as start() runs them; false if one throws. */
    method StartVideo(enc: EncoderOutcome, cam: CameraOutcome, ses: SessionOutcome, g0: seq<Action>, g1: seq<Action>)
      returns (ok: bool)
      requires Valid() && monitor.StartEncoder?
      requires AllAsync(g0) && AllAsync(g1)
      modifies this
      ensures Valid() && native.server == old(native.server)
      ensures if ok then monitor.StartGst? else Aborting()
      ensures ok ==> enc.AudioOnly? || (enc.Works? && cam.Opened? && held.encoder && held.session)
      ensures enc.AudioOnly? || (enc.Works? && cam.Opened? && ses.Configured? && CameraStays(g1)) ==> ok
    {
      ok := StartEncoderPiece(enc);
      if !ok || enc.AudioOnly? { return; }
      OtherThreads(g0);
      ok := StartCameraAndSession(cam, ses, g1);
    }

    method StartCameraThreadPiece()
      modifies this`held
      ensures held == StartCameraThread(old(held))
    {
      held := held.(cameraThread := true, overwritten := held.overwritten + Count(held.cameraThread));
    }

    method AssignCameraPiece(o: CameraOutcome)
      modifies this`held
      ensures held == AssignCamera(old(held), o)
    {
      if o.Opened? || o.OpenFails? {
        held := held.(camera := o.Opened?, overwritten := held.overwritten + Count(held.camera));
      }
    }

    method StartCameraPiece(o: CameraOutcome) returns (ok: bool)
      requires Valid() && monitor.StartCamera?
      modifies this
      ensures Valid() && Snapshot() == Next(old(Snapshot()), OpenCamera(o))
      ensures ok <==> o.Opened?
      ensures if ok then monitor.StartSession? else Aborting()
    {
      NextKeeps(Snapshot(), OpenCamera(o));
      StartCameraThreadPiece();
      AssignCameraPiece(o);
      ok := o.Opened?;
      if ok { monitor := StartSession; } else { var _ := AbortInto(); }
    }

    method StartSessionPiece(o: SessionOutcome) returns (ok: bool)
      requires Valid() && monitor.StartSession?
      modifies this
      ensures Valid() && Snapshot() == Next(old(Snapshot()), CreateSession(o))
      ensures ok <==> SessionCreated(old(held), o)
      ensures if ok then monitor.StartGst? else Aborting()
    {
      NextKeeps(Snapshot(), CreateSession(o));
      ok := TrySessionPiece(o);
      if ok { monitor := StartGst; } else { var _ := AbortInto(); }
    }

    /** nativeGstPipelineInit and the flag of initGstPipeline. */
    method StartGstPiece(initOk: bool) returns (ok: bool)
      requires Valid() && monitor.StartGst?
      modifies this
      ensures Valid() && Snapshot() == Next(old(Snapshot()), InitGst(initOk))
      ensures ok <==> !old(native.server) && initOk
      ensures if ok then monitor.StartAudio? else Aborting()
    {
      NextKeeps(Snapshot(), InitGst(initOk));
      ok := !native.server && initOk;
      if ok {
        native := Native(true, true, true, native.liveServers + 1);
        gstStarted := true;
        monitor := StartAudio;
      } else {
        var _ := AbortInto();
      }
    }

    method StartAudioPiece(o: AudioOutcome) returns (ok: bool)
      requires Valid() && monitor.StartAudio?
      modifies this
      ensures Valid() && Snapshot() == Next(old(Snapshot()), StartCapture(o))
      ensures ok <==> !o.AudioThrows?
      ensures if ok then monitor.StartDone? else Aborting()
    {
      NextKeeps(Snapshot(), StartCapture(o));
      if !o.NoAudio? {
        held := held.(audio := true, overwritten := held.overwritten + Count(held.audio));
      }
      ok := !o.AudioThrows?;
      if ok { monitor := StartDone; } else { var _ := AbortInto(); }
    }

    /** start(): ignored, or it succeeds exactly when every part does (and the camera stays), and
        returns running with a live server; after a failure everything that it or an earlier start
        created is released again. */
    method Start(available: bool, enc: EncoderOutcome, cam: CameraOutcome, ses: SessionOutcome,
                 initOk: bool, aud: AudioOutcome, g: seq<Action>)
      returns (ok: bool)
      requires Valid() && monitor.Free?
      requires AllAsync(g)
      modifies this
      ensures Valid() && monitor.Free?
      ensures old(running) || !available ==> !ok && Snapshot() == old(Snapshot())
      ensures !old(running) && available && !ok ==> !running && stopped && AllReleased(Snapshot())
      ensures ok ==> !old(running) && available && running && !stopped && gstStarted && native.server
      ensures ok ==> enc.AudioOnly? || (held.encoder && held.session)
      ensures ok ==> aud.NoAudio? || held.audio
      ensures ok ==> enc.AudioOnly? || (enc.Works? && cam.Opened?)
      ensures ok ==> initOk && !old(native.server) && !aud.AudioThrows?
      ensures !old(running) && available && CameraStays(g) && initOk && !old(native.server) && !aud.AudioThrows? ==>
                (enc.AudioOnly? || (enc.Works? && cam.Opened? && ses.Configured?)) ==> ok
    {
      if running || !available { return false; }
      BeginStart();
      OtherThreads(g);
      ok := StartVideo(enc, cam, ses, g, g);
      if ok { ok := StartServer(initOk, aud, g); }
      if !ok && monitor.StopAudio? { TearDown(g, g, g, g); }
    }

    method BeginStart()
      requires Valid() && monitor.Free? && !running
      modifies this
      ensures Valid() && Snapshot() == Next(old(Snapshot()), CallStart(true))
    {
      NextKeeps(Snapshot(), CallStart(true));
      BudgetKept(Snapshot(), CallStart(true));
      threads := threads.(restartCount := 0, scheduled := 0, carried := Pending(threads));
      stopped := false;
      monitor := StartEncoder;
    }

    /** The rest of start(), once the encoder and the camera are up. */
    method StartServer(initOk: bool, aud: AudioOutcome, g: seq<Action>) returns (ok: bool)
      requires Valid() && monitor.StartGst? && AllAsync(g)
      modifies this
      ensures Valid()
      ensures ok ==> monitor.Free? && running && gstStarted && native.server && !stopped
      ensures !ok ==> Aborting()
      ensures ok <==> initOk && !old(native.server) && !aud.AudioThrows?
      ensures ok ==> held.encoder == old(held.encoder) && held.session == old(held.session)
      ensures ok && !aud.NoAudio? ==> held.audio
    {
      OtherThreads(g);
      ok := StartGstPiece(initOk);
      if ok {
        OtherThreads(g);
        ok := StartAudioPiece(aud);
      }
      if ok { FinishStartPiece(); }
    }

    method FinishStartPiece()
      requires Valid() && monitor.StartDone?
      modifies this
      ensures Valid() && Snapshot() == Next(old(Snapshot()), FinishStart)
    {
      NextKeeps(Snapshot(), FinishStart);
      running := true;
      monitor := Free;
    }
  }
}
