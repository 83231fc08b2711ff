/**
 The keyframe gate: how the encoder callback (Camera2GstStreamer.handleEncoderOutput) and the
 RTSP media callbacks (camera2_gst_streamer.cpp) decide together which encoded buffers reach
 which media.  A step of the machine is one s_lock critical section together with the
 callback-local code that follows it; every other callback may run between two steps.
 */
module KeyframeGate {
  import opened Options

  const FORCED_IDR_INTERVAL_FRAMES: nat := 150

  /** One MediaCodec output buffer, reduced to its two flags. */
  datatype Output = Output(isCsd: bool, isKey: bool) {
    predicate IsFrame() { isKey || !isCsd }
    predicate IsDelta() { !isKey && !isCsd }
  }

  /** One gst_app_src_push_buffer call; frames carry their position in the encoder's output. */
  datatype Item = Csd(reinjected: bool) | Frame(index: nat, key: bool) {
    predicate IsDelta() { Frame? && !key }
    predicate IsKey() { Frame? && key }
  }

  /** One media: what its appsrc was handed, and whether a CSD was cached when it was configured. */
  datatype Generation = Generation(csdCached: bool, log: seq<Item>)

  /** Where the encoder callback stands; out and index describe the buffer it is handling. */
  datatype Pc =
    | Idle
    | AtConsume(out: Output, index: nat)
    | AtPushCsd(out: Output, index: nat)
    | AtPush(out: Output, index: nat)

  datatype State = State(
    // camera2_gst_streamer.cpp: s_appsrc is `live`, the other two are named as there
    live: Option<Generation>,
    needData: bool,
    requestKeyframe: bool,
    // Camera2GstStreamer.java
    running: bool,
    cachedCsd: bool,
    waitingForIdr: bool,
    framesSinceIdr: nat,
    pc: Pc,
    // history
    past: seq<Generation>,
    began: Option<nat>,       // frames emitted when mRunning was last set, None before the first time
    frames: nat,              // frames the encoder has emitted
    lastKey: Option<nat>,     // index of the last key frame the callback saw
    unanswered: Option<nat>,  // frames seen since the oldest sync request not yet answered by a key
    withheld: nat             // frames the closed gate has withheld so far
  )

  datatype Action =
    | Emit(out: Output)
    | Consume
    | PushCsd
    | Push
    | Configure(video: bool)
    | Unprepared
    | Destroy
    | Init
    | ClientConnected
    | NeedData
    | EnoughData
    | Halt
    | Begin
    | Release
    | Resume

  // ---------------------------------------------------------------------------
  // The steps
  // ---------------------------------------------------------------------------

  /** setParameters(REQUEST_SYNC_FRAME): the oldest outstanding request keeps its age. */
  function RequestSync(s: State): (t: State)
    ensures t == s.(unanswered := t.unanswered)
  {
    s.(unanswered := if s.unanswered.Some? then s.unanswered else Some(0))
  }

  /** The periodic forced-IDR counter. */
  function CountFrame(s: State, o: Output): (t: State)
    ensures t == s.(framesSinceIdr := t.framesSinceIdr, unanswered := t.unanswered)
  {
    if o.isKey then s.(framesSinceIdr := 0)
    else if o.isCsd then s
    else if s.framesSinceIdr + 1 >= FORCED_IDR_INTERVAL_FRAMES then RequestSync(s.(framesSinceIdr := 0))
    else s.(framesSinceIdr := s.framesSinceIdr + 1)
  }

  /** The callback has seen a frame: the history of key frames and of unanswered requests. */
  function Seen(s: State, o: Output, index: nat): State {
    s.(lastKey := if o.isKey then Some(index) else s.lastKey,
       unanswered := if o.isKey then None
                     else if o.IsDelta() && s.unanswered.Some? then Some(s.unanswered.value + 1)
                     else s.unanswered)
  }

  /** The encoder delivers a buffer: CSD caching, the mRunning test and the frame counter. */
  function EmitStep(s: State, o: Output): State {
    var s1 := s.(cachedCsd := s.cachedCsd || o.isCsd,
                 frames := if o.IsFrame() then s.frames + 1 else s.frames);
    if !s.running then s1 else CountFrame(Seen(s1, o, s.frames), o).(pc := AtConsume(o, s.frames))
  }

  /** The gate is armed: an IDR is requested and P/B frames are withheld from now on. */
  function Arm(s: State): (t: State)
    ensures t == s.(waitingForIdr := true, unanswered := t.unanswered)
  {
    RequestSync(s).(waitingForIdr := true)
  }

  /** While waiting for the IDR: let CSD and key frames through, withhold the rest. */
  function Decide(s: State, o: Output, index: nat): (t: State)
    ensures t == s.(waitingForIdr := t.waitingForIdr, withheld := t.withheld, pc := t.pc)
  {
    if !s.waitingForIdr then s.(pc := AtPush(o, index))
    else if o.isKey then s.(waitingForIdr := false, withheld := 0, pc := AtPush(o, index))
    else if !o.isCsd then s.(withheld := s.withheld + 1, pc := Idle)
    else s.(pc := AtPush(o, index))
  }

  /** nativeConsumeKeyframeRequest and what the callback does with the answer. */
  function ConsumeStep(s: State): State
    requires s.pc.AtConsume?
  {
    var s1 := s.(requestKeyframe := false);
    if !s.requestKeyframe then Decide(s1, s.pc.out, s.pc.index)
    else if s.cachedCsd then s1.(pc := AtPushCsd(s.pc.out, s.pc.index))
    else Decide(Arm(s1), s.pc.out, s.pc.index)
  }

  /** nativePushEncodedBuffer: no appsrc, flow-control drop, or hand the buffer over. */
  function PushNative(s: State, item: Item): (t: State)
    ensures t == s.(live := t.live, requestKeyframe := t.requestKeyframe)
  {
    if s.live.None? then s
    else if !s.needData && item.IsDelta() then s.(requestKeyframe := true)
    else s.(live := Some(s.live.value.(log := s.live.value.log + [item])))
  }

  function PushCsdStep(s: State): State
    requires s.pc.AtPushCsd?
  {
    Decide(Arm(PushNative(s, Csd(true))), s.pc.out, s.pc.index)
  }

  function ItemOf(o: Output, index: nat): Item {
    if o.isKey then Frame(index, true) else if o.isCsd then Csd(false) else Frame(index, false)
  }

  function PushStep(s: State): State
    requires s.pc.AtPush?
  {
    PushNative(s, ItemOf(s.pc.out, s.pc.index)).(pc := Idle)
  }

  function Retire(s: State): (t: State)
    ensures t == s.(past := t.past, live := None)
  {
    if s.live.Some? then s.(past := s.past + [s.live.value], live := None) else s
  }

  /** The locked section of on_media_configure; an audio-only media leaves s_appsrc alone. */
  function ConfigureStep(s: State, video: bool): (t: State)
    ensures t == s.(past := t.past, live := t.live, needData := true, requestKeyframe := true)
  {
    var s1 := if video then Retire(s).(live := Some(Generation(s.cachedCsd, []))) else s;
    s1.(needData := true, requestKeyframe := true)
  }

  /** releaseEncoder as seen by the gate. */
  function ReleaseStep(s: State): State {
    s.(cachedCsd := false, waitingForIdr := false, framesSinceIdr := 0, unanswered := None, withheld := 0)
  }

  /** mRunning.set(true), at the end of start() and of restartEncoder(). */
  function ResumeStep(s: State): State {
    s.(running := true, began := Some(s.frames), lastKey := None)
  }

  /** Actions of other threads, which may fall between any two steps of the callback. */
  predicate Environment(a: Action) {
    && !a.Emit? && !a.Consume? && !a.PushCsd? && !a.Push?
    && !a.Begin? && !a.Release? && !a.Resume?
  }

  function EnvironmentStep(s: State, a: Action): (t: State)
    requires Environment(a)
    ensures t == s.(live := t.live, past := t.past, needData := t.needData, requestKeyframe := t.requestKeyframe,
                    running := t.running)
    ensures (t.running ==> s.running) && (s.requestKeyframe ==> t.requestKeyframe)
  {
    match a
    case Configure(video) => ConfigureStep(s, video)
    case Unprepared => Retire(s).(needData := false)
    case Destroy => Retire(s).(needData := false)
    case Init => s.(needData := true)
    case ClientConnected => s.(requestKeyframe := true)
    case NeedData => s.(needData := true)
    case EnoughData => s.(needData := false)
    case Halt => s.(running := false)
  }

  predicate Enabled(s: State, a: Action) {
    match a
    case Emit(_) => s.pc.Idle?
    case Consume => s.pc.AtConsume?
    case PushCsd => s.pc.AtPushCsd?
    case Push => s.pc.AtPush?
    case Begin => s.began.None?
    case Release => s.began.Some? && !s.running && s.pc.Idle?
    case Resume => s.began.Some? && !s.running && s.pc.Idle?
    case _ => true
  }

  function Next(s: State, a: Action): State
    requires Enabled(s, a)
  {
    match a
    case Emit(o) => EmitStep(s, o)
    case Consume => ConsumeStep(s)
    case PushCsd => PushCsdStep(s)
    case Push => PushStep(s)
    case Begin => ResumeStep(s)
    case Release => ReleaseStep(s)
    case Resume => ResumeStep(s)
    case _ => EnvironmentStep(s, a)
  }

  /** start() has not finished yet: a fresh encoder, no media; the native flags may hold anything. */
  predicate Initial(s: State) {
    && s.pc.Idle? && s.live.None? && s.past == [] && !s.running && s.began.None?
    && !s.waitingForIdr && s.framesSinceIdr == 0
    && s.frames == 0 && s.lastKey.None? && s.unanswered.None? && s.withheld == 0
  }

  predicate ValidRun(s: State, run: seq<Action>)
    decreases run
  {
    run == [] || (Enabled(s, run[0]) && ValidRun(Next(s, run[0]), run[1..]))
  }

  function Run(s: State, run: seq<Action>): State
    requires ValidRun(s, run)
    decreases run
  {
    if run == [] then s else Run(Next(s, run[0]), run[1..])
  }

  function Generations(s: State): seq<Generation> {
    if s.live.Some? then s.past + [s.live.value] else s.past
  }

  // ---------------------------------------------------------------------------
  // What a decoder needs
  // ---------------------------------------------------------------------------

  /** Frame `index` was handed over somewhere in log[from..to]. */
  ghost predicate HandedBetween(log: seq<Item>, from: nat, to: nat, index: nat) {
    exists p :: from <= p <= to && p < |log| && log[p].Frame? && log[p].index == index
  }

  /** log[k] chains back, one encoder frame at a time, to the key frame log[j]. */
  ghost predicate ChainedFrom(log: seq<Item>, j: nat, k: nat) {
    && j < k < |log| && log[j].IsKey() && log[k].Frame? && log[j].index < log[k].index
    && forall m: nat :: log[j].index <= m <= log[k].index ==> HandedBetween(log, j, k, m)
  }

  ghost predicate Chained(log: seq<Item>, k: nat) {
    exists j: nat :: ChainedFrom(log, j, k)
  }

  /** The parser saw a re-injected CSD and, after it, a key frame, both before position k. */
  ghost predicate Primed(log: seq<Item>, k: nat) {
    exists a, b :: 0 <= a < b < k && b < |log| && log[a] == Csd(true) && log[b].IsKey()
  }

  /** Every P/B frame handed to the media, except its very first buffer, decodes. */
  ghost predicate Decodable(g: Generation) {
    forall k :: 0 < k < |g.log| && g.log[k].IsDelta() ==>
      Chained(g.log, k) && (g.csdCached ==> Primed(g.log, k))
  }

  /** Frames are handed over in the order the encoder emitted them, none twice. */
  ghost predicate InOrder(log: seq<Item>) {
    forall i, j :: 0 <= i < j < |log| && log[i].Frame? && log[j].Frame? ==> log[i].index < log[j].index
  }

  // ---------------------------------------------------------------------------
  // The inductive invariant
  // ---------------------------------------------------------------------------

  /** Position of the last frame of the log, or -1. */
  function LastFrame(log: seq<Item>): (p: int)
    ensures -1 <= p < |log|
    ensures p >= 0 ==> log[p].Frame?
    ensures forall i :: p < i < |log| ==> !log[i].Frame?
  {
    if log == [] then -1
    else if log[|log| - 1].Frame? then |log| - 1
    else LastFrame(log[..|log| - 1])
  }

  /** The log ends in frame n-1, and that frame decodes: a P/B frame n may follow. */
  ghost predicate Clean(g: Generation, n: nat) {
    var p := LastFrame(g.log);
    && p >= 0 && g.log[p].index + 1 == n
    && (g.log[p].key || (p > 0 && Chained(g.log, p)))
    && (g.csdCached ==> Primed(g.log, |g.log|))
  }

  ghost predicate HasCsd(log: seq<Item>) {
    exists a :: 0 <= a < |log| && log[a] == Csd(true)
  }

  /** What the log must look like whenever no request is pending. */
  ghost predicate Settled(s: State, n: nat) {
    s.live.Some? && !s.requestKeyframe ==>
      && (!s.waitingForIdr ==> Clean(s.live.value, n))
      && (s.waitingForIdr && s.live.value.csdCached ==> HasCsd(s.live.value.log))
  }

  /** The next P/B push is safe: it is either the first buffer of a media that has since
      asked for a key frame, or it continues a clean log. */
  ghost predicate DeltaSafe(s: State, n: nat) {
    && !s.waitingForIdr
    && (s.live.Some? ==> (s.live.value.log == [] && s.requestKeyframe) || Clean(s.live.value, n))
  }

  ghost predicate KeySafe(s: State) {
    s.live.Some? && !s.requestKeyframe && s.live.value.csdCached ==> HasCsd(s.live.value.log)
  }

  /** Every frame of the log came before frame n. */
  ghost predicate Before(log: seq<Item>, n: nat) {
    forall i :: 0 <= i < |log| && log[i].Frame? ==> log[i].index < n
  }

  /** The CSD that the parser of the live media needs is at hand or has been injected. */
  ghost predicate CsdKnown(s: State) {
    s.live.Some? && s.live.value.csdCached ==> s.cachedCsd || HasCsd(s.live.value.log)
  }

  ghost predicate PcInv(s: State) {
    match s.pc
    case Idle => KeySafe(s) && (s.running ==> Settled(s, s.frames))
    case AtConsume(o, n) => if o.isKey then KeySafe(s) else Settled(s, n)
    case AtPushCsd(o, n) => true
    case AtPush(o, n) =>
      if o.isKey then KeySafe(s) else if o.isCsd then Settled(s, n) else DeltaSafe(s, n)
  }

  /** The number of frames emitted before the one in flight. */
  function Handled(s: State): nat {
    if s.pc.Idle? then s.frames else s.pc.index
  }

  /** Until start() sets mRunning, nothing is handed over and each media has its request pending. */
  predicate NotBegun(s: State) {
    && !s.running && s.pc.Idle?
    && (s.live.Some? ==> s.requestKeyframe && s.live.value.log == [])
  }

  ghost predicate Inv(s: State) {
    && (s.began.None? ==> NotBegun(s))
    && (s.running || !s.pc.Idle? || s.began.None? ==> CsdKnown(s))
    && (s.pc.Idle? || s.frames == if s.pc.out.IsFrame() then s.pc.index + 1 else s.pc.index)
    && (forall g :: g in s.past ==> Decodable(g) && InOrder(g.log))
    && (s.live.Some? ==>
          && Decodable(s.live.value) && InOrder(s.live.value.log)
          && Before(s.live.value.log, Handled(s)))
    && PcInv(s)
  }

  // ---------------------------------------------------------------------------
  // Appending to a log
  // ---------------------------------------------------------------------------

  lemma ChainedAppend(log: seq<Item>, k: nat, x: Item)
    requires Chained(log, k)
    ensures Chained(log + [x], k)
  {
    var j: nat :| ChainedFrom(log, j, k);
    forall m: nat | log[j].index <= m <= log[k].index
      ensures HandedBetween(log + [x], j, k, m)
    {
      assert HandedBetween(log, j, k, m);
      var p :| j <= p <= k && p < |log| && log[p].Frame? && log[p].index == m;
      assert (log + [x])[p] == log[p];
    }
    assert ChainedFrom(log + [x], j, k);
  }

  lemma PrimedAppend(log: seq<Item>, k: nat, x: Item)
    requires Primed(log, k)
    ensures Primed(log + [x], k) && Primed(log + [x], |log| + 1)
  {
    var a, b :| 0 <= a < b < k && b < |log| && log[a] == Csd(true) && log[b].IsKey();
    assert (log + [x])[a] == Csd(true) && (log + [x])[b].IsKey();
  }

  lemma DecodableAppend(g: Generation, x: Item)
    requires Decodable(g)
    requires x.IsDelta() && g.log != [] ==>
               Chained(g.log + [x], |g.log|) && (g.csdCached ==> Primed(g.log + [x], |g.log|))
    ensures Decodable(g.(log := g.log + [x]))
  {
    var log := g.log + [x];
    forall k | 0 < k < |log| && log[k].IsDelta()
      ensures Chained(log, k) && (g.csdCached ==> Primed(log, k))
    {
      if k < |g.log| {
        assert log[k] == g.log[k];
        ChainedAppend(g.log, k, x);
        if g.csdCached { PrimedAppend(g.log, k, x); }
      }
    }
  }

  /** A P/B frame that continues a clean log is chained, and leaves the log clean. */
  lemma CleanDelta(g: Generation, n: nat)
    requires Clean(g, n)
    ensures Chained(g.log + [Frame(n, false)], |g.log|)
    ensures g.csdCached ==> Primed(g.log + [Frame(n, false)], |g.log|)
    ensures Clean(g.(log := g.log + [Frame(n, false)]), n + 1)
  {
    var x := Frame(n, false);
    var log := g.log + [x];
    var p := LastFrame(g.log);
    var k := |g.log|;
    if g.log[p].key {
      assert HandedBetween(log, p, k, n - 1) by { assert log[p] == g.log[p]; }
      assert HandedBetween(log, p, k, n) by { assert log[k] == x; }
      assert ChainedFrom(log, p, k);
    } else {
      var j: nat :| ChainedFrom(g.log, j, p);
      forall m: nat | log[j].index <= m <= n
        ensures HandedBetween(log, j, k, m)
      {
        if m == n {
          assert log[k] == x;
        } else {
          assert HandedBetween(g.log, j, p, m);
          var q :| j <= q <= p && q < |g.log| && g.log[q].Frame? && g.log[q].index == m;
          assert log[q] == g.log[q];
        }
      }
      assert ChainedFrom(log, j, k);
    }
    if g.csdCached { PrimedAppend(g.log, |g.log|, x); }
    assert LastFrame(log) == k;
  }

  /** A CSD leaves a clean log clean. */
  lemma CleanCsd(g: Generation, n: nat, r: bool)
    requires Clean(g, n)
    ensures Clean(g.(log := g.log + [Csd(r)]), n)
  {
    var log := g.log + [Csd(r)];
    var p := LastFrame(g.log);
    assert log[..|log| - 1] == g.log;
    assert LastFrame(log) == p;
    if !g.log[p].key { ChainedAppend(g.log, p, Csd(r)); }
    if g.csdCached { PrimedAppend(g.log, |g.log|, Csd(r)); }
  }

  /** A key frame makes the log clean, provided a CSD preceded it. */
  lemma CleanKey(g: Generation, n: nat)
    requires g.csdCached ==> HasCsd(g.log)
    ensures Clean(g.(log := g.log + [Frame(n, true)]), n + 1)
  {
    var log := g.log + [Frame(n, true)];
    assert LastFrame(log) == |g.log|;
    if g.csdCached {
      var a :| 0 <= a < |g.log| && g.log[a] == Csd(true);
      assert log[a] == Csd(true) && log[|g.log|].IsKey();
    }
  }

  lemma InOrderAppend(log: seq<Item>, x: Item, n: nat)
    requires InOrder(log) && Before(log, n)
    requires x.Frame? ==> x.index == n
    ensures InOrder(log + [x])
    ensures Before(log + [x], if x.Frame? then n + 1 else n)
  {
  }

  // ---------------------------------------------------------------------------
  // Preservation, step by step
  // ---------------------------------------------------------------------------

  /** Decide keeps the invariant once PcInv's facts about the log are known. */
  lemma DecideKeeps(s: State, o: Output, n: nat)
    requires if o.isKey then KeySafe(s) else Settled(s, n)
    requires s.requestKeyframe ==> s.waitingForIdr
    ensures PcInv(Decide(s, o, n))
  {
  }

  lemma EmitKeeps(s: State, o: Output)
    requires Inv(s) && s.pc.Idle?
    ensures Inv(EmitStep(s, o))
  {
    var t := EmitStep(s, o);
    assert t.live == s.live && t.past == s.past;
    assert t.requestKeyframe == s.requestKeyframe && t.waitingForIdr == s.waitingForIdr;
  }

  lemma ConsumeKeeps(s: State)
    requires Inv(s) && s.pc.AtConsume?
    ensures Inv(ConsumeStep(s))
  {
    var o, n := s.pc.out, s.pc.index;
    var s1 := s.(requestKeyframe := false);
    if !s.requestKeyframe {
      DecideKeeps(s1, o, n);
    }
  }

  lemma PushCsdKeeps(s: State)
    requires Inv(s) && s.pc.AtPushCsd?
    ensures Inv(PushCsdStep(s))
  {
    var s1 := PushNative(s, Csd(true));
    if s.live.Some? {
      var g := s.live.value;
      DecodableAppend(g, Csd(true));
      InOrderAppend(g.log, Csd(true), s.pc.index);
      assert s1.live.value.log[|g.log|] == Csd(true);
    }
    DecideKeeps(Arm(s1), s.pc.out, s.pc.index);
  }

  /** What handing x over does to the live log. */
  lemma HandKeeps(g: Generation, x: Item, n: nat)
    requires Decodable(g) && InOrder(g.log) && Before(g.log, n)
    requires x.Frame? ==> x.index == n
    requires x.IsDelta() && g.log != [] ==> Clean(g, n)
    ensures var g' := g.(log := g.log + [x]);
            && Decodable(g') && InOrder(g'.log)
            && Before(g'.log, if x.Frame? then n + 1 else n)
            && (x.IsDelta() && g.log != [] ==> Clean(g', n + 1))
            && (HasCsd(g.log) ==> HasCsd(g'.log))
  {
    InOrderAppend(g.log, x, n);
    if x.IsDelta() && g.log != [] { CleanDelta(g, n); }
    DecodableAppend(g, x);
    if HasCsd(g.log) {
      var a :| 0 <= a < |g.log| && g.log[a] == Csd(true);
      assert (g.log + [x])[a] == Csd(true);
    }
  }

  lemma PushDeltaKeeps(s: State)
    requires Inv(s) && s.pc.AtPush? && s.pc.out.IsDelta()
    ensures Inv(PushStep(s))
  {
    var x := Frame(s.pc.index, false);
    if s.live.Some? && s.needData {
      HandKeeps(s.live.value, x, s.pc.index);
      assert PushStep(s).live == Some(s.live.value.(log := s.live.value.log + [x]));
    } else {
      assert PushStep(s).live == s.live;
    }
  }

  lemma PushKeyKeeps(s: State)
    requires Inv(s) && s.pc.AtPush? && s.pc.out.isKey
    ensures Inv(PushStep(s))
  {
    if s.live.Some? {
      var g, n := s.live.value, s.pc.index;
      HandKeeps(g, Frame(n, true), n);
      if !s.requestKeyframe { CleanKey(g, n); }
    }
  }

  lemma PushCsdOutputKeeps(s: State)
    requires Inv(s) && s.pc.AtPush? && s.pc.out.isCsd && !s.pc.out.isKey
    ensures Inv(PushStep(s))
  {
    if s.live.Some? {
      var g, n := s.live.value, s.pc.index;
      HandKeeps(g, Csd(false), n);
      if !s.requestKeyframe && !s.waitingForIdr { CleanCsd(g, n, false); }
    }
  }

  lemma ConfigureKeeps(s: State, video: bool)
    requires Inv(s)
    ensures Inv(ConfigureStep(s, video))
  {
  }

  /** What mRunning.set(true) needs of a state in which a media is up: a CSD for its parser, and a
      pending request, a closed gate, or a log to which no frame is missing. */
  ghost predicate ResumeSafe(s: State) {
    s.live.Some? ==> CsdKnown(s) && (s.requestKeyframe || s.waitingForIdr || Clean(s.live.value, s.frames))
  }

  lemma ResumeKeeps(s: State)
    requires Inv(s) && !s.running && s.pc.Idle? && ResumeSafe(s)
    ensures Inv(ResumeStep(s))
  {
  }

  lemma ReleaseKeeps(s: State)
    requires Inv(s) && Enabled(s, Release)
    ensures Inv(ReleaseStep(s))
  {
  }

  lemma RetireKeeps(s: State, needData: bool)
    requires Inv(s)
    ensures Inv(Retire(s).(needData := needData))
  {
  }

  lemma FlagsKeep(s: State, a: Action)
    requires Inv(s) && Environment(a) && !a.Configure? && !a.Unprepared? && !a.Destroy?
    ensures Inv(EnvironmentStep(s, a))
  {
  }

  lemma EnvironmentKeeps(s: State, a: Action)
    requires Inv(s) && Environment(a)
    ensures Inv(EnvironmentStep(s, a))
  {
    if a.Configure? {
      ConfigureKeeps(s, a.video);
    } else if a.Unprepared? || a.Destroy? {
      RetireKeeps(s, false);
    } else {
      FlagsKeep(s, a);
    }
  }

  lemma NextKeeps(s: State, a: Action)
    requires Inv(s) && Enabled(s, a)
    requires a.Resume? ==> ResumeSafe(s)
    ensures Inv(Next(s, a))
  {
    match a
    case Emit(o) => EmitKeeps(s, o);
    case Consume => ConsumeKeeps(s);
    case PushCsd => PushCsdKeeps(s);
    case Push =>
      if s.pc.out.isKey { PushKeyKeeps(s); }
      else if s.pc.out.isCsd { PushCsdOutputKeeps(s); }
      else { PushDeltaKeeps(s); }
    case Begin => ResumeKeeps(s);
    case Release => ReleaseKeeps(s);
    case Resume => ResumeKeeps(s);
    case _ => EnvironmentKeeps(s, a);
  }

  /** Each time restartEncoder() ends, the state is fit for it. */
  ghost predicate SafeResumes(s: State, run: seq<Action>)
    requires ValidRun(s, run)
    decreases run
  {
    run == [] || ((run[0].Resume? ==> ResumeSafe(s)) && SafeResumes(Next(s, run[0]), run[1..]))
  }

  lemma {:induction false} RunKeeps(s: State, run: seq<Action>)
    requires Inv(s) && ValidRun(s, run) && SafeResumes(s, run)
    ensures Inv(Run(s, run))
    decreases run
  {
    if run != [] {
      NextKeeps(s, run[0]);
      RunKeeps(Next(s, run[0]), run[1..]);
    }
  }

  // ---------------------------------------------------------------------------
  // What makes it safe to set mRunning again
  // ---------------------------------------------------------------------------

  /** What the encoder at hand has yet to deliver: a new one begins with CSD, then a key frame.
      Anything is the encoder of which nothing is assumed. */
  datatype Expected = Anything | CsdFirst | KeyNext | Flowing {
    predicate Starting() { CsdFirst? || KeyNext? }
  }

  predicate Allowed(e: Expected, a: Action) {
    a.Emit? ==>
      match e
      case CsdFirst => a.out.isCsd && !a.out.isKey
      case KeyNext => !a.out.IsDelta()
      case _ => true
  }

  function Expect(e: Expected, a: Action): Expected {
    match a
    case Emit(o) => if e.CsdFirst? then KeyNext else if e.KeyNext? && o.isKey then Flowing else e
    case Release => if e.Anything? then e else CsdFirst
    case _ => e
  }

  function ExpectAfter(e: Expected, run: seq<Action>): Expected
    decreases run
  {
    if run == [] then e else ExpectAfter(Expect(e, run[0]), run[1..])
  }

  predicate Conforming(e: Expected, run: seq<Action>)
    decreases run
  {
    run == [] || (Allowed(e, run[0]) && Conforming(Expect(e, run[0]), run[1..]))
  }

  /** How far stop() has got since mRunning was last set: it releases the encoder, then the server.
      A further releaseEncoder() with no media up changes nothing. */
  datatype Teardown = Up | Released | Stopped

  function TearDown(s: State, d: Teardown, a: Action): Teardown {
    match a
    case Release => if d.Stopped? && s.live.None? then Stopped else Released
    case Destroy => if d.Up? then Up else Stopped
    case Begin => Up
    case Resume => Up
    case _ => d
  }

  /** Each time mRunning is set again, stop() had come to its end before, or the new encoder has not
      delivered a frame yet, or the state is fit for it. */
  ghost predicate Gated(s: State, e: Expected, d: Teardown, run: seq<Action>)
    requires ValidRun(s, run)
    decreases run
  {
    run == [] ||
    (&& (run[0].Resume? ==> d.Stopped? || e.Starting() || ResumeSafe(s))
     && Gated(Next(s, run[0]), Expect(e, run[0]), TearDown(s, d, run[0]), run[1..]))
  }

  /** No media is up, or one that came up since and has its request pending. */
  ghost predicate Renewed(s: State) {
    && s.began.Some? && !s.running && s.pc.Idle?
    && (s.live.Some? ==> CsdKnown(s) && s.requestKeyframe)
  }

  ghost predicate TeardownInv(s: State, d: Teardown) {
    match d
    case Up => true
    case Released => s.began.Some? && !s.running && s.pc.Idle?
    case Stopped => Renewed(s)
  }

  lemma TeardownKept(s: State, d: Teardown, a: Action)
    requires Inv(s) && TeardownInv(s, d) && Enabled(s, a)
    ensures TeardownInv(Next(s, a), TearDown(s, d, a))
  {
  }

  /** The state as if the callback had not yet begun to handle the CSD. */
  function Still(s: State): State {
    s.(running := false, pc := Idle, requestKeyframe := s.requestKeyframe || s.pc.AtPushCsd?)
  }

  /** The invariant while a new encoder has delivered no frame: the log of a media that stayed up
      need not be clean, since a key frame comes first. */
  ghost predicate StartingInv(s: State, e: Expected) {
    && Inv(Still(s))
    && (s.began.None? ==> !s.running && s.pc.Idle?)
    && (!s.pc.Idle? ==> e.KeyNext? && s.pc.out.isCsd && !s.pc.out.isKey && s.pc.index == s.frames)
    && (e.KeyNext? ==> CsdKnown(s))
  }

  ghost predicate GateInv(s: State, e: Expected) {
    if e.Starting() then StartingInv(s, e) else Inv(s)
  }

  lemma StartingEmit(s: State, e: Expected, o: Output)
    requires StartingInv(s, e) && e.Starting() && s.pc.Idle? && o.isCsd && !o.isKey
    ensures StartingInv(EmitStep(s, o), KeyNext)
  {
    var t := EmitStep(s, o);
    assert t.live == s.live && t.past == s.past && t.frames == s.frames && t.began == s.began;
    assert t.requestKeyframe == s.requestKeyframe && t.cachedCsd && !t.pc.AtPushCsd?;
  }

  lemma FirstKey(s: State, e: Expected, o: Output)
    requires StartingInv(s, e) && CsdKnown(s) && s.pc.Idle? && o.isKey
    ensures Inv(EmitStep(s, o))
  {
    var t := EmitStep(s, o);
    assert t.live == s.live && t.past == s.past && t.began == s.began;
    assert t.requestKeyframe == s.requestKeyframe;
  }

  lemma StartingConsume(s: State)
    requires StartingInv(s, KeyNext) && s.pc.AtConsume?
    ensures StartingInv(ConsumeStep(s), KeyNext)
  {
    var t := ConsumeStep(s);
    assert t.live == s.live && t.past == s.past && t.frames == s.frames && t.began == s.began;
    assert t.cachedCsd == s.cachedCsd && (t.pc.AtPushCsd? || t.pc == AtPush(s.pc.out, s.pc.index));
  }

  /** Handing over a CSD keeps the invariant; once it is a re-injected one, no request is needed. */
  lemma CsdHanded(s: State, r: bool, request: bool)
    requires Inv(s) && s.pc.Idle? && !s.running && s.began.Some? && s.live.Some?
    requires r || request == s.requestKeyframe
    ensures var g := s.live.value.(log := s.live.value.log + [Csd(r)]);
      Inv(s.(live := Some(g), requestKeyframe := request)) && (r || HasCsd(s.live.value.log) ==> HasCsd(g.log))
  {
    var g := s.live.value;
    HandKeeps(g, Csd(r), s.frames);
    assert r ==> (g.log + [Csd(r)])[|g.log|] == Csd(true);
  }

  lemma StartingPushCsd(s: State)
    requires StartingInv(s, KeyNext) && s.pc.AtPushCsd?
    ensures StartingInv(PushCsdStep(s), KeyNext)
  {
    var t := PushCsdStep(s);
    if s.live.Some? {
      CsdHanded(Still(s), true, s.requestKeyframe);
      assert t.live == Some(s.live.value.(log := s.live.value.log + [Csd(true)]));
      assert Inv(Still(s).(live := t.live, requestKeyframe := s.requestKeyframe));
    }
  }

  lemma StartingPush(s: State)
    requires StartingInv(s, KeyNext) && s.pc.AtPush?
    ensures StartingInv(PushStep(s), KeyNext)
  {
    if s.live.Some? {
      CsdHanded(Still(s), false, s.requestKeyframe);
      assert PushStep(s).live == Some(s.live.value.(log := s.live.value.log + [Csd(false)]));
    }
  }

  lemma StillRetires(s: State, needData: bool)
    ensures Still(Retire(s).(needData := needData)) == Retire(Still(s)).(needData := needData)
  {
  }

  lemma StillConfigures(s: State, video: bool)
    ensures Still(ConfigureStep(s, video)) == ConfigureStep(Still(s), video)
  {
  }

  lemma StillFlags(s: State, a: Action)
    requires Environment(a) && !a.Configure? && !a.Unprepared? && !a.Destroy?
    ensures Still(EnvironmentStep(s, a)) == EnvironmentStep(Still(s), a)
  {
  }

  lemma StillCommutes(s: State, a: Action)
    requires Environment(a)
    ensures Still(EnvironmentStep(s, a)) == EnvironmentStep(Still(s), a)
  {
    if a.Configure? {
      StillConfigures(s, a.video);
    } else if a.Unprepared? || a.Destroy? {
      StillRetires(s, false);
    } else {
      StillFlags(s, a);
    }
  }

  lemma EnvironmentKnowsCsd(s: State, a: Action)
    requires Environment(a) && CsdKnown(s)
    ensures CsdKnown(EnvironmentStep(s, a))
  {
  }

  lemma StartingEnvironment(s: State, e: Expected, a: Action)
    requires StartingInv(s, e) && Environment(a)
    ensures StartingInv(EnvironmentStep(s, a), e)
  {
    StillCommutes(s, a);
    EnvironmentKeeps(Still(s), a);
    if e.KeyNext? { EnvironmentKnowsCsd(s, a); }
  }

  lemma StartingLifecycle(s: State, e: Expected, a: Action)
    requires StartingInv(s, e) && e.Starting() && Enabled(s, a) && (a.Begin? || a.Resume? || a.Release?)
    ensures StartingInv(Next(s, a), Expect(e, a))
  {
  }

  lemma StartingNext(s: State, e: Expected, a: Action)
    requires StartingInv(s, e) && e.Starting() && Enabled(s, a) && Allowed(e, a)
    ensures GateInv(Next(s, a), Expect(e, a))
  {
    match a
    case Emit(o) => if o.isKey { FirstKey(s, e, o); } else { StartingEmit(s, e, o); }
    case Consume => StartingConsume(s);
    case PushCsd => StartingPushCsd(s);
    case Push => StartingPush(s);
    case Begin => StartingLifecycle(s, e, a);
    case Release => StartingLifecycle(s, e, a);
    case Resume => StartingLifecycle(s, e, a);
    case _ => StartingEnvironment(s, e, a);
  }

  lemma ReleaseStarts(s: State)
    requires Inv(s) && Enabled(s, Release)
    ensures StartingInv(ReleaseStep(s), CsdFirst)
  {
    ReleaseKeeps(s);
  }

  lemma GateNext(s: State, e: Expected, d: Teardown, a: Action)
    requires GateInv(s, e) && TeardownInv(s, d) && Enabled(s, a) && Allowed(e, a)
    requires a.Resume? ==> d.Stopped? || e.Starting() || ResumeSafe(s)
    ensures GateInv(Next(s, a), Expect(e, a))
  {
    if e.Starting() {
      StartingNext(s, e, a);
    } else {
      NextKeeps(s, a);
      if a.Release? { ReleaseStarts(s); }
    }
  }

  lemma TeardownGated(s: State, e: Expected, d: Teardown, a: Action)
    requires GateInv(s, e) && TeardownInv(s, d) && Enabled(s, a)
    ensures TeardownInv(Next(s, a), TearDown(s, d, a))
  {
    if !e.Starting() || (s.pc.Idle? && !s.running) {
      TeardownKept(s, d, a);
    }
  }

  lemma {:induction false} GateRun(s: State, e: Expected, d: Teardown, run: seq<Action>)
    requires GateInv(s, e) && TeardownInv(s, d)
    requires ValidRun(s, run) && Conforming(e, run) && Gated(s, e, d, run)
    ensures GateInv(Run(s, run), ExpectAfter(e, run))
    decreases run
  {
    if run != [] {
      GateNext(s, e, d, run[0]);
      TeardownGated(s, e, d, run[0]);
      GateRun(Next(s, run[0]), Expect(e, run[0]), TearDown(s, d, run[0]), run[1..]);
    }
  }

  // ---------------------------------------------------------------------------
  // Main result: no run hands over a frame that cannot be decoded
  // ---------------------------------------------------------------------------

  predicate NoResume(run: seq<Action>) {
    forall i :: 0 <= i < |run| ==> !run[i].Resume?
  }

  lemma {:induction false} NoResumeIsGated(s: State, e: Expected, d: Teardown, run: seq<Action>)
    requires ValidRun(s, run) && NoResume(run)
    ensures Gated(s, e, d, run)
    decreases run
  {
    if run != [] {
      assert !run[0].Resume?;
      NoResumeIsGated(Next(s, run[0]), Expect(e, run[0]), TearDown(s, d, run[0]), run[1..]);
    }
  }

  ghost predicate AllDecodable(s: State) {
    forall g :: g in Generations(s) ==> Decodable(g) && InOrder(g.log)
  }

  lemma GateDecodes(s: State, e: Expected)
    requires GateInv(s, e)
    ensures AllDecodable(s)
  {
  }

  /** In every interleaving, from the first lines of start() on, every P/B frame handed to a media,
      except that media's very first buffer, chains back to a key frame of the same media and, when
      a CSD was cached as the media was configured, follows a re-injected CSD and a later key frame.
      Any number of stop() and start() calls may occur.  An encoder restart may occur where the new
      encoder has not delivered a frame yet, or the state is safe; only the former needs that
      encoders begin with CSD and a key frame. */
  lemma EveryMediaDecodes(s: State, e: Expected, run: seq<Action>)
    requires Initial(s) && (e.Anything? || e.CsdFirst?)
    requires ValidRun(s, run) && Conforming(e, run) && Gated(s, e, Up, run)
    ensures AllDecodable(Run(s, run))
  {
    GateRun(s, e, Up, run);
    GateDecodes(Run(s, run), ExpectAfter(e, run));
  }

  /** stop() has come to its end before each time mRunning is set again. */
  predicate OnlyStopStart(s: State, d: Teardown, run: seq<Action>)
    requires ValidRun(s, run)
    decreases run
  {
    run == [] ||
    ((run[0].Resume? ==> d.Stopped?) && OnlyStopStart(Next(s, run[0]), TearDown(s, d, run[0]), run[1..]))
  }

  lemma {:induction false} StopStartIsGated(s: State, d: Teardown, run: seq<Action>)
    requires ValidRun(s, run) && OnlyStopStart(s, d, run)
    ensures Gated(s, Anything, d, run) && Conforming(Anything, run)
    decreases run
  {
    if run != [] { StopStartIsGated(Next(s, run[0]), TearDown(s, d, run[0]), run[1..]); }
  }

  /** Without encoder restarts nothing at all is assumed of encoders or states. */
  lemma StopAndStartDecode(s: State, run: seq<Action>)
    requires Initial(s) && ValidRun(s, run) && OnlyStopStart(s, Up, run)
    ensures AllDecodable(Run(s, run))
  {
    StopStartIsGated(s, Up, run);
    EveryMediaDecodes(s, Anything, run);
  }

  // ---------------------------------------------------------------------------
  // Bounded resync
  // ---------------------------------------------------------------------------

  /** The encoder's part: of the next `bound` frames after a sync request, one is a key frame. */
  predicate Responsive(s: State, bound: nat) {
    s.unanswered.Some? ==> s.unanswered.value < bound
  }

  predicate ResponsiveRun(s: State, run: seq<Action>, bound: nat)
    requires ValidRun(s, run)
    decreases run
  {
    Responsive(s, bound) && (run == [] || ResponsiveRun(Next(s, run[0]), run[1..], bound))
  }

  /** Index of the last key frame in the log. */
  function LastKeyIndex(log: seq<Item>): (r: Option<nat>)
    ensures r.None? ==> forall i :: 0 <= i < |log| ==> !log[i].IsKey()
    ensures r.Some? ==> exists p :: 0 <= p < |log| && log[p] == Frame(r.value, true)
                                    && forall i :: p < i < |log| ==> !log[i].IsKey()
  {
    if log == [] then None
    else if log[|log| - 1].IsKey() then
      assert log[|log| - 1] == Frame(log[|log| - 1].index, true);
      Some(log[|log| - 1].index)
    else
      var r := LastKeyIndex(log[..|log| - 1]);
      assert r.Some? ==> exists p :: 0 <= p < |log| - 1 && log[p] == Frame(r.value, true)
                                     && forall i :: p < i < |log| ==> !log[i].IsKey();
      r
  }

  /** P/B frames since the last key frame the callback saw, or since mRunning was set. */
  function SinceKey(s: State): int {
    if s.lastKey.Some? then s.frames - s.lastKey.value - 1 else s.frames - s.began.GetOr(s.frames)
  }

  predicate KeyInFlight(s: State) {
    !s.pc.Idle? && s.pc.out.isKey
  }

  /** 1 while a P/B frame is in flight that the gate has not yet judged. */
  function Undecided(s: State): nat {
    if (s.pc.AtConsume? || s.pc.AtPushCsd?) && s.pc.out.IsDelta() then 1 else 0
  }

  /** The counters of the callback. */
  predicate CounterInv(s: State, bound: nat) {
    && s.framesSinceIdr < FORCED_IDR_INTERVAL_FRAMES
    && (s.running ==>
          && s.began.Some?
          && (s.unanswered.None? ==> SinceKey(s) <= s.framesSinceIdr)
          && (s.unanswered.Some? ==> SinceKey(s) <= FORCED_IDR_INTERVAL_FRAMES + s.unanswered.value))
    && (!s.waitingForIdr ==> s.withheld == 0)
    && (s.waitingForIdr && s.unanswered.Some? ==> s.withheld + Undecided(s) <= s.unanswered.value + 1)
    && (s.waitingForIdr && s.unanswered.None? ==>
          s.withheld <= bound && (s.pc.AtConsume? || s.pc.AtPushCsd?) && s.pc.out.isKey)
    && (KeyInFlight(s) ==> s.lastKey == Some(s.pc.index))
    && (s.began.None? ==> !s.running && s.pc.Idle?)
  }

  /** Each key frame of the log came at most `gap` frames after the one before it. */
  predicate KeyGaps(log: seq<Item>, gap: nat) {
    log == [] ||
    (var init, x := log[..|log| - 1], log[|log| - 1];
     && KeyGaps(init, gap)
     && (x.IsKey() && LastKeyIndex(init).Some? ==> x.index - LastKeyIndex(init).value - 1 <= gap))
  }

  /** The log of a live media knows every key frame the callback saw since its own first one. */
  predicate LastKeyKnown(s: State, log: seq<Item>, gap: nat) {
    var last := LastKeyIndex(log);
    last.Some? ==> if KeyInFlight(s) then s.pc.index - last.value - 1 <= gap else s.lastKey == last
  }

  ghost predicate GapInv(s: State, gap: nat) {
    && (forall g :: g in s.past ==> KeyGaps(g.log, gap))
    && (s.live.Some? ==> KeyGaps(s.live.value.log, gap) && LastKeyKnown(s, s.live.value.log, gap))
  }

  lemma KeyGapsAppend(log: seq<Item>, x: Item, gap: nat)
    requires KeyGaps(log, gap)
    requires x.IsKey() && LastKeyIndex(log).Some? ==> x.index - LastKeyIndex(log).value - 1 <= gap
    ensures KeyGaps(log + [x], gap)
    ensures LastKeyIndex(log + [x]) == if x.IsKey() then Some(x.index) else LastKeyIndex(log)
  {
    assert (log + [x])[..|log|] == log;
  }

  /** KeyGaps in plain terms: it bounds the distance of any two consecutive key frames. */
  lemma {:induction false} KeyGapsMeaning(log: seq<Item>, gap: nat, a: nat, b: nat)
    requires KeyGaps(log, gap)
    requires a < b < |log| && log[a].IsKey() && log[b].IsKey()
    requires forall c :: a < c < b ==> !log[c].IsKey()
    ensures log[b].index - log[a].index - 1 <= gap
  {
    var init := log[..|log| - 1];
    if b < |log| - 1 {
      assert forall c :: a < c < b ==> !init[c].IsKey();
      KeyGapsMeaning(init, gap, a, b);
    } else {
      assert init[a] == log[a];
      var p :| 0 <= p < |init| && init[p] == Frame(LastKeyIndex(init).value, true)
               && forall i :: p < i < |init| ==> !init[i].IsKey();
      assert init[p] == log[p];
      assert a == p;
    }
  }

  /** Any two consecutive key frames of the log are at most `gap` encoder frames apart. */
  ghost predicate KeysWithin(log: seq<Item>, gap: nat) {
    forall a, b :: 0 <= a < b < |log| && NextKey(log, a, b) ==> log[b].index - log[a].index - 1 <= gap
  }

  /** The key frame that follows the key frame log[a] is log[b]. */
  ghost predicate NextKey(log: seq<Item>, a: nat, b: nat)
    requires a < b < |log|
  {
    log[a].IsKey() && log[b].IsKey() && forall c :: a < c < b ==> !log[c].IsKey()
  }

  lemma KeyGapsAreDistances(log: seq<Item>, gap: nat)
    requires KeyGaps(log, gap)
    ensures KeysWithin(log, gap)
  {
    forall a, b | 0 <= a < b < |log| && NextKey(log, a, b)
      ensures log[b].index - log[a].index - 1 <= gap
    {
      KeyGapsMeaning(log, gap, a, b);
    }
  }

  lemma DeltaCounters(s: State, o: Output, bound: nat)
    requires CounterInv(s, bound) && s.pc.Idle? && Responsive(s, bound) && s.running && o.IsDelta()
    ensures CounterInv(EmitStep(s, o), bound)
  {
    var t := EmitStep(s, o);
    assert t.frames == s.frames + 1 && t.lastKey == s.lastKey && SinceKey(t) == SinceKey(s) + 1;
    if s.framesSinceIdr + 1 < FORCED_IDR_INTERVAL_FRAMES {
      assert t.framesSinceIdr == s.framesSinceIdr + 1;
    }
  }

  lemma EmitCounters(s: State, o: Output, bound: nat)
    requires CounterInv(s, bound) && s.pc.Idle? && Responsive(s, bound)
    ensures CounterInv(EmitStep(s, o), bound)
  {
    if s.running && o.IsDelta() { DeltaCounters(s, o, bound); }
  }

  lemma DecideCounters(s: State, bound: nat)
    requires CounterInv(s, bound) && (s.pc.AtConsume? || s.pc.AtPushCsd?)
    ensures CounterInv(Decide(s, s.pc.out, s.pc.index), bound)
  {
  }

  lemma ArmCounters(s: State, bound: nat)
    requires CounterInv(s, bound) && (s.pc.AtConsume? || s.pc.AtPushCsd?)
    ensures CounterInv(Decide(Arm(s), s.pc.out, s.pc.index), bound)
  {
  }

  lemma PushNativeCounters(s: State, x: Item, bound: nat)
    requires CounterInv(s, bound)
    ensures CounterInv(PushNative(s, x), bound)
    ensures s.pc.AtPush? ==> CounterInv(PushNative(s, x).(pc := Idle), bound)
  {
  }

  lemma ConsumeCounters(s: State, bound: nat)
    requires CounterInv(s, bound) && s.pc.AtConsume?
    ensures CounterInv(ConsumeStep(s), bound)
  {
    var s1 := s.(requestKeyframe := false);
    DecideCounters(s1, bound);
    ArmCounters(s1, bound);
  }

  lemma PushCsdCounters(s: State, bound: nat)
    requires CounterInv(s, bound) && s.pc.AtPushCsd?
    ensures CounterInv(PushCsdStep(s), bound)
  {
    PushNativeCounters(s, Csd(true), bound);
    ArmCounters(PushNative(s, Csd(true)), bound);
  }

  lemma EnvironmentCounters(s: State, a: Action, bound: nat)
    requires CounterInv(s, bound) && Environment(a)
    ensures CounterInv(Next(s, a), bound)
  {
    var t := Next(s, a);
    assert t.pc == s.pc && t.framesSinceIdr == s.framesSinceIdr && t.unanswered == s.unanswered;
    assert t.waitingForIdr == s.waitingForIdr && t.withheld == s.withheld;
    assert t.frames == s.frames && t.lastKey == s.lastKey && (t.running ==> s.running);
  }

  lemma ResumeCounters(s: State, a: Action, bound: nat)
    requires CounterInv(s, bound) && Enabled(s, a)
    requires (a.Begin? && s.pc.Idle?) || a.Release? || a.Resume?
    ensures CounterInv(Next(s, a), bound)
  {
  }

  lemma CountersKept(s: State, a: Action, bound: nat)
    requires CounterInv(s, bound) && Enabled(s, a) && Responsive(s, bound)
    ensures CounterInv(Next(s, a), bound)
  {
    match a
    case Begin => ResumeCounters(s, a, bound);
    case Release => ResumeCounters(s, a, bound);
    case Resume => ResumeCounters(s, a, bound);
    case Emit(o) => EmitCounters(s, o, bound);
    case Consume => ConsumeCounters(s, bound);
    case PushCsd => PushCsdCounters(s, bound);
    case Push => PushNativeCounters(s, ItemOf(s.pc.out, s.pc.index), bound);
    case _ => EnvironmentCounters(s, a, bound);
  }

  lemma EmitGaps(s: State, o: Output, bound: nat)
    requires CounterInv(s, bound) && s.pc.Idle? && Responsive(s, bound)
    requires GapInv(s, 149 + bound)
    ensures GapInv(EmitStep(s, o), 149 + bound)
  {
    var t := EmitStep(s, o);
    assert t.live == s.live && t.past == s.past;
    if s.live.Some? && s.running && o.isKey && LastKeyIndex(s.live.value.log).Some? {
      assert SinceKey(s) <= 149 + bound;
    }
  }

  /** Consuming the flag and deciding touch neither the logs nor the frame in flight. */
  lemma DecideGaps(s: State, gap: nat)
    requires GapInv(s, gap) && (s.pc.AtConsume? || s.pc.AtPushCsd?)
    ensures var t := Decide(s, s.pc.out, s.pc.index); t.live == s.live && t.past == s.past && GapInv(t, gap)
  {
  }

  lemma PushNativeGaps(s: State, x: Item, gap: nat)
    requires GapInv(s, gap)
    requires x.IsKey() ==> KeyInFlight(s) && x.index == s.pc.index && s.lastKey == Some(x.index)
    ensures x.IsKey() ==> GapInv(PushNative(s, x).(pc := Idle), gap)
    ensures !x.IsKey() ==> GapInv(PushNative(s, x), gap)
  {
    if s.live.Some? && (s.needData || !x.IsDelta()) {
      KeyGapsAppend(s.live.value.log, x, gap);
    }
  }

  lemma ConsumeGaps(s: State, gap: nat)
    requires GapInv(s, gap) && s.pc.AtConsume?
    ensures GapInv(ConsumeStep(s), gap)
  {
    var s1 := s.(requestKeyframe := false);
    DecideGaps(s1, gap);
    DecideGaps(Arm(s1), gap);
  }

  lemma PushCsdGaps(s: State, gap: nat)
    requires GapInv(s, gap) && s.pc.AtPushCsd?
    ensures GapInv(PushCsdStep(s), gap)
  {
    PushNativeGaps(s, Csd(true), gap);
    DecideGaps(Arm(PushNative(s, Csd(true))), gap);
  }

  lemma PushGaps(s: State, gap: nat)
    requires GapInv(s, gap) && s.pc.AtPush? && (KeyInFlight(s) ==> s.lastKey == Some(s.pc.index))
    ensures GapInv(PushStep(s), gap)
  {
    PushNativeGaps(s, ItemOf(s.pc.out, s.pc.index), gap);
  }

  lemma OtherGaps(s: State, a: Action, gap: nat)
    requires GapInv(s, gap) && Enabled(s, a) && (Environment(a) || a.Begin? || a.Release?)
    requires s.began.None? ==> NotBegun(s)
    ensures GapInv(Next(s, a), gap)
  {
  }

  lemma GapsKept(s: State, a: Action, bound: nat)
    requires CounterInv(s, bound) && Enabled(s, a) && Responsive(s, bound)
    requires s.began.None? ==> NotBegun(s)
    requires GapInv(s, 149 + bound) && !a.Resume?
    ensures GapInv(Next(s, a), 149 + bound)
  {
    match a
    case Emit(o) => EmitGaps(s, o, bound);
    case Consume => ConsumeGaps(s, 149 + bound);
    case PushCsd => PushCsdGaps(s, 149 + bound);
    case Push => PushGaps(s, 149 + bound);
    case Resume =>
    case _ => OtherGaps(s, a, 149 + bound);
  }

  lemma {:induction false} RunCounters(s: State, run: seq<Action>, bound: nat)
    requires CounterInv(s, bound) && ValidRun(s, run) && ResponsiveRun(s, run, bound)
    ensures CounterInv(Run(s, run), bound) && Responsive(Run(s, run), bound)
    decreases run
  {
    if run != [] {
      CountersKept(s, run[0], bound);
      RunCounters(Next(s, run[0]), run[1..], bound);
    }
  }

  lemma {:induction false} RunGaps(s: State, run: seq<Action>, bound: nat)
    requires Inv(s) && CounterInv(s, bound) && GapInv(s, 149 + bound)
    requires ValidRun(s, run) && ResponsiveRun(s, run, bound) && NoResume(run)
    ensures GapInv(Run(s, run), 149 + bound)
    decreases run
  {
    if run != [] {
      assert !run[0].Resume?;
      NextKeeps(s, run[0]);
      CountersKept(s, run[0], bound);
      GapsKept(s, run[0], bound);
      RunGaps(Next(s, run[0]), run[1..], bound);
    }
  }

  /** If every sync request is answered within `bound` frames, then in every interleaving, restarts
      included, the forced-IDR counter stays below 150, a closed gate has withheld at most `bound`
      frames, and while mRunning is set a key frame has come within the last 149 + bound frames or
      mRunning was set within them.  Without a restart any two consecutive key frames of one media
      are at most 149 + bound encoder frames apart. */
  lemma BoundedResync(s: State, run: seq<Action>, bound: nat)
    requires Initial(s) && ValidRun(s, run) && ResponsiveRun(s, run, bound)
    ensures var t := Run(s, run);
            && t.framesSinceIdr <= 149
            && (t.waitingForIdr ==> t.withheld <= bound)
            && (t.running ==> SinceKey(t) <= 149 + bound)
            && (NoResume(run) ==> forall g :: g in Generations(t) ==> KeysWithin(g.log, 149 + bound))
  {
    RunCounters(s, run, bound);
    var t := Run(s, run);
    if NoResume(run) {
      RunGaps(s, run, bound);
      forall g | g in Generations(t) ensures KeysWithin(g.log, 149 + bound) {
        KeyGapsAreDistances(g.log, 149 + bound);
      }
    }
  }

  // ---------------------------------------------------------------------------
  // One whole callback, with the actions of other threads in its three gaps
  // ---------------------------------------------------------------------------

  predicate AllEnvironment(gap: seq<Action>) {
    forall i :: 0 <= i < |gap| ==> Environment(gap[i])
  }

  function Gap(s: State, gap: seq<Action>): (t: State)
    requires AllEnvironment(gap)
    ensures t.pc == s.pc
    decreases gap
  {
    if gap == [] then s else Gap(Next(s, gap[0]), gap[1..])
  }

  /** Gap, then the CSD re-injection if one is due. */
  function InjectPart(s: State, gap: seq<Action>): State
    requires AllEnvironment(gap)
  {
    if s.pc.AtPushCsd? then PushCsdStep(Gap(s, gap)) else s
  }

  /** Gap, then the push of the buffer itself if the gate let it through. */
  function PushPart(s: State, gap: seq<Action>): State
    requires AllEnvironment(gap)
  {
    if s.pc.AtPush? then PushStep(Gap(s, gap)) else s
  }

  function Handle(s: State, o: Output, g0: seq<Action>, g1: seq<Action>, g2: seq<Action>): State
    requires s.pc.Idle? && AllEnvironment(g0) && AllEnvironment(g1) && AllEnvironment(g2)
  {
    var s1 := EmitStep(s, o);
    if s1.pc.Idle? then s1
    else PushPart(InjectPart(ConsumeStep(Gap(s1, g0)), g1), g2)
  }

  lemma {:induction false} GapKeeps(s: State, gap: seq<Action>)
    requires Inv(s) && AllEnvironment(gap)
    ensures Inv(Gap(s, gap))
    decreases gap
  {
    if gap != [] {
      NextKeeps(s, gap[0]);
      GapKeeps(Next(s, gap[0]), gap[1..]);
    }
  }

  lemma InjectKeeps(s: State, gap: seq<Action>)
    requires Inv(s) && (s.pc.AtPushCsd? || s.pc.AtPush? || s.pc.Idle?) && AllEnvironment(gap)
    ensures Inv(InjectPart(s, gap)) && (InjectPart(s, gap).pc.AtPush? || InjectPart(s, gap).pc.Idle?)
  {
    if s.pc.AtPushCsd? {
      GapKeeps(s, gap);
      PushCsdKeeps(Gap(s, gap));
    }
  }

  lemma PushPartKeeps(s: State, gap: seq<Action>)
    requires Inv(s) && (s.pc.AtPush? || s.pc.Idle?) && AllEnvironment(gap)
    ensures Inv(PushPart(s, gap)) && PushPart(s, gap).pc.Idle?
  {
    if s.pc.AtPush? {
      GapKeeps(s, gap);
      NextKeeps(Gap(s, gap), Push);
    }
  }

  /** A whole callback keeps every media decodable, whatever happens in its gaps. */
  lemma HandleKeeps(s: State, o: Output, g0: seq<Action>, g1: seq<Action>, g2: seq<Action>)
    requires Inv(s) && s.pc.Idle? && AllEnvironment(g0) && AllEnvironment(g1) && AllEnvironment(g2)
    ensures Inv(Handle(s, o, g0, g1, g2)) && Handle(s, o, g0, g1, g2).pc.Idle?
  {
    var s1 := EmitStep(s, o);
    EmitKeeps(s, o);
    if !s1.pc.Idle? {
      GapKeeps(s1, g0);
      ConsumeKeeps(Gap(s1, g0));
      InjectKeeps(ConsumeStep(Gap(s1, g0)), g1);
      PushPartKeeps(InjectPart(ConsumeStep(Gap(s1, g0)), g1), g2);
    }
  }

  lemma ConsumeOutcome(s: State)
    requires s.pc.AtConsume?
    ensures var t, o, n := ConsumeStep(s), s.pc.out, s.pc.index;
            && t.live == s.live && t.past == s.past && t.needData == s.needData
            && t.pc == if s.requestKeyframe && s.cachedCsd then AtPushCsd(o, n)
                       else if !o.IsDelta() || (!s.requestKeyframe && !s.waitingForIdr) then AtPush(o, n)
                       else Idle
  {
  }

  lemma PushCsdOutcome(s: State)
    requires s.pc.AtPushCsd? && s.live.Some?
    ensures var t := PushCsdStep(s);
            && t.live.Some? && t.past == s.past && t.live.value.log == s.live.value.log + [Csd(true)]
            && t.pc == if s.pc.out.IsDelta() then Idle else AtPush(s.pc.out, s.pc.index)
  {
  }

  lemma PushOutcome(s: State)
    requires s.pc.AtPush? && s.live.Some?
    ensures var t, o := PushStep(s), s.pc.out;
            && t.live.Some? && t.past == s.past
            && t.live.value.log == s.live.value.log
               + (if o.isKey then [Frame(s.pc.index, true)]
                  else if o.isCsd then [Csd(false)]
                  else if s.needData then [Frame(s.pc.index, false)] else [])
  {
  }

  lemma EmitOutcome(s: State, o: Output)
    requires s.pc.Idle? && s.running
    ensures var t := EmitStep(s, o);
            && t.pc == AtConsume(o, s.frames) && t.live == s.live && t.past == s.past
            && t.needData == s.needData && t.requestKeyframe == s.requestKeyframe
            && t.waitingForIdr == s.waitingForIdr && t.cachedCsd == (s.cachedCsd || o.isCsd)
  {
  }

  /** Without interference: exactly what one callback hands to the live media.  The cached CSD goes
      first if a request was pending; the output itself is handed over unless it is a P/B frame
      that a request, the closed gate or flow control keeps away. */
  lemma HandedExactly(s: State, o: Output)
    requires s.pc.Idle? && s.running && s.live.Some?
    ensures var t := Handle(s, o, [], [], []);
            && t.live.Some? && t.past == s.past
            && t.live.value.log == s.live.value.log
               + (if s.requestKeyframe && (s.cachedCsd || o.isCsd) then [Csd(true)] else [])
               + (if o.isKey then [Frame(s.frames, true)]
                  else if o.isCsd then [Csd(false)]
                  else if !s.requestKeyframe && !s.waitingForIdr && s.needData then [Frame(s.frames, false)]
                  else [])
  {
    EmitOutcome(s, o);
    var s1 := EmitStep(s, o);
    ConsumeOutcome(s1);
    var s2 := ConsumeStep(s1);
    if s2.pc.AtPushCsd? { PushCsdOutcome(s2); }
    var s3 := InjectPart(s2, []);
    if s3.pc.AtPush? { PushOutcome(s3); }
  }

  /** Actions that leave the live media in place. */
  predicate MediaKept(gap: seq<Action>) {
    forall i :: 0 <= i < |gap| ==>
      Environment(gap[i]) && !gap[i].Unprepared? && !gap[i].Destroy? && gap[i] != Configure(true)
  }

  lemma {:induction false} MediaKeptGap(s: State, gap: seq<Action>)
    requires MediaKept(gap)
    ensures Gap(s, gap).live == s.live && Gap(s, gap).cachedCsd == s.cachedCsd
    decreases gap
  {
    if gap != [] {
      assert Environment(gap[0]) && gap[0] != Configure(true);
      MediaKeptGap(Next(s, gap[0]), gap[1..]);
    }
  }

  /** A key frame emitted while a media is up always reaches it: neither the gate nor flow
      control nor any other thread's request can keep it away. */
  lemma KeyFrameReachesMedia(s: State, o: Output, g0: seq<Action>, g1: seq<Action>, g2: seq<Action>)
    requires s.pc.Idle? && s.running && s.live.Some? && o.isKey
    requires MediaKept(g0) && MediaKept(g1) && MediaKept(g2)
    ensures var t := Handle(s, o, g0, g1, g2);
            && t.live.Some? && |t.live.value.log| > |s.live.value.log|
            && t.live.value.log[|t.live.value.log| - 1] == Frame(s.frames, true)
  {
    EmitOutcome(s, o);
    var s1 := EmitStep(s, o);
    MediaKeptGap(s1, g0);
    ConsumeOutcome(Gap(s1, g0));
    var s2 := ConsumeStep(Gap(s1, g0));
    MediaKeptGap(s2, g1);
    if s2.pc.AtPushCsd? { PushCsdOutcome(Gap(s2, g1)); }
    var s3 := InjectPart(s2, g1);
    MediaKeptGap(s3, g2);
    PushOutcome(Gap(s3, g2));
  }

  // ---------------------------------------------------------------------------
  // A client that joins a running media
  // ---------------------------------------------------------------------------

  /** Actions under which the media stays up and the encoder runs on. */
  predicate StaysUp(a: Action) {
    !a.Unprepared? && !a.Destroy? && a != Configure(true) && !a.Halt? && !a.Release?
  }

  predicate AllStayUp(run: seq<Action>) {
    forall i :: 0 <= i < |run| ==> StaysUp(run[i])
  }

  predicate HasKey(items: seq<Item>) {
    exists i :: 0 <= i < |items| && items[i].IsKey()
  }

  /** What a decoder that starts here needs: no P/B frame before a key frame, and the cached CSD, if
      there is one, in front of everything. */
  ghost predicate StartsDecodable(items: seq<Item>, csd: bool) {
    && (forall k :: 0 <= k < |items| && items[k].IsDelta() ==> HasKey(items[..k]))
    && (csd && items != [] ==> items[0] == Csd(true))
  }

  /** What the media was handed since its log had length n. */
  function Since(s: State, n: nat): seq<Item>
    requires s.live.Some? && n <= |s.live.value.log|
  {
    s.live.value.log[n..]
  }

  /** Where the callback stands while no key frame has been handed over since the client connected. */
  predicate AwaitsKey(s: State, handed: bool) {
    match s.pc
    case Idle => s.requestKeyframe || (s.waitingForIdr && s.unanswered.Some? && handed)
    case AtConsume(o, _) => s.requestKeyframe || (s.waitingForIdr && (o.isKey || s.unanswered.Some?) && handed)
    case AtPushCsd(_, _) => true
    case AtPush(o, _) => handed && (o.isKey || (o.isCsd && s.waitingForIdr && s.unanswered.Some?))
  }

  /** `csd` tells whether a CSD was cached when the client connected, n how long the log was. */
  ghost predicate JoinInv(s: State, n: nat, csd: bool) {
    && s.running && s.began.Some? && s.live.Some? && n <= |s.live.value.log|
    && (csd ==> s.cachedCsd)
    && StartsDecodable(Since(s, n), csd)
    && (HasKey(Since(s, n)) || AwaitsKey(s, csd ==> Since(s, n) != []))
  }

  lemma StartsAppend(items: seq<Item>, csd: bool, x: Item)
    requires StartsDecodable(items, csd)
    requires x.IsDelta() ==> HasKey(items)
    requires csd && items == [] ==> x == Csd(true)
    ensures StartsDecodable(items + [x], csd)
    ensures HasKey(items + [x]) <==> HasKey(items) || x.IsKey()
  {
    var longer := items + [x];
    assert longer[..|items|] == items;
    forall k | 0 <= k < |longer| && longer[k].IsDelta() ensures HasKey(longer[..k]) {
      if k < |items| { assert longer[..k] == items[..k]; }
    }
    if HasKey(items) {
      var i :| 0 <= i < |items| && items[i].IsKey();
      assert longer[i].IsKey();
    }
    if x.IsKey() { assert longer[|items|].IsKey(); }
  }

  /** Handing over one item. */
  lemma JoinPush(s: State, n: nat, csd: bool, x: Item)
    requires s.live.Some? && n <= |s.live.value.log| && StartsDecodable(Since(s, n), csd)
    requires x.IsDelta() ==> HasKey(Since(s, n))
    requires csd && Since(s, n) == [] ==> x == Csd(true)
    ensures var t := PushNative(s, x);
      && t.live.Some? && n <= |t.live.value.log| && StartsDecodable(Since(t, n), csd)
      && (HasKey(Since(s, n)) ==> HasKey(Since(t, n)))
      && (!x.IsDelta() ==> Since(t, n) != [])
      && (x.IsKey() ==> HasKey(Since(t, n)))
  {
    StartsAppend(Since(s, n), csd, x);
    assert (s.live.value.log + [x])[n..] == Since(s, n) + [x];
  }

  lemma JoinEmit(s: State, o: Output, n: nat, csd: bool)
    requires JoinInv(s, n, csd) && s.pc.Idle?
    ensures JoinInv(EmitStep(s, o), n, csd)
  {
    var t := EmitStep(s, o);
    assert t.live == s.live && t.requestKeyframe == s.requestKeyframe && t.waitingForIdr == s.waitingForIdr;
    assert !o.isKey && s.unanswered.Some? ==> t.unanswered.Some?;
  }

  lemma JoinConsume(s: State, n: nat, csd: bool)
    requires JoinInv(s, n, csd) && s.pc.AtConsume?
    ensures JoinInv(ConsumeStep(s), n, csd)
  {
    var t := ConsumeStep(s);
    assert t.live == s.live && t.cachedCsd == s.cachedCsd && t.running && t.began == s.began;
  }

  lemma JoinPushCsd(s: State, n: nat, csd: bool)
    requires JoinInv(s, n, csd) && s.pc.AtPushCsd?
    ensures JoinInv(PushCsdStep(s), n, csd)
  {
    JoinPush(s, n, csd, Csd(true));
    var t := PushCsdStep(s);
    assert t.live == PushNative(s, Csd(true)).live && t.cachedCsd == s.cachedCsd && t.unanswered.Some?;
  }

  lemma JoinPushOutput(s: State, n: nat, csd: bool)
    requires JoinInv(s, n, csd) && s.pc.AtPush?
    ensures JoinInv(PushStep(s), n, csd)
  {
    var x := ItemOf(s.pc.out, s.pc.index);
    if HasKey(Since(s, n)) {
      assert Since(s, n) != [];
    }
    JoinPush(s, n, csd, x);
    assert PushStep(s) == PushNative(s, x).(pc := Idle);
  }

  lemma JoinEnvironment(s: State, a: Action, n: nat, csd: bool)
    requires JoinInv(s, n, csd) && Environment(a) && StaysUp(a)
    ensures JoinInv(EnvironmentStep(s, a), n, csd)
  {
    var t := EnvironmentStep(s, a);
    assert t.live == s.live && t.running == s.running;
  }

  lemma JoinNext(s: State, a: Action, n: nat, csd: bool)
    requires JoinInv(s, n, csd) && Enabled(s, a) && StaysUp(a)
    ensures JoinInv(Next(s, a), n, csd)
  {
    match a
    case Emit(o) => JoinEmit(s, o, n, csd);
    case Consume => JoinConsume(s, n, csd);
    case PushCsd => JoinPushCsd(s, n, csd);
    case Push => JoinPushOutput(s, n, csd);
    case Begin =>
    case Release =>
    case Resume =>
    case _ => JoinEnvironment(s, a, n, csd);
  }

  lemma {:induction false} JoinRun(s: State, run: seq<Action>, n: nat, csd: bool)
    requires JoinInv(s, n, csd) && ValidRun(s, run) && AllStayUp(run)
    ensures JoinInv(Run(s, run), n, csd)
    decreases run
  {
    if run != [] {
      assert StaysUp(run[0]);
      JoinNext(s, run[0], n, csd);
      JoinRun(Next(s, run[0]), run[1..], n, csd);
    }
  }

  /** A client that connects while a media is up, at whatever point of a callback that has not yet
      consumed the flag: from then on the media is handed no P/B frame before a key frame, and the
      cached CSD, if there is one, in front of all.  While no key frame has been handed over and the
      flag has been consumed, the gate is closed and a sync request is outstanding. */
  lemma ConnectedClientStartsAtKey(s: State, run: seq<Action>)
    requires s.running && s.began.Some? && s.live.Some? && (s.pc.Idle? || s.pc.AtConsume?)
    requires ValidRun(Next(s, ClientConnected), run) && AllStayUp(run)
    ensures var t, n := Run(Next(s, ClientConnected), run), |s.live.value.log|;
      && t.live.Some? && n <= |t.live.value.log|
      && StartsDecodable(Since(t, n), s.cachedCsd)
      && (!HasKey(Since(t, n)) && t.pc.Idle? && !t.requestKeyframe ==> t.waitingForIdr && t.unanswered.Some?)
      && (s.cachedCsd && !HasKey(Since(t, n)) && t.pc.Idle? && !t.requestKeyframe ==> Since(t, n) != [])
  {
    JoinRun(Next(s, ClientConnected), run, |s.live.value.log|, s.cachedCsd);
  }

  // ---------------------------------------------------------------------------
  // The periodic sync request
  // ---------------------------------------------------------------------------

  /** The counter after n P/B frames. */
  function AfterDeltas(s: State, n: nat): State {
    if n == 0 then s
    else
      var o := Output(false, false);
      CountFrame(Seen(AfterDeltas(s, n - 1), o, n), o)
  }

  /** A key frame starts the count anew, and of the P/B frames behind it exactly the 150th makes a
      request. */
  lemma {:induction false} PeriodicRequest(s: State, index: nat, n: nat)
    requires n <= 150
    ensures var o := Output(false, true);
      var t := AfterDeltas(CountFrame(Seen(s, o, index), o), n);
      if n < 150 then t.framesSinceIdr == n && t.unanswered.None?
      else t.framesSinceIdr == 0 && t.unanswered == Some(0)
  {
    if n > 0 { PeriodicRequest(s, index, n - 1); }
  }

  // ---------------------------------------------------------------------------
  // What an encoder restart does to a live media
  // ---------------------------------------------------------------------------

  /** A P/B frame behind a frame that was not handed over has no chain to any key frame. */
  lemma LostFrameBreaksChain(log: seq<Item>, n: nat, k: nat)
    requires Before(log, n) && k > n
    ensures !Chained(log + [Frame(k, false)], |log|)
  {
    var l := log + [Frame(k, false)];
    assert forall p :: 0 <= p < |log| ==> l[p] == log[p];
    assert !HandedBetween(l, 0, |log|, n);
    assert forall j: nat :: ChainedFrom(l, j, |log|) ==> HandedBetween(l, j, |log|, n);
  }

  /** No continuation without another restart hands over a frame that cannot be decoded. */
  ghost predicate StaysDecodable(s: State, e: Expected) {
    forall run :: ValidRun(s, run) && NoResume(run) && Conforming(e, run) ==> AllDecodable(Run(s, run))
  }

  lemma StaysNow(s: State, e: Expected)
    ensures StaysDecodable(s, e) ==> AllDecodable(s)
  {
    assert ValidRun(s, []) && NoResume([]) && Conforming(e, []) && Run(s, []) == s;
  }

  lemma PrependStep(s: State, e: Expected, a: Action, run: seq<Action>)
    requires Enabled(s, a) && !a.Resume? && Allowed(e, a)
    requires ValidRun(Next(s, a), run) && NoResume(run) && Conforming(Expect(e, a), run)
    ensures ValidRun(s, [a] + run) && NoResume([a] + run) && Conforming(e, [a] + run)
    ensures Run(s, [a] + run) == Run(Next(s, a), run)
  {
    assert ([a] + run)[1..] == run;
  }

  lemma StaysNext(s: State, e: Expected, a: Action)
    requires Enabled(s, a) && !a.Resume? && Allowed(e, a)
    ensures StaysDecodable(s, e) ==> StaysDecodable(Next(s, a), Expect(e, a))
  {
    var t, f := Next(s, a), Expect(e, a);
    if StaysDecodable(s, e) {
      forall run | ValidRun(t, run) && NoResume(run) && Conforming(f, run) ensures AllDecodable(Run(t, run)) {
        PrependStep(s, e, a, run);
      }
    }
  }

  lemma InvStays(s: State, e: Expected)
    requires GateInv(s, e)
    ensures StaysDecodable(s, e)
  {
    forall run | ValidRun(s, run) && NoResume(run) && Conforming(e, run) ensures AllDecodable(Run(s, run)) {
      NoResumeIsGated(s, e, Up, run);
      GateRun(s, e, Up, run);
      GateDecodes(Run(s, run), ExpectAfter(e, run));
    }
  }

  /** One frame is handled while the appsrc wants data. */
  function Fed(s: State, key: bool): State
    requires s.pc.Idle? && s.running
  {
    Handle(s, Output(false, key), [NeedData], [], [])
  }

  lemma StaysFed(s: State, e: Expected, key: bool)
    requires !e.Starting()
    requires s.pc.Idle? && s.running
    ensures StaysDecodable(EmitStep(s, Output(false, key)), e) ==> StaysDecodable(Fed(s, key), e)
  {
    var s1 := EmitStep(s, Output(false, key));
    var s2 := Next(s1, NeedData);
    assert Gap(s1, [NeedData]) == s2;
    StaysNext(s1, e, NeedData);
    StaysNext(s2, e, Consume);
    var s3 := ConsumeStep(s2);
    if s3.pc.AtPushCsd? { StaysNext(s3, e, PushCsd); }
    var s4 := InjectPart(s3, []);
    if s4.pc.AtPush? { StaysNext(s4, e, Push); }
  }

  /** What a frame does where no CSD is at hand or no request is pending. */
  lemma FedOutcome(s: State, key: bool)
    requires s.pc.Idle? && s.running && s.live.Some? && (s.requestKeyframe ==> !s.cachedCsd)
    ensures var t := Fed(s, key);
            && t.pc.Idle? && t.running && t.live.Some? && t.frames == s.frames + 1
            && t.cachedCsd == s.cachedCsd && !t.requestKeyframe
            && (t.waitingForIdr <==> !key && (s.waitingForIdr || s.requestKeyframe))
            && t.live.value.csdCached == s.live.value.csdCached
            && t.live.value.log == s.live.value.log
               + (if key || (!s.requestKeyframe && !s.waitingForIdr) then [Frame(s.frames, key)] else [])
  {
    var s1 := EmitStep(s, Output(false, key));
    EmitOutcome(s, Output(false, key));
    var s2 := Next(s1, NeedData);
    assert Gap(s1, [NeedData]) == s2;
    ConsumeOutcome(s2);
    var s3 := ConsumeStep(s2);
    if s3.pc.AtPush? { PushOutcome(s3); }
  }

  lemma LastFrameIs(log: seq<Item>, n: nat, p: nat)
    requires InOrder(log) && Before(log, n) && p < |log| && log[p].Frame? && log[p].index + 1 == n
    ensures LastFrame(log) == p
  {
    var q := LastFrame(log);
    assert q >= p;
    assert log[q].index <= log[p].index;
  }

  lemma ChainRestricts(log: seq<Item>, x: Item, j: nat, p: nat)
    requires ChainedFrom(log + [x], j, |log|)
    requires InOrder(log) && j < p < |log| && log[p].Frame? && x.Frame? && log[p].index + 1 == x.index
    ensures ChainedFrom(log, j, p)
  {
    var longer := log + [x];
    forall m: nat | log[j].index <= m <= log[p].index ensures HandedBetween(log, j, p, m) {
      assert HandedBetween(longer, j, |log|, m);
      var q :| j <= q <= |log| && q < |longer| && longer[q].Frame? && longer[q].index == m;
      assert q < |log| && log[q].index == m;
    }
  }

  /** A chain that ends in an appended P/B frame runs through the frame before it. */
  lemma ChainShortens(log: seq<Item>, n: nat)
    requires InOrder(log) && Before(log, n) && Chained(log + [Frame(n, false)], |log|)
    ensures var p := LastFrame(log);
            p >= 0 && log[p].index + 1 == n && (log[p].key || (p > 0 && Chained(log, p)))
  {
    var longer, k := log + [Frame(n, false)], |log|;
    var j: nat :| ChainedFrom(longer, j, k);
    assert HandedBetween(longer, j, k, n - 1);
    var p :| j <= p <= k && p < |longer| && longer[p].Frame? && longer[p].index == n - 1;
    assert p < k && log[p] == longer[p] && log[j] == longer[j];
    LastFrameIs(log, n, p);
    if p > j { ChainRestricts(log, Frame(n, false), j, p); }
  }

  lemma PrimedBefore(log: seq<Item>, x: Item)
    requires Primed(log + [x], |log|)
    ensures Primed(log, |log|)
  {
    var log' := log + [x];
    var a, b :| 0 <= a < b < |log| && b < |log'| && log'[a] == Csd(true) && log'[b].IsKey();
    assert log[a] == Csd(true) && log[b].IsKey();
  }

  /** A P/B frame decodes behind a non-empty log only if the log is clean. */
  lemma OnlyCleanContinues(g: Generation, n: nat)
    requires InOrder(g.log) && Before(g.log, n) && g.log != []
    requires Decodable(g.(log := g.log + [Frame(n, false)]))
    ensures Clean(g, n)
  {
    assert (g.log + [Frame(n, false)])[|g.log|].IsDelta();
    ChainShortens(g.log, n);
    if g.csdCached { PrimedBefore(g.log, Frame(n, false)); }
  }

  /** The next frame after this one. */
  lemma StaysFedAgain(s: State, e: Expected, first: bool, second: bool)
    requires !e.Starting()
    requires s.pc.Idle? && s.running && Fed(s, first).pc.Idle? && Fed(s, first).running
    ensures StaysDecodable(EmitStep(s, Output(false, first)), e)
        ==> StaysDecodable(EmitStep(Fed(s, first), Output(false, second)), e)
  {
    StaysFed(s, e, first);
    StaysNext(Fed(s, first), e, Emit(Output(false, second)));
  }

  lemma LiveMustDecode(s: State, e: Expected)
    requires s.live.Some? && !Decodable(s.live.value)
    ensures !StaysDecodable(s, e)
  {
    StaysNow(s, e);
    assert s.live.value in Generations(s);
  }

  lemma DeltasAlone(g: Generation, n: nat)
    requires g.log == [Frame(n, false), Frame(n + 1, false)]
    ensures !Decodable(g)
  {
    assert g.log[1].IsDelta();
  }

  lemma TwoDeltas(s: State, e: Expected)
    requires !e.Starting()
    requires s.pc.Idle? && s.running && s.live.Some? && !s.requestKeyframe && !s.waitingForIdr
    requires s.live.value.log == []
    ensures !StaysDecodable(EmitStep(s, Output(false, false)), e)
  {
    var n, t := s.frames, Fed(s, false);
    FedOutcome(s, false);
    FedOutcome(t, false);
    var u := Fed(t, false);
    assert u.live.value.log == [Frame(n, false), Frame(n + 1, false)];
    DeltasAlone(u.live.value, n);
    LiveMustDecode(u, e);
    StaysFed(t, e, false);
    StaysFedAgain(s, e, false, false);
  }

  /** With the gate open, no request pending and a frame missing, the second P/B frame at the latest
      cannot be decoded. */
  lemma UnsafeDelta(s: State, e: Expected)
    requires !e.Starting()
    requires s.pc.Idle? && s.running && s.live.Some? && !s.requestKeyframe && !s.waitingForIdr
    requires InOrder(s.live.value.log) && Before(s.live.value.log, s.frames)
    requires !Clean(s.live.value, s.frames)
    ensures !StaysDecodable(EmitStep(s, Output(false, false)), e)
  {
    var g, n, t := s.live.value, s.frames, Fed(s, false);
    if g.log == [] {
      TwoDeltas(s, e);
    } else {
      FedOutcome(s, false);
      assert t.live.value == g.(log := g.log + [Frame(n, false)]);
      if Decodable(t.live.value) { OnlyCleanContinues(g, n); }
      LiveMustDecode(t, e);
      StaysFed(s, e, false);
    }
  }

  lemma UnprimedDelta(g: Generation, log: seq<Item>, n: nat)
    requires g.csdCached && !HasCsd(log)
    requires g.log == log + [Frame(n, true)] + [Frame(n + 1, false)]
    ensures !Decodable(g)
  {
    var k := |log| + 1;
    assert g.log[k].IsDelta();
    assert forall i :: 0 <= i < k ==> g.log[i] != Csd(true) by {
      assert forall i :: 0 <= i < |log| ==> g.log[i] == log[i];
    }
  }

  lemma KeyThenDelta(s: State)
    requires s.pc.Idle? && s.running && s.live.Some? && !CsdKnown(s)
    ensures var t := Fed(s, true);
            t.pc.Idle? && t.running &&
            var u := Fed(t, false);
            && u.live.Some? && u.live.value.csdCached == s.live.value.csdCached
            && u.live.value.log
               == s.live.value.log + [Frame(s.frames, true)] + [Frame(s.frames + 1, false)]
  {
    FedOutcome(s, true);
    FedOutcome(Fed(s, true), false);
  }

  /** A key frame without the CSD that the media's parser needs leaves the next P/B frame undecodable. */
  lemma KeyNeedsCsd(s: State, e: Expected)
    requires !e.Starting()
    requires s.pc.Idle? && s.running && s.live.Some? && !CsdKnown(s)
    ensures !StaysDecodable(EmitStep(s, Output(false, true)), e)
  {
    KeyThenDelta(s);
    var t := Fed(s, true);
    var u := Fed(t, false);
    UnprimedDelta(u.live.value, s.live.value.log, s.frames);
    LiveMustDecode(u, e);
    StaysFed(t, e, false);
    StaysFedAgain(s, e, true, false);
  }

  /** And a P/B frame in front of that key frame does not help. */
  lemma DeltaNeedsCsd(s: State, e: Expected)
    requires !e.Starting()
    requires s.pc.Idle? && s.running && s.live.Some? && !CsdKnown(s)
    ensures !StaysDecodable(EmitStep(s, Output(false, false)), e)
  {
    var t := Fed(s, false);
    FedOutcome(s, false);
    KeyNeedsCsd(t, e);
    StaysFedAgain(s, e, false, true);
  }

  /** Exactly when mRunning may be set while a media is up: a new encoder has not delivered a frame
      yet, or the state is ResumeSafe.  Every other state has a continuation that hands over an
      undecodable frame, also if encoders keep to CSD and key frame first. */
  lemma ResumeSafeIff(s: State, e: Expected)
    requires GateInv(s, e) && Enabled(s, Resume)
    ensures StaysDecodable(Next(s, Resume), e) <==> e.Starting() || ResumeSafe(s)
  {
    var t := Next(s, Resume);
    if e.Starting() || ResumeSafe(s) {
      GateNext(s, e, Up, Resume);
      InvStays(t, e);
    } else {
      StaysNext(t, e, Emit(Output(false, true)));
      StaysNext(t, e, Emit(Output(false, false)));
      if CsdKnown(s) { UnsafeDelta(t, e); } else { KeyNeedsCsd(t, e); }
    }
  }

  /** The encoder's last frame was not handed to the media that is up. */
  ghost predicate FrameMissing(s: State) {
    s.frames > 0 && (s.live.Some? ==> Before(s.live.value.log, s.frames - 1))
  }

  /** While mRunning is false nothing is handed over, so each frame that is emitted goes missing. */
  lemma DownStep(s: State, a: Action)
    requires Inv(s) && s.began.Some? && !s.running && s.pc.Idle? && Enabled(s, a) && !a.Resume?
    ensures var t := Next(s, a);
            && Inv(t) && t.began.Some? && !t.running && t.pc.Idle?
            && (!s.waitingForIdr ==> !t.waitingForIdr)
            && (FrameMissing(s) || (a.Emit? && a.out.IsFrame()) ==> FrameMissing(t))
  {
    NextKeeps(s, a);
  }

  predicate EmitsFrame(run: seq<Action>) {
    exists i :: 0 <= i < |run| && run[i].Emit? && run[i].out.IsFrame()
  }

  lemma {:induction false} DownRun(s: State, run: seq<Action>)
    requires Inv(s) && s.began.Some? && !s.running && s.pc.Idle? && ValidRun(s, run) && NoResume(run)
    ensures var t := Run(s, run);
            && Inv(t) && t.began.Some? && !t.running && t.pc.Idle?
            && (!s.waitingForIdr ==> !t.waitingForIdr)
            && (FrameMissing(s) || EmitsFrame(run) ==> FrameMissing(t))
    decreases run
  {
    if run != [] {
      assert !run[0].Resume?;
      DownStep(s, run[0]);
      if EmitsFrame(run) && !(run[0].Emit? && run[0].out.IsFrame()) {
        var i :| 0 <= i < |run| && run[i].Emit? && run[i].out.IsFrame();
        assert run[1..][i - 1] == run[i];
      }
      DownRun(Next(s, run[0]), run[1..]);
    }
  }

  lemma MissingIsNotClean(g: Generation, n: nat)
    requires n > 0 && Before(g.log, n - 1)
    ensures !Clean(g, n)
  {
  }

  /** restartEncoder() from the error on, up to mRunning.set(true): the old encoder is released, and
      `during` holds what the new encoder emits and other threads do meanwhile. */
  lemma DuringRestart(s: State, during: seq<Action>) returns (t: State)
    requires Inv(s) && s.began.Some? && s.pc.Idle?
    requires ValidRun(Next(Next(s, Halt), Release), during) && NoResume(during) && EmitsFrame(during)
    ensures t == Run(Next(Next(s, Halt), Release), during)
    ensures Inv(t) && Enabled(t, Resume) && !t.waitingForIdr && FrameMissing(t)
  {
    var s1 := Next(s, Halt);
    NextKeeps(s, Halt);
    NextKeeps(s1, Release);
    DownRun(Next(s1, Release), during);
    t := Run(Next(s1, Release), during);
  }

  /** The gate does not survive an encoder restart by itself.  If the new encoder delivers a frame
      before mRunning is set again, then everything that may follow is decodable exactly if no media
      is up, or a key frame request is pending at that moment and the CSD for it is there. */
  lemma RestartKeepsDecodableIff(s: State, during: seq<Action>)
    requires Inv(s) && s.began.Some? && s.pc.Idle?
    requires ValidRun(Next(Next(s, Halt), Release), during) && NoResume(during) && EmitsFrame(during)
    ensures var t := Run(Next(Next(s, Halt), Release), during);
            Enabled(t, Resume) &&
            (StaysDecodable(Next(t, Resume), Anything) <==> (t.live.Some? ==> t.requestKeyframe && CsdKnown(t)))
  {
    var t := DuringRestart(s, during);
    ResumeSafeIff(t, Anything);
    if t.live.Some? { MissingIsNotClean(t.live.value, t.frames); }
  }

  /** The same once the next frame is known: a key frame saves the media without a request. */
  lemma FirstFrameAfterRestartIff(s: State, during: seq<Action>, key: bool)
    requires Inv(s) && s.began.Some? && s.pc.Idle?
    requires ValidRun(Next(Next(s, Halt), Release), during) && NoResume(during) && EmitsFrame(during)
    ensures var t := Run(Next(Next(s, Halt), Release), during);
            Enabled(t, Resume) &&
            (StaysDecodable(EmitStep(Next(t, Resume), Output(false, key)), Anything) <==>
               (t.live.Some? ==> (key || t.requestKeyframe) && CsdKnown(t)))
  {
    var t := DuringRestart(s, during);
    var u := Next(t, Resume);
    if t.live.None? || (t.requestKeyframe && CsdKnown(t)) {
      ResumeKeeps(t);
      EmitKeeps(u, Output(false, key));
      InvStays(EmitStep(u, Output(false, key)), Anything);
    } else if !CsdKnown(t) {
      if key { KeyNeedsCsd(u, Anything); } else { DeltaNeedsCsd(u, Anything); }
    } else if key {
      KeyAfterRestart(t);
      InvStays(EmitStep(u, Output(false, true)), Anything);
    } else {
      MissingIsNotClean(t.live.value, t.frames);
      UnsafeDelta(u, Anything);
    }
  }

  lemma KeyAfterRestart(s: State)
    requires Inv(s) && Enabled(s, Resume) && CsdKnown(s)
    ensures Inv(EmitStep(ResumeStep(s), Output(false, true)))
  {
  }

  predicate NoRelease(run: seq<Action>) {
    forall i :: 0 <= i < |run| ==> !run[i].Release?
  }

  /** What a new encoder has delivered since its predecessor was released. */
  ghost predicate DeliveredInv(s: State, e: Expected) {
    && !e.Anything?
    && (!e.CsdFirst? ==> s.cachedCsd)
    && (e.Flowing? ==> FrameMissing(s))
  }

  lemma {:induction false} NewEncoderRun(s: State, e: Expected, run: seq<Action>)
    requires Inv(s) && s.began.Some? && !s.running && s.pc.Idle? && !s.waitingForIdr && DeliveredInv(s, e)
    requires ValidRun(s, run) && NoResume(run) && NoRelease(run) && Conforming(e, run)
    ensures var t := Run(s, run);
            && Inv(t) && t.began.Some? && !t.running && t.pc.Idle? && !t.waitingForIdr
            && DeliveredInv(t, ExpectAfter(e, run))
    decreases run
  {
    if run != [] {
      assert !run[0].Resume? && !run[0].Release?;
      DownStep(s, run[0]);
      assert !run[0].Emit? ==> Next(s, run[0]).cachedCsd == s.cachedCsd;
      NewEncoderRun(Next(s, run[0]), Expect(e, run[0]), run[1..]);
    }
  }

  /** The exact condition for encoders that begin with CSD and then a key frame: after a restart all
      that may follow is decodable if and only if no media is up, or a key frame request is pending
      when mRunning is set, or the new encoder's first frame has not been lost by then. */
  lemma NewEncoderIff(s: State, during: seq<Action>)
    requires Inv(s) && s.began.Some? && s.pc.Idle?
    requires ValidRun(Next(Next(s, Halt), Release), during) && NoResume(during) && NoRelease(during)
    requires Conforming(CsdFirst, during)
    ensures var t, e := Run(Next(Next(s, Halt), Release), during), ExpectAfter(CsdFirst, during);
            Enabled(t, Resume) &&
            (StaysDecodable(Next(t, Resume), e) <==> (t.live.Some? ==> t.requestKeyframe || e.Starting()))
  {
    var r := Next(Next(s, Halt), Release);
    NextKeeps(s, Halt);
    NextKeeps(Next(s, Halt), Release);
    NewEncoderRun(r, CsdFirst, during);
    var t, e := Run(r, during), ExpectAfter(CsdFirst, during);
    assert Still(t) == t;
    ResumeSafeIff(t, e);
    if e.Flowing? && t.live.Some? { MissingIsNotClean(t.live.value, t.frames); }
  }

  // ---------------------------------------------------------------------------
  // The CSD of a released encoder
  // ---------------------------------------------------------------------------

  /** How often a cached CSD was injected. */
  function Injections(log: seq<Item>): nat {
    if log == [] then 0
    else Injections(log[..|log| - 1]) + if log[|log| - 1] == Csd(true) then 1 else 0
  }

  function AllInjections(gs: seq<Generation>): nat {
    if gs == [] then 0 else AllInjections(gs[..|gs| - 1]) + Injections(gs[|gs| - 1].log)
  }

  function TotalInjections(s: State): nat {
    AllInjections(s.past) + if s.live.Some? then Injections(s.live.value.log) else 0
  }

  predicate NoCsdEmitted(run: seq<Action>) {
    forall i :: 0 <= i < |run| ==> !(run[i].Emit? && run[i].out.isCsd)
  }

  lemma RetireInjections(s: State)
    ensures TotalInjections(Retire(s)) == TotalInjections(s)
  {
    if s.live.Some? { assert (s.past + [s.live.value])[..|s.past|] == s.past; }
  }

  lemma PushInjections(s: State, x: Item)
    requires x != Csd(true)
    ensures TotalInjections(PushNative(s, x)) == TotalInjections(s)
  {
    if s.live.Some? { assert (s.live.value.log + [x])[..|s.live.value.log|] == s.live.value.log; }
  }

  lemma NoCsdStep(s: State, a: Action)
    requires !s.cachedCsd && !s.pc.AtPushCsd? && Enabled(s, a) && !(a.Emit? && a.out.isCsd)
    ensures var t := Next(s, a);
      !t.cachedCsd && !t.pc.AtPushCsd? && TotalInjections(t) == TotalInjections(s)
  {
    var t := Next(s, a);
    match a
    case Push => PushInjections(s, ItemOf(s.pc.out, s.pc.index));
    case Configure(_) => RetireInjections(s);
    case Unprepared => RetireInjections(s);
    case Destroy => RetireInjections(s);
    case _ => assert t.live == s.live && t.past == s.past;
  }

  lemma {:induction false} NoCsdRun(s: State, run: seq<Action>)
    requires !s.cachedCsd && !s.pc.AtPushCsd? && ValidRun(s, run) && NoCsdEmitted(run)
    ensures var t := Run(s, run); !t.cachedCsd && TotalInjections(t) == TotalInjections(s)
    decreases run
  {
    if run != [] {
      assert !(run[0].Emit? && run[0].out.isCsd);
      NoCsdStep(s, run[0]);
      NoCsdRun(Next(s, run[0]), run[1..]);
    }
  }

  /** Once its encoder is released, a CSD is never injected again: until the next encoder delivers
      one, no media gets any. */
  lemma ReleasedCsdNeverInjected(s: State, run: seq<Action>)
    requires Enabled(s, Release) && ValidRun(Next(s, Release), run) && NoCsdEmitted(run)
    ensures TotalInjections(Run(Next(s, Release), run)) == TotalInjections(s)
  {
    NoCsdRun(Next(s, Release), run);
  }

  // ---------------------------------------------------------------------------
  // The code itself
  // ---------------------------------------------------------------------------

  /** The statics of camera2_gst_streamer.cpp and the fields of Camera2GstStreamer that the gate
      uses.  Ghost fields record what the steps above call history. */
  class StreamGate {
    var appsrc: bool          // s_appsrc != NULL
    var needData: bool        // s_need_data
    var requestKeyframe: bool // s_request_keyframe
    var running: bool         // mRunning
    var cachedCsd: bool       // mCachedCsd != null
    var waitingForIdr: bool   // mWaitingForIDR
    var framesSinceIdr: nat   // mFramesSinceIDR
    ghost var pc: Pc
    ghost var media: Generation
    ghost var past: seq<Generation>
    ghost var began: Option<nat>
    ghost var frames: nat
    ghost var lastKey: Option<nat>
    ghost var unanswered: Option<nat>
    ghost var withheld: nat

    ghost function Snapshot(): State
      reads this
    {
      State(if appsrc then Some(media) else None, needData, requestKeyframe,
            running, cachedCsd, waitingForIdr, framesSinceIdr, pc,
            past, began, frames, lastKey, unanswered, withheld)
    }

    constructor ()
      ensures Initial(Snapshot()) && Inv(Snapshot())
    {
      appsrc, needData, requestKeyframe := false, true, false;
      running, cachedCsd, waitingForIdr, framesSinceIdr := false, false, false, 0;
      pc, media, past := Idle, Generation(false, []), [];
      began, frames, lastKey, unanswered, withheld := None, 0, None, None, 0;
    }

    /** The end of start(), the first one or one after a stop(): no media that came up before it is
        in danger. */
    method FinishStart()
      requires Inv(Snapshot()) && (began.None? || Renewed(Snapshot()))
      modifies this
      ensures Snapshot() == Next(old(Snapshot()), if old(began).None? then Begin else Resume)
      ensures Inv(Snapshot())
    {
      ResumeKeeps(Snapshot());
      running := true;
      began, lastKey := Some(frames), None;
    }

    /** releaseEncoder, as far as the gate is concerned. */
    method ReleaseEncoder()
      requires Inv(Snapshot()) && began.Some? && !running && pc.Idle?
      modifies this
      ensures Snapshot() == Next(old(Snapshot()), Release) && Inv(Snapshot())
      ensures !cachedCsd && !waitingForIdr && framesSinceIdr == 0
      ensures appsrc == old(appsrc) && media == old(media) && requestKeyframe == old(requestKeyframe)
    {
      NextKeeps(Snapshot(), Release);
      cachedCsd := false;
      waitingForIdr := false;
      framesSinceIdr := 0;
      unanswered, withheld := None, 0;
    }

    /** The end of restartEncoder(): whatever follows stays decodable exactly if the new encoder has
        not delivered a frame yet, or the gate is armed or about to be, or nothing was lost. */
    method FinishRestart(ghost e: Expected)
      requires GateInv(Snapshot(), e) && began.Some? && !running && pc.Idle?
      modifies this
      ensures Snapshot() == Next(old(Snapshot()), Resume)
      ensures StaysDecodable(Snapshot(), e) <==> e.Starting() || ResumeSafe(old(Snapshot()))
    {
      ResumeSafeIff(Snapshot(), e);
      running := true;
      began, lastKey := Some(frames), None;
    }

    method OnMediaConfigure(video: bool)
      modifies this
      ensures Snapshot() == ConfigureStep(old(Snapshot()), video)
      ensures needData && requestKeyframe
      ensures if video then appsrc && media == Generation(cachedCsd, [])
              else appsrc == old(appsrc) && media == old(media)
    {
      if video {
        if appsrc { past := past + [media]; }
        appsrc := true;
        media := Generation(cachedCsd, []);
      }
      needData := true;
      requestKeyframe := true;
    }

    /** on_media_unprepared, and the locked section of nativeGstPipelineDestroy. */
    method DropAppsrc()
      modifies this
      ensures Snapshot() == Next(old(Snapshot()), Unprepared)
      ensures Snapshot() == Next(old(Snapshot()), Destroy)
      ensures !appsrc && !needData && requestKeyframe == old(requestKeyframe)
    {
      if appsrc {
        past := past + [media];
        appsrc := false;
      }
      needData := false;
    }

    /** One action of another thread. */
    method OtherThread(a: Action)
      requires Environment(a)
      modifies this
      ensures Snapshot() == Next(old(Snapshot()), a)
      ensures running == (old(running) && !a.Halt?)
      ensures requestKeyframe == (old(requestKeyframe) || a.ClientConnected? || a.Configure?)
      ensures a.Init? || a.NeedData? || a.Configure? ==> needData
      ensures a.EnoughData? || a.Unprepared? || a.Destroy? ==> !needData
      ensures a.ClientConnected? || a.Halt? ==> needData == old(needData)
      ensures if a.Unprepared? || a.Destroy? then !appsrc
              else if a == Configure(true) then appsrc && media.log == []
              else appsrc == old(appsrc) && media == old(media)
    {
      match a {
        case Configure(video) => OnMediaConfigure(video);
        case Unprepared => DropAppsrc();
        case Destroy => DropAppsrc();
        case Init => needData := true;
        case ClientConnected => requestKeyframe := true;
        case NeedData => needData := true;
        case EnoughData => needData := false;
        case Halt => running := false;
      }
    }

    method OtherThreads(gap: seq<Action>)
      requires AllEnvironment(gap)
      modifies this
      ensures Snapshot() == Gap(old(Snapshot()), gap)
    {
      var i := 0;
      while i < |gap|
        invariant 0 <= i <= |gap|
        invariant Gap(Snapshot(), gap[i..]) == Gap(old(Snapshot()), gap)
      {
        assert gap[i..][0] == gap[i] && gap[i..][1..] == gap[i + 1..];
        OtherThread(gap[i]);
        i := i + 1;
      }
    }

    method NativeConsumeKeyframeRequest() returns (requested: bool)
      modifies this`requestKeyframe
      ensures requested == old(requestKeyframe) && !requestKeyframe
    {
      requested := requestKeyframe;
      requestKeyframe := false;
    }

    method NativePushEncodedBuffer(isKey: bool, isCsd: bool, ghost item: Item)
      requires item.IsDelta() <==> !isKey && !isCsd
      modifies this`requestKeyframe, this`media
      ensures Snapshot() == PushNative(old(Snapshot()), item)
    {
      if !appsrc { return; }
      if !needData && !isCsd && !isKey {
        requestKeyframe := true;
        return;
      }
      media := media.(log := media.log + [item]);
    }

    /** setParameters(REQUEST_SYNC_FRAME) */
    ghost method RequestSyncFrame()
      modifies this`unanswered
      ensures Snapshot() == RequestSync(old(Snapshot()))
    {
      if unanswered.None? { unanswered := Some(0); }
    }

    /** The forced-IDR counter; lastKey and unanswered record what the callback saw. */
    method CountOutput(o: Output, ghost index: nat)
      modifies this
      ensures Snapshot() == CountFrame(Seen(old(Snapshot()), o, index), o)
    {
      if o.isKey {
        lastKey, unanswered := Some(index), None;
        framesSinceIdr := 0;
      } else if !o.isCsd {
        if unanswered.Some? { unanswered := Some(unanswered.value + 1); }
        framesSinceIdr := framesSinceIdr + 1;
        if framesSinceIdr >= FORCED_IDR_INTERVAL_FRAMES {
          framesSinceIdr := 0;
          RequestSyncFrame();
        }
      }
    }

    /** The part of the callback before nativeConsumeKeyframeRequest. */
    method Arrive(o: Output) returns (proceed: bool)
      requires pc.Idle?
      modifies this
      ensures Snapshot() == EmitStep(old(Snapshot()), o)
      ensures proceed <==> !pc.Idle?
    {
      ghost var index := frames;
      if o.isCsd { cachedCsd := true; }
      if o.IsFrame() { frames := frames + 1; }
      if !running { return false; }
      CountOutput(o, index);
      pc := AtConsume(o, index);
      return true;
    }

    /** The gate test; forward tells whether the buffer is to be pushed. */
    method PassGate(o: Output, ghost index: nat) returns (forward: bool)
      modifies this
      ensures Snapshot() == Decide(old(Snapshot()), o, index)
      ensures forward <==> pc == AtPush(o, index)
      ensures !forward ==> pc.Idle?
    {
      if waitingForIdr {
        if o.isKey {
          waitingForIdr := false;
          withheld := 0;
        } else if !o.isCsd {
          withheld := withheld + 1;
          pc := Idle;
          return false;
        }
      }
      pc := AtPush(o, index);
      return true;
    }

    /** An IDR is requested for the new client and P/B frames are gated. */
    method ArmGate()
      modifies this`unanswered, this`waitingForIdr
      ensures Snapshot() == Arm(old(Snapshot()))
    {
      RequestSyncFrame();
      waitingForIdr := true;
    }

    /** The flag is consumed; inject tells whether the cached CSD is to be pushed now. */
    method AnswerRequest(o: Output, ghost index: nat) returns (inject: bool, forward: bool)
      requires pc == AtConsume(o, index)
      modifies this
      ensures Snapshot() == ConsumeStep(old(Snapshot()))
      ensures inject <==> pc == AtPushCsd(o, index)
      ensures forward <==> pc == AtPush(o, index)
      ensures !inject && !forward ==> pc.Idle?
    {
      var requested := NativeConsumeKeyframeRequest();
      if requested && cachedCsd {
        pc := AtPushCsd(o, index);
        return true, false;
      }
      if requested { ArmGate(); }
      forward := PassGate(o, index);
      inject := false;
    }

    /** The cached CSD is re-injected, then the gate is armed. */
    method InjectCsd(o: Output, ghost index: nat) returns (forward: bool)
      requires pc == AtPushCsd(o, index)
      modifies this
      ensures Snapshot() == PushCsdStep(old(Snapshot()))
      ensures forward <==> pc == AtPush(o, index)
      ensures !forward ==> pc.Idle?
    {
      NativePushEncodedBuffer(false, true, Csd(true));
      ArmGate();
      forward := PassGate(o, index);
    }

    method PushBuffer(o: Output, ghost index: nat, gap: seq<Action>)
      requires pc == AtPush(o, index) && AllEnvironment(gap)
      modifies this
      ensures Snapshot() == PushPart(old(Snapshot()), gap)
    {
      OtherThreads(gap);
      NativePushEncodedBuffer(o.isKey, o.isCsd, ItemOf(o, index));
      pc := Idle;
    }

    method AnswerAndInject(o: Output, ghost index: nat, gap: seq<Action>) returns (forward: bool)
      requires pc == AtConsume(o, index) && AllEnvironment(gap)
      modifies this
      ensures Snapshot() == InjectPart(ConsumeStep(old(Snapshot())), gap)
      ensures forward <==> pc == AtPush(o, index)
      ensures !forward ==> pc.Idle?
    {
      var inject;
      inject, forward := AnswerRequest(o, index);
      if inject {
        OtherThreads(gap);
        forward := InjectCsd(o, index);
      }
    }

    /** handleEncoderOutput as the encoder thread runs it: it computes exactly the sequence of
        steps above, and so keeps every media decodable. */
    method HandleEncoderOutput(o: Output, g0: seq<Action>, g1: seq<Action>, g2: seq<Action>)
      requires pc.Idle? && AllEnvironment(g0) && AllEnvironment(g1) && AllEnvironment(g2)
      modifies this
      ensures Snapshot() == Handle(old(Snapshot()), o, g0, g1, g2)
    {
      ghost var index := frames;
      var proceed := Arrive(o);
      if !proceed { return; }
      OtherThreads(g0);
      var forward := AnswerAndInject(o, index, g1);
      if forward { PushBuffer(o, index, g2); }
    }

    /** The same call, for its caller: no media is left with a frame it cannot decode. */
    method OnOutputBufferAvailable(o: Output, g0: seq<Action>, g1: seq<Action>, g2: seq<Action>)
      requires Inv(Snapshot()) && pc.Idle? && AllEnvironment(g0) && AllEnvironment(g1) && AllEnvironment(g2)
      modifies this
      ensures Inv(Snapshot()) && pc.Idle?
    {
      HandleKeeps(Snapshot(), o, g0, g1, g2);
      HandleEncoderOutput(o, g0, g1, g2);
    }
  }
}
