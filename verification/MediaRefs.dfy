/**
 Reference ownership of s_appsrc, s_audio_appsrc and s_full_pipeline.  The GMainLoop thread, the
 JNI threads and the holders of dump snapshots interleave at s_lock granularity; `counts` is the
 reference count of every GStreamer object, touched only by Ref and Unref.
 */
module MediaRefs {
  import opened Options

  type Obj = nat

  /** What the GMainLoop thread holds in its local variables. */
  datatype Loop =
    | LoopIdle
    | Configuring(src: Option<Obj>)   // on_media_configure, before its locked section
    | Playing(pipeline: Obj)          // on_client_play_request, before its locked section
    | Cached(pipeline: Obj)           // on_client_play_request, scanning the pipeline

  datatype State = State(
    counts: multiset<Obj>,
    fault: bool,                      // an object with no reference left was released or used
    appsrc: Option<Obj>,
    audioAppsrc: Option<Obj>,
    fullPipeline: Option<Obj>,
    // the other owners
    media: multiset<Obj>,             // the RTSP server and its media
    loop: Loop,
    loopRuns: bool,                   // between thread creation and pthread_join
    dumps: multiset<Obj>,             // snapshots held by dump callers
    lost: multiset<Obj>               // references whose only pointer was overwritten
  )

  datatype Action =
    | MediaRef(o: Obj)
    | MediaUnref(o: Obj)
    | FindSrc(src: Option<Obj>)
    | Configure(audio: Option<Obj>)
    | Unprepared
    | FindPipeline(pipeline: Obj)
    | CachePipeline
    | EndPlay
    | Init
    | DestroyLocked
    | Join
    | DumpBegin
    | DumpAppsrcs
    | DumpTouch(o: Obj)
    | DumpEnd(o: Obj)
    | PushVideo
    | PushAudio

  function One(o: Option<Obj>): multiset<Obj> {
    if o.Some? then multiset{o.value} else multiset{}
  }

  function Ref(s: State, o: Obj): (t: State)
    ensures t == s.(counts := t.counts)
  {
    s.(counts := s.counts + multiset{o})
  }

  /** Releasing an object that is already gone is the fault the proofs rule out. */
  function Unref(s: State, o: Obj): (t: State)
    ensures t == s.(counts := t.counts, fault := t.fault)
  {
    if s.counts[o] == 0 then s.(fault := true) else s.(counts := s.counts - multiset{o})
  }

  function UnrefIfSet(s: State, o: Option<Obj>): (t: State)
    ensures t == s.(counts := t.counts, fault := t.fault)
  {
    if o.Some? then Unref(s, o.value) else s
  }

  function Touch(s: State, o: Option<Obj>): (t: State)
    ensures t == s.(fault := t.fault)
  {
    if o.Some? && s.counts[o.value] == 0 then s.(fault := true) else s
  }

  function DropAppsrc(s: State): (t: State)
    ensures t == s.(counts := t.counts, fault := t.fault, appsrc := None)
  {
    UnrefIfSet(s, s.appsrc).(appsrc := None)
  }

  function DropAudio(s: State): (t: State)
    ensures t == s.(counts := t.counts, fault := t.fault, audioAppsrc := None)
  {
    UnrefIfSet(s, s.audioAppsrc).(audioAppsrc := None)
  }

  function DropPipeline(s: State): (t: State)
    ensures t == s.(counts := t.counts, fault := t.fault, fullPipeline := None)
  {
    UnrefIfSet(s, s.fullPipeline).(fullPipeline := None)
  }

  function ReleaseSlots(s: State): (t: State)
    ensures t == s.(counts := t.counts, fault := t.fault, appsrc := None, audioAppsrc := None, fullPipeline := None)
  {
    DropPipeline(DropAudio(DropAppsrc(s)))
  }

  /** The reference found by the loop thread moves into s_appsrc. */
  function InstallSrc(s: State): (t: State)
    requires s.loop.Configuring?
    ensures t == s.(counts := t.counts, fault := t.fault, appsrc := t.appsrc, loop := LoopIdle)
  {
    (if s.loop.src.Some? then UnrefIfSet(s, s.appsrc).(appsrc := s.loop.src) else s).(loop := LoopIdle)
  }

  /** A new reference to the audio appsrc moves into s_audio_appsrc. */
  function InstallAudio(s: State, audio: Option<Obj>): (t: State)
    ensures t == s.(counts := t.counts, fault := t.fault, audioAppsrc := t.audioAppsrc)
  {
    if audio.Some? then UnrefIfSet(Ref(s, audio.value), s.audioAppsrc).(audioAppsrc := audio) else s
  }

  function ConfigureStep(s: State, audio: Option<Obj>): State
    requires s.loop.Configuring?
  {
    InstallAudio(InstallSrc(s), audio)
  }

  /** s_full_pipeline is assigned; whatever it pointed to is lost. */
  function Overwrite(s: State, p: Obj): (t: State)
    ensures t == s.(fullPipeline := Some(p), lost := t.lost)
  {
    s.(fullPipeline := Some(p), lost := s.lost + One(s.fullPipeline))
  }

  function CacheStep(s: State): State
    requires s.loop.Playing?
  {
    var p := s.loop.pipeline;
    (if s.fullPipeline == Some(p) then s else Overwrite(Ref(s, p), p)).(loop := Cached(p))
  }

  /** A dump takes a reference of its own on what a slot points to. */
  function DumpSlot(s: State, slot: Option<Obj>): (t: State)
    ensures t == s.(counts := t.counts, dumps := t.dumps)
  {
    if slot.Some? then Ref(s, slot.value).(dumps := s.dumps + One(slot)) else s
  }

  predicate Enabled(s: State, a: Action) {
    match a
    case MediaUnref(o) => o in s.media
    case FindSrc(src) => s.loop.LoopIdle? && s.loopRuns && (src.Some? ==> src.value in s.media)
    case Configure(audio) => s.loop.Configuring? && (audio.Some? ==> audio.value in s.media)
    case Unprepared => s.loop.LoopIdle?
    case FindPipeline(p) => s.loop.LoopIdle? && s.loopRuns && p in s.media
    case CachePipeline => s.loop.Playing?
    case EndPlay => s.loop.Cached?
    case Join => s.loop.LoopIdle?
    case DumpTouch(o) => o in s.dumps
    case DumpEnd(o) => o in s.dumps
    case _ => true
  }

  function Next(s: State, a: Action): State
    requires Enabled(s, a)
  {
    match a
    case MediaRef(o) => Ref(s, o).(media := s.media + multiset{o})
    case MediaUnref(o) => Unref(s, o).(media := s.media - multiset{o})
    case FindSrc(src) => (if src.Some? then Ref(s, src.value) else s).(loop := Configuring(src))
    case Configure(audio) => ConfigureStep(s, audio)
    case Unprepared => ReleaseSlots(s)
    case FindPipeline(p) => Ref(s, p).(loop := Playing(p))
    case CachePipeline => CacheStep(s)
    case EndPlay => Unref(s, s.loop.pipeline).(loop := LoopIdle)
    case Init => s.(loopRuns := true)
    case DestroyLocked => ReleaseSlots(Touch(Touch(s, s.appsrc), s.audioAppsrc))
    case Join => s.(loopRuns := false)
    case DumpBegin => DumpSlot(s, s.fullPipeline)
    case DumpAppsrcs => DumpSlot(DumpSlot(s, s.appsrc), s.audioAppsrc)
    case DumpTouch(o) => Touch(s, Some(o))
    case DumpEnd(o) => Unref(s, o).(dumps := s.dumps - multiset{o})
    case PushVideo => Touch(s, s.appsrc)
    case PushAudio => Touch(s, s.audioAppsrc)
  }

  predicate ValidRun(s: State, run: seq<Action>)
    decreases run
  {
    run == [] || (Enabled(s, run[0]) && ValidRun(Next(s, run[0]), run[1..]))
  }

  function Run(s: State, run: seq<Action>): State
    requires ValidRun(s, run)
    decreases run
  {
    if run == [] then s else Run(Next(s, run[0]), run[1..])
  }

  const START := State(multiset{}, false, None, None, None, multiset{}, LoopIdle, false, multiset{}, multiset{})

  // ---------------------------------------------------------------------------
  // Conservation
  // ---------------------------------------------------------------------------

  function Is(slot: Option<Obj>, o: Obj): nat {
    if slot == Some(o) then 1 else 0
  }

  /** How many of the three statics point to o. */
  function Slots(s: State, o: Obj): nat {
    Is(s.appsrc, o) + Is(s.audioAppsrc, o) + Is(s.fullPipeline, o)
  }

  /** How many local variables of the loop thread hold a reference to o. */
  function Locals(l: Loop, o: Obj): nat {
    match l
    case LoopIdle => 0
    case Configuring(src) => Is(src, o)
    case Playing(p) => Is(Some(p), o)
    case Cached(p) => Is(Some(p), o)
  }

  function Owners(s: State, o: Obj): nat {
    s.media[o] + Slots(s, o) + Locals(s.loop, o) + s.dumps[o] + s.lost[o]
  }

  /** Every reference belongs to somebody, and nothing gone was released or used. */
  ghost predicate Conserved(s: State) {
    && !s.fault
    && forall o: Obj :: s.counts[o] == Owners(s, o)
  }

  lemma DropAppsrcConserves(s: State)
    requires Conserved(s)
    ensures Conserved(DropAppsrc(s))
  {
    if s.appsrc.Some? { assert s.counts[s.appsrc.value] == Owners(s, s.appsrc.value); }
  }

  lemma DropAudioConserves(s: State)
    requires Conserved(s)
    ensures Conserved(DropAudio(s))
  {
    if s.audioAppsrc.Some? { assert s.counts[s.audioAppsrc.value] == Owners(s, s.audioAppsrc.value); }
  }

  lemma DropPipelineConserves(s: State)
    requires Conserved(s)
    ensures Conserved(DropPipeline(s))
  {
    if s.fullPipeline.Some? { assert s.counts[s.fullPipeline.value] == Owners(s, s.fullPipeline.value); }
  }

  lemma ReleaseSlotsConserves(s: State)
    requires Conserved(s)
    ensures Conserved(ReleaseSlots(s))
  {
    DropAppsrcConserves(s);
    DropAudioConserves(DropAppsrc(s));
    DropPipelineConserves(DropAudio(DropAppsrc(s)));
  }

  /** The loop thread's local reference moves into the empty slot. */
  lemma MoveConserves(s: State)
    requires Conserved(s) && s.loop.Configuring? && s.loop.src.Some? && s.appsrc.None?
    ensures Conserved(s.(appsrc := s.loop.src, loop := LoopIdle))
  {
    var t := s.(appsrc := s.loop.src, loop := LoopIdle);
    forall o: Obj ensures t.counts[o] == Owners(t, o) {
      assert s.counts[o] == Owners(s, o);
    }
  }

  lemma InstallSrcConserves(s: State)
    requires Conserved(s) && s.loop.Configuring?
    ensures Conserved(InstallSrc(s))
  {
    if s.loop.src.Some? {
      DropAppsrcConserves(s);
      MoveConserves(DropAppsrc(s));
      assert InstallSrc(s) == DropAppsrc(s).(appsrc := s.loop.src, loop := LoopIdle);
    }
  }

  lemma UnrefCounts(s: State, slot: Option<Obj>, x: Obj)
    requires slot.Some? ==> s.counts[slot.value] > 0
    ensures var t := UnrefIfSet(s, slot); t.fault == s.fault && t.counts[x] == s.counts[x] - Is(slot, x)
  {
  }

  lemma InstallAudioConserves(s: State, audio: Option<Obj>)
    requires Conserved(s)
    ensures Conserved(InstallAudio(s, audio))
  {
    if audio.Some? {
      var r, t := Ref(s, audio.value), InstallAudio(s, audio);
      if s.audioAppsrc.Some? { assert s.counts[s.audioAppsrc.value] == Owners(s, s.audioAppsrc.value); }
      forall x: Obj ensures !t.fault && t.counts[x] == Owners(t, x) {
        assert s.counts[x] == Owners(s, x);
        assert r.counts[x] == s.counts[x] + Is(audio, x);
        UnrefCounts(r, s.audioAppsrc, x);
        assert Owners(t, x) == Owners(s, x) + Is(audio, x) - Is(s.audioAppsrc, x);
      }
    }
  }

  lemma CacheConserves(s: State)
    requires Conserved(s) && s.loop.Playing?
    ensures Conserved(CacheStep(s))
  {
  }

  lemma FindSrcConserves(s: State, src: Option<Obj>)
    requires Conserved(s) && Enabled(s, FindSrc(src))
    ensures Conserved(Next(s, FindSrc(src)))
  {
  }

  lemma FindPipelineConserves(s: State, p: Obj)
    requires Conserved(s) && Enabled(s, FindPipeline(p))
    ensures Conserved(Next(s, FindPipeline(p)))
  {
  }

  lemma EndPlayConserves(s: State)
    requires Conserved(s) && s.loop.Cached?
    ensures Conserved(Next(s, EndPlay))
  {
    assert s.counts[s.loop.pipeline] == Owners(s, s.loop.pipeline);
  }

  lemma MediaConserves(s: State, a: Action)
    requires Conserved(s) && Enabled(s, a) && (a.MediaRef? || a.MediaUnref?)
    ensures Conserved(Next(s, a))
  {
    if a.MediaUnref? { assert s.counts[a.o] == Owners(s, a.o); }
  }

  lemma DumpSlotConserves(s: State, slot: Option<Obj>)
    requires Conserved(s)
    ensures Conserved(DumpSlot(s, slot))
  {
  }

  lemma DumpEndConserves(s: State, o: Obj)
    requires Conserved(s) && o in s.dumps
    ensures Conserved(Next(s, DumpEnd(o)))
  {
    assert s.counts[o] == Owners(s, o);
  }

  /** A pointer in a slot or in a dump's hands is never dangling. */
  lemma TouchConserves(s: State, o: Option<Obj>)
    requires Conserved(s)
    requires o.Some? ==> o == s.appsrc || o == s.audioAppsrc || o.value in s.dumps
    ensures Touch(s, o) == s
  {
    if o.Some? { assert s.counts[o.value] == Owners(s, o.value); }
  }

  lemma NextConserves(s: State, a: Action)
    requires Conserved(s) && Enabled(s, a)
    ensures Conserved(Next(s, a))
  {
    match a
    case Configure(audio) =>
      InstallSrcConserves(s);
      InstallAudioConserves(InstallSrc(s), audio);
    case Unprepared => ReleaseSlotsConserves(s);
    case DestroyLocked =>
      TouchConserves(s, s.appsrc);
      TouchConserves(s, s.audioAppsrc);
      ReleaseSlotsConserves(s);
    case CachePipeline => CacheConserves(s);
    case FindSrc(src) => FindSrcConserves(s, src);
    case FindPipeline(p) => FindPipelineConserves(s, p);
    case EndPlay => EndPlayConserves(s);
    case Init =>
    case Join =>
    case DumpTouch(o) => TouchConserves(s, Some(o));
    case PushVideo => TouchConserves(s, s.appsrc);
    case PushAudio => TouchConserves(s, s.audioAppsrc);
    case DumpBegin => DumpSlotConserves(s, s.fullPipeline);
    case DumpAppsrcs =>
      DumpSlotConserves(s, s.appsrc);
      DumpSlotConserves(DumpSlot(s, s.appsrc), s.audioAppsrc);
    case DumpEnd(o) => DumpEndConserves(s, o);
    case _ => MediaConserves(s, a);
  }

  /** In every interleaving no object is released twice or used after its last release, and each
      reference is accounted for: by the media, a slot, a local of the loop thread, a dump holder,
      or the record of overwritten pipeline pointers. */
  lemma {:induction false} EveryReferenceOwned(s: State, run: seq<Action>)
    requires Conserved(s) && ValidRun(s, run)
    ensures Conserved(Run(s, run))
    decreases run
  {
    if run != [] {
      NextConserves(s, run[0]);
      EveryReferenceOwned(Next(s, run[0]), run[1..]);
    }
  }

  /** The fault that the results exclude is seen wherever an object is used or released: pushes, the
      end-of-stream of destroy, dumps and releases of an object without references all raise it. */
  lemma FaultsAreSeen(s: State, a: Action, o: Obj)
    requires Enabled(s, a) && s.counts[o] == 0
    requires || (a.PushVideo? && s.appsrc == Some(o)) || (a.PushAudio? && s.audioAppsrc == Some(o))
             || (a.DestroyLocked? && o in {s.appsrc.GetOr(o + 1), s.audioAppsrc.GetOr(o + 1)})
             || a == DumpTouch(o) || a == DumpEnd(o) || a == MediaUnref(o)
             || (a.Unprepared? && s.appsrc == Some(o))
    ensures Next(s, a).fault
  {
    if a.DestroyLocked? {
      var t := Touch(Touch(s, s.appsrc), s.audioAppsrc);
      assert t.fault;
      FaultStays(t);
    } else if a.Unprepared? {
      assert DropAppsrc(s).fault;
      assert DropAudio(DropAppsrc(s)).fault;
    }
  }

  lemma FaultStays(s: State)
    requires s.fault
    ensures ReleaseSlots(s).fault
  {
    assert DropAppsrc(s).fault && DropAudio(DropAppsrc(s)).fault;
  }

  // ---------------------------------------------------------------------------
  // The cached pipeline
  // ---------------------------------------------------------------------------

  /** Whenever a play request reaches its locked section, the slot is empty or already its own. */
  predicate CacheGuarded(s: State, run: seq<Action>)
    requires ValidRun(s, run)
    decreases run
  {
    run == [] ||
    (&& (run[0].CachePipeline? ==> s.fullPipeline.None? || s.fullPipeline == Some(s.loop.pipeline))
     && CacheGuarded(Next(s, run[0]), run[1..]))
  }

  lemma LostOnlyByCaching(s: State, a: Action)
    requires Enabled(s, a) && !a.CachePipeline?
    ensures Next(s, a).lost == s.lost
  {
  }

  lemma LostGrows(s: State, a: Action)
    requires Enabled(s, a)
    ensures s.lost <= Next(s, a).lost
    ensures Next(s, a).lost == s.lost <==>
              (a.CachePipeline? ==> s.fullPipeline.None? || s.fullPipeline == Some(s.loop.pipeline))
  {
    if !a.CachePipeline? {
      LostOnlyByCaching(s, a);
    } else if s.fullPipeline.Some? {
      assert (s.lost + One(s.fullPipeline))[s.fullPipeline.value] == s.lost[s.fullPipeline.value] + 1;
    }
  }

  lemma {:induction false} LostGrowsInRun(s: State, run: seq<Action>)
    requires ValidRun(s, run)
    ensures s.lost <= Run(s, run).lost
    decreases run
  {
    if run != [] {
      LostGrows(s, run[0]);
      LostGrowsInRun(Next(s, run[0]), run[1..]);
    }
  }

  /** A run leaks no pipeline reference exactly if no play request finds another pipeline cached. */
  lemma {:induction false} NothingLostIff(s: State, run: seq<Action>)
    requires ValidRun(s, run)
    ensures Run(s, run).lost == s.lost <==> CacheGuarded(s, run)
    decreases run
  {
    if run != [] {
      var t := Next(s, run[0]);
      LostGrows(s, run[0]);
      LostGrowsInRun(t, run[1..]);
      NothingLostIff(t, run[1..]);
    }
  }

  /** The last pipeline played that may still be cached, and whether its play request is between
      finding the pipeline and caching it. */
  datatype Played = Played(last: Option<Obj>, open: bool)

  function Track(h: Played, a: Action): Played {
    match a
    case Unprepared => Played(None, false)
    case DestroyLocked => if h.open then h else Played(None, false)
    case FindPipeline(p) => Played(Some(p), true)
    case CachePipeline => h.(open := false)
    case _ => h
  }

  /** The order the code relies on: a play request for a pipeline other than the last one comes
      only after the old media was unprepared, or after a destroy that no play request straddles. */
  predicate UnpreparedBeforePlay(run: seq<Action>, h: Played)
    decreases run
  {
    run == [] ||
    (&& (run[0].FindPipeline? ==> h.last.None? || h.last == Some(run[0].pipeline))
     && UnpreparedBeforePlay(run[1..], Track(h, run[0])))
  }

  predicate OnlyLastPlayed(s: State, h: Played) {
    && (s.fullPipeline.Some? ==> s.fullPipeline == h.last)
    && (s.loop.Playing? <==> h.open)
    && (s.loop.Playing? ==> h.last == Some(s.loop.pipeline))
  }

  lemma OnlyLastPlayedKept(s: State, a: Action, h: Played)
    requires Enabled(s, a) && OnlyLastPlayed(s, h)
    requires a.FindPipeline? ==> h.last.None? || h.last == Some(a.pipeline)
    ensures OnlyLastPlayed(Next(s, a), Track(h, a))
  {
    match a
    case Unprepared => assert Next(s, a).fullPipeline.None? && Next(s, a).loop.LoopIdle?;
    case DestroyLocked => assert Next(s, a).fullPipeline.None? && Next(s, a).loop == s.loop;
    case Configure(_) => assert Next(s, a).fullPipeline == s.fullPipeline && Next(s, a).loop.LoopIdle?;
    case CachePipeline =>
    case FindPipeline(_) =>
    case _ => assert Next(s, a).fullPipeline == s.fullPipeline;
  }

  lemma {:induction false} OrderGuards(s: State, run: seq<Action>, h: Played)
    requires ValidRun(s, run) && UnpreparedBeforePlay(run, h) && OnlyLastPlayed(s, h)
    ensures CacheGuarded(s, run)
    decreases run
  {
    if run != [] {
      OnlyLastPlayedKept(s, run[0], h);
      OrderGuards(Next(s, run[0]), run[1..], Track(h, run[0]));
    }
  }

  /** Under that order the whole ledger closes: between two steps the module's references are the
      three slots, the loop thread's locals and the dump holders, and none is lost. */
  lemma ReferencesConserved(run: seq<Action>)
    requires ValidRun(START, run) && UnpreparedBeforePlay(run, Played(None, false))
    ensures var s := Run(START, run);
            && !s.fault
            && forall o: Obj :: s.counts[o] == s.media[o] + Slots(s, o) + Locals(s.loop, o) + s.dumps[o]
  {
    EveryReferenceOwned(START, run);
    OrderGuards(START, run, Played(None, false));
    NothingLostIff(START, run);
  }

  /** A dump that took its snapshot keeps the pipeline alive until it lets go, although unprepared
      and destroy may clear the slot in between. */
  lemma DumpHoldsPipeline(run: seq<Action>, o: Obj)
    requires ValidRun(START, run) && o in Run(START, run).dumps
    ensures Run(START, run).counts[o] >= Run(START, run).dumps[o] > 0
  {
    EveryReferenceOwned(START, run);
    assert Run(START, run).counts[o] == Owners(Run(START, run), o);
  }

  // ---------------------------------------------------------------------------
  // What the slots point to
  // ---------------------------------------------------------------------------

  /** The slot of on_media_configure: the new object if the media brought one, else what was there. */
  function Replaced(brought: Option<Obj>, slot: Option<Obj>): Option<Obj> {
    if brought.Some? then brought else slot
  }

  /** No configure that brings video, no unprepared and no destroy. */
  predicate VideoUntouched(s: State, run: seq<Action>)
    requires ValidRun(s, run)
    decreases run
  {
    run == [] ||
    (&& !run[0].Unprepared? && !run[0].DestroyLocked?
     && (run[0].Configure? ==> s.loop.src.None?)
     && VideoUntouched(Next(s, run[0]), run[1..]))
  }

  /** No configure that brings audio, no unprepared and no destroy. */
  predicate AudioUntouched(run: seq<Action>) {
    forall i :: 0 <= i < |run| ==>
      !run[i].Unprepared? && !run[i].DestroyLocked? && (run[i].Configure? ==> run[i].audio.None?)
  }

  /** Nothing plays another pipeline, no unprepared and no destroy. */
  predicate PipelineUntouched(s: State, p: Obj, run: seq<Action>)
    requires ValidRun(s, run)
    decreases run
  {
    run == [] ||
    (&& !run[0].Unprepared? && !run[0].DestroyLocked?
     && (run[0].CachePipeline? ==> s.loop.pipeline == p)
     && PipelineUntouched(Next(s, run[0]), p, run[1..]))
  }

  lemma OthersKeepSlots(s: State, a: Action)
    requires Enabled(s, a) && !a.Unprepared? && !a.DestroyLocked? && !a.Configure? && !a.CachePipeline?
    ensures var t := Next(s, a);
      t.appsrc == s.appsrc && t.audioAppsrc == s.audioAppsrc && t.fullPipeline == s.fullPipeline
  {
  }

  lemma ConfigureSets(s: State, audio: Option<Obj>)
    requires s.loop.Configuring?
    ensures var t := ConfigureStep(s, audio);
      && t.appsrc == Replaced(s.loop.src, s.appsrc)
      && t.audioAppsrc == Replaced(audio, s.audioAppsrc)
      && t.fullPipeline == s.fullPipeline && t.loop.LoopIdle?
  {
  }

  lemma {:induction false} VideoStays(s: State, run: seq<Action>)
    requires ValidRun(s, run) && VideoUntouched(s, run)
    ensures Run(s, run).appsrc == s.appsrc
    decreases run
  {
    if run != [] {
      var a := run[0];
      if a.Configure? {
        ConfigureSets(s, a.audio);
      } else if !a.CachePipeline? {
        OthersKeepSlots(s, a);
      }
      VideoStays(Next(s, a), run[1..]);
    }
  }

  lemma {:induction false} AudioStays(s: State, run: seq<Action>)
    requires ValidRun(s, run) && AudioUntouched(run)
    ensures Run(s, run).audioAppsrc == s.audioAppsrc
    decreases run
  {
    if run != [] {
      var a := run[0];
      assert !a.Unprepared? && !a.DestroyLocked? && (a.Configure? ==> a.audio.None?);
      if a.Configure? {
        ConfigureSets(s, a.audio);
      } else if !a.CachePipeline? {
        OthersKeepSlots(s, a);
      }
      AudioStays(Next(s, a), run[1..]);
    }
  }

  lemma {:induction false} PipelineStays(s: State, p: Obj, run: seq<Action>)
    requires ValidRun(s, run) && PipelineUntouched(s, p, run) && s.fullPipeline == Some(p)
    ensures Run(s, run).fullPipeline == Some(p)
    decreases run
  {
    if run != [] {
      var a := run[0];
      if a.Configure? {
        ConfigureSets(s, a.audio);
      } else if !a.CachePipeline? {
        OthersKeepSlots(s, a);
      }
      PipelineStays(Next(s, a), p, run[1..]);
    }
  }

  /** From the lookup of the video source on: after the configure, and until the next one that brings
      video, unprepared or destroy, s_appsrc is the source that was found, or the old one if the media
      has no video; whatever falls between lookup and configure. */
  lemma VideoSourceInstalled(s: State, found: Option<Obj>, audio: Option<Obj>, run: seq<Action>)
    requires s.loop == Configuring(found) && Enabled(s, Configure(audio))
    requires ValidRun(Next(s, Configure(audio)), run) && VideoUntouched(Next(s, Configure(audio)), run)
    ensures Run(Next(s, Configure(audio)), run).appsrc == if found.Some? then found else s.appsrc
  {
    ConfigureSets(s, audio);
    VideoStays(Next(s, Configure(audio)), run);
  }

  /** The same for audio. */
  lemma AudioSourceInstalled(s: State, audio: Option<Obj>, run: seq<Action>)
    requires Enabled(s, Configure(audio))
    requires ValidRun(Next(s, Configure(audio)), run) && AudioUntouched(run)
    ensures Run(Next(s, Configure(audio)), run).audioAppsrc == if audio.Some? then audio else s.audioAppsrc
  {
    ConfigureSets(s, audio);
    AudioStays(Next(s, Configure(audio)), run);
  }

  /** A played pipeline is what dumps get, until another one is played, unprepared or destroy. */
  lemma PlayedPipelineCached(s: State, run: seq<Action>)
    requires s.loop.Playing?
    requires ValidRun(Next(s, CachePipeline), run)
    requires PipelineUntouched(Next(s, CachePipeline), s.loop.pipeline, run)
    ensures Run(Next(s, CachePipeline), run).fullPipeline == Some(s.loop.pipeline)
  {
    PipelineStays(Next(s, CachePipeline), s.loop.pipeline, run);
  }

  // ---------------------------------------------------------------------------
  // The window of destroy between the slot release and the join
  // ---------------------------------------------------------------------------

  predicate SlotsEmpty(s: State) {
    s.appsrc.None? && s.audioAppsrc.None? && s.fullPipeline.None?
  }

  predicate Installs(s: State, a: Action)
    requires Enabled(s, a)
  {
    (a.Configure? && (s.loop.src.Some? || a.audio.Some?)) || a.CachePipeline?
  }

  predicate Clears(a: Action) {
    a.Unprepared? || a.DestroyLocked?
  }

  predicate AnyClears(run: seq<Action>) {
    exists i :: 0 <= i < |run| && Clears(run[i])
  }

  /** Some step of the run installs an object, and no later step clears the slots. */
  predicate LeavesObject(s: State, run: seq<Action>)
    requires ValidRun(s, run)
    decreases run
  {
    run != [] &&
    (LeavesObject(Next(s, run[0]), run[1..]) || (Installs(s, run[0]) && !AnyClears(run[1..])))
  }

  lemma ClearsOrInstalls(s: State, a: Action)
    requires Enabled(s, a)
    ensures SlotsEmpty(Next(s, a)) <==> Clears(a) || (SlotsEmpty(s) && !Installs(s, a))
  {
    match a
    case Configure(audio) =>
      assert InstallSrc(s).appsrc == if s.loop.src.Some? then s.loop.src else s.appsrc;
      assert Next(s, a).appsrc == InstallSrc(s).appsrc && Next(s, a).fullPipeline == s.fullPipeline;
    case CachePipeline => assert Next(s, a).fullPipeline == Some(s.loop.pipeline);
    case Unprepared =>
    case DestroyLocked =>
    case _ => assert Next(s, a).appsrc == s.appsrc && Next(s, a).audioAppsrc == s.audioAppsrc
                  && Next(s, a).fullPipeline == s.fullPipeline;
  }

  lemma {:induction false} SlotsEmptyIff(s: State, run: seq<Action>)
    requires ValidRun(s, run)
    ensures SlotsEmpty(Run(s, run)) <==> (SlotsEmpty(s) || AnyClears(run)) && !LeavesObject(s, run)
    decreases run
  {
    if run != [] {
      ClearsOrInstalls(s, run[0]);
      SlotsEmptyIff(Next(s, run[0]), run[1..]);
      assert AnyClears(run) <==> Clears(run[0]) || AnyClears(run[1..]) by {
        assert forall i :: 0 < i < |run| ==> run[i] == run[1..][i - 1];
        assert forall i :: 0 <= i < |run| - 1 ==> run[1..][i] == run[i + 1];
      }
    }
  }

  /** Whatever other threads do between the slot release of destroy and the join: the slots are
      empty when destroy returns exactly if each object installed in between was cleared again. */
  lemma DestroyEmptiesIff(s: State, window: seq<Action>)
    requires ValidRun(Next(s, DestroyLocked), window)
    requires Enabled(Run(Next(s, DestroyLocked), window), Join)
    ensures SlotsEmpty(Next(Run(Next(s, DestroyLocked), window), Join))
        <==> !LeavesObject(Next(s, DestroyLocked), window)
  {
    ClearsOrInstalls(s, DestroyLocked);
    SlotsEmptyIff(Next(s, DestroyLocked), window);
    ClearsOrInstalls(Run(Next(s, DestroyLocked), window), Join);
  }

  /** The lock is not held between the slot release of destroy and the join, so a media configured
      in that window is left in the slot when destroy returns; the ledger still balances. */
  lemma DestroyWindowKeepsReference(s: State, src: Obj)
    requires Conserved(s) && s.loop.LoopIdle? && s.loopRuns && src in s.media
    ensures var s1 := Next(s, DestroyLocked);
            && Enabled(s1, FindSrc(Some(src)))
            && var s2 := Next(s1, FindSrc(Some(src)));
            && Enabled(s2, Configure(None))
            && var s3 := Next(s2, Configure(None));
            && Enabled(s3, Join)
            && var s4 := Next(s3, Join);
            && Conserved(s4) && s4.appsrc == Some(src) && !s4.loopRuns
            && s4.counts[src] == s4.media[src] + 1 + s4.dumps[src] + s4.lost[src]
  {
    TouchConserves(s, s.appsrc);
    TouchConserves(s, s.audioAppsrc);
    NextConserves(s, DestroyLocked);
    var s1 := Next(s, DestroyLocked);
    assert s1.media == s.media && s1.loop.LoopIdle? && s1.loopRuns;
    assert s1.appsrc.None? && s1.audioAppsrc.None? && s1.fullPipeline.None?;
    NextConserves(s1, FindSrc(Some(src)));
    var s2 := Next(s1, FindSrc(Some(src)));
    NextConserves(s2, Configure(None));
    var s3 := Next(s2, Configure(None));
    NextConserves(s3, Join);
    assert Next(s3, Join).counts[src] == Owners(Next(s3, Join), src);
  }

  // ---------------------------------------------------------------------------
  // The code itself
  // ---------------------------------------------------------------------------

  /** The three statics, with the reference counts of the objects they point to. */
  class NativeModule {
    var appsrc: Option<Obj>
    var audioAppsrc: Option<Obj>
    var fullPipeline: Option<Obj>
    ghost var counts: multiset<Obj>
    ghost var fault: bool
    ghost var media: multiset<Obj>
    ghost var loop: Loop
    ghost var loopRuns: bool
    ghost var dumps: multiset<Obj>
    ghost var lost: multiset<Obj>

    ghost function Snapshot(): State
      reads this
    {
      State(counts, fault, appsrc, audioAppsrc, fullPipeline, media, loop, loopRuns, dumps, lost)
    }

    constructor ()
      ensures Snapshot() == START
    {
      appsrc, audioAppsrc, fullPipeline := None, None, None;
      counts, fault, media := multiset{}, false, multiset{};
      loop, loopRuns, dumps, lost := LoopIdle, false, multiset{}, multiset{};
    }

    method ObjectRef(o: Obj)
      modifies this`counts
      ensures Snapshot() == Ref(old(Snapshot()), o)
    {
      counts := counts + multiset{o};
    }

    method ObjectUnref(o: Obj)
      modifies this`counts, this`fault
      ensures Snapshot() == Unref(old(Snapshot()), o)
    {
      if counts[o] == 0 { fault := true; } else { counts := counts - multiset{o}; }
    }

    method ReleaseAppsrc()
      modifies this
      ensures Snapshot() == DropAppsrc(old(Snapshot()))
    {
      if appsrc.Some? {
        ObjectUnref(appsrc.value);
        appsrc := None;
      }
    }

    method ReleaseAudio()
      modifies this
      ensures Snapshot() == DropAudio(old(Snapshot()))
    {
      if audioAppsrc.Some? {
        ObjectUnref(audioAppsrc.value);
        audioAppsrc := None;
      }
    }

    method ReleasePipeline()
      modifies this
      ensures Snapshot() == DropPipeline(old(Snapshot()))
    {
      if fullPipeline.Some? {
        ObjectUnref(fullPipeline.value);
        fullPipeline := None;
      }
    }

    /** on_media_unprepared */
    method OnMediaUnprepared()
      requires Conserved(Snapshot()) && loop.LoopIdle?
      modifies this
      ensures Snapshot() == Next(old(Snapshot()), Unprepared) && Conserved(Snapshot())
      ensures appsrc.None? && audioAppsrc.None? && fullPipeline.None?
    {
      NextConserves(Snapshot(), Unprepared);
      ReleaseAppsrc();
      ReleaseAudio();
      ReleasePipeline();
    }

    method InstallVideoSrc(src: Option<Obj>)
      requires loop == Configuring(src)
      modifies this
      ensures Snapshot() == InstallSrc(old(Snapshot()))
    {
      if src.Some? {
        if appsrc.Some? { ObjectUnref(appsrc.value); }
        appsrc := src;
      }
      loop := LoopIdle;
    }

    method InstallAudioSrc(audio: Option<Obj>)
      modifies this
      ensures Snapshot() == InstallAudio(old(Snapshot()), audio)
    {
      if audio.Some? {
        ObjectRef(audio.value);
        if audioAppsrc.Some? { ObjectUnref(audioAppsrc.value); }
        audioAppsrc := audio;
      }
    }

    /** The locked section of on_media_configure; src is the reference the caller brought along. */
    method OnMediaConfigure(src: Option<Obj>, audio: Option<Obj>)
      requires Conserved(Snapshot()) && loop == Configuring(src) && (audio.Some? ==> audio.value in media)
      modifies this
      ensures Snapshot() == Next(old(Snapshot()), Configure(audio)) && Conserved(Snapshot())
      ensures appsrc == if src.Some? then src else old(appsrc)
      ensures audioAppsrc == if audio.Some? then audio else old(audioAppsrc)
      ensures fullPipeline == old(fullPipeline)
    {
      NextConserves(Snapshot(), Configure(audio));
      ConfigureSets(Snapshot(), audio);
      InstallVideoSrc(src);
      InstallAudioSrc(audio);
    }

    method AssignPipeline(pipeline: Obj)
      modifies this`fullPipeline, this`lost
      ensures Snapshot() == Overwrite(old(Snapshot()), pipeline)
    {
      lost := lost + One(fullPipeline);
      fullPipeline := Some(pipeline);
    }

    method Cache(pipeline: Obj)
      requires loop == Playing(pipeline)
      modifies this
      ensures Snapshot() == CacheStep(old(Snapshot()))
    {
      if fullPipeline != Some(pipeline) {
        ObjectRef(pipeline);
        AssignPipeline(pipeline);
      }
      loop := Cached(pipeline);
    }

    /** The locked section of on_client_play_request. */
    method CachePlayingPipeline(pipeline: Obj)
      requires Conserved(Snapshot()) && loop == Playing(pipeline)
      modifies this
      ensures Snapshot() == Next(old(Snapshot()), CachePipeline) && Conserved(Snapshot())
      ensures lost == old(lost) <==> old(fullPipeline).None? || old(fullPipeline) == Some(pipeline)
      ensures fullPipeline == Some(pipeline) && appsrc == old(appsrc) && audioAppsrc == old(audioAppsrc)
    {
      NextConserves(Snapshot(), CachePipeline);
      LostGrows(Snapshot(), CachePipeline);
      Cache(pipeline);
    }

    /** The locked section of nativeGstPipelineDestroy. */
    method DestroyLockedSection()
      requires Conserved(Snapshot())
      modifies this
      ensures Snapshot() == Next(old(Snapshot()), DestroyLocked) && Conserved(Snapshot())
      ensures appsrc.None? && audioAppsrc.None? && fullPipeline.None?
    {
      TouchConserves(Snapshot(), appsrc);
      TouchConserves(Snapshot(), audioAppsrc);
      NextConserves(Snapshot(), DestroyLocked);
      ReleaseAppsrc();
      ReleaseAudio();
      ReleasePipeline();
    }

    /** A reference for a dump holder. */
    method Hold(slot: Option<Obj>)
      modifies this`counts, this`dumps
      ensures Snapshot() == DumpSlot(old(Snapshot()), slot)
    {
      if slot.Some? {
        ObjectRef(slot.value);
        dumps := dumps + One(slot);
      }
    }

    /** Cam2Streamer_RefFullPipeline and the start of a dump. */
    method RefFullPipeline() returns (pipeline: Option<Obj>)
      requires Conserved(Snapshot())
      modifies this
      ensures Snapshot() == Next(old(Snapshot()), DumpBegin) && Conserved(Snapshot())
      ensures pipeline == fullPipeline && (pipeline.Some? ==> dumps[pipeline.value] > 0)
    {
      NextConserves(Snapshot(), DumpBegin);
      Hold(fullPipeline);
      pipeline := fullPipeline;
    }

    /** The second locked section of dump_audio_video_pipeline. */
    method RefAppsrcs() returns (video: Option<Obj>, audio: Option<Obj>)
      requires Conserved(Snapshot())
      modifies this
      ensures Snapshot() == Next(old(Snapshot()), DumpAppsrcs) && Conserved(Snapshot())
      ensures video == appsrc && (video.Some? ==> dumps[video.value] > 0)
      ensures audio == audioAppsrc && (audio.Some? ==> dumps[audio.value] > 0)
    {
      NextConserves(Snapshot(), DumpAppsrcs);
      Hold(appsrc);
      Hold(audioAppsrc);
      video, audio := appsrc, audioAppsrc;
    }
  }
}
