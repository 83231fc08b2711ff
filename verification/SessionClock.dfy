/**
 The session clock of camera2_gst_streamer.cpp: video timestamps are made relative to the first
 stamped frame of a session, and audio timestamps are shifted back by a smoothed estimate of the
 audio-ahead-of-video offset.  Times are nanoseconds; None is GST_CLOCK_TIME_NONE.
 */
module SessionClock {
  import opened Arithmetic
  import opened Options

  const MAX_OFFSET: nat := 500_000_000

  datatype Clock = Clock(base: Option<nat>, lastVideo: Option<nat>, ema: Option<nat>)

  const UNSET := Clock(None, None, None)

  /** Reset stands for pipeline init, on_media_unprepared and pipeline destroy. */
  datatype Event = Video(isCsd: bool, ptsUs: int) | Audio(ptsUs: int) | Reset {
    predicate IsTimedVideo() { Video? && !isCsd && ptsUs > 0 }
    predicate IsTimedAudio() { Audio? && ptsUs > 0 }
    function Ns(): nat
      requires !Reset? && ptsUs > 0
    {
      ptsUs * 1000
    }
  }

  /** A timestamp relative to the base, clamped at 0. */
  function Normalise(ns: nat, base: nat): nat {
    if ns >= base then ns - base else 0
  }

  function ClampOffset(offset: int): (x: nat)
    ensures x <= MAX_OFFSET
  {
    if offset < 0 then 0 else if offset > MAX_OFFSET then MAX_OFFSET else offset
  }

  /** One EMA update with alpha = 3/20, truncated to whole nanoseconds. */
  function EmaStep(ema: nat, x: nat): nat {
    (3 * x + 17 * ema) / 20
  }

  function RawAudio(c: Clock, e: Event): nat
    requires e.IsTimedAudio() && c.base.Some?
  {
    Normalise(e.Ns(), c.base.value)
  }

  /** The clamped audio-minus-video offset that one audio buffer contributes. */
  function Offset(c: Clock, e: Event): nat
    requires e.IsTimedAudio() && c.base.Some? && c.lastVideo.Some?
  {
    ClampOffset(RawAudio(c, e) - c.lastVideo.value)
  }

  function Step(c: Clock, e: Event): Clock {
    match e
    case Reset => UNSET
    case Video(_, _) =>
      if !e.IsTimedVideo() then c
      else
        var base := c.base.GetOr(e.Ns());
        c.(base := Some(base), lastVideo := Some(Normalise(e.Ns(), base)))
    case Audio(_) =>
      if !e.IsTimedAudio() || c.base.None? || c.lastVideo.None? then c
      else c.(ema := Some(if c.ema.None? then Offset(c, e) else EmaStep(c.ema.value, Offset(c, e))))
  }

  /** The timestamp written into the buffer of event e, if any. */
  function Stamp(c: Clock, e: Event): Option<nat> {
    if e.IsTimedVideo() then Step(c, e).lastVideo
    else if e.IsTimedAudio() && c.base.Some? then
      var raw, ema := RawAudio(c, e), Step(c, e).ema;
      Some(if ema.Some? && raw > ema.value then raw - ema.value else 0)
    else None
  }

  /** The clock after a run of events from the unset clock. */
  function After(ev: seq<Event>): Clock {
    if ev == [] then UNSET else Step(After(ev[..|ev| - 1]), ev[|ev| - 1])
  }

  /** The clock just before event i. */
  function At(ev: seq<Event>, i: nat): Clock
    requires i <= |ev|
  {
    After(ev[..i])
  }

  function StampAt(ev: seq<Event>, i: nat): Option<nat>
    requires i < |ev|
  {
    Stamp(At(ev, i), ev[i])
  }

  lemma AtNext(ev: seq<Event>, i: nat)
    requires i < |ev|
    ensures At(ev, i + 1) == Step(At(ev, i), ev[i])
  {
    assert ev[..i + 1][..i] == ev[..i];
  }

  // ---------------------------------------------------------------------------
  // The clock's invariant
  // ---------------------------------------------------------------------------

  predicate ClockInv(c: Clock) {
    && (c.base.Some? <==> c.lastVideo.Some?)
    && (c.ema.Some? ==> c.base.Some?)
    && (c.ema.Some? ==> c.ema.value <= MAX_OFFSET)
  }

  lemma {:induction false} ClockInvAlways(ev: seq<Event>, i: nat)
    requires i <= |ev|
    ensures ClockInv(At(ev, i))
  {
    if i > 0 {
      ClockInvAlways(ev, i - 1);
      AtNext(ev, i - 1);
    }
  }

  /** Base and last video timestamp are set and cleared together, an EMA exists only with a base,
      and an audio buffer is stamped exactly when it is timed and a base exists, in which case
      the correction that is applied is always set and never exceeds half a second. */
  lemma SessionInvariant(ev: seq<Event>, i: nat)
    requires i < |ev|
    ensures ClockInv(At(ev, i))
    ensures ev[i].Audio? ==>
              (StampAt(ev, i).Some? <==> ev[i].ptsUs > 0 && At(ev, i).base.Some?)
    ensures ev[i].Audio? && StampAt(ev, i).Some? ==>
              At(ev, i + 1).ema.Some? && At(ev, i + 1).ema.value <= MAX_OFFSET
  {
    ClockInvAlways(ev, i);
    ClockInvAlways(ev, i + 1);
    AtNext(ev, i);
  }

  /** A CSD buffer, or any buffer without a positive timestamp, leaves the clock alone and gets no
      timestamp; the first frame of a session is thus never its CSD. */
  lemma UntimedIgnored(ev: seq<Event>, i: nat)
    requires i < |ev|
    requires (ev[i].Video? && (ev[i].isCsd || ev[i].ptsUs <= 0)) || (ev[i].Audio? && ev[i].ptsUs <= 0)
    ensures At(ev, i + 1) == At(ev, i) && StampAt(ev, i).None?
  {
    AtNext(ev, i);
  }

  // ---------------------------------------------------------------------------
  // Video timestamps
  // ---------------------------------------------------------------------------

  predicate NoReset(ev: seq<Event>, from: nat, to: nat)
    requires to <= |ev|
  {
    forall k :: from <= k < to ==> !ev[k].Reset?
  }

  /** Event f is the first timed video frame of its session. */
  predicate FirstOfSession(ev: seq<Event>, f: nat) {
    && f < |ev| && ev[f].IsTimedVideo()
    && forall k :: 0 <= k < f && ev[k].IsTimedVideo() ==> exists r :: k < r < f && ev[r].Reset?
  }

  lemma {:induction false} NoBaseYet(ev: seq<Event>, n: nat)
    requires n <= |ev|
    requires forall k :: 0 <= k < n && ev[k].IsTimedVideo() ==> exists r :: k < r < n && ev[r].Reset?
    ensures At(ev, n).base.None?
  {
    if n > 0 {
      AtNext(ev, n - 1);
      if !ev[n - 1].Reset? {
        NoBaseYet(ev, n - 1);
      }
    }
  }

  lemma {:induction false} BaseIsFirst(ev: seq<Event>, f: nat, n: nat)
    requires FirstOfSession(ev, f) && f < n <= |ev| && NoReset(ev, f, n)
    ensures At(ev, n).base == Some(ev[f].Ns())
  {
    AtNext(ev, n - 1);
    if n - 1 == f {
      NoBaseYet(ev, f);
    } else {
      BaseIsFirst(ev, f, n - 1);
    }
  }

  /** Whatever came before, and also after a reconnect: the first timed frame of a session is
      stamped 0, and every later one by its distance from that frame (0 if it lies before it). */
  lemma VideoStamps(ev: seq<Event>, f: nat, i: nat)
    requires FirstOfSession(ev, f) && f <= i < |ev| && NoReset(ev, f, i) && ev[i].IsTimedVideo()
    ensures StampAt(ev, f) == Some(0)
    ensures StampAt(ev, i) == Some(Normalise(ev[i].Ns(), ev[f].Ns()))
  {
    NoBaseYet(ev, f);
    if i > f { BaseIsFirst(ev, f, i); }
  }

  /** The gap between two camera timestamps of one session is preserved exactly. */
  lemma VideoGaps(ev: seq<Event>, f: nat, i: nat, j: nat)
    requires FirstOfSession(ev, f) && f <= i < j < |ev| && NoReset(ev, f, j)
    requires ev[i].IsTimedVideo() && ev[j].IsTimedVideo()
    requires ev[f].Ns() <= ev[i].Ns() && ev[f].Ns() <= ev[j].Ns()
    ensures StampAt(ev, i).Some? && StampAt(ev, j).Some?
    ensures StampAt(ev, j).value - StampAt(ev, i).value == ev[j].Ns() - ev[i].Ns()
  {
    VideoStamps(ev, f, i);
    VideoStamps(ev, f, j);
  }

  // ---------------------------------------------------------------------------
  // The EMA
  // ---------------------------------------------------------------------------

  /** Event i feeds one sample into the EMA. */
  predicate Sampled(ev: seq<Event>, i: nat) {
    i < |ev| && ev[i].IsTimedAudio() && At(ev, i).base.Some? && At(ev, i).lastVideo.Some?
  }

  function Sample(ev: seq<Event>, i: nat): nat
    requires Sampled(ev, i)
  {
    Offset(At(ev, i), ev[i])
  }

  /** A session starts at s: at the beginning, or right after a reset. */
  predicate SessionStart(ev: seq<Event>, s: nat) {
    s <= |ev| && (s == 0 || ev[s - 1].Reset?)
  }

  ghost predicate SamplesWithin(ev: seq<Event>, from: nat, to: nat, lo: nat, hi: nat) {
    forall i :: from <= i < to && Sampled(ev, i) ==> lo <= Sample(ev, i) <= hi
  }

  /** The EMA of a session stays between the smallest and the largest sample of that session. */
  lemma {:induction false} EmaWithinSamples(ev: seq<Event>, s: nat, n: nat, lo: nat, hi: nat)
    requires SessionStart(ev, s) && s <= n <= |ev|
    requires SamplesWithin(ev, s, n, lo, hi)
    ensures At(ev, n).ema.Some? ==> lo <= At(ev, n).ema.value <= hi
  {
    if n == s {
      if s > 0 { AtNext(ev, s - 1); }
    } else {
      AtNext(ev, n - 1);
      EmaWithinSamples(ev, s, n - 1, lo, hi);
      if Sampled(ev, n - 1) { assert lo <= Sample(ev, n - 1) <= hi; }
    }
  }

  function Pow(b: nat, n: nat): nat {
    if n == 0 then 1 else b * Pow(b, n - 1)
  }

  /** n updates with the same sample x. */
  function EmaN(ema: nat, x: nat, n: nat): nat {
    if n == 0 then ema else EmaStep(EmaN(ema, x, n - 1), x)
  }

  function Dist(a: int, b: int): nat {
    if a >= b then a - b else b - a
  }

  lemma EmaStepError(e: nat, x: nat)
    ensures 20 * Dist(EmaStep(e, x), x) <= 17 * Dist(e, x) + 19
  {
  }

  /** The algebra of one induction step of EmaError. */
  lemma ErrorAlgebra(p: nat, q: nat, d: nat, d': nat, d0: nat)
    requires 3 * (p * d) <= 3 * (q * d0) + 19 * (p - q)
    requires 20 * d' <= 17 * d + 19
    ensures 3 * ((20 * p) * d') <= 3 * ((17 * q) * d0) + 19 * (20 * p - 17 * q)
  {
    MulMono(p, 20 * d', 17 * d + 19);
    assert p * (20 * d') == 20 * (p * d') == (20 * p) * d';
    assert p * (17 * d + 19) == 17 * (p * d) + 19 * p;
    assert (17 * q) * d0 == 17 * (q * d0);
  }

  /** Convergence with truncation, multiplied out: the initial error shrinks by 17/20 per update
      and truncation adds at most 19/3 ns in all. */
  lemma {:induction false} EmaError(e: nat, x: nat, n: nat)
    ensures 3 * (Pow(20, n) * Dist(EmaN(e, x, n), x))
            <= 3 * (Pow(17, n) * Dist(e, x)) + 19 * (Pow(20, n) - Pow(17, n))
  {
    if n > 0 {
      EmaError(e, x, n - 1);
      EmaStepError(EmaN(e, x, n - 1), x);
      ErrorAlgebra(Pow(20, n - 1), Pow(17, n - 1),
                   Dist(EmaN(e, x, n - 1), x), Dist(EmaN(e, x, n), x), Dist(e, x));
    }
  }

  lemma PowPos(b: nat, n: nat)
    requires b > 0
    ensures Pow(b, n) > 0
  {
  }

  lemma Pow29()
    ensures 100 * Pow(17, 29) <= Pow(20, 29)
  {
    assert Pow(17, 10) == 2015993900449 && Pow(20, 10) == 10240000000000;
    assert Pow(17, 20) == 4064231406647572522401601 && Pow(20, 20) == 104857600000000000000000000;
  }

  /** The algebra of the one-percent bound. */
  lemma OnePercent(p: nat, q: nat, d: nat, d0: nat)
    requires p > 0 && 100 * q <= p
    requires 3 * (p * d) <= 3 * (q * d0) + 19 * (p - q)
    ensures 100 * d <= d0 + 700
  {
    MulMono(d0, 100 * q, p);
    assert d0 * (100 * q) == 100 * (q * d0) && d0 * p == p * d0;
    assert p * (d0 + 701) == p * d0 + 701 * p && p * (100 * d) == 100 * (p * d);
    if 100 * d > d0 + 700 {
      MulMono(p, d0 + 701, 100 * d);
    }
  }

  /** After n updates with one clamped offset x the error is at most (17/20)^n of the initial one
      plus 7 ns; 29 updates leave at most 1% of it plus 7 ns. */
  lemma EmaConverges(e: nat, x: nat, n: nat)
    ensures Pow(20, n) * Dist(EmaN(e, x, n), x) <= Pow(17, n) * Dist(e, x) + 7 * Pow(20, n)
    ensures 100 * Dist(EmaN(e, x, 29), x) <= Dist(e, x) + 700
  {
    EmaError(e, x, n);
    PowPos(17, n);
    EmaError(e, x, 29);
    Pow29();
    PowPos(20, 29);
    OnePercent(Pow(20, 29), Pow(17, 29), Dist(EmaN(e, x, 29), x), Dist(e, x));
  }

  /** Truncation leaves the EMA at rest exactly from 6 ns below the offset up to the offset. */
  lemma EmaAtRest(e: nat, x: nat)
    ensures EmaStep(e, x) == e <==> e <= x <= e + 6
  {
  }

  function SampleCount(ev: seq<Event>, m: nat, n: nat): nat
    requires m <= n <= |ev|
  {
    if m == n then 0 else SampleCount(ev, m, n - 1) + if Sampled(ev, n - 1) then 1 else 0
  }

  /** In a run, as long as the clamped offset stays at x, the EMA is EmaN of the number of audio
      buffers sampled since; so EmaConverges speaks about the runs of the code. */
  lemma {:induction false} EmaFollowsRun(ev: seq<Event>, m: nat, n: nat, x: nat)
    requires m <= n <= |ev| && NoReset(ev, m, n) && At(ev, m).ema.Some?
    requires SamplesWithin(ev, m, n, x, x)
    ensures At(ev, n).ema == Some(EmaN(At(ev, m).ema.value, x, SampleCount(ev, m, n)))
  {
    if m < n {
      EmaFollowsRun(ev, m, n - 1, x);
      if Sampled(ev, n - 1) {
        assert x <= Sample(ev, n - 1) <= x;
        AtNext(ev, n - 1);
      } else {
        EmaStands(ev, n - 1, n);
      }
    }
  }

  // ---------------------------------------------------------------------------
  // Corrected audio timestamps
  // ---------------------------------------------------------------------------

  /** The raw timestamps of any two sampled buffers lie at least d apart, in order. */
  ghost predicate RawSpacing(ev: seq<Event>, from: nat, to: nat, d: nat) {
    forall i, j :: from <= i < j < to && Sampled(ev, i) && Sampled(ev, j) ==>
      RawAudio(At(ev, i), ev[i]) + d <= RawAudio(At(ev, j), ev[j])
  }

  /** Between two audio buffers with no sampled one in between, the EMA does not move. */
  lemma {:induction false} EmaStands(ev: seq<Event>, m: nat, n: nat)
    requires m <= n <= |ev| && NoReset(ev, m, n)
    requires forall k :: m <= k < n ==> !Sampled(ev, k)
    ensures At(ev, n).ema == At(ev, m).ema
  {
    if m < n {
      AtNext(ev, n - 1);
      assert !Sampled(ev, n - 1);
      EmaStands(ev, m, n - 1);
    }
  }

  lemma EmaSetBySample(ev: seq<Event>, i: nat)
    requires Sampled(ev, i)
    ensures At(ev, i + 1).ema.Some?
    ensures StampAt(ev, i).Some?
    ensures var raw, ema := RawAudio(At(ev, i), ev[i]), At(ev, i + 1).ema.value;
            StampAt(ev, i).value == if raw > ema then raw - ema else 0
  {
    AtNext(ev, i);
  }

  lemma NextAudioNotEarlier(ev: seq<Event>, s: nat, i: nat, j: nat, d: nat, lo: nat, w: nat)
    requires SessionStart(ev, s) && s <= i < j < |ev| && NoReset(ev, s, j)
    requires Sampled(ev, i) && Sampled(ev, j) && forall k :: i < k < j ==> !Sampled(ev, k)
    requires SamplesWithin(ev, s, j + 1, lo, lo + w) && RawSpacing(ev, s, j + 1, d) && 3 * w <= 20 * d
    ensures StampAt(ev, i).value <= StampAt(ev, j).value
  {
    EmaSetBySample(ev, i);
    EmaSetBySample(ev, j);
    EmaStands(ev, i + 1, j);
    EmaWithinSamples(ev, s, j, lo, lo + w);
    AtNext(ev, j);
    var e, x := At(ev, j).ema.value, Sample(ev, j);
    assert lo <= x <= lo + w;
    assert EmaStep(e, x) <= e + d;
    assert RawAudio(At(ev, i), ev[i]) + d <= RawAudio(At(ev, j), ev[j]);
  }

  /** Over a session in which raw audio advances by at least d per buffer and all clamped offsets
      lie in a band of width w with 3w <= 20d, corrected audio timestamps never go back. */
  lemma {:induction false} CorrectedAudioMonotone(ev: seq<Event>, s: nat, i: nat, j: nat, d: nat, lo: nat, w: nat)
    requires SessionStart(ev, s) && s <= i < j < |ev| && NoReset(ev, s, j)
    requires Sampled(ev, i) && Sampled(ev, j)
    requires SamplesWithin(ev, s, j + 1, lo, lo + w) && RawSpacing(ev, s, j + 1, d) && 3 * w <= 20 * d
    ensures StampAt(ev, i).Some? && StampAt(ev, j).Some?
    ensures StampAt(ev, i).value <= StampAt(ev, j).value
    decreases j - i
  {
    EmaSetBySample(ev, i);
    EmaSetBySample(ev, j);
    if k :| i < k < j && Sampled(ev, k) {
      CorrectedAudioMonotone(ev, s, i, k, d, lo, w);
      CorrectedAudioMonotone(ev, s, k, j, d, lo, w);
    } else {
      NextAudioNotEarlier(ev, s, i, j, d, lo, w);
    }
  }

  // ---------------------------------------------------------------------------
  // Audio timestamps in terms of the events
  // ---------------------------------------------------------------------------

  /** Event v is the last timed video frame before position n. */
  predicate LastFrame(ev: seq<Event>, v: nat, n: nat) {
    && v < n <= |ev| && ev[v].IsTimedVideo()
    && forall k :: v < k < n ==> !ev[k].IsTimedVideo()
  }

  lemma {:induction false} LastVideoIs(ev: seq<Event>, f: nat, v: nat, n: nat)
    requires FirstOfSession(ev, f) && f <= v && LastFrame(ev, v, n) && NoReset(ev, f, n)
    ensures At(ev, n).lastVideo == Some(if ev[v].Ns() >= ev[f].Ns() then ev[v].Ns() - ev[f].Ns() else 0)
    decreases n
  {
    AtNext(ev, n - 1);
    if v == n - 1 {
      VideoStamps(ev, f, v);
    } else {
      LastVideoIs(ev, f, v, n - 1);
    }
  }

  lemma {:induction false} SomeLastFrame(ev: seq<Event>, f: nat, n: nat) returns (v: nat)
    requires f < n <= |ev| && ev[f].IsTimedVideo()
    ensures f <= v && LastFrame(ev, v, n)
    decreases n
  {
    if ev[n - 1].IsTimedVideo() { v := n - 1; } else { v := SomeLastFrame(ev, f, n - 1); }
  }

  /** The distance of event k from the first frame of its session, 0 if it lies before it. */
  function FromFirst(ev: seq<Event>, f: nat, k: nat): nat
    requires f < |ev| && k < |ev| && ev[f].IsTimedVideo() && (ev[k].IsTimedVideo() || ev[k].IsTimedAudio())
  {
    if ev[k].Ns() >= ev[f].Ns() then ev[k].Ns() - ev[f].Ns() else 0
  }

  /** Every timed audio buffer behind the first frame f of its session is sampled and stamped: its
      sample is its offset from the last video frame v, both counted from f, clamped to half a second;
      its stamp is its own distance from f less the EMA, or 0. */
  lemma AudioStamps(ev: seq<Event>, f: nat, v: nat, i: nat)
    requires FirstOfSession(ev, f) && f <= v && i < |ev| && LastFrame(ev, v, i) && NoReset(ev, f, i)
    requires ev[i].IsTimedAudio()
    ensures Sampled(ev, i) && StampAt(ev, i).Some? && At(ev, i + 1).ema.Some?
    ensures var offset := FromFirst(ev, f, i) - FromFirst(ev, f, v);
            Sample(ev, i) == if offset < 0 then 0 else if offset > 500_000_000 then 500_000_000 else offset
    ensures var d, ema := FromFirst(ev, f, i), At(ev, i + 1).ema.value;
            StampAt(ev, i).value == if d > ema then d - ema else 0
  {
    BaseIsFirst(ev, f, i);
    LastVideoIs(ev, f, v, i);
    EmaSetBySample(ev, i);
  }

  /** In camera and capture time alone: the sample is the clamped distance of the audio buffer from
      the last video frame; the stamp and the applied correction make up the distance from the first
      frame, unless the stamp is 0. */
  lemma AudioStampsInEventTime(ev: seq<Event>, f: nat, v: nat, i: nat)
    requires FirstOfSession(ev, f) && f <= v && i < |ev| && LastFrame(ev, v, i) && NoReset(ev, f, i)
    requires ev[i].IsTimedAudio() && ev[f].Ns() <= ev[v].Ns() && ev[f].Ns() <= ev[i].Ns()
    ensures Sampled(ev, i) && StampAt(ev, i).Some? && At(ev, i + 1).ema.Some?
    ensures var offset := ev[i].Ns() - ev[v].Ns();
            Sample(ev, i) == if offset < 0 then 0 else if offset > 500_000_000 then 500_000_000 else offset
    ensures var stamp, ema := StampAt(ev, i).value, At(ev, i + 1).ema.value;
            && (stamp + ema == ev[i].Ns() - ev[f].Ns() || stamp == 0)
            && (stamp == 0 ==> ev[i].Ns() - ev[f].Ns() <= ema)
  {
    AudioStamps(ev, f, v, i);
  }

  lemma {:induction false} NoSampleBefore(ev: seq<Event>, f: nat, n: nat)
    requires FirstOfSession(ev, f) && n <= f
    requires forall k :: n <= k < f ==> !ev[k].Reset?
    ensures At(ev, n).base.None?
  {
    NoBaseYet(ev, n) by {
      forall k | 0 <= k < n && ev[k].IsTimedVideo() ensures exists r :: k < r < n && ev[r].Reset? {
        var r :| k < r < f && ev[r].Reset?;
      }
    }
  }

  /** If the offsets of a session's audio buffers from the video frames before them lie in a band of
      width w inside [0, 500 ms], all counted from the session's first frame f, every audio buffer ends
      up within 17w/20 + 1 ns of the last video timestamp, also where the corrected timestamp
      saturates at 0. */
  lemma ResidualBound(ev: seq<Event>, f: nat, v: nat, i: nat, lo: nat, w: nat)
    requires FirstOfSession(ev, f) && f <= v && i < |ev| && LastFrame(ev, v, i) && NoReset(ev, f, i)
    requires ev[i].IsTimedAudio() && lo + w <= MAX_OFFSET
    requires forall k, u :: f < k <= i && ev[k].IsTimedAudio() && LastFrame(ev, u, k) ==>
               lo <= FromFirst(ev, f, k) - FromFirst(ev, f, u) <= lo + w
    ensures StampAt(ev, i).Some?
    ensures 20 * Dist(StampAt(ev, i).value, FromFirst(ev, f, v)) <= 17 * w + 20
  {
    var s := SessionOf(ev, f);
    forall k | s <= k < i && Sampled(ev, k) ensures lo <= Sample(ev, k) <= lo + w {
      if k < f {
        NoSampleBefore(ev, f, k);
      } else {
        var u := SomeLastFrame(ev, f, k);
        assert lo <= FromFirst(ev, f, k) - FromFirst(ev, f, u) <= lo + w;
        AudioStamps(ev, f, u, k);
      }
    }
    EmaWithinSamples(ev, s, i, lo, lo + w);
    assert lo <= FromFirst(ev, f, i) - FromFirst(ev, f, v) <= lo + w;
    AudioStamps(ev, f, v, i);
    AtNext(ev, i);
  }

  /** In event terms: if captured audio advances by at least d from one timed buffer to the next, and
      the clamped offsets lie in a band of width w with 3w <= 20d, the stamps of a session's audio
      buffers never go back. */
  lemma AudioNeverGoesBack(ev: seq<Event>, f: nat, i: nat, j: nat, d: nat, lo: nat, w: nat)
    requires FirstOfSession(ev, f) && f < i < j < |ev| && NoReset(ev, f, j)
    requires ev[i].IsTimedAudio() && ev[j].IsTimedAudio() && 3 * w <= 20 * d
    requires forall k :: f < k <= j && ev[k].IsTimedAudio() ==> ev[f].Ns() <= ev[k].Ns()
    requires forall k, l :: f < k < l <= j && ev[k].IsTimedAudio() && ev[l].IsTimedAudio() ==>
               ev[k].Ns() + d <= ev[l].Ns()
    requires forall k, u :: f < k <= j && ev[k].IsTimedAudio() && LastFrame(ev, u, k) ==>
               lo <= ClampOffset(FromFirst(ev, f, k) - FromFirst(ev, f, u)) <= lo + w
    ensures StampAt(ev, i).Some? && StampAt(ev, j).Some?
    ensures StampAt(ev, i).value <= StampAt(ev, j).value
  {
    var s := SessionOf(ev, f);
    forall k | s <= k <= j && Sampled(ev, k)
      ensures f < k && RawAudio(At(ev, k), ev[k]) == ev[k].Ns() - ev[f].Ns()
      ensures lo <= Sample(ev, k) <= lo + w
    {
      if k < f {
        NoSampleBefore(ev, f, k);
      } else {
        BaseIsFirst(ev, f, k);
        var u := SomeLastFrame(ev, f, k);
        assert lo <= ClampOffset(FromFirst(ev, f, k) - FromFirst(ev, f, u)) <= lo + w;
        AudioStamps(ev, f, u, k);
      }
    }
    var u := SomeLastFrame(ev, f, i);
    var v := SomeLastFrame(ev, f, j);
    AudioStamps(ev, f, u, i);
    AudioStamps(ev, f, v, j);
    CorrectedAudioMonotone(ev, s, i, j, d, lo, w);
  }

  lemma {:induction false} SessionOf(ev: seq<Event>, f: nat) returns (s: nat)
    requires f < |ev|
    ensures s <= f && SessionStart(ev, s) && NoReset(ev, s, f)
    decreases f
  {
    if f == 0 || ev[f - 1].Reset? { s := f; } else { s := SessionOf(ev[..f], f - 1); }
  }

  // ---------------------------------------------------------------------------
  // The code itself
  // ---------------------------------------------------------------------------

  /** s_pts_base, s_last_video_pts_ns and s_av_offset_ema, each updated under s_lock. */
  class SessionTimer {
    var ptsBase: Option<nat>
    var lastVideoPts: Option<nat>
    var avOffsetEma: Option<nat>

    ghost function Snapshot(): Clock
      reads this
    {
      Clock(ptsBase, lastVideoPts, avOffsetEma)
    }

    constructor ()
      ensures Snapshot() == UNSET
    {
      ptsBase, lastVideoPts, avOffsetEma := None, None, None;
    }

    /** The common part of init, on_media_unprepared and destroy. */
    method ResetTimeline()
      modifies this
      ensures Snapshot() == Step(old(Snapshot()), Reset)
    {
      ptsBase := None;
      lastVideoPts := None;
      avOffsetEma := None;
    }

    /** The timestamp part of nativePushEncodedBuffer. */
    method StampVideo(isCsd: bool, ptsUs: int) returns (pts: Option<nat>)
      modifies this
      ensures Snapshot() == Step(old(Snapshot()), Video(isCsd, ptsUs))
      ensures pts == Stamp(old(Snapshot()), Video(isCsd, ptsUs))
      ensures isCsd || ptsUs <= 0 ==> pts.None? && Snapshot() == old(Snapshot())
      ensures ClockInv(old(Snapshot())) ==> ClockInv(Snapshot())
    {
      if isCsd || ptsUs <= 0 { return None; }
      var ptsNs := ptsUs * 1000;
      if ptsBase.None? { ptsBase := Some(ptsNs); }
      var norm: nat := if ptsNs >= ptsBase.value then ptsNs - ptsBase.value else 0;
      lastVideoPts := Some(norm);
      return Some(norm);
    }

    /** The timestamp part of nativePushAudioBuffer. */
    method StampAudio(ptsUs: int) returns (pts: Option<nat>)
      modifies this
      ensures Snapshot() == Step(old(Snapshot()), Audio(ptsUs))
      ensures pts == Stamp(old(Snapshot()), Audio(ptsUs))
      ensures ptsUs <= 0 || old(ptsBase).None? ==> pts.None? && Snapshot() == old(Snapshot())
      ensures ClockInv(old(Snapshot())) ==> ClockInv(Snapshot())
    {
      if ptsUs <= 0 || ptsBase.None? { return None; }
      var ptsNs := ptsUs * 1000;
      var raw: nat := if ptsNs >= ptsBase.value then ptsNs - ptsBase.value else 0;
      if lastVideoPts.Some? {
        var instant := raw - lastVideoPts.value;
        if instant < 0 { instant := 0; }
        if instant > 500_000_000 { instant := 500_000_000; }
        if avOffsetEma.None? {
          avOffsetEma := Some(instant);
        } else {
          avOffsetEma := Some((3 * instant + 17 * avOffsetEma.value) / 20);
        }
      }
      var corrected: nat := 0;
      if avOffsetEma.Some? && raw > avOffsetEma.value {
        corrected := raw - avOffsetEma.value;
      }
      return Some(corrected);
    }
  }
}
