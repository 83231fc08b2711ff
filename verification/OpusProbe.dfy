/**
 The opusenc latency probes of camera2_gst_streamer.cpp: a map ordered by sink timestamp stands in
 for a bounded FIFO of arrival times, and the statistics cover windows of 100 encoded buffers.
 */
module OpusProbe {
  import opened Options

  const CAPACITY: nat := 64
  const WINDOW: nat := 100
  const MAX_INT64: int := 0x7fff_ffff_ffff_ffff

  /** g_get_monotonic_time() */
  type Micros = t: int | 0 <= t <= MAX_INT64

  type Entry = (nat, Micros)   // sink timestamp, arrival

  // ---------------------------------------------------------------------------
  // The ordered map
  // ---------------------------------------------------------------------------

  ghost predicate IsLeast(k: nat, s: set<nat>) {
    k in s && forall j :: j in s ==> k <= j
  }

  lemma {:induction false} LeastExists(s: set<nat>) returns (k: nat)
    requires s != {}
    ensures IsLeast(k, s)
  {
    k :| k in s;
    var rest := s - {k};
    if rest != {} {
      var least := LeastExists(rest);
      assert forall j :: j in s ==> j == k || j in rest;
      k := if k < least then k else least;
    } else {
      assert s == {k};
    }
  }

  lemma SomeLeast(s: set<nat>)
    requires s != {}
    ensures exists k :: IsLeast(k, s)
  {
    var k := LeastExists(s);
  }

  /** The key at map.begin(). */
  ghost function First(m: map<nat, Micros>): (k: nat)
    requires m != map[]
    ensures k in m && forall j :: j in m ==> k <= j
  {
    SomeLeast(m.Keys);
    var k :| IsLeast(k, m.Keys);
    k
  }

  lemma FirstUnique(m: map<nat, Micros>, k: nat)
    requires k in m.Keys && forall j :: j in m.Keys ==> k <= j
    ensures m != map[] && k == First(m)
  {
  }

  lemma RemoveOne(m: map<nat, Micros>, k: nat)
    requires k in m
    ensures |m - {k}| == |m| - 1
  {
    assert (m - {k}).Keys == m.Keys - {k};
  }

  /** The entries in iteration order. */
  ghost function Entries(m: map<nat, Micros>): (q: seq<Entry>)
    ensures |q| == |m|
    decreases |m|
  {
    if m == map[] then []
    else
      var k := First(m);
      RemoveOne(m, k);
      [(k, m[k])] + Entries(m - {k})
  }

  /** Entries lists the map: in ascending key order, each key with its value. */
  lemma {:induction false} EntriesList(m: map<nat, Micros>)
    ensures forall i :: 0 <= i < |m| ==> Entries(m)[i].0 in m && m[Entries(m)[i].0] == Entries(m)[i].1
    ensures forall i, j :: 0 <= i < j < |m| ==> Entries(m)[i].0 < Entries(m)[j].0
    decreases |m|
  {
    if m != map[] {
      var k := First(m);
      var rest := m - {k};
      RemoveOne(m, k);
      EntriesList(rest);
      assert Entries(m) == [(k, m[k])] + Entries(rest);
      forall i | 0 <= i < |m|
        ensures Entries(m)[i].0 in m && m[Entries(m)[i].0] == Entries(m)[i].1
        ensures i > 0 ==> k < Entries(m)[i].0
      {
        if i > 0 { assert Entries(m)[i] == Entries(rest)[i - 1]; }
      }
      forall i, j | 0 <= i < j < |m| ensures Entries(m)[i].0 < Entries(m)[j].0 {
        if i > 0 { assert Entries(m)[i] == Entries(rest)[i - 1] && Entries(m)[j] == Entries(rest)[j - 1]; }
      }
    }
  }

  ghost function Evict(m: map<nat, Micros>): map<nat, Micros>
    decreases |m|
  {
    if |m| > CAPACITY then
      RemoveOne(m, First(m));
      Evict(m - {First(m)})
    else m
  }

  /** What the sink probe does to the map. */
  ghost function SinkMap(m: map<nat, Micros>, pts: nat, now: Micros): map<nat, Micros> {
    Evict(m[pts := now])
  }

  // ---------------------------------------------------------------------------
  // The queue it stands for
  // ---------------------------------------------------------------------------

  /** A queue of at most 64 entries that drops its oldest. */
  function Enqueue(q: seq<Entry>, x: Entry): seq<Entry> {
    var q' := q + [x];
    if |q'| > CAPACITY then q'[|q'| - CAPACITY..] else q'
  }

  predicate Newest(m: map<nat, Micros>, pts: nat) {
    forall k :: k in m ==> k < pts
  }

  /** A newest key leaves the first one first. */
  lemma FirstStaysFirst(m: map<nat, Micros>, pts: nat, now: Micros)
    requires m != map[] && Newest(m, pts)
    ensures First(m[pts := now]) == First(m) && pts != First(m)
    ensures m[pts := now] - {First(m)} == (m - {First(m)})[pts := now]
  {
    var m' := m[pts := now];
    assert First(m) in m' && First(m') in m';
  }

  lemma EntriesOne(pts: nat, now: Micros)
    ensures Entries(map[pts := now]) == [(pts, now)]
  {
    var m := map[pts := now];
    assert pts in m;
    assert First(m) == pts;
    assert m - {pts} == map[];
    RemoveOne(m, pts);
  }

  lemma {:induction false} EntriesAppend(m: map<nat, Micros>, pts: nat, now: Micros)
    requires Newest(m, pts)
    ensures Entries(m[pts := now]) == Entries(m) + [(pts, now)]
    decreases |m|
  {
    if m == map[] {
      EntriesOne(pts, now);
    } else {
      var k := First(m);
      FirstStaysFirst(m, pts, now);
      RemoveOne(m, k);
      EntriesAppend(m - {k}, pts, now);
    }
  }

  lemma {:induction false} EvictDropsOldest(m: map<nat, Micros>)
    ensures Entries(Evict(m)) == if |m| > CAPACITY then Entries(m)[|m| - CAPACITY..] else Entries(m)
    decreases |m|
  {
    if |m| > CAPACITY {
      RemoveOne(m, First(m));
      EvictDropsOldest(m - {First(m)});
      assert Entries(m)[1..] == Entries(m - {First(m)});
    }
  }

  /** The last entry carries the greatest key. */
  lemma {:induction false} LastEntry(m: map<nat, Micros>, k: nat)
    requires k in m
    ensures Entries(m) != [] && k <= Entries(m)[|m| - 1].0
    decreases |m|
  {
    var f := First(m);
    var rest := m - {f};
    RemoveOne(m, f);
    assert Entries(m) == [(f, m[f])] + Entries(rest);
    if k != f {
      LastEntry(rest, k);
      assert Entries(m)[|m| - 1] == Entries(rest)[|rest| - 1];
    } else if |m| > 1 {
      EntriesList(m);
      assert Entries(m)[0].0 == f;
    }
  }

  /** A timestamp that is in the map already overwrites an arrival instead of queueing one. */
  lemma DuplicateIsNotEnqueue(m: map<nat, Micros>, pts: nat, now: Micros)
    requires |m| <= CAPACITY && pts in m
    ensures Entries(SinkMap(m, pts, now)) != Enqueue(Entries(m), (pts, now))
  {
    var m' := m[pts := now];
    assert m'.Keys == m.Keys;
    assert |m'| == |m|;
    EntriesList(m);
    EvictDropsOldest(m');
    if |m| == CAPACITY {
      assert First(m') == First(m);
      var e := Enqueue(Entries(m), (pts, now));
      assert e[0] == Entries(m)[1];
      assert Entries(m')[0].0 == First(m') && Entries(m)[0].0 == First(m);
    }
  }

  lemma LastSurvives(m: map<nat, Micros>)
    requires m != map[]
    ensures var q, e := Entries(m), Entries(Evict(m)); e != [] && e[|e| - 1] == q[|q| - 1]
  {
    EvictDropsOldest(m);
  }

  /** A timestamp older than one in the map does not end up last. */
  lemma OlderIsNotEnqueue(m: map<nat, Micros>, pts: nat, now: Micros, k: nat)
    requires |m| <= CAPACITY && pts !in m && k in m && pts < k
    ensures Entries(SinkMap(m, pts, now)) != Enqueue(Entries(m), (pts, now))
  {
    var m' := m[pts := now];
    var q := Entries(SinkMap(m, pts, now));
    assert k in m';
    LastEntry(m', k);
    EntriesList(m');
    LastSurvives(m');
    assert q[|q| - 1].0 > pts;
    LastOfEnqueue(Entries(m), (pts, now));
  }

  lemma LastOfEnqueue(q: seq<Entry>, x: Entry)
    ensures Enqueue(q, x) != [] && Enqueue(q, x)[|Enqueue(q, x)| - 1] == x
  {
  }

  lemma NewestIsEnqueue(m: map<nat, Micros>, pts: nat, now: Micros)
    requires |m| <= CAPACITY && Newest(m, pts)
    ensures Entries(SinkMap(m, pts, now)) == Enqueue(Entries(m), (pts, now))
  {
    EntriesAppend(m, pts, now);
    EvictDropsOldest(m[pts := now]);
  }

  /** The sink probe acts as the queue exactly when the buffer's timestamp is greater than every
      timestamp still in the map, whatever the map holds within its capacity. */
  lemma SinkIsEnqueueIff(m: map<nat, Micros>, pts: nat, now: Micros)
    requires |m| <= CAPACITY
    ensures Entries(SinkMap(m, pts, now)) == Enqueue(Entries(m), (pts, now)) <==> Newest(m, pts)
  {
    if Newest(m, pts) {
      NewestIsEnqueue(m, pts, now);
    } else if pts in m {
      DuplicateIsNotEnqueue(m, pts, now);
    } else {
      var k :| k in m && k >= pts;
      OlderIsNotEnqueue(m, pts, now, k);
    }
  }

  // ---------------------------------------------------------------------------
  // Runs since the last reset
  // ---------------------------------------------------------------------------

  datatype Event = Sink(pts: nat, now: Micros) | Src(now: Micros)

  /** The map after a run from the reset on. */
  ghost function After(ev: seq<Event>): map<nat, Micros> {
    if ev == [] then map[]
    else
      var m := After(ev[..|ev| - 1]);
      match ev[|ev| - 1]
      case Sink(pts, now) => SinkMap(m, pts, now)
      case Src(_) => if m == map[] then m else m - {First(m)}
  }

  /** The arrival time the source probe pairs with output i, or None if the map is empty. */
  ghost function Paired(ev: seq<Event>, i: nat): Option<Micros>
    requires i < |ev|
  {
    var m := After(ev[..i]);
    if m == map[] then None else Some(m[First(m)])
  }

  function Inputs(ev: seq<Event>): seq<Entry> {
    if ev == [] then []
    else
      var q := Inputs(ev[..|ev| - 1]);
      match ev[|ev| - 1]
      case Sink(pts, now) => q + [(pts, now)]
      case Src(_) => q
  }

  function Outputs(ev: seq<Event>): nat {
    if ev == [] then 0
    else Outputs(ev[..|ev| - 1]) + if ev[|ev| - 1].Src? then 1 else 0
  }

  /** Input timestamps increase strictly; every output follows its input; never more than 64
      inputs are outstanding. */
  predicate InOrder(ev: seq<Event>) {
    ev == [] ||
    (var init, q := ev[..|ev| - 1], Inputs(ev[..|ev| - 1]);
     && InOrder(init)
     && match ev[|ev| - 1]
        case Sink(pts, _) =>
          (q == [] || q[|q| - 1].0 < pts) && |q| - Outputs(init) < CAPACITY
        case Src(_) => Outputs(init) < |q|)
  }

  lemma SinkExtendsBacklog(m: map<nat, Micros>, q: seq<Entry>, n: nat, pts: nat, now: Micros)
    requires n <= |q| && |q| - n < CAPACITY && Entries(m) == q[n..]
    requires q == [] || q[|q| - 1].0 < pts
    ensures Entries(SinkMap(m, pts, now)) == (q + [(pts, now)])[n..]
  {
    forall k | k in m ensures k < pts {
      LastEntry(m, k);
      assert Entries(m)[|m| - 1] == q[|q| - 1];
    }
    NewestIsEnqueue(m, pts, now);
    assert (q + [(pts, now)])[n..] == q[n..] + [(pts, now)];
  }

  lemma SrcShrinksBacklog(m: map<nat, Micros>, q: seq<Entry>, n: nat)
    requires n < |q| && Entries(m) == q[n..]
    ensures m != map[] && Entries(m - {First(m)}) == q[n + 1..]
  {
    assert |m| == |q| - n;
    assert Entries(m)[1..] == Entries(m - {First(m)});
    assert q[n..][1..] == q[n + 1..];
  }

  /** The map holds exactly the inputs not yet paired, oldest first. */
  lemma {:induction false} MapIsBacklog(ev: seq<Event>)
    requires InOrder(ev)
    ensures Outputs(ev) <= |Inputs(ev)| <= Outputs(ev) + CAPACITY
    ensures Entries(After(ev)) == Inputs(ev)[Outputs(ev)..]
  {
    if ev != [] {
      var init, last := ev[..|ev| - 1], ev[|ev| - 1];
      MapIsBacklog(init);
      var m, q, n := After(init), Inputs(init), Outputs(init);
      if last.Sink? {
        SinkExtendsBacklog(m, q, n, last.pts, last.now);
        assert After(ev) == SinkMap(m, last.pts, last.now);
      } else {
        SrcShrinksBacklog(m, q, n);
        assert After(ev) == m - {First(m)};
      }
    }
  }

  /** With the probes enabled since the last reset and no overflow, the k-th encoded buffer is paired
      with the arrival of the k-th input buffer. */
  lemma KthOutputPairsWithKthInput(ev: seq<Event>, i: nat)
    requires i < |ev| && ev[i].Src? && InOrder(ev[..i + 1])
    ensures Outputs(ev[..i]) < |Inputs(ev[..i])|
    ensures Paired(ev, i) == Some(Inputs(ev[..i])[Outputs(ev[..i])].1)
  {
    assert ev[..i + 1][..i] == ev[..i];
    MapIsBacklog(ev[..i]);
    var m := After(ev[..i]);
    assert Entries(m)[0] == Inputs(ev[..i])[Outputs(ev[..i])];
    assert Entries(m)[0] == (First(m), m[First(m)]);
  }

  // ---------------------------------------------------------------------------
  // The statistics of a window
  // ---------------------------------------------------------------------------

  function Sum(w: seq<Micros>): int {
    if w == [] then 0 else Sum(w[..|w| - 1]) + w[|w| - 1]
  }

  lemma {:induction false} SumBounds(w: seq<Micros>, lo: int, hi: int)
    requires forall i :: 0 <= i < |w| ==> lo <= w[i] <= hi
    ensures |w| * lo <= Sum(w) <= |w| * hi
  {
    if w != [] { SumBounds(w[..|w| - 1], lo, hi); }
  }

  ghost predicate Attained(w: seq<Micros>, x: int) {
    exists i :: 0 <= i < |w| && w[i] == x
  }

  /** min, max and sum are those of the latencies of the current window. */
  ghost predicate Describes(w: seq<Micros>, mn: int, mx: int, sum: int) {
    && sum == Sum(w)
    && (forall i :: 0 <= i < |w| ==> mn <= w[i] <= mx)
    && (w == [] ==> mn == MAX_INT64 && mx == 0)
    && (w != [] ==> Attained(w, mn) && Attained(w, mx))
  }

  lemma DescribesAppend(w: seq<Micros>, lat: Micros, mn: int, mx: int, sum: int, newMin: int, newMax: int)
    requires Describes(w, mn, mx, sum)
    requires newMin == if lat < mn then lat else mn
    requires newMax == if lat > mx then lat else mx
    ensures Describes(w + [lat], newMin, newMax, sum + lat)
  {
    var w' := w + [lat];
    assert w'[..|w|] == w && w'[|w|] == lat;
    assert forall i :: 0 <= i < |w| ==> w'[i] == w[i];
  }

  datatype Report = Report(min: int, max: int, sum: int, frames: nat)

  /** The average that is printed lies between the printed minimum and maximum. */
  lemma AverageInRange(w: seq<Micros>, r: Report)
    requires Describes(w, r.min, r.max, r.sum) && r.frames == |w| > 0
    ensures r.frames * r.min <= r.sum <= r.frames * r.max
  {
    SumBounds(w, r.min, r.max);
  }

  // ---------------------------------------------------------------------------
  // The code itself
  // ---------------------------------------------------------------------------

  /** s_opus_enc_in and the statistics, under s_opus_probe_lock; `window` lists the latencies that
      the statistics cover. */
  class ProbeState {
    var encIn: map<nat, Micros>
    var latMin: int
    var latMax: int
    var latSum: int
    var latCount: nat
    ghost var window: seq<Micros>

    ghost predicate Valid()
      reads this
    {
      && |encIn| <= CAPACITY
      && latCount == |window| < WINDOW
      && Describes(window, latMin, latMax, latSum)
    }

    constructor ()
      ensures Valid() && encIn == map[]
    {
      encIn, latMin, latMax, latSum, latCount, window := map[], MAX_INT64, 0, 0, 0, [];
    }

    /** opus_probe_reset */
    method Reset()
      modifies this
      ensures Valid() && encIn == map[] && window == []
    {
      encIn := map[];
      latMin, latMax, latSum, latCount := MAX_INT64, 0, 0, 0;
      window := [];
    }

    /** map.begin() */
    method Begin() returns (k: nat)
      requires encIn != map[]
      ensures k == First(encIn)
    {
      SomeLeast(encIn.Keys);
      k :| k in encIn.Keys && forall j :: j in encIn.Keys ==> k <= j;
      FirstUnique(encIn, k);
    }

    /** The loop that caps the map. */
    method CapMap()
      modifies this`encIn
      ensures encIn == Evict(old(encIn)) && |encIn| <= CAPACITY
    {
      while |encIn| > CAPACITY
        invariant Evict(encIn) == Evict(old(encIn))
        decreases |encIn|
      {
        var k := Begin();
        RemoveOne(encIn, k);
        encIn := encIn - {k};
      }
    }

    /** opus_enc_sink_probe */
    method SinkProbe(pts: nat, now: Micros)
      requires Valid()
      modifies this`encIn
      ensures Valid() && encIn == SinkMap(old(encIn), pts, now) && |encIn| <= 64
      ensures Entries(encIn) == Enqueue(Entries(old(encIn)), (pts, now)) <==> Newest(old(encIn), pts)
    {
      SinkIsEnqueueIff(encIn, pts, now);
      encIn := encIn[pts := now];
      CapMap();
    }

    /** The oldest arrival leaves the map; -1 if there is none. */
    method PopOldest() returns (inUs: int)
      modifies this`encIn
      ensures old(encIn) == map[] ==> encIn == map[] && inUs == -1
      ensures old(encIn) != map[] ==>
                var k := First(old(encIn));
                inUs == old(encIn)[k] && encIn == old(encIn) - {k} && |encIn| == |old(encIn)| - 1
    {
      inUs := -1;
      if encIn != map[] {
        var k := Begin();
        RemoveOne(encIn, k);
        inUs := encIn[k];
        encIn := encIn - {k};
      }
    }

    /** One latency joins the window. */
    method Record(lat: Micros)
      requires Describes(window, latMin, latMax, latSum)
      modifies this`latMin, this`latMax, this`latSum, this`latCount, this`window
      ensures window == old(window) + [lat] && latCount == old(latCount) + 1
      ensures Describes(window, latMin, latMax, latSum)
    {
      var mn := if lat < latMin then lat else latMin;
      var mx := if lat > latMax then lat else latMax;
      DescribesAppend(window, lat, latMin, latMax, latSum, mn, mx);
      window, latMin, latMax, latSum, latCount := window + [lat], mn, mx, latSum + lat, latCount + 1;
    }

    /** Record; a full window is reported and cleared. */
    method Account(lat: Micros) returns (report: Option<Report>)
      requires Valid()
      modifies this`latMin, this`latMax, this`latSum, this`latCount, this`window
      ensures Valid()
      ensures var w := old(window) + [lat];
              && window == (if |w| == WINDOW then [] else w)
              && (report.Some? <==> |w| == WINDOW)
              && (report.Some? ==>
                    && report.value.frames == WINDOW
                    && Describes(w, report.value.min, report.value.max, report.value.sum))
    {
      Record(lat);
      report := None;
      if latCount >= WINDOW {
        report := Some(Report(latMin, latMax, latSum, latCount));
        latMin, latMax, latSum, latCount := MAX_INT64, 0, 0, 0;
        window := [];
      }
    }

    /** opus_enc_src_probe: the oldest arrival leaves the map and its latency joins the window. */
    method SrcProbe(now: Micros) returns (report: Option<Report>)
      requires Valid()
      modifies this
      ensures Valid()
      ensures old(encIn) == map[] ==> encIn == map[] && window == old(window) && report.None?
      ensures old(encIn) != map[] ==>
                var arrival := old(encIn)[First(old(encIn))];
                var w := old(window) + [if now >= arrival then now - arrival else 0];
                && encIn == old(encIn) - {First(old(encIn))}
                && window == (if |w| == WINDOW then [] else w)
                && (report.Some? <==> |w| == WINDOW)
                && (report.Some? ==>
                      && report.value.frames == 100
                      && Describes(w, report.value.min, report.value.max, report.value.sum))
    {
      report := None;
      var inUs := PopOldest();
      if inUs >= 0 {
        var lat := now - inUs;
        if lat < 0 { lat := 0; }
        report := Account(lat);
      }
    }
  }
}
