/**
 Buffer durations.  The capture loops of Camera2GstStreamer back-date a PCM buffer by its duration
 in microseconds; nativePushAudioBuffer stamps the same buffer with its duration in nanoseconds.
 */
module PcmTiming {
  import opened Arithmetic

  /** GST_BUFFER_DURATION of a 16-bit PCM buffer. */
  function NativeDurationNs(bytes: nat, rate: nat, channels: int): nat
    requires rate > 0
  {
    var ch: nat := if channels > 0 then channels else 1;
    QuotientNat(bytes, 2 * ch);
    var samples: nat := bytes / (2 * ch);
    QuotientNat(samples * 1_000_000_000, rate);
    samples * 1_000_000_000 / rate
  }

  /** bufDurationUs of the capture loops. */
  function JavaDurationUs(bytes: nat, rate: nat, channels: nat): nat
    requires rate > 0 && channels > 0
  {
    MulMono(rate, 1, channels);
    assert rate * 2 * channels == 2 * (rate * channels);
    QuotientNat(bytes * 1_000_000, rate * 2 * channels);
    bytes * 1_000_000 / (rate * 2 * channels)
  }

  /** A buffer of whole samples. */
  predicate WholeSamples(bytes: nat, channels: nat)
    requires channels > 0
  {
    bytes % (2 * channels) == 0
  }

  function Samples(buffers: seq<nat>, channels: nat): nat
    requires channels > 0
  {
    if buffers == [] then 0
    else
      QuotientNat(buffers[|buffers| - 1], 2 * channels);
      Samples(buffers[..|buffers| - 1], channels) + buffers[|buffers| - 1] / (2 * channels)
  }

  function TotalNs(buffers: seq<nat>, rate: nat, channels: nat): nat
    requires rate > 0
  {
    if buffers == [] then 0
    else TotalNs(buffers[..|buffers| - 1], rate, channels)
         + NativeDurationNs(buffers[|buffers| - 1], rate, channels)
  }

  /** An unknown channel count counts as mono, two bytes a sample. */
  lemma UnknownChannelsAreMono(bytes: nat, rate: nat, channels: int)
    requires rate > 0 && channels <= 0
    ensures NativeDurationNs(bytes, rate, channels) == bytes / 2 * 1_000_000_000 / rate
  {
  }

  /** One more buffer: t and n are totals of nanoseconds and samples over k buffers, d and m those of
      the next one. */
  lemma TotalsGrow(rate: nat, t: nat, n: nat, k: nat, d: nat, m: nat)
    requires rate * t <= n * 1_000_000_000 <= rate * (t + k)
    requires rate * d <= m * 1_000_000_000 < rate * (d + 1)
    ensures rate * (t + d) <= (n + m) * 1_000_000_000 < rate * (t + d + k + 1)
  {
    assert rate * (t + d) == rate * t + rate * d;
    assert rate * (t + d + k + 1) == rate * (t + k) + rate * (d + 1);
  }

  /** The summed native durations never exceed the exact playing time of the samples, and fall
      short of it by less than one nanosecond per buffer (both sides multiplied by the rate). */
  lemma {:induction false} DurationConserved(buffers: seq<nat>, rate: nat, channels: nat)
    requires rate > 0 && channels > 0
    ensures rate * TotalNs(buffers, rate, channels) <= Samples(buffers, channels) * 1_000_000_000
    ensures buffers != [] ==>
              Samples(buffers, channels) * 1_000_000_000
              < rate * (TotalNs(buffers, rate, channels) + |buffers|)
  {
    if buffers != [] {
      var init, b := buffers[..|buffers| - 1], buffers[|buffers| - 1];
      DurationConserved(init, rate, channels);
      QuotientNat(b, 2 * channels);
      var m: nat := b / (2 * channels);
      var d := NativeDurationNs(b, rate, channels);
      Quotient(m * 1_000_000_000, rate);
      assert d == m * 1_000_000_000 / rate;
      TotalsGrow(rate, TotalNs(init, rate, channels), Samples(init, channels), |init|, d, m);
    }
  }

  /** A duration of n samples in nanoseconds is a thousand times the one in microseconds, and less than
      a thousand nanoseconds more. */
  lemma UnitsAgree(n: nat, rate: nat)
    requires rate > 0
    ensures var us, ns := n * 1_000_000 / rate, n * 1_000_000_000 / rate;
      1000 * us <= ns <= 1000 * us + 999
  {
    var us := n * 1_000_000 / rate;
    Quotient(n * 1_000_000, rate);
    assert rate * (1000 * us) == 1000 * (rate * us);
    assert rate * (1000 * us + 1000) == 1000 * (rate * (us + 1));
    QuotientBounds(n * 1_000_000_000, rate, 1000 * us, 1000 * us + 1000);
  }

  /** For whole-sample buffers the nanosecond duration lies at most 999 ns above the microsecond
      duration used to back-date the same buffer, whatever the rate and the channel count. */
  lemma NativeAgreesWithJava(bytes: nat, rate: nat, channels: nat)
    requires rate > 0 && channels > 0 && WholeSamples(bytes, channels)
    ensures 1000 * JavaDurationUs(bytes, rate, channels)
            <= NativeDurationNs(bytes, rate, channels)
            <= 1000 * JavaDurationUs(bytes, rate, channels) + 999
  {
    var k := 2 * channels;
    QuotientNat(bytes, k);
    var n: nat := bytes / k;
    assert bytes == k * n;
    assert bytes * 1_000_000 == k * (n * 1_000_000);
    assert rate * 2 * channels == k * rate;
    CancelFactor(k, n * 1_000_000, rate);
    UnitsAgree(n, rate);
  }
}
