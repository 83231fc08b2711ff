/** The AudioSpecificConfig that Java prints into the launch string and the native side rebuilds. */
module AudioSpecificConfig {
  import opened Options

  // ---------------------------------------------------------------------------
  // The two encoders
  // ---------------------------------------------------------------------------

  /** The index of a rate in Table 1.16 of ISO/IEC 14496-3, or -1. */
  function AacFreqIndex(rate: int): (index: int)
    ensures -1 <= index < 12
  {
    match rate
    case 96000 => 0
    case 88200 => 1
    case 64000 => 2
    case 48000 => 3
    case 44100 => 4
    case 32000 => 5
    case 24000 => 6
    case 22050 => 7
    case 16000 => 8
    case 12000 => 9
    case 11025 => 10
    case 8000 => 11
    case _ => -1
  }

  /** The bits of an int of either language. */
  function Bits(n: int): bv32 {
    (n % 0x1_0000_0000) as bv32
  }

  /** Object type 2, frequency index and channels, shifted into their places. */
  function Pack(index: bv32, channels: bv32): bv32 {
    (2 << 11) | (index << 7) | (channels << 3)
  }

  function HexDigit(d: bv32): char {
    if d == 0 then '0' else if d == 1 then '1' else if d == 2 then '2' else if d == 3 then '3'
    else if d == 4 then '4' else if d == 5 then '5' else if d == 6 then '6' else if d == 7 then '7'
    else if d == 8 then '8' else if d == 9 then '9' else if d == 10 then 'a' else if d == 11 then 'b'
    else if d == 12 then 'c' else if d == 13 then 'd' else if d == 14 then 'e' else 'f'
  }

  predicate IsHexDigit(c: char) { '0' <= c <= '9' || 'a' <= c <= 'f' }

  function HexDigits(v: bv32): (s: string)
    ensures forall i :: 0 <= i < |s| ==> IsHexDigit(s[i])
    decreases v
  {
    if v < 16 then [HexDigit(v)] else HexDigits(v >> 4) + [HexDigit(v & 15)]
  }

  function ZeroPadded(s: string, width: nat): (r: string)
    ensures (forall i :: 0 <= i < |s| ==> IsHexDigit(s[i])) ==> forall i :: 0 <= i < |r| ==> IsHexDigit(r[i])
    decreases width - |s|
  {
    if |s| >= width then s else ZeroPadded("0" + s, width)
  }

  /** String.format("%04x", v) */
  function Hex4(v: bv32): (s: string)
    ensures forall i :: 0 <= i < |s| ==> IsHexDigit(s[i])
  {
    ZeroPadded(HexDigits(v), 4)
  }

  /** The codec_data that buildAacAudioCaps prints. */
  function JavaCodecData(rate: int, channels: int): (s: string)
    ensures forall i :: 0 <= i < |s| ==> IsHexDigit(s[i])
  {
    Hex4(Pack(Bits(AacFreqIndex(rate)), Bits(channels)))
  }

  /** The bytes of a guint16, high byte first. */
  function Bytes16(v: bv32): (bytes: seq<bv8>)
    ensures |bytes| == 2
  {
    var word := v & 0xFFFF;
    [(word >> 8) as bv8, (word & 0xFF) as bv8]
  }

  /** The codec_data that on_media_configure sets; an unsupported rate counts as 44100. */
  function NativeCodecData(rate: int, channels: int): (bytes: seq<bv8>)
    ensures |bytes| == 2
  {
    var index := if AacFreqIndex(rate) < 0 then 4 else AacFreqIndex(rate);
    Bytes16(Pack(Bits(index), Bits(channels)))
  }

  // ---------------------------------------------------------------------------
  // The two readers
  // ---------------------------------------------------------------------------

  function HexValue(c: char): Option<bv8> {
    match c
    case '0' => Some(0) case '1' => Some(1) case '2' => Some(2) case '3' => Some(3)
    case '4' => Some(4) case '5' => Some(5) case '6' => Some(6) case '7' => Some(7)
    case '8' => Some(8) case '9' => Some(9) case 'a' => Some(10) case 'b' => Some(11)
    case 'c' => Some(12) case 'd' => Some(13) case 'e' => Some(14) case 'f' => Some(15)
    case _ => None
  }

  /** The bytes of a (buffer) field in a caps string: two digits a byte. */
  function BufferBytes(s: string): Option<seq<bv8>> {
    if s == "" then Some([])
    else if |s| == 1 then None
    else
      match (HexValue(s[0]), HexValue(s[1]), BufferBytes(s[2..]))
      case (Some(high), Some(low), Some(rest)) => Some([high * 16 + low] + rest)
      case _ => None
  }

  datatype Asc = Asc(objectType: bv8, freqIndex: bv8, channels: bv8)

  /** Section 1.6.2.1 of ISO/IEC 14496-3: five, four and four bits. The escape values 31 and 15 of the
      first two fields, which take longer forms, are refused. */
  function ReadAsc(bytes: seq<bv8>): Option<Asc> {
    if |bytes| < 2 then None
    else
      var objectType := bytes[0] >> 3;
      var freqIndex := ((bytes[0] & 7) << 1) | (bytes[1] >> 7);
      var channels := (bytes[1] >> 3) & 15;
      if objectType == 31 || freqIndex == 15 then None else Some(Asc(objectType, freqIndex, channels))
  }

  /** Table 1.16 of ISO/IEC 14496-3: the sampling frequency of each index, in hertz, up to 11. */
  const FREQUENCIES: seq<int> :=
    [96000, 88200, 64000, 48000, 44100, 32000, 24000, 22050, 16000, 12000, 11025, 8000]

  /** A decoder reads AAC-LC, the rate and the channel count. */
  predicate Describes(bytes: seq<bv8>, rate: int, channels: int) {
    var asc := ReadAsc(bytes);
    && asc.Some? && asc.value.objectType == 2
    && asc.value.freqIndex < 12 && FREQUENCIES[asc.value.freqIndex] == rate
    && asc.value.channels as int == channels
  }

  /** The encoder's switch inverts the decoder's table, and knows no other rate. */
  lemma IndexInvertsTable(rate: int)
    ensures if rate in FREQUENCIES
            then 0 <= AacFreqIndex(rate) < |FREQUENCIES| && FREQUENCIES[AacFreqIndex(rate)] == rate
            else AacFreqIndex(rate) == -1
  {
    assert forall i :: 0 <= i < |FREQUENCIES| ==> AacFreqIndex(FREQUENCIES[i]) == i;
    if AacFreqIndex(rate) >= 0 { assert FREQUENCIES[AacFreqIndex(rate)] == rate; }
  }

  // ---------------------------------------------------------------------------
  // Hexadecimal
  // ---------------------------------------------------------------------------

  lemma Nibbles(v: bv32)
    requires 0x1000 <= v < 0x10000
    ensures HexDigits(v) == [HexDigit(v >> 12), HexDigit((v >> 8) & 15), HexDigit((v >> 4) & 15), HexDigit(v & 15)]
  {
    assert HexDigits(v >> 12) == [HexDigit(v >> 12)];
    assert (v >> 8) >> 4 == v >> 12;
    assert HexDigits(v >> 8) == [HexDigit(v >> 12), HexDigit((v >> 8) & 15)];
    assert (v >> 4) >> 4 == v >> 8;
    assert HexDigits(v >> 4) == [HexDigit(v >> 12), HexDigit((v >> 8) & 15), HexDigit((v >> 4) & 15)];
  }

  lemma LongForm(v: bv32)
    requires 0x10000 <= v
    ensures |HexDigits(v)| > 4
  {
    assert |HexDigits(v >> 16)| > 0;
    assert (v >> 12) >> 4 == v >> 16;
    assert |HexDigits(v >> 12)| > 1;
    assert (v >> 8) >> 4 == v >> 12;
    assert |HexDigits(v >> 8)| > 2;
    assert (v >> 4) >> 4 == v >> 8;
    assert |HexDigits(v >> 4)| > 3;
  }

  lemma {:induction false} TwoDigitsEach(s: string)
    ensures BufferBytes(s).Some? ==> |s| == 2 * |BufferBytes(s).value|
  {
    if |s| >= 2 { TwoDigitsEach(s[2..]); }
  }

  lemma DigitValue(d: bv32)
    requires d < 16
    ensures HexValue(HexDigit(d)) == Some(d as bv8)
  {
  }

  lemma ByteOfNibbles(v: bv32)
    requires v < 0x100
    ensures ((v >> 4) as bv8) * 16 + ((v & 15) as bv8) == v as bv8
  {
  }

  lemma TwoBytes(a: char, b: char, c: char, d: char)
    requires HexValue(a).Some? && HexValue(b).Some? && HexValue(c).Some? && HexValue(d).Some?
    ensures BufferBytes([a, b, c, d])
         == Some([HexValue(a).value * 16 + HexValue(b).value, HexValue(c).value * 16 + HexValue(d).value])
  {
    var high := HexValue(a).value * 16 + HexValue(b).value;
    var low := HexValue(c).value * 16 + HexValue(d).value;
    assert [a, b, c, d][2..] == [c, d];
    assert [c, d][2..] == "";
    assert BufferBytes("") == Some([]);
    assert BufferBytes([c, d]) == Some([low]) by { assert [low] + [] == [low]; }
    assert [high] + [low] == [high, low];
  }

  /** A four-digit word reads back as its two bytes, high byte first. */
  lemma ReadHex4(v: bv32)
    requires 0x1000 <= v < 0x10000
    ensures BufferBytes(Hex4(v)) == Some(Bytes16(v))
  {
    Nibbles(v);
    DigitValue(v >> 12);
    DigitValue((v >> 8) & 15);
    DigitValue((v >> 4) & 15);
    DigitValue(v & 15);
    TwoBytes(HexDigit(v >> 12), HexDigit((v >> 8) & 15), HexDigit((v >> 4) & 15), HexDigit(v & 15));
    HighNibbles(v);
    LowNibbles(v);
    ByteOfNibbles(v >> 8);
    ByteOfNibbles(v & 0xFF);
    WordKept(v);
  }

  lemma WordKept(v: bv32)
    requires v < 0x10000
    ensures v & 0xFFFF == v
  {
  }

  lemma HighNibbles(v: bv32)
    ensures (v >> 8) >> 4 == v >> 12
    ensures v < 0x10000 ==> v >> 8 < 0x100
  {
  }

  lemma LowNibbles(v: bv32)
    ensures (v & 0xFF) >> 4 == (v >> 4) & 15 && (v & 0xFF) & 15 == v & 15 && v & 0xFF < 0x100
  {
  }

  // ---------------------------------------------------------------------------
  // Agreement
  // ---------------------------------------------------------------------------

  lemma SmallBits(n: int)
    requires 0 <= n < 16
    ensures Bits(n) < 16 && Bits(n) as bv8 == n as bv8
  {
  }

  lemma PackSupported(index: bv32, channels: bv32)
    requires index < 16
    ensures Pack(index, channels) < 0x10000 <==> FitsWord(channels)
    ensures 0x1000 <= Pack(index, channels)
  {
  }

  lemma SmallShift(channels: bv32)
    requires channels < 16
    ensures FitsWord(channels)
  {
  }

  lemma PackUnsupported(channels: bv32)
    ensures Pack(0xFFFF_FFFF, channels) >= 0x10000
  {
  }

  /** What "%04x" prints denotes the low two bytes exactly when there are no others. */
  lemma Hex4FitsIff(v: bv32)
    requires 0x1000 <= v
    ensures BufferBytes(Hex4(v)) == Some(Bytes16(v)) <==> v < 0x10000
  {
    if v < 0x10000 {
      ReadHex4(v);
    } else {
      Hex4TooLong(v);
    }
  }

  lemma Hex4TooLong(v: bv32)
    requires v >= 0x10000
    ensures BufferBytes(Hex4(v)).Some? ==> |BufferBytes(Hex4(v)).value| > 2
  {
    LongForm(v);
    TwoDigitsEach(Hex4(v));
  }

  lemma PackAgreesIff(index: bv32, channels: bv32)
    requires index < 16
    ensures BufferBytes(Hex4(Pack(index, channels))) == Some(Bytes16(Pack(index, channels)))
        <==> FitsWord(channels)
  {
    PackSupported(index, channels);
    Hex4FitsIff(Pack(index, channels));
  }

  predicate FitsWord(channels: bv32) {
    channels << 3 < 0x10000
  }

  /** Java's codec_data denotes the bytes the native side sets exactly when the rate has an index and
      the channel count stays within the low sixteen bits. */
  lemma CodecDataAgreesIff(rate: int, channels: int)
    ensures BufferBytes(JavaCodecData(rate, channels)) == Some(NativeCodecData(rate, channels))
        <==> rate in FREQUENCIES && FitsWord(Bits(channels))
  {
    var index := AacFreqIndex(rate);
    IndexInvertsTable(rate);
    if index >= 0 {
      SmallBits(index);
      PackAgreesIff(Bits(index), Bits(channels));
    } else {
      NoIndex();
      PackUnsupported(Bits(channels));
      Hex4TooLong(Pack(0xFFFF_FFFF, Bits(channels)));
    }
  }

  lemma NoIndex()
    ensures Bits(-1) == 0xFFFF_FFFF
  {
    assert -1 % 0x1_0000_0000 == 0xFFFF_FFFF;
  }

  lemma PackedFields(index: bv32, channels: bv32)
    requires index < 15 && channels < 16
    ensures ReadAsc(Bytes16(Pack(index, channels))) == Some(Asc(2, index as bv8, channels as bv8))
  {
  }

  lemma SmallByte(n: int)
    requires 0 <= n < 16
    ensures (n as bv8) as int == n
  {
  }

  lemma FieldsDescribe(bytes: seq<bv8>, index: int, channels: int)
    requires 0 <= index < 12 && 0 <= channels < 16
    requires ReadAsc(bytes) == Some(Asc(2, index as bv8, channels as bv8))
    ensures Describes(bytes, FREQUENCIES[index], channels)
  {
    SmallByte(index);
    SmallByte(channels);
  }

  lemma IndexDecodes(index: int, channels: int)
    requires 0 <= index < 12 && 0 <= channels < 16
    ensures Describes(Bytes16(Pack(Bits(index), Bits(channels))), FREQUENCIES[index], channels)
  {
    SmallBits(index);
    SmallBits(channels);
    PackedFields(Bits(index), Bits(channels));
    FieldsDescribe(Bytes16(Pack(Bits(index), Bits(channels))), index, channels);
  }

  /** What the native side sets decodes to AAC-LC, the rate, or 44100 if it is in no table, and the
      channel count. */
  lemma NativeDecodes(rate: int, channels: int)
    requires 0 <= channels < 16
    ensures Describes(NativeCodecData(rate, channels), if rate in FREQUENCIES then rate else 44100, channels)
  {
    IndexInvertsTable(rate);
    IndexDecodes(if AacFreqIndex(rate) < 0 then 4 else AacFreqIndex(rate), channels);
  }

  // ---------------------------------------------------------------------------
  // The settings
  // ---------------------------------------------------------------------------

  datatype Settings = Settings(rate: int, channels: int, useOpus: bool)

  datatype Setter = SetRate(rate: int) | SetChannels(channels: int) | SetUseOpus(enable: bool)

  const DEFAULTS := Settings(48000, 1, true)

  function Apply(s: Settings, call: Setter): Settings {
    match call
    case SetRate(rate) => if AacFreqIndex(rate) < 0 then s else s.(rate := rate)
    case SetChannels(channels) => if channels != 1 && channels != 2 then s else s.(channels := channels)
    case SetUseOpus(enable) => s.(useOpus := enable, rate := if enable then 48000 else s.rate)
  }

  function ApplyAll(s: Settings, calls: seq<Setter>): Settings
    decreases calls
  {
    if calls == [] then s
    else ApplyAll(Apply(s, calls[0]), calls[1..])
  }

  predicate Supported(s: Settings) {
    s.rate in FREQUENCIES && (s.channels == 1 || s.channels == 2)
  }

  lemma DefaultsSupported()
    ensures Supported(DEFAULTS)
  {
    assert FREQUENCIES[3] == 48000;
  }

  lemma ApplyKeepsSupported(s: Settings, call: Setter)
    requires Supported(s)
    ensures Supported(Apply(s, call))
  {
    DefaultsSupported();
    if call.SetRate? { IndexInvertsTable(call.rate); }
  }

  lemma {:induction false} ApplyAppend(s: Settings, calls: seq<Setter>, last: Setter)
    ensures ApplyAll(s, calls + [last]) == Apply(ApplyAll(s, calls), last)
    decreases calls
  {
    if calls == [] {
      assert ([] + [last])[1..] == [];
    } else {
      assert (calls + [last])[1..] == calls[1..] + [last];
      ApplyAppend(Apply(s, calls[0]), calls[1..], last);
    }
  }

  /** After any calls, the last setter has the effect its name promises: a supported value is stored,
      any other ignored, nothing else changes; Opus forces 48 kHz. */
  lemma LastSetterWins(calls: seq<Setter>, rate: int, channels: int, enable: bool)
    ensures var s := ApplyAll(DEFAULTS, calls);
      && ApplyAll(DEFAULTS, calls + [SetRate(rate)])
         == (if rate in FREQUENCIES then Settings(rate, s.channels, s.useOpus) else s)
      && ApplyAll(DEFAULTS, calls + [SetChannels(channels)])
         == (if channels in {1, 2} then Settings(s.rate, channels, s.useOpus) else s)
      && ApplyAll(DEFAULTS, calls + [SetUseOpus(enable)])
         == Settings(if enable then 48000 else s.rate, s.channels, enable)
  {
    ApplyAppend(DEFAULTS, calls, SetRate(rate));
    ApplyAppend(DEFAULTS, calls, SetChannels(channels));
    ApplyAppend(DEFAULTS, calls, SetUseOpus(enable));
    IndexInvertsTable(rate);
  }

  lemma {:induction false} SettersKeepSupported(s: Settings, calls: seq<Setter>)
    requires Supported(s)
    ensures Supported(ApplyAll(s, calls))
    decreases calls
  {
    if calls != [] {
      ApplyKeepsSupported(s, calls[0]);
      SettersKeepSupported(Apply(s, calls[0]), calls[1..]);
    }
  }

  /** After any setter calls, both sides describe the same AAC stream, and a decoder reads the stored
      rate and channel count from it. */
  lemma SettersKeepCodecData(calls: seq<Setter>)
    ensures var s := ApplyAll(DEFAULTS, calls);
      && Supported(s)
      && BufferBytes(JavaCodecData(s.rate, s.channels)) == Some(NativeCodecData(s.rate, s.channels))
      && Describes(NativeCodecData(s.rate, s.channels), s.rate, s.channels)
  {
    DefaultsSupported();
    SettersKeepSupported(DEFAULTS, calls);
    var s := ApplyAll(DEFAULTS, calls);
    SmallBits(s.channels);
    SmallShift(Bits(s.channels));
    CodecDataAgreesIff(s.rate, s.channels);
    NativeDecodes(s.rate, s.channels);
  }

  /** The static fields and their setters. */
  class AudioSettings {
    var rate: int
    var channels: int
    var useOpus: bool

    function Value(): Settings
      reads this
    {
      Settings(rate, channels, useOpus)
    }

    constructor ()
      ensures Value() == DEFAULTS
    {
      rate, channels, useOpus := 48000, 1, true;
    }

    method SetAudioSampleRate(newRate: int)
      modifies this`rate
      ensures Value() == Apply(old(Value()), SetRate(newRate))
      ensures rate == if newRate in FREQUENCIES then newRate else old(rate)
      ensures old(Supported(Value())) ==> Supported(Value())
    {
      IndexInvertsTable(newRate);
      if AacFreqIndex(newRate) < 0 {
        return;
      }
      rate := newRate;
    }

    method SetAudioChannelCount(newChannels: int)
      modifies this`channels
      ensures Value() == Apply(old(Value()), SetChannels(newChannels))
      ensures channels == if newChannels == 1 || newChannels == 2 then newChannels else old(channels)
      ensures old(Supported(Value())) ==> Supported(Value())
    {
      if newChannels != 1 && newChannels != 2 {
        return;
      }
      channels := newChannels;
    }

    method SwitchOpus(enable: bool)
      modifies this`useOpus, this`rate
      ensures Value() == Apply(old(Value()), SetUseOpus(enable))
      ensures useOpus == enable && rate == if enable then 48000 else old(rate)
      ensures old(Supported(Value())) ==> Supported(Value())
    {
      DefaultsSupported();
      useOpus := enable;
      if enable && rate != 48000 {
        rate := 48000;
      }
    }
  }
}
