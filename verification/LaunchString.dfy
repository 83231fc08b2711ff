/** The launch string Java writes for the RTSP media factory, and what the native side reads from it. */
module LaunchString {
  import opened Options
  import opened Strings
  import AudioSpecificConfig

  datatype Mode = VideoOnly | AudioOnly | VideoAndAudio

  /** What initGstPipeline builds the string from. */
  datatype Config = Config(mode: Mode, h265: bool, parser: bool, opus: bool, rate: int, channels: int) {
    predicate HasVideo() { mode != AudioOnly }
    predicate HasAudio() { mode != VideoOnly }
  }

  // ---------------------------------------------------------------------------
  // The printer
  // ---------------------------------------------------------------------------

  /** The text up to a separator, which is a blank or, inside caps, a comma. */
  datatype Piece = Word(text: string) | Field(text: string) {
    function Sep(): char { if Word? then ' ' else ',' }
  }

  function Render(pieces: seq<Piece>): string {
    if pieces == [] then "" else pieces[0].text + [pieces[0].Sep()] + Render(pieces[1..])
  }

  function Common(stamped: bool): seq<Piece> {
    [Word("is-live=true"), Word("format=time"), Word(if stamped then "do-timestamp=true" else "do-timestamp=false")]
  }

  function VideoCaps(h265: bool): seq<Piece> {
    [Field(if h265 then "caps=video/x-h265" else "caps=video/x-h264")]
      + [Field("stream-format=byte-stream"), Word("alignment=au")]
  }

  function ParseStep(h265: bool, parser: bool): seq<Piece> {
    if parser then [Word("!"), Word(if h265 then "h265parse" else "h264parse")] else []
  }

  function VideoPay(h265: bool): seq<Piece> {
    [Word("!"), Word(if h265 then "rtph265pay" else "rtph264pay")]
  }

  function PayOptions(): seq<Piece> {
    [Word("config-interval=-1"), Word("aggregate-mode=zero-latency")] + [Word("name=pay0"), Word("pt=96")]
  }

  function VideoElements(h265: bool, parser: bool): seq<Piece> {
    ParseStep(h265, parser) + (VideoPay(h265) + PayOptions())
  }

  function VideoBranch(h265: bool, parser: bool): seq<Piece> {
    [Word("appsrc"), Word("name=src")] + (Common(true) + (VideoCaps(h265) + VideoElements(h265, parser)))
  }

  function PcmFormat(): seq<Piece> {
    [Field("format=(string)S16LE"), Field("layout=(string)interleaved")]
  }

  function AacFormat(): seq<Piece> {
    [Field("mpegversion=(int)4"), Field("stream-format=(string)raw")]
  }

  function AudioCaps(opus: bool): seq<Piece> {
    if opus then [Field("caps=audio/x-raw")] + PcmFormat() else [Field("caps=audio/mpeg")] + AacFormat()
  }

  function ChannelsField(channels: int): Piece {
    Field("channels=(int)" + Decimal(channels))
  }

  function RateText(rate: int): string {
    "rate=(int)" + Decimal(rate)
  }

  function CodecDataField(rate: int, channels: int): Piece {
    Word("codec_data=(buffer)" + AudioSpecificConfig.JavaCodecData(rate, channels))
  }

  function Queue(): seq<Piece> {
    [Word("!"), Word("queue"), Word("name=audPostQ")]
      + [Word("max-size-buffers=8"), Word("max-size-bytes=0"), Word("max-size-time=0")]
  }

  function PayName(pay1: bool): Piece {
    Word(if pay1 then "name=pay1" else "name=pay0")
  }

  function OpusEncoder(): seq<Piece> {
    [Word("opusenc"), Word("name=aenc"), Word("bitrate=64000")]
      + [Word("frame-size=10"), Word("audio-type=voice"), Word("!")]
  }

  function AudioPay(opus: bool, pay1: bool): seq<Piece> {
    [Word(if opus then "rtpopuspay" else "rtpmp4apay"), PayName(pay1), Word("pt=97")]
  }

  function AudioElements(opus: bool, pay1: bool): seq<Piece> {
    if opus then [Word("!"), Word("audioconvert"), Word("!")] + (OpusEncoder() + AudioPay(true, pay1))
    else [Word("!"), Word("aacparse"), Word("!")] + AudioPay(false, pay1)
  }

  function AudioHead(opus: bool): seq<Piece> {
    [Word("appsrc"), Word("name=audio")] + (Common(!opus) + AudioCaps(opus))
  }

  /** The rest of the audio branch behind its channel count. */
  function AudioRest(opus: bool, rate: int, channels: int, pay1: bool): seq<Piece> {
    if opus then [Word(RateText(rate))] + (Queue() + AudioElements(true, pay1))
    else [Field(RateText(rate))] + ([CodecDataField(rate, channels)] + (Queue() + AudioElements(false, pay1)))
  }

  function AudioBranch(opus: bool, rate: int, channels: int, pay1: bool): seq<Piece> {
    AudioHead(opus) + ([ChannelsField(channels)] + AudioRest(opus, rate, channels, pay1))
  }

  /** The opening parenthesis, the video branch and, in front of an audio branch, a second blank. */
  function VideoPart(c: Config): seq<Piece> {
    [Word("(")] + (if c.HasVideo() then VideoBranch(c.h265, c.parser) else [])
      + (if c.mode == VideoAndAudio then [Word("")] else [])
  }

  function AudioPart(c: Config): seq<Piece> {
    if c.HasAudio() then AudioBranch(c.opus, c.rate, c.channels, c.mode == VideoAndAudio) else []
  }

  function LaunchText(c: Config): string {
    Render(VideoPart(c) + AudioPart(c)) + ")"
  }

  // ---------------------------------------------------------------------------
  // The parser
  // ---------------------------------------------------------------------------

  /** The strings the native side searches for, and the name of the field that GStreamer reads the
      codec_data from. */
  datatype Key =
    H265 | Hevc | UpperH265 | UpperHevc | NameSrc | NameAudio | RateInt | ChannelsInt | Opusenc | CodecData
  {
    function Text(): string {
      match this
      case H265 => "h265"
      case Hevc => "hevc"
      case UpperH265 => "H265"
      case UpperHevc => "HEVC"
      case NameSrc => "name=src"
      case NameAudio => "name=audio"
      case RateInt => "rate=(int)"
      case ChannelsInt => "channels=(int)"
      case Opusenc => "opusenc"
      case CodecData => "codec_data=(buffer)"
    }

    predicate OfCodec() { H265? || Hevc? || UpperH265? || UpperHevc? }

    predicate OfFormat() { RateInt? || ChannelsInt? || CodecData? }

    /** A letter of the key that a word lacks; some keys leave the choice to the word. */
    function Letter(own: char): char {
      match this
      case UpperH265 | UpperHevc => 'H'
      case H265 | Hevc => 'h'
      case RateInt | ChannelsInt | CodecData => '('
      case _ => own
    }
  }

  datatype Detected = Detected(h265: bool, mode: Mode, rate: int, channels: int, rawPcm: bool)

  function Detect(text: string): Detected {
    var hasVideo := Contains(text, NameSrc.Text());
    var hasAudio := Contains(text, NameAudio.Text());
    var rate := Behind(text, RateInt.Text());
    var channels := Behind(text, ChannelsInt.Text());
    Detected(
      Contains(text, H265.Text()) || Contains(text, Hevc.Text())
        || Contains(text, UpperH265.Text()) || Contains(text, UpperHevc.Text()),
      if hasVideo && hasAudio then VideoAndAudio else if hasVideo then VideoOnly else AudioOnly,
      if rate.Some? then Atoi(rate.value) else 44100,
      if channels.Some? then Atoi(channels.value) else 1,
      Contains(text, Opusenc.Text()))
  }

  // ---------------------------------------------------------------------------
  // Searching pieces
  // ---------------------------------------------------------------------------

  ghost predicate Quiet(pieces: seq<Piece>, key: string) {
    forall i :: 0 <= i < |pieces| ==> Avoids(pieces[i].text, key)
  }

  lemma {:induction false} RenderAppend(a: seq<Piece>, b: seq<Piece>)
    ensures Render(a + b) == Render(a) + Render(b)
  {
    if a == [] {
      assert a + b == b;
    } else {
      assert (a + b)[1..] == a[1..] + b;
      RenderAppend(a[1..], b);
      assert Render(a + b) == a[0].text + [a[0].Sep()] + (Render(a[1..]) + Render(b));
    }
  }

  predicate IsKey(key: string) {
    |key| > 1 && ' ' !in key && ',' !in key
  }

  /** The first occurrence of a key that some pieces lack lies behind them. */
  lemma {:induction false} PassQuiet(pieces: seq<Piece>, rest: string, key: string)
    requires IsKey(key) && Quiet(pieces, key)
    ensures Behind(Render(pieces) + rest, key) == Behind(rest, key)
  {
    if pieces == [] {
      assert Render(pieces) + rest == rest;
    } else {
      var behind := Render(pieces[1..]) + rest;
      assert Render(pieces) + rest == pieces[0].text + [pieces[0].Sep()] + behind;
      SkipWord(pieces[0].text, pieces[0].Sep(), behind, key);
      PassQuiet(pieces[1..], rest, key);
    }
  }

  lemma AllQuiet(pieces: seq<Piece>, key: string)
    requires IsKey(key) && Quiet(pieces, key)
    ensures !Contains(Render(pieces) + ")", key)
  {
    PassQuiet(pieces, ")", key);
    assert ")"[1..] == "";
  }

  lemma RenderFront(piece: Piece, after: seq<Piece>, key: string, value: string)
    requires piece.text == key + value
    ensures Render([piece] + after) + ")" == key + value + ([piece.Sep()] + Render(after) + ")")
  {
    assert ([piece] + after)[1..] == after;
  }

  /** The value behind the first key. */
  lemma FirstValue(before: seq<Piece>, piece: Piece, after: seq<Piece>, key: string, value: string)
    requires IsKey(key) && Quiet(before, key) && piece.text == key + value
    ensures Behind(Render(before + ([piece] + after)) + ")", key) == Some(value + ([piece.Sep()] + Render(after) + ")"))
  {
    var rest := Render([piece] + after) + ")";
    RenderAppend(before, [piece] + after);
    assert Render(before + ([piece] + after)) + ")" == Render(before) + rest;
    PassQuiet(before, rest, key);
    RenderFront(piece, after, key, value);
    StartsWithKey(key, value, [piece.Sep()] + Render(after) + ")");
  }

  /** The number behind a key that occurs first in a given piece. */
  lemma ReadsNumber(before: seq<Piece>, piece: Piece, after: seq<Piece>, key: string, n: int)
    requires IsKey(key) && Quiet(before, key) && piece.text == key + Decimal(n)
    ensures var found := Behind(Render(before + ([piece] + after)) + ")", key);
      found.Some? && Atoi(found.value) == n
  {
    FirstValue(before, piece, after, key, Decimal(n));
    AtoiDecimal(n, [piece.Sep()] + Render(after) + ")");
  }

  lemma {:induction false} Found(pieces: seq<Piece>, piece: Piece, key: string, front: string)
    requires piece in pieces && piece.text == front + key
    ensures Contains(Render(pieces) + ")", key)
    decreases pieces
  {
    var behind := [pieces[0].Sep()] + Render(pieces[1..]) + ")";
    assert Render(pieces) + ")" == pieces[0].text + behind;
    if pieces[0] == piece {
      Surrounded(front, key, behind);
    } else {
      Found(pieces[1..], piece, key, front);
      assert pieces[0].text + behind == (pieces[0].text + [pieces[0].Sep()]) + (Render(pieces[1..]) + ")");
      Prefixed(pieces[0].text + [pieces[0].Sep()], Render(pieces[1..]) + ")", key);
    }
  }

  // ---------------------------------------------------------------------------
  // Absence of the search keys
  // ---------------------------------------------------------------------------

  lemma KeysAreSearchable(key: Key)
    ensures IsKey(key.Text())
  {
  }

  lemma LetterOfKey(key: Key, own: char)
    requires key.NameSrc? ==> own in "ncmr"
    requires key.NameAudio? ==> own in "nuom"
    requires key.Opusenc? ==> own in "ncuop"
    ensures key.Letter(own) in key.Text()
  {
  }

  ghost predicate Lacks(word: string, letter: char) {
    forall i :: 0 <= i < |word| ==> word[i] != letter
  }

  predicate Usual(letter: char, own: char) {
    letter == '(' || letter == 'H' || letter == 'h' || letter == own
  }

  lemma CommonWords(letter: char)
    requires Usual(letter, 'n')
    ensures Lacks("appsrc", letter) && Lacks("is-live=true", letter) && Lacks("format=time", letter)
    ensures Lacks("do-timestamp=true", letter) && Lacks("do-timestamp=false", letter)
  {
  }

  lemma VideoWords(letter: char)
    requires Usual(letter, 'o')
    ensures Lacks("appsrc", letter) && Lacks("name=src", letter)
    ensures Lacks("alignment=au", letter) && Lacks("pt=96", letter)
  {
  }

  lemma VideoOptions(letter: char)
    requires Usual(letter, 'u')
    ensures Lacks("stream-format=byte-stream", letter) && Lacks("config-interval=-1", letter)
    ensures Lacks("aggregate-mode=zero-latency", letter) && Lacks("name=pay0", letter)
  {
  }

  lemma CodecWords(letter: char)
    requires letter == '(' || letter == 'H' || letter == 'u'
    ensures Lacks("caps=video/x-h264", letter) && Lacks("h264parse", letter) && Lacks("rtph264pay", letter)
    ensures Lacks("caps=video/x-h265", letter) && Lacks("h265parse", letter) && Lacks("rtph265pay", letter)
  {
  }

  lemma H264Words()
    ensures Lacks("caps=video/x-h264", '5') && Lacks("h264parse", '5') && Lacks("rtph264pay", '5')
    ensures Lacks("h264parse", 'v') && Lacks("rtph264pay", 'v')
    ensures Avoids("caps=video/x-h264", "hevc")
  {
    AbsentByPivot("caps=video/x-h264", "hevc", 0, 13, 1);
  }

  lemma AudioNames(letter: char)
    requires Usual(letter, 'c')
    ensures Lacks("name=audio", letter) && Lacks("name=audPostQ", letter)
    ensures Lacks("name=pay0", letter) && Lacks("name=pay1", letter)
  {
  }

  lemma QueueWords(letter: char)
    requires Usual(letter, 'n')
    ensures Lacks("queue", letter) && Lacks("max-size-buffers=8", letter)
    ensures Lacks("max-size-bytes=0", letter) && Lacks("max-size-time=0", letter)
  {
  }

  lemma PcmWords(letter: char)
    ensures Usual(letter, 'n') ==> Lacks("caps=audio/x-raw", letter)
    ensures letter == 'H' || letter == 'h' || letter == 'c' || letter == 'e' ==> Lacks("format=(string)S16LE", letter)
    ensures letter == 'H' || letter == 'h' || letter == 'c' ==> Lacks("layout=(string)interleaved", letter)
  {
  }

  lemma AacWords(letter: char)
    ensures Usual(letter, 'n') ==> Lacks("caps=audio/mpeg", letter)
    ensures letter == 'H' || letter == 'h' || letter == 'c' || letter == 'a' ==> Lacks("mpegversion=(int)4", letter)
    ensures letter == 'H' || letter == 'h' || letter == 'c' ==> Lacks("stream-format=(string)raw", letter)
  {
  }

  lemma FormatPivots()
    ensures Avoids("layout=(string)interleaved", "rate=(int)")
    ensures Avoids("stream-format=(string)raw", "rate=(int)")
  {
    AbsentByPivot("layout=(string)interleaved", "rate=(int)", 5, 7, 6);
    AbsentByPivot("stream-format=(string)raw", "rate=(int)", 5, 14, 6);
  }

  lemma OpusWords(letter: char)
    requires Usual(letter, 'n')
    ensures Lacks("bitrate=64000", letter) && Lacks("frame-size=10", letter) && Lacks("audio-type=voice", letter)
  {
  }

  lemma PayWords(letter: char)
    requires Usual(letter, 'n')
    ensures Lacks("rtpopuspay", letter) && Lacks("rtpmp4apay", letter) && Lacks("pt=97", letter)
    ensures Lacks("aacparse", letter)
  {
  }

  lemma OpusNames(letter: char)
    requires letter == 'H' || letter == 'h'
    ensures Lacks("audioconvert", letter) && Lacks("opusenc", letter) && Lacks("name=aenc", letter)
  {
  }

  lemma OpusNamesSource()
    ensures Lacks("audioconvert", 'm') && Lacks("opusenc", 'm') && Lacks("name=aenc", 'r')
  {
  }

  // ---------------------------------------------------------------------------

  lemma OneQuiet(piece: Piece, key: string, letter: char)
    requires letter in key && Lacks(piece.text, letter)
    ensures Quiet([piece], key)
  {
    AbsentByChar(piece.text, key, letter);
  }

  lemma TwoQuiet(pieces: seq<Piece>, key: string, a: char, b: char)
    requires |pieces| == 2
    requires a in key && Lacks(pieces[0].text, a)
    requires b in key && Lacks(pieces[1].text, b)
    ensures Quiet(pieces, key)
  {
    AbsentByChar(pieces[0].text, key, a);
    AbsentByChar(pieces[1].text, key, b);
  }

  lemma ThreeQuiet(pieces: seq<Piece>, key: string, a: char, b: char, c: char)
    requires |pieces| == 3
    requires a in key && Lacks(pieces[0].text, a)
    requires b in key && Lacks(pieces[1].text, b)
    requires c in key && Lacks(pieces[2].text, c)
    ensures Quiet(pieces, key)
  {
    AbsentByChar(pieces[0].text, key, a);
    AbsentByChar(pieces[1].text, key, b);
    AbsentByChar(pieces[2].text, key, c);
  }

  lemma JoinQuiet(a: seq<Piece>, b: seq<Piece>, key: string)
    requires Quiet(a, key) && Quiet(b, key)
    ensures Quiet(a + b, key)
  {
  }

  lemma StartQuiet(key: Key)
    ensures Quiet([Word("(")], key.Text()) && Quiet([Word("")], key.Text())
  {
    var c := if key.OfFormat() then 'e' else key.Letter('n');
    LetterOfKey(key, 'n');
    OneQuiet(Word("("), key.Text(), c);
    OneQuiet(Word(""), key.Text(), c);
  }

  lemma CommonQuiet(stamped: bool, key: Key)
    ensures Quiet(Common(stamped), key.Text())
  {
    var c := key.Letter('n');
    LetterOfKey(key, 'n');
    CommonWords(c);
    ThreeQuiet(Common(stamped), key.Text(), c, c, c);
  }

  predicate ForeignToVideo(key: Key, h265: bool) {
    key.OfFormat() || key.NameAudio? || key.Opusenc? || (key.OfCodec() && !h265)
  }

  /** The words that name the codec. */
  lemma CodecQuiet(h265: bool, parser: bool, key: Key)
    requires ForeignToVideo(key, h265)
    ensures Quiet(VideoCaps(h265)[..1], key.Text())
    ensures Quiet(ParseStep(h265, parser), key.Text()) && Quiet(VideoPay(h265), key.Text())
  {
    var c := if key.H265? then '5' else if key.Hevc? then 'v' else key.Letter('u');
    LetterOfKey(key, 'u');
    assert c in key.Text();
    H264Words();
    if key != H265 && key != Hevc { CodecWords(c); }
    if key != Hevc { OneQuiet(VideoCaps(h265)[0], key.Text(), c); }
    if parser { TwoQuiet(ParseStep(h265, true), key.Text(), c, c); }
    TwoQuiet(VideoPay(h265), key.Text(), c, c);
  }

  lemma VideoOptionsQuiet(h265: bool, key: Key)
    requires ForeignToVideo(key, h265)
    ensures Quiet(VideoCaps(h265)[1..], key.Text()) && Quiet(PayOptions(), key.Text())
  {
    var u, o := key.Letter('u'), key.Letter('o');
    LetterOfKey(key, 'u');
    LetterOfKey(key, 'o');
    VideoOptions(u);
    VideoWords(o);
    TwoQuiet(VideoCaps(h265)[1..], key.Text(), u, o);
    TwoQuiet(PayOptions()[..2], key.Text(), u, u);
    TwoQuiet(PayOptions()[2..], key.Text(), u, o);
    JoinQuiet(PayOptions()[..2], PayOptions()[2..], key.Text());
  }

  lemma VideoElementsQuiet(h265: bool, parser: bool, key: Key)
    requires ForeignToVideo(key, h265)
    ensures Quiet(VideoCaps(h265) + VideoElements(h265, parser), key.Text())
  {
    CodecQuiet(h265, parser, key);
    VideoOptionsQuiet(h265, key);
    JoinQuiet(VideoCaps(h265)[..1], VideoCaps(h265)[1..], key.Text());
    assert VideoCaps(h265)[..1] + VideoCaps(h265)[1..] == VideoCaps(h265);
    JoinQuiet(VideoPay(h265), PayOptions(), key.Text());
    JoinQuiet(ParseStep(h265, parser), VideoPay(h265) + PayOptions(), key.Text());
    JoinQuiet(VideoCaps(h265), VideoElements(h265, parser), key.Text());
  }

  lemma VideoSourceQuiet(key: Key)
    requires !key.NameSrc?
    ensures Quiet([Word("appsrc"), Word("name=src")], key.Text())
  {
    var o := key.Letter('o');
    LetterOfKey(key, 'o');
    VideoWords(o);
    TwoQuiet([Word("appsrc"), Word("name=src")], key.Text(), o, o);
  }

  lemma VideoQuiet(h265: bool, parser: bool, key: Key)
    requires ForeignToVideo(key, h265)
    ensures Quiet(VideoBranch(h265, parser), key.Text())
  {
    VideoElementsQuiet(h265, parser, key);
    CommonQuiet(true, key);
    JoinQuiet(Common(true), VideoCaps(h265) + VideoElements(h265, parser), key.Text());
    VideoSourceQuiet(key);
    var rest := Common(true) + (VideoCaps(h265) + VideoElements(h265, parser));
    JoinQuiet([Word("appsrc"), Word("name=src")], rest, key.Text());
  }

  lemma AudioSourceQuiet(key: Key)
    requires !key.NameAudio?
    ensures Quiet([Word("appsrc"), Word("name=audio")], key.Text())
  {
    var n, c := key.Letter('n'), key.Letter('c');
    LetterOfKey(key, 'n');
    LetterOfKey(key, 'c');
    CommonWords(n);
    AudioNames(c);
    TwoQuiet([Word("appsrc"), Word("name=audio")], key.Text(), n, c);
  }

  lemma PcmFormatQuiet(key: Key)
    requires !key.NameAudio? && !key.RateInt?
    ensures Quiet(PcmFormat(), key.Text())
  {
    var c := if key.ChannelsInt? || key.CodecData? then 'c' else key.Letter('c');
    LetterOfKey(key, 'c');
    PcmWords(c);
    TwoQuiet(PcmFormat(), key.Text(), c, c);
  }

  lemma AacFormatQuiet(key: Key)
    requires !key.NameAudio? && !key.RateInt?
    ensures Quiet(AacFormat(), key.Text())
  {
    var c := if key.ChannelsInt? || key.CodecData? then 'c' else key.Letter('c');
    LetterOfKey(key, 'c');
    AacWords(c);
    TwoQuiet(AacFormat(), key.Text(), c, c);
  }

  lemma FormatQuietForRate()
    ensures Quiet(PcmFormat(), RateInt.Text()) && Quiet(AacFormat(), RateInt.Text())
  {
    PcmWords('e');
    AacWords('a');
    OneQuiet(PcmFormat()[0], RateInt.Text(), 'e');
    OneQuiet(AacFormat()[0], RateInt.Text(), 'a');
    FormatPivots();
  }

  lemma AudioCapsQuiet(opus: bool, key: Key)
    requires !key.NameAudio?
    ensures Quiet(AudioCaps(opus), key.Text())
  {
    var n := key.Letter('n');
    LetterOfKey(key, 'n');
    PcmWords(n);
    AacWords(n);
    OneQuiet(AudioCaps(opus)[0], key.Text(), n);
    if key.RateInt? {
      FormatQuietForRate();
    } else {
      PcmFormatQuiet(key);
      AacFormatQuiet(key);
    }
  }

  /** Of the keys, only the name of the audio source occurs in front of the channel count. */
  lemma AudioHeadQuiet(opus: bool, key: Key)
    requires !key.NameAudio?
    ensures Quiet(AudioHead(opus), key.Text())
  {
    AudioSourceQuiet(key);
    CommonQuiet(!opus, key);
    AudioCapsQuiet(opus, key);
    JoinQuiet(Common(!opus), AudioCaps(opus), key.Text());
    JoinQuiet([Word("appsrc"), Word("name=audio")], Common(!opus) + AudioCaps(opus), key.Text());
  }

  lemma QueueQuiet(key: Key)
    requires !key.NameAudio?
    ensures Quiet(Queue(), key.Text())
  {
    var n, c := key.Letter('n'), key.Letter('c');
    LetterOfKey(key, 'n');
    LetterOfKey(key, 'c');
    QueueWords(n);
    AudioNames(c);
    ThreeQuiet(Queue()[..3], key.Text(), n, n, c);
    ThreeQuiet(Queue()[3..], key.Text(), n, n, n);
    JoinQuiet(Queue()[..3], Queue()[3..], key.Text());
  }

  lemma AudioPayQuiet(opus: bool, pay1: bool, key: Key)
    requires !key.NameAudio?
    ensures Quiet(AudioPay(opus, pay1), key.Text())
  {
    var n, c := key.Letter('n'), key.Letter('c');
    LetterOfKey(key, 'n');
    LetterOfKey(key, 'c');
    PayWords(n);
    AudioNames(c);
    ThreeQuiet(AudioPay(opus, pay1), key.Text(), n, c, n);
  }

  lemma OpusEncoderQuiet(key: Key)
    requires key.NameSrc? || key.OfCodec()
    ensures Quiet([Word("!"), Word("audioconvert"), Word("!")], key.Text())
    ensures Quiet(OpusEncoder(), key.Text())
  {
    var n, m, r := key.Letter('n'), key.Letter('m'), key.Letter('r');
    LetterOfKey(key, 'n');
    LetterOfKey(key, 'm');
    LetterOfKey(key, 'r');
    if key.NameSrc? { OpusNamesSource(); } else { OpusNames(m); }
    OpusWords(n);
    ThreeQuiet([Word("!"), Word("audioconvert"), Word("!")], key.Text(), n, m, n);
    ThreeQuiet(OpusEncoder()[..3], key.Text(), m, r, n);
    ThreeQuiet(OpusEncoder()[3..], key.Text(), n, n, n);
    JoinQuiet(OpusEncoder()[..3], OpusEncoder()[3..], key.Text());
  }

  lemma AudioElementsQuiet(opus: bool, pay1: bool, key: Key)
    requires key.NameSrc? || key.OfCodec() || (key.Opusenc? && !opus)
    ensures Quiet(AudioElements(opus, pay1), key.Text())
  {
    AudioPayQuiet(opus, pay1, key);
    if opus {
      OpusEncoderQuiet(key);
      JoinQuiet(OpusEncoder(), AudioPay(true, pay1), key.Text());
      JoinQuiet([Word("!"), Word("audioconvert"), Word("!")], OpusEncoder() + AudioPay(true, pay1), key.Text());
    } else {
      var n := key.Letter('n');
      LetterOfKey(key, 'n');
      PayWords(n);
      ThreeQuiet([Word("!"), Word("aacparse"), Word("!")], key.Text(), n, n, n);
      JoinQuiet([Word("!"), Word("aacparse"), Word("!")], AudioPay(false, pay1), key.Text());
    }
  }

  lemma NumberLacks(name: string, value: string, letter: char)
    requires Lacks(name, letter) && Lacks(value, letter)
    ensures Lacks(name + value, letter)
  {
  }

  lemma ChannelsWord(n: int, letter: char)
    requires letter == 'r' || letter == 'v' || letter == 'H' || letter == 'm' || letter == 'o' || letter == 'd'
    ensures Lacks("channels=(int)" + Decimal(n), letter)
  {
    NumberLacks("channels=(int)", Decimal(n), letter);
  }

  lemma CodecDataWord(rate: int, channels: int, letter: char)
    requires letter == 'H' || letter == 'h' || letter == 'm' || letter == 'p'
    ensures Lacks(CodecDataField(rate, channels).text, letter)
  {
    NumberLacks("codec_data=(buffer)", AudioSpecificConfig.JavaCodecData(rate, channels), letter);
  }

  lemma ChannelsQuiet(channels: int, key: Key)
    requires !key.NameAudio? && !key.ChannelsInt?
    ensures Quiet([ChannelsField(channels)], key.Text())
  {
    var c := if key.CodecData? then 'd' else if key.RateInt? then 'r' else if key.Hevc? then 'v'
             else if key.NameSrc? then 'm' else key.Letter('o');
    LetterOfKey(key, if key.NameSrc? then 'm' else 'o');
    assert c in key.Text();
    if key.H265? {
      AbsentByPivot(ChannelsField(channels).text, "h265", 0, 1, 1);
    } else {
      ChannelsWord(channels, c);
      OneQuiet(ChannelsField(channels), key.Text(), c);
    }
  }

  lemma RateQuiet(rate: int, key: Key)
    requires key.NameSrc? || key.OfCodec() || key.Opusenc?
    ensures Quiet([Word(RateText(rate))], key.Text()) && Quiet([Field(RateText(rate))], key.Text())
  {
    var c := key.Letter('c');
    LetterOfKey(key, 'c');
    NumberLacks("rate=(int)", Decimal(rate), c);
    OneQuiet(Word(RateText(rate)), key.Text(), c);
    OneQuiet(Field(RateText(rate)), key.Text(), c);
  }

  lemma CodecDataQuiet(rate: int, channels: int, key: Key)
    requires key.NameSrc? || key.OfCodec() || key.Opusenc?
    ensures Quiet([CodecDataField(rate, channels)], key.Text())
  {
    var c := key.Letter(if key.NameSrc? then 'm' else 'p');
    LetterOfKey(key, if key.NameSrc? then 'm' else 'p');
    CodecDataWord(rate, channels, c);
    OneQuiet(CodecDataField(rate, channels), key.Text(), c);
  }

  lemma AudioRestQuiet(opus: bool, rate: int, channels: int, pay1: bool, key: Key)
    requires key.NameSrc? || key.OfCodec() || (key.Opusenc? && !opus)
    ensures Quiet(AudioRest(opus, rate, channels, pay1), key.Text())
  {
    RateQuiet(rate, key);
    QueueQuiet(key);
    AudioElementsQuiet(opus, pay1, key);
    JoinQuiet(Queue(), AudioElements(opus, pay1), key.Text());
    if opus {
      JoinQuiet([Word(RateText(rate))], Queue() + AudioElements(true, pay1), key.Text());
    } else {
      var behind := [CodecDataField(rate, channels)] + (Queue() + AudioElements(false, pay1));
      CodecDataQuiet(rate, channels, key);
      JoinQuiet([CodecDataField(rate, channels)], Queue() + AudioElements(false, pay1), key.Text());
      JoinQuiet([Field(RateText(rate))], behind, key.Text());
    }
  }

  lemma AudioPartQuiet(c: Config, key: Key)
    requires c.HasAudio() ==> key.NameSrc? || key.OfCodec() || (key.Opusenc? && !c.opus)
    ensures Quiet(AudioPart(c), key.Text())
  {
    if c.HasAudio() {
      var rest := AudioRest(c.opus, c.rate, c.channels, c.mode == VideoAndAudio);
      AudioHeadQuiet(c.opus, key);
      ChannelsQuiet(c.channels, key);
      AudioRestQuiet(c.opus, c.rate, c.channels, c.mode == VideoAndAudio, key);
      JoinQuiet([ChannelsField(c.channels)], rest, key.Text());
      JoinQuiet(AudioHead(c.opus), [ChannelsField(c.channels)] + rest, key.Text());
    }
  }

  lemma VideoPartQuiet(c: Config, key: Key)
    requires c.HasVideo() ==> ForeignToVideo(key, c.h265)
    ensures Quiet(VideoPart(c), key.Text())
  {
    var video := if c.HasVideo() then VideoBranch(c.h265, c.parser) else [];
    var gap := if c.mode == VideoAndAudio then [Word("")] else [];
    StartQuiet(key);
    if c.HasVideo() { VideoQuiet(c.h265, c.parser, key); }
    JoinQuiet([Word("(")], video, key.Text());
    JoinQuiet([Word("(")] + video, gap, key.Text());
  }

  lemma Nowhere(c: Config, key: Key)
    requires c.HasVideo() ==> ForeignToVideo(key, c.h265)
    requires c.HasAudio() ==> key.NameSrc? || key.OfCodec() || (key.Opusenc? && !c.opus)
    ensures !Contains(LaunchText(c), key.Text())
  {
    KeysAreSearchable(key);
    VideoPartQuiet(c, key);
    AudioPartQuiet(c, key);
    JoinQuiet(VideoPart(c), AudioPart(c), key.Text());
    AllQuiet(VideoPart(c) + AudioPart(c), key.Text());
  }

  // ---------------------------------------------------------------------------
  // Round trip
  // ---------------------------------------------------------------------------

  lemma Regroup(a: seq<Piece>, b: seq<Piece>, c: seq<Piece>)
    ensures a + (b + c) == a + b + c
  {
  }

  lemma VideoPieces(c: Config)
    requires c.HasVideo()
    ensures Word("name=src") in VideoPart(c) && VideoCaps(c.h265)[0] in VideoPart(c)
  {
    var video := VideoBranch(c.h265, c.parser);
    assert video[1] == Word("name=src");
    assert video[5] == VideoCaps(c.h265)[0];
    WithinVideo(c, 1);
    WithinVideo(c, 5);
  }

  lemma WithinVideo(c: Config, at: nat)
    requires c.HasVideo() && at < |VideoBranch(c.h265, c.parser)|
    ensures VideoBranch(c.h265, c.parser)[at] in VideoPart(c)
  {
    assert VideoPart(c)[at + 1] == VideoBranch(c.h265, c.parser)[at];
  }

  lemma AudioPieces(c: Config)
    requires c.HasAudio()
    ensures Word("name=audio") in AudioPart(c)
    ensures c.opus ==> Word("opusenc") in AudioPart(c)
  {
    assert Word("name=audio") == AudioHead(c.opus)[1];
    if c.opus {
      assert Word("opusenc") == OpusEncoder()[0];
      assert Word("opusenc") in OpusEncoder() + AudioPay(true, c.mode == VideoAndAudio);
      assert Word("opusenc") in AudioElements(true, c.mode == VideoAndAudio);
    }
  }

  /** Whether the string Java builds contains a key. */
  predicate Expected(c: Config, key: Key) {
    match key
    case NameSrc => c.HasVideo()
    case H265 => c.HasVideo() && c.h265
    case Opusenc => c.HasAudio() && c.opus
    case NameAudio | RateInt | ChannelsInt => c.HasAudio()
    case CodecData => c.HasAudio() && !c.opus
    case Hevc | UpperH265 | UpperHevc => false
  }

  lemma H265Caps()
    ensures VideoCaps(true)[0].text == "caps=video/x-" + H265.Text()
  {
    assert "caps=video/x-h265" == "caps=video/x-" + "h265";
  }

  lemma FoundIn(video: seq<Piece>, audio: seq<Piece>, piece: Piece, key: string, front: string)
    requires piece in video || piece in audio
    requires piece.text == front + key
    ensures Contains(Render(video + audio) + ")", key)
  {
    Found(video + audio, piece, key, front);
  }

  lemma Occurs(c: Config, key: Key)
    requires Expected(c, key) && !key.OfFormat()
    ensures Contains(LaunchText(c), key.Text())
  {
    if key.H265? {
      VideoPieces(c);
      H265Caps();
      FoundIn(VideoPart(c), AudioPart(c), VideoCaps(true)[0], key.Text(), "caps=video/x-");
    } else {
      if key.NameSrc? { VideoPieces(c); } else { AudioPieces(c); }
      assert key.Text() == "" + key.Text();
      FoundIn(VideoPart(c), AudioPart(c), Word(key.Text()), key.Text(), "");
    }
  }

  /** In front of the number stands nothing that looks like its key. */
  lemma NumberOccurrence(c: Config, key: Key, n: int) returns (before: seq<Piece>, piece: Piece, after: seq<Piece>)
    requires c.HasAudio() && (key.RateInt? || key.ChannelsInt?) && n == (if key.RateInt? then c.rate else c.channels)
    ensures VideoPart(c) + AudioPart(c) == before + ([piece] + after)
    ensures Quiet(before, key.Text()) && piece.text == key.Text() + Decimal(n)
  {
    var head, channels := VideoPart(c) + AudioHead(c.opus), [ChannelsField(c.channels)];
    var rest := AudioRest(c.opus, c.rate, c.channels, c.mode == VideoAndAudio);
    VideoPartQuiet(c, key);
    AudioHeadQuiet(c.opus, key);
    JoinQuiet(VideoPart(c), AudioHead(c.opus), key.Text());
    Regroup(VideoPart(c), AudioHead(c.opus), channels + rest);
    if key.ChannelsInt? {
      before, piece, after := head, ChannelsField(c.channels), rest;
    } else {
      ChannelsQuiet(c.channels, key);
      JoinQuiet(head, channels, key.Text());
      Regroup(head, channels, rest);
      before, piece, after := head + channels, rest[0], rest[1..];
      assert rest == [piece] + after;
    }
  }

  lemma NumberDetected(c: Config, key: Key, n: int)
    requires c.HasAudio() && (key.RateInt? || key.ChannelsInt?) && n == (if key.RateInt? then c.rate else c.channels)
    ensures var found := Behind(LaunchText(c), key.Text());
      found.Some? && Atoi(found.value) == n
  {
    KeysAreSearchable(key);
    var before, piece, after := NumberOccurrence(c, key, n);
    ReadsNumber(before, piece, after, key.Text(), n);
  }

  /** A key is found exactly where the builder meant it. A second spelling of H.265 is of no interest
      once the first has been found. */
  lemma DetectedIffExpected(c: Config, key: Key)
    requires c.HasVideo() && c.h265 && key.OfCodec() ==> key.H265?
    requires !key.CodecData?
    ensures Contains(LaunchText(c), key.Text()) <==> Expected(c, key)
  {
    if !Expected(c, key) {
      Nowhere(c, key);
    } else if key.OfFormat() {
      NumberDetected(c, key, if key.RateInt? then c.rate else c.channels);
    } else {
      Occurs(c, key);
    }
  }

  ghost predicate Numbered(text: string, key: Key, n: int) {
    Behind(text, key.Text()).Some? && Atoi(Behind(text, key.Text()).value) == n
  }

  /** What the search in a text amounts to. */
  ghost predicate Telling(text: string, c: Config) {
    && (forall key: Key :: !key.CodecData? && (c.HasVideo() && c.h265 && key.OfCodec() ==> key.H265?) ==>
        (Contains(text, key.Text()) <==> Expected(c, key)))
    && (c.HasAudio() ==> Numbered(text, RateInt, c.rate) && Numbered(text, ChannelsInt, c.channels))
  }

  lemma LaunchTextTells(c: Config)
    ensures Telling(LaunchText(c), c)
  {
    forall key: Key | !key.CodecData? && (c.HasVideo() && c.h265 && key.OfCodec() ==> key.H265?)
      ensures Contains(LaunchText(c), key.Text()) <==> Expected(c, key)
    {
      DetectedIffExpected(c, key);
    }
    if c.HasAudio() {
      NumberDetected(c, RateInt, c.rate);
      NumberDetected(c, ChannelsInt, c.channels);
    }
  }

  function Meant(c: Config): Detected {
    Detected(
      c.HasVideo() && c.h265,
      c.mode,
      if c.HasAudio() then c.rate else 44100,
      if c.HasAudio() then c.channels else 1,
      c.HasAudio() && c.opus)
  }

  lemma TellingDetects(text: string, c: Config)
    requires Telling(text, c)
    ensures Detect(text) == Meant(c)
  {
    assert forall key: Key :: key.OfCodec() && Contains(text, key.Text()) ==> c.HasVideo() && c.h265;
  }

  /** The native side recovers from the launch string everything Java built it from. */
  lemma DetectionRoundTrip(c: Config)
    ensures Detect(LaunchText(c)) == Meant(c)
  {
    LaunchTextTells(c);
    TellingDetects(LaunchText(c), c);
  }

  /** In an AAC launch string, nothing in front of the codec_data looks like its name. */
  lemma CodecDataOccurrence(c: Config) returns (before: seq<Piece>, after: seq<Piece>)
    requires c.HasAudio() && !c.opus
    ensures VideoPart(c) + AudioPart(c) == before + ([CodecDataField(c.rate, c.channels)] + after)
    ensures Quiet(before, CodecData.Text())
  {
    var head, channels := VideoPart(c) + AudioHead(false), [ChannelsField(c.channels)];
    var rate, field := [Field(RateText(c.rate))], [CodecDataField(c.rate, c.channels)];
    after := Queue() + AudioElements(false, c.mode == VideoAndAudio);
    VideoPartQuiet(c, CodecData);
    AudioHeadQuiet(false, CodecData);
    JoinQuiet(VideoPart(c), AudioHead(false), CodecData.Text());
    ChannelsQuiet(c.channels, CodecData);
    JoinQuiet(head, channels, CodecData.Text());
    NumberLacks("rate=(int)", Decimal(c.rate), 'd');
    OneQuiet(rate[0], CodecData.Text(), 'd');
    JoinQuiet(head + channels, rate, CodecData.Text());
    before := head + channels + rate;
    Regroup(VideoPart(c), AudioHead(false), channels + (rate + (field + after)));
    Regroup(head, channels, rate + (field + after));
    Regroup(head + channels, rate, field + after);
  }

  /** Behind the first "codec_data=(buffer)" stand the given digits and a blank. */
  predicate CarriesCodecData(text: string, data: string) {
    var found := Behind(text, CodecData.Text());
    found.Some? && |data| < |found.value| && found.value[..|data|] == data && found.value[|data|] == ' '
  }

  /** The codec_data field of an AAC launch string holds what buildAacAudioCaps printed, up to the next
      blank. */
  lemma CodecDataCarried(c: Config)
    requires c.HasAudio() && !c.opus
    ensures CarriesCodecData(LaunchText(c), AudioSpecificConfig.JavaCodecData(c.rate, c.channels))
  {
    var before, after := CodecDataOccurrence(c);
    var data := AudioSpecificConfig.JavaCodecData(c.rate, c.channels);
    KeysAreSearchable(CodecData);
    FirstValue(before, CodecDataField(c.rate, c.channels), after, CodecData.Text(), data);
  }

  /** After any setter calls, the AAC stream that the native side derives from the launch string is the
      one whose codec_data the launch string carries, and decoders read the stored format from it. */
  lemma LaunchStringCarriesFormat(calls: seq<AudioSpecificConfig.Setter>, c: Config)
    requires var s := AudioSpecificConfig.ApplyAll(AudioSpecificConfig.DEFAULTS, calls);
      c.HasAudio() && c.opus == s.useOpus && c.rate == s.rate && c.channels == s.channels
    ensures var d := Detect(LaunchText(c));
      && d.rawPcm == c.opus
      && (!c.opus ==> CarriesCodecData(LaunchText(c), AudioSpecificConfig.JavaCodecData(c.rate, c.channels)))
      && AudioSpecificConfig.BufferBytes(AudioSpecificConfig.JavaCodecData(c.rate, c.channels))
         == Some(AudioSpecificConfig.NativeCodecData(d.rate, d.channels))
      && AudioSpecificConfig.Describes(AudioSpecificConfig.NativeCodecData(d.rate, d.channels), c.rate, c.channels)
  {
    AudioSpecificConfig.SettersKeepCodecData(calls);
    DetectionRoundTrip(c);
    if !c.opus { CodecDataCarried(c); }
  }
}
