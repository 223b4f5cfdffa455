/** The re-encode job: one input file re-encoded by ffmpeg under an
    EncodeConfig. Its argument list is built section by section in a fixed
    order: input, video codec, rate control, encoding parameters, pixel format,
    colour space, HDR metadata, audio, extra arguments, output. */
module Reencode {
  import opened Wrappers
  import opened Text
  import opened Paths
  import opened Process
  import opened EncodeTypes
  import opened CommandText
  import CodecUtils

  // ---------------------------------------------------------------------------
  // Enumeration names passed to ffmpeg
  // ---------------------------------------------------------------------------

  function PixelFormatName(p: PixelFormat): string {
    match p
    case RGB24 => "rgb24"
    case RGB48 => "rgb48le"
    case RGBF16 => "rgbf16le"
    case YUV420P8 => "yuv420p"
    case YUV420P10 => "yuv420p10le"
    case P010 => "p010le"
    case NV12 => "nv12"
    case YUV422P10 => "yuv422p10le"
    case YUV444P10 => "yuv444p10le"
    case YUVA444P10LE => "yuva444p10le"
  }

  function RangeName(r: Range): string {
    match r
    case Limited => "tv"
    case Full => "pc"
  }

  function PrimariesName(p: ColorPrimaries): string {
    match p
    case PrimariesBT601 => "bt470bg"
    case PrimariesBT709 => "bt709"
    case PrimariesBT2020 => "bt2020"
    case PrimariesP3D65 => "smpte432"
  }

  function TransferName(t: TransferCharacteristic): string {
    match t
    case SRGB => "iec61966-2-1"
    case BT1886 => "bt709"
    case PQ => "smpte2084"
    case HLG => "arib-std-b67"
  }

  function MatrixName(m: MatrixCoefficients): string {
    match m
    case MatrixBT601 => "bt470bg"
    case MatrixBT709 => "bt709"
    case MatrixBT2020NCL => "bt2020nc"
  }

  /** Each table names every variant differently, so ffmpeg receives exactly
      the setting that was chosen. */
  lemma PixelFormatNamesDistinct(p1: PixelFormat, p2: PixelFormat)
    ensures PixelFormatName(p1) == PixelFormatName(p2) <==> p1 == p2
  {
  }

  lemma ColorNamesDistinct(r1: Range, r2: Range, c1: ColorPrimaries, c2: ColorPrimaries)
    ensures RangeName(r1) == RangeName(r2) <==> r1 == r2
    ensures PrimariesName(c1) == PrimariesName(c2) <==> c1 == c2
  {
  }

  lemma TransferMatrixNamesDistinct(t1: TransferCharacteristic, t2: TransferCharacteristic,
                                    m1: MatrixCoefficients, m2: MatrixCoefficients)
    ensures TransferName(t1) == TransferName(t2) <==> t1 == t2
    ensures MatrixName(m1) == MatrixName(m2) <==> m1 == m2
  {
  }

  // ---------------------------------------------------------------------------
  // The sections of the argument list
  // ---------------------------------------------------------------------------

  /** The encoder: the configured override if non-empty, else the codec table. */
  function JobEncoderName(c: EncodeConfig): string {
    CodecUtils.EncoderName(c.codec, c.encoderOverride)
  }

  function ProResPart(c: EncodeConfig): seq<string> {
    if c.codec == ProRes then
      ["-profile:v", IntToString(c.proresProfile), "-vendor", c.proresVendor,
       "-bits_per_mb", IntToString(c.bitsPerMb)]
    else []
  }

  function FFV1Part(c: EncodeConfig): seq<string> {
    if c.codec == FFV1 then
      ["-coder", IntToString(c.ffv1Coder), "-context", IntToString(c.ffv1Context),
       "-level", IntToString(c.ffv1Level), "-slices", IntToString(c.ffv1Slices)]
    else []
  }

  function X264Part(c: EncodeConfig): seq<string> {
    if c.codec == X264 && c.x264Params != [] then ["-x264-params", c.x264Params] else []
  }

  /** An option pair present only when its value is set (non-zero or non-empty). */
  function OptionalNumber(flag: string, value: int): seq<string> {
    if value != 0 then [flag, IntToString(value)] else []
  }

  function OptionalText(flag: string, value: string): seq<string> {
    if value != [] then [flag, value] else []
  }

  function NvencPart(c: EncodeConfig): seq<string> {
    if CodecUtils.IsNvenc(c.codec) then
      ["-b_adapt", IntToString(c.bAdapt), "-rc-lookahead", IntToString(c.rcLookahead)]
      + OptionalNumber("-qp_cb_offset", c.qpCbOffset)
      + OptionalNumber("-qp_cr_offset", c.qpCrOffset)
    else []
  }

  function VideoCodecBlock(c: EncodeConfig): seq<string> {
    ["-c:v", JobEncoderName(c)] + ProResPart(c) + FFV1Part(c) + X264Part(c) + NvencPart(c)
  }

  /** A bitrate in kbit/s as ffmpeg reads it: the number followed by "k". */
  function Kbps(n: int): string {
    IntToString(n) + "k"
  }

  /** The CBR buffer: the configured size if positive, else twice the bitrate. */
  function CbrBufferSize(c: EncodeConfig): int {
    if c.bufferSizeKbps > 0 then c.bufferSizeKbps else c.bitrateKbps * 2
  }

  function RateControlBlock(c: EncodeConfig): seq<string> {
    match c.rateControl
    case CRF => ["-crf", IntToString(c.quality)]
    case CQP => ["-qp", IntToString(c.quality)]
    case VBR => if c.bitrateKbps > 0 then ["-b:v", Kbps(c.bitrateKbps)] else []
    case CBR =>
      if c.bitrateKbps > 0 then
        ["-b:v", Kbps(c.bitrateKbps), "-maxrate", Kbps(c.bitrateKbps), "-bufsize", Kbps(CbrBufferSize(c))]
      else []
  }

  /** An option pair present only when its value is positive. */
  function PositiveNumber(flag: string, value: int): seq<string> {
    if value > 0 then [flag, IntToString(value)] else []
  }

  function EncodingParamsBlock(c: EncodeConfig): seq<string> {
    OptionalText("-preset", c.preset)
    + OptionalText("-tune", c.tune)
    + PositiveNumber("-g", c.gopSize)
    + ["-bf", IntToString(c.bframes)]
    + PositiveNumber("-threads", c.threads)
  }

  function PixelFormatBlock(c: EncodeConfig): seq<string> {
    ["-pix_fmt", PixelFormatName(c.pixelFormat)]
  }

  function ColorSpaceBlock(c: EncodeConfig): seq<string> {
    if c.passthroughColor then []
    else
      ["-color_range", RangeName(c.colorProfile.range),
       "-colorspace", MatrixName(c.colorProfile.matrix),
       "-color_primaries", PrimariesName(c.colorProfile.primaries),
       "-color_trc", TransferName(c.colorProfile.transfer)]
  }

  /** The content light level as "maxCll,maxFall". */
  function LightLevelText(l: ContentLightLevel): string {
    IntToString(l.maxCll as int) + "," + IntToString(l.maxFall as int)
  }

  /** The mastering display as G(x,y)B(x,y)R(x,y)WP(x,y)L(max,min); `show` is the
      stream formatting of a float. */
  function MasteringDisplayText(m: MasteringDisplay, show: real -> string): string {
    "G(" + show(m.greenX) + "," + show(m.greenY) + ")"
    + "B(" + show(m.blueX) + "," + show(m.blueY) + ")"
    + "R(" + show(m.redX) + "," + show(m.redY) + ")"
    + "WP(" + show(m.whiteX) + "," + show(m.whiteY) + ")"
    + "L(" + show(m.maxLuminance) + "," + show(m.minLuminance) + ")"
  }

  function HdrBlock(c: EncodeConfig, show: real -> string): seq<string> {
    (match c.contentLightLevel
     case Some(l) => ["-max-cll", LightLevelText(l)]
     case None => [])
    + (match c.masteringDisplay
       case Some(m) => ["-master-display", MasteringDisplayText(m, show)]
       case None => [])
  }

  function AudioBlock(a: AudioConfig): seq<string> {
    if a.copyAudio then ["-c:a", "copy"]
    else
      ["-c:a", a.codec]
      + (if a.bitrateKbps > 0 then ["-b:a", Kbps(a.bitrateKbps)] else [])
      + ["-ar", IntToString(a.sampleRate as int), "-ac", IntToString(a.channels as int)]
  }

  /** The whole argument list, sections in build order. */
  function ReencodeArgs(inputPath: string, outputPath: string, c: EncodeConfig, show: real -> string): seq<string> {
    ["-i", inputPath] + VideoCodecBlock(c) + RateControlBlock(c) + EncodingParamsBlock(c)
    + PixelFormatBlock(c) + ColorSpaceBlock(c) + HdrBlock(c, show) + AudioBlock(c.audio)
    + c.extraArgs + [outputPath]
  }

  // ---------------------------------------------------------------------------
  // Validation
  // ---------------------------------------------------------------------------

  /** Why a re-encode is refused. QualityOutOfRange is raised only by the builder. */
  datatype ReencodeError = EmptyInputPath | EmptyOutputPath | NonPositiveBitrate | QualityOutOfRange

  predicate IsBitrateMode(r: RateControl) {
    r == VBR || r == CBR
  }

  /** The job's own check; the first failing condition is reported. */
  function JobCheck(inputPath: string, outputPath: string, c: EncodeConfig): (r: Option<ReencodeError>)
    ensures r.None? <==>
      inputPath != [] && outputPath != [] && (IsBitrateMode(c.rateControl) ==> c.bitrateKbps > 0)
    ensures r == Some(EmptyInputPath) <==> inputPath == []
    ensures r == Some(EmptyOutputPath) <==> inputPath != [] && outputPath == []
    ensures r != Some(QualityOutOfRange)
  {
    if inputPath == [] then Some(EmptyInputPath)
    else if outputPath == [] then Some(EmptyOutputPath)
    else if IsBitrateMode(c.rateControl) && c.bitrateKbps <= 0 then Some(NonPositiveBitrate)
    else None
  }

  /** The job itself never looks at the quality value. */
  lemma JobCheckIgnoresQuality(inputPath: string, outputPath: string, c: EncodeConfig, q: int)
    ensures JobCheck(inputPath, outputPath, c.(quality := q)) == JobCheck(inputPath, outputPath, c)
  {
  }

  /** The rate-control section is empty exactly in the configurations the job
      refuses for their bitrate, so an accepted job always carries one. */
  lemma AcceptedJobHasRateControl(inputPath: string, outputPath: string, c: EncodeConfig)
    ensures RateControlBlock(c) == [] <==> IsBitrateMode(c.rateControl) && c.bitrateKbps <= 0
    ensures JobCheck(inputPath, outputPath, c).None? ==> RateControlBlock(c) != []
  {
  }

  // ---------------------------------------------------------------------------
  // The shape of the whole argument list
  // ---------------------------------------------------------------------------

  /** The options whose presence depends on the pixel, colour, HDR and audio
      settings. */
  predicate Watched(t: string) {
    t == "-pix_fmt" || t == "-color_range" || t == "-colorspace" || t == "-color_primaries"
    || t == "-color_trc" || t == "-max-cll" || t == "-master-display"
    || t == "-b:a" || t == "-ar" || t == "-ac"
  }

  /** The watched options of an argument list, in their order. */
  function WatchedFlags(s: seq<string>): seq<string> {
    if s == [] then []
    else WatchedFlags(s[..|s| - 1]) + (if Watched(s[|s| - 1]) then [s[|s| - 1]] else [])
  }

  /** The free-text settings copied into the list as values are not themselves
      watched options. */
  predicate FreeTextPlain(c: EncodeConfig) {
    !Watched(c.encoderOverride) && !Watched(c.proresVendor) && !Watched(c.x264Params)
    && !Watched(c.preset) && !Watched(c.tune) && !Watched(c.audio.codec)
  }

  /** Everything between the input pair and the extra arguments. */
  function Sections(c: EncodeConfig, show: real -> string): seq<string> {
    VideoCodecBlock(c) + RateControlBlock(c) + EncodingParamsBlock(c)
    + PixelFormatBlock(c) + ColorSpaceBlock(c) + HdrBlock(c, show) + AudioBlock(c.audio)
  }

  function ColourFlags(c: EncodeConfig): seq<string> {
    if c.passthroughColor then [] else ["-color_range", "-colorspace", "-color_primaries", "-color_trc"]
  }

  function HdrFlags(c: EncodeConfig): seq<string> {
    (if c.contentLightLevel.Some? then ["-max-cll"] else [])
    + (if c.masteringDisplay.Some? then ["-master-display"] else [])
  }

  function AudioFlags(a: AudioConfig): seq<string> {
    if a.copyAudio then []
    else (if a.bitrateKbps > 0 then ["-b:a"] else []) + ["-ar", "-ac"]
  }

  predicate Unwatched(s: seq<string>) {
    forall i :: 0 <= i < |s| ==> !Watched(s[i])
  }

  lemma {:induction false} WatchedFlagsAppend(a: seq<string>, b: seq<string>)
    ensures WatchedFlags(a + b) == WatchedFlags(a) + WatchedFlags(b)
  {
    if b == [] {
      assert a + b == a;
    } else {
      WatchedFlagsAppend(a, b[..|b| - 1]);
      assert (a + b)[..|a + b| - 1] == a + b[..|b| - 1];
    }
  }

  lemma {:induction false} WatchedFlagsOfUnwatched(s: seq<string>)
    requires Unwatched(s)
    ensures WatchedFlags(s) == []
  {
    if s != [] {
      WatchedFlagsOfUnwatched(s[..|s| - 1]);
    }
  }

  /** A watched option occurs in a list exactly as often as in its watched options. */
  lemma {:induction false} WatchedFlagsCount(s: seq<string>, f: string)
    requires Watched(f)
    ensures Count(WatchedFlags(s), f) == Count(s, f)
  {
    if s != [] {
      var init := s[..|s| - 1];
      var last := s[|s| - 1];
      WatchedFlagsCount(init, f);
      assert s == init + [last];
      CountAppend(init, [last], f);
      CountAppend(WatchedFlags(init), if Watched(last) then [last] else [], f);
    }
  }

  lemma UnwatchedAppend(a: seq<string>, b: seq<string>)
    requires Unwatched(a) && Unwatched(b)
    ensures Unwatched(a + b)
  {
    forall i | 0 <= i < |a + b|
      ensures !Watched((a + b)[i])
    {
      if i >= |a| {
        assert (a + b)[i] == b[i - |a|];
      }
    }
  }

  lemma NonFlagUnwatched(t: string)
    requires !IsFlag(t)
    ensures !Watched(t)
  {
  }

  /** A token that starts with a number is a value. */
  lemma NumberUnwatched(n: int, suffix: string)
    ensures !Watched(IntToString(n) + suffix)
    ensures !Watched(IntToString(n))
  {
    var s := IntToString(n);
    IntToStringIsPlain(n);
    if n < 0 {
      assert s == "-" + NatToString(-n);
      assert |s| >= 2;
    }
    var t := s + suffix;
    assert t[0] == s[0];
    if |s| >= 2 {
      assert t[1] == s[1];
    }
    NonFlagUnwatched(t);
    NonFlagUnwatched(s);
  }

  lemma EncoderNameUnwatched(c: EncodeConfig)
    requires !Watched(c.encoderOverride)
    ensures !Watched(JobEncoderName(c))
  {
    if c.encoderOverride == [] {
      var name := CodecUtils.EncoderTable(c.codec);
      assert name[0] != '-';
      NonFlagUnwatched(name);
    }
  }

  /** The option names of the video, rate-control and parameter sections are
      not watched. */
  lemma SectionOptionsUnwatched()
    ensures !Watched("-c:v") && !Watched("-profile:v") && !Watched("-vendor") && !Watched("-bits_per_mb")
    ensures !Watched("-coder") && !Watched("-context") && !Watched("-level") && !Watched("-slices")
    ensures !Watched("-x264-params") && !Watched("-b_adapt") && !Watched("-rc-lookahead")
    ensures !Watched("-qp_cb_offset") && !Watched("-qp_cr_offset")
    ensures !Watched("-crf") && !Watched("-qp") && !Watched("-b:v") && !Watched("-maxrate") && !Watched("-bufsize")
    ensures !Watched("-preset") && !Watched("-tune") && !Watched("-g") && !Watched("-bf") && !Watched("-threads")
  {
    CodecOptionsUnwatched();
    ParameterOptionsUnwatched();
  }

  lemma CodecOptionsUnwatched()
    ensures !Watched("-c:v") && !Watched("-profile:v") && !Watched("-vendor") && !Watched("-bits_per_mb")
    ensures !Watched("-coder") && !Watched("-context") && !Watched("-level") && !Watched("-slices")
    ensures !Watched("-x264-params") && !Watched("-b_adapt") && !Watched("-rc-lookahead")
  {
  }

  lemma ParameterOptionsUnwatched()
    ensures !Watched("-qp_cb_offset") && !Watched("-qp_cr_offset")
    ensures !Watched("-crf") && !Watched("-qp") && !Watched("-b:v") && !Watched("-maxrate") && !Watched("-bufsize")
    ensures !Watched("-preset") && !Watched("-tune") && !Watched("-g") && !Watched("-bf") && !Watched("-threads")
  {
  }

  lemma Unwatched2(a: string, b: string)
    requires !Watched(a) && !Watched(b)
    ensures Unwatched([a, b])
  {
  }

  lemma OptionalNumberUnwatched(flag: string, value: int)
    requires !Watched(flag)
    ensures Unwatched(OptionalNumber(flag, value))
  {
    if value != 0 {
      NumberUnwatched(value, "");
      Unwatched2(flag, IntToString(value));
    }
  }

  lemma PositiveNumberUnwatched(flag: string, value: int)
    requires !Watched(flag)
    ensures Unwatched(PositiveNumber(flag, value))
  {
    if value > 0 {
      NumberUnwatched(value, "");
      Unwatched2(flag, IntToString(value));
    }
  }

  lemma OptionalTextUnwatched(flag: string, value: string)
    requires !Watched(flag) && !Watched(value)
    ensures Unwatched(OptionalText(flag, value))
  {
    if value != [] {
      Unwatched2(flag, value);
    }
  }

  lemma NumberPairUnwatched(flag: string, value: int)
    requires !Watched(flag)
    ensures Unwatched([flag, IntToString(value)])
  {
    NumberUnwatched(value, "");
    Unwatched2(flag, IntToString(value));
  }

  lemma CodecPartsUnwatched(c: EncodeConfig)
    requires FreeTextPlain(c)
    ensures Unwatched(["-c:v", JobEncoderName(c)]) && Unwatched(ProResPart(c))
    ensures Unwatched(FFV1Part(c)) && Unwatched(X264Part(c))
  {
    SectionOptionsUnwatched();
    EncoderNameUnwatched(c);
    Unwatched2("-c:v", JobEncoderName(c));
    if c.codec == ProRes {
      NumberPairUnwatched("-profile:v", c.proresProfile);
      Unwatched2("-vendor", c.proresVendor);
      NumberPairUnwatched("-bits_per_mb", c.bitsPerMb);
      var a := ["-profile:v", IntToString(c.proresProfile)];
      var b := ["-vendor", c.proresVendor];
      var d := ["-bits_per_mb", IntToString(c.bitsPerMb)];
      UnwatchedAppend(a, b);
      UnwatchedAppend(a + b, d);
      assert ProResPart(c) == a + b + d;
    }
    if c.codec == FFV1 {
      NumberPairUnwatched("-coder", c.ffv1Coder);
      NumberPairUnwatched("-context", c.ffv1Context);
      NumberPairUnwatched("-level", c.ffv1Level);
      NumberPairUnwatched("-slices", c.ffv1Slices);
      var a := ["-coder", IntToString(c.ffv1Coder)];
      var b := ["-context", IntToString(c.ffv1Context)];
      var d := ["-level", IntToString(c.ffv1Level)];
      var e := ["-slices", IntToString(c.ffv1Slices)];
      UnwatchedAppend(a, b);
      UnwatchedAppend(a + b, d);
      UnwatchedAppend(a + b + d, e);
      assert FFV1Part(c) == a + b + d + e;
    }
    if c.codec == X264 && c.x264Params != [] {
      Unwatched2("-x264-params", c.x264Params);
    }
  }

  lemma NvencPartUnwatched(c: EncodeConfig)
    ensures Unwatched(NvencPart(c))
  {
    if CodecUtils.IsNvenc(c.codec) {
      SectionOptionsUnwatched();
      var a := ["-b_adapt", IntToString(c.bAdapt)];
      var b := ["-rc-lookahead", IntToString(c.rcLookahead)];
      var cb := OptionalNumber("-qp_cb_offset", c.qpCbOffset);
      var cr := OptionalNumber("-qp_cr_offset", c.qpCrOffset);
      NumberPairUnwatched("-b_adapt", c.bAdapt);
      NumberPairUnwatched("-rc-lookahead", c.rcLookahead);
      OptionalNumberUnwatched("-qp_cb_offset", c.qpCbOffset);
      OptionalNumberUnwatched("-qp_cr_offset", c.qpCrOffset);
      UnwatchedAppend(a, b);
      UnwatchedAppend(a + b, cb);
      UnwatchedAppend(a + b + cb, cr);
      assert NvencPart(c) == a + b + cb + cr;
    }
  }

  lemma VideoCodecUnwatched(c: EncodeConfig)
    requires FreeTextPlain(c)
    ensures Unwatched(VideoCodecBlock(c))
  {
    CodecPartsUnwatched(c);
    NvencPartUnwatched(c);
    var head := ["-c:v", JobEncoderName(c)];
    UnwatchedAppend(head, ProResPart(c));
    UnwatchedAppend(head + ProResPart(c), FFV1Part(c));
    UnwatchedAppend(head + ProResPart(c) + FFV1Part(c), X264Part(c));
    UnwatchedAppend(head + ProResPart(c) + FFV1Part(c) + X264Part(c), NvencPart(c));
  }

  lemma RateControlUnwatched(c: EncodeConfig)
    ensures Unwatched(RateControlBlock(c))
  {
    SectionOptionsUnwatched();
    match c.rateControl
    case CRF => NumberPairUnwatched("-crf", c.quality);
    case CQP => NumberPairUnwatched("-qp", c.quality);
    case VBR =>
      if c.bitrateKbps > 0 {
        NumberUnwatched(c.bitrateKbps, "k");
        Unwatched2("-b:v", Kbps(c.bitrateKbps));
      }
    case CBR =>
      if c.bitrateKbps > 0 {
        NumberUnwatched(c.bitrateKbps, "k");
        NumberUnwatched(CbrBufferSize(c), "k");
        var a := ["-b:v", Kbps(c.bitrateKbps)];
        var b := ["-maxrate", Kbps(c.bitrateKbps)];
        var d := ["-bufsize", Kbps(CbrBufferSize(c))];
        Unwatched2("-b:v", Kbps(c.bitrateKbps));
        Unwatched2("-maxrate", Kbps(c.bitrateKbps));
        Unwatched2("-bufsize", Kbps(CbrBufferSize(c)));
        UnwatchedAppend(a, b);
        UnwatchedAppend(a + b, d);
        assert RateControlBlock(c) == a + b + d;
      }
  }

  lemma EncodingParamsUnwatched(c: EncodeConfig)
    requires FreeTextPlain(c)
    ensures Unwatched(EncodingParamsBlock(c))
  {
    SectionOptionsUnwatched();
    var a := OptionalText("-preset", c.preset);
    var b := OptionalText("-tune", c.tune);
    var g := PositiveNumber("-g", c.gopSize);
    var bf := ["-bf", IntToString(c.bframes)];
    var t := PositiveNumber("-threads", c.threads);
    OptionalTextUnwatched("-preset", c.preset);
    OptionalTextUnwatched("-tune", c.tune);
    PositiveNumberUnwatched("-g", c.gopSize);
    NumberPairUnwatched("-bf", c.bframes);
    PositiveNumberUnwatched("-threads", c.threads);
    UnwatchedAppend(a, b);
    UnwatchedAppend(a + b, g);
    UnwatchedAppend(a + b + g, bf);
    UnwatchedAppend(a + b + g + bf, t);
  }

  /** An option followed by its value contributes the option when it is watched. */
  lemma PairFlags(f: string, v: string)
    requires !Watched(v)
    ensures WatchedFlags([f, v]) == if Watched(f) then [f] else []
  {
    assert [f, v][..1] == [f];
    assert [f][..0] == [];
    assert WatchedFlags([f]) == WatchedFlags([]) + (if Watched(f) then [f] else []);
    assert WatchedFlags([f, v]) == WatchedFlags([f]) + [];
  }

  lemma PixelFormatFlags(c: EncodeConfig)
    ensures WatchedFlags(PixelFormatBlock(c)) == ["-pix_fmt"]
  {
    var name := PixelFormatName(c.pixelFormat);
    assert name[0] != '-';
    NonFlagUnwatched(name);
    PairFlags("-pix_fmt", name);
  }

  lemma ColourSpaceFlags(c: EncodeConfig)
    ensures WatchedFlags(ColorSpaceBlock(c)) == ColourFlags(c)
  {
    if !c.passthroughColor {
      var p := c.colorProfile;
      var r := RangeName(p.range);
      var m := MatrixName(p.matrix);
      var pr := PrimariesName(p.primaries);
      var t := TransferName(p.transfer);
      assert r[0] != '-' && m[0] != '-' && pr[0] != '-' && t[0] != '-';
      NonFlagUnwatched(r);
      NonFlagUnwatched(m);
      NonFlagUnwatched(pr);
      NonFlagUnwatched(t);
      PairFlags("-color_range", r);
      PairFlags("-colorspace", m);
      PairFlags("-color_primaries", pr);
      PairFlags("-color_trc", t);
      var b1 := ["-color_range", r];
      var b2 := ["-colorspace", m];
      var b3 := ["-color_primaries", pr];
      var b4 := ["-color_trc", t];
      assert ColorSpaceBlock(c) == b1 + b2 + b3 + b4;
      WatchedFlagsAppend(b1, b2);
      WatchedFlagsAppend(b1 + b2, b3);
      WatchedFlagsAppend(b1 + b2 + b3, b4);
    }
  }

  lemma HdrFlagsOf(c: EncodeConfig, show: real -> string)
    ensures WatchedFlags(HdrBlock(c, show)) == HdrFlags(c)
  {
    var cll: seq<string> := match c.contentLightLevel
      case Some(l) => ["-max-cll", LightLevelText(l)]
      case None => [];
    var md: seq<string> := match c.masteringDisplay
      case Some(m) => ["-master-display", MasteringDisplayText(m, show)]
      case None => [];
    assert HdrBlock(c, show) == cll + md;
    if c.contentLightLevel.Some? {
      var l := c.contentLightLevel.value;
      NumberUnwatched(l.maxCll as int, "," + IntToString(l.maxFall as int));
      assert LightLevelText(l) == IntToString(l.maxCll as int) + ("," + IntToString(l.maxFall as int));
      PairFlags("-max-cll", LightLevelText(l));
    }
    if c.masteringDisplay.Some? {
      var text := MasteringDisplayText(c.masteringDisplay.value, show);
      assert text[0] == 'G';
      NonFlagUnwatched(text);
      PairFlags("-master-display", text);
    }
    WatchedFlagsAppend(cll, md);
  }

  lemma AudioTailFlags(a: AudioConfig)
    ensures WatchedFlags(["-ar", IntToString(a.sampleRate as int), "-ac", IntToString(a.channels as int)]) == ["-ar", "-ac"]
  {
    var sr := ["-ar", IntToString(a.sampleRate as int)];
    var ch := ["-ac", IntToString(a.channels as int)];
    NumberUnwatched(a.sampleRate as int, "");
    NumberUnwatched(a.channels as int, "");
    PairFlags("-ar", IntToString(a.sampleRate as int));
    PairFlags("-ac", IntToString(a.channels as int));
    assert sr + ch == ["-ar", IntToString(a.sampleRate as int), "-ac", IntToString(a.channels as int)];
    WatchedFlagsAppend(sr, ch);
  }

  lemma AudioFlagsOf(a: AudioConfig)
    requires !Watched(a.codec)
    ensures WatchedFlags(AudioBlock(a)) == AudioFlags(a)
  {
    if a.copyAudio {
      PairFlags("-c:a", "copy");
    } else {
      var head := ["-c:a", a.codec];
      var rate: seq<string> := if a.bitrateKbps > 0 then ["-b:a", Kbps(a.bitrateKbps)] else [];
      var tail := ["-ar", IntToString(a.sampleRate as int), "-ac", IntToString(a.channels as int)];
      PairFlags("-c:a", a.codec);
      if a.bitrateKbps > 0 {
        NumberUnwatched(a.bitrateKbps, "k");
        PairFlags("-b:a", Kbps(a.bitrateKbps));
      }
      AudioTailFlags(a);
      assert AudioBlock(a) == head + rate + tail;
      WatchedFlagsAppend(head, rate);
      WatchedFlagsAppend(head + rate, tail);
    }
  }

  /** Between the input pair and the extra arguments the watched options are,
      in order: one -pix_fmt, the four colour options unless the colour is passed
      through, -max-cll and -master-display when their metadata is set, and the
      audio options when the audio is re-encoded. */
  lemma SectionsFlags(c: EncodeConfig, show: real -> string)
    requires FreeTextPlain(c)
    ensures WatchedFlags(Sections(c, show)) == ["-pix_fmt"] + ColourFlags(c) + HdrFlags(c) + AudioFlags(c.audio)
  {
    var v := VideoCodecBlock(c);
    var r := RateControlBlock(c);
    var e := EncodingParamsBlock(c);
    var p := PixelFormatBlock(c);
    var cs := ColorSpaceBlock(c);
    var h := HdrBlock(c, show);
    var a := AudioBlock(c.audio);
    VideoCodecUnwatched(c);
    RateControlUnwatched(c);
    EncodingParamsUnwatched(c);
    FlagsOfChain(v, r, e, p, cs, h, a);
    PixelFormatFlags(c);
    ColourSpaceFlags(c);
    HdrFlagsOf(c, show);
    AudioFlagsOf(c.audio);
  }

  /** Sections without watched options contribute nothing to the watched
      options of a concatenation. */
  lemma FlagsOfChain(v: seq<string>, r: seq<string>, e: seq<string>, p: seq<string>,
                     cs: seq<string>, h: seq<string>, a: seq<string>)
    requires Unwatched(v) && Unwatched(r) && Unwatched(e)
    ensures WatchedFlags(v + r + e + p + cs + h + a)
      == WatchedFlags(p) + WatchedFlags(cs) + WatchedFlags(h) + WatchedFlags(a)
  {
    var x := v + r + e;
    UnwatchedAppend(v, r);
    UnwatchedAppend(v + r, e);
    WatchedFlagsOfUnwatched(x);
    WatchedFlagsAppend(x, p);
    WatchedFlagsAppend(x + p, cs);
    WatchedFlagsAppend(x + p + cs, h);
    WatchedFlagsAppend(x + p + cs + h, a);
    assert WatchedFlags(x + p) == WatchedFlags(p);
  }

  /** The whole list: the input pair first, the output path last, the extra
      arguments verbatim immediately before it, and the sections in between. */
  lemma ReencodeArgsFacts(inputPath: string, outputPath: string, c: EncodeConfig, show: real -> string)
    requires FreeTextPlain(c)
    ensures var args := ReencodeArgs(inputPath, outputPath, c, show);
      var n := |args|;
      n >= 3 + |c.extraArgs|
      && args[..2] == ["-i", inputPath]
      && args[n - 1] == outputPath
      && args[n - 1 - |c.extraArgs|..n - 1] == c.extraArgs
      && WatchedFlags(args[2..n - 1 - |c.extraArgs|]) == ["-pix_fmt"] + ColourFlags(c) + HdrFlags(c) + AudioFlags(c.audio)
  {
    ReencodeArgsFrame(inputPath, outputPath, c, show);
    SectionsFlags(c, show);
  }

  /** The input pair, the sections, the extra arguments and the output path,
      in that order. */
  lemma ReencodeArgsFrame(inputPath: string, outputPath: string, c: EncodeConfig, show: real -> string)
    ensures var args := ReencodeArgs(inputPath, outputPath, c, show);
      var n := |args|;
      n == 3 + |Sections(c, show)| + |c.extraArgs|
      && args[..2] == ["-i", inputPath]
      && args[n - 1] == outputPath
      && args[n - 1 - |c.extraArgs|..n - 1] == c.extraArgs
      && args[2..n - 1 - |c.extraArgs|] == Sections(c, show)
  {
    ArgsAroundSections(inputPath, outputPath, c, show);
    Framed(["-i", inputPath], Sections(c, show), c.extraArgs, outputPath);
  }

  lemma ArgsAroundSections(inputPath: string, outputPath: string, c: EncodeConfig, show: real -> string)
    ensures ReencodeArgs(inputPath, outputPath, c, show)
      == ["-i", inputPath] + Sections(c, show) + c.extraArgs + [outputPath]
  {
    var v := VideoCodecBlock(c);
    var r := RateControlBlock(c);
    var e := EncodingParamsBlock(c);
    var p := PixelFormatBlock(c);
    var cs := ColorSpaceBlock(c);
    var h := HdrBlock(c, show);
    var a := AudioBlock(c.audio);
    Regroup(["-i", inputPath], v, r, e, p, cs, h, a, c.extraArgs, [outputPath]);
  }

  lemma Regroup(i: seq<string>, v: seq<string>, r: seq<string>, e: seq<string>, p: seq<string>,
                cs: seq<string>, h: seq<string>, a: seq<string>, x: seq<string>, o: seq<string>)
    ensures i + v + r + e + p + cs + h + a + x + o == i + (v + r + e + p + cs + h + a) + x + o
  {
  }

  lemma Framed(i: seq<string>, s: seq<string>, x: seq<string>, o: string)
    requires |i| == 2
    ensures var args := i + s + x + [o];
      var n := |args|;
      n == 3 + |s| + |x|
      && args[..2] == i
      && args[n - 1] == o
      && args[n - 1 - |x|..n - 1] == x
      && args[2..n - 1 - |x|] == s
  {
  }

  /** What the watched options say flag by flag: each colour option iff the
      colour is not passed through, -max-cll and -master-display iff their
      metadata is present, -ar and -ac iff the audio is re-encoded (so copying
      carries no -b:a, -ar or -ac), and exactly one -pix_fmt. */
  lemma SectionsFlagPresence(c: EncodeConfig, show: real -> string)
    requires FreeTextPlain(c)
    ensures var s := Sections(c, show);
      ("-color_range" in s <==> !c.passthroughColor)
      && ("-colorspace" in s <==> !c.passthroughColor)
      && ("-color_primaries" in s <==> !c.passthroughColor)
      && ("-color_trc" in s <==> !c.passthroughColor)
      && ("-max-cll" in s <==> c.contentLightLevel.Some?)
      && ("-master-display" in s <==> c.masteringDisplay.Some?)
      && ("-ar" in s <==> !c.audio.copyAudio)
      && ("-ac" in s <==> !c.audio.copyAudio)
      && ("-b:a" in s <==> !c.audio.copyAudio && c.audio.bitrateKbps > 0)
      && Count(s, "-pix_fmt") == 1
  {
    var s := Sections(c, show);
    var flags := ["-pix_fmt"] + ColourFlags(c) + HdrFlags(c) + AudioFlags(c.audio);
    SectionsFlags(c, show);
    PresenceFromFlags(s, flags, "-color_range");
    PresenceFromFlags(s, flags, "-colorspace");
    PresenceFromFlags(s, flags, "-color_primaries");
    PresenceFromFlags(s, flags, "-color_trc");
    PresenceFromFlags(s, flags, "-max-cll");
    PresenceFromFlags(s, flags, "-master-display");
    PresenceFromFlags(s, flags, "-ar");
    PresenceFromFlags(s, flags, "-ac");
    PresenceFromFlags(s, flags, "-b:a");
    PresenceFromFlags(s, flags, "-pix_fmt");
    ColourPresence(c);
    HdrPresence(c);
    AudioPresence(c);
    PixFmtOnce(c);
  }

  /** A list and its watched options agree on a watched option's presence
      and count. */
  lemma PresenceFromFlags(s: seq<string>, flags: seq<string>, f: string)
    requires WatchedFlags(s) == flags && Watched(f)
    ensures (f in s <==> f in flags) && Count(s, f) == Count(flags, f)
  {
    WatchedFlagsCount(s, f);
    CountPositive(s, f);
    CountPositive(flags, f);
  }

  lemma {:induction false} CountPositive(s: seq<string>, f: string)
    ensures Count(s, f) > 0 <==> f in s
  {
    if s != [] {
      CountPositive(s[..|s| - 1], f);
      assert s == s[..|s| - 1] + [s[|s| - 1]];
    }
  }

  lemma ColourMembers(c: EncodeConfig)
    ensures forall f :: f in ColourFlags(c) <==>
      (!c.passthroughColor
       && (f == "-color_range" || f == "-colorspace" || f == "-color_primaries" || f == "-color_trc"))
  {
  }

  lemma HdrMembers(c: EncodeConfig)
    ensures forall f :: f in HdrFlags(c) <==>
      (f == "-max-cll" && c.contentLightLevel.Some?) || (f == "-master-display" && c.masteringDisplay.Some?)
  {
  }

  lemma AudioMembers(a: AudioConfig)
    ensures forall f :: f in AudioFlags(a) <==>
      (!a.copyAudio && ((f == "-b:a" && a.bitrateKbps > 0) || f == "-ar" || f == "-ac"))
  {
  }

  lemma FlagListMembers(c: EncodeConfig)
    ensures forall f :: f in ["-pix_fmt"] + ColourFlags(c) + HdrFlags(c) + AudioFlags(c.audio) <==>
      f == "-pix_fmt" || f in ColourFlags(c) || f in HdrFlags(c) || f in AudioFlags(c.audio)
  {
  }

  lemma ColourPresence(c: EncodeConfig)
    ensures var flags := ["-pix_fmt"] + ColourFlags(c) + HdrFlags(c) + AudioFlags(c.audio);
      ("-color_range" in flags <==> !c.passthroughColor)
      && ("-colorspace" in flags <==> !c.passthroughColor)
      && ("-color_primaries" in flags <==> !c.passthroughColor)
      && ("-color_trc" in flags <==> !c.passthroughColor)
  {
    FlagListMembers(c);
    ColourMembers(c);
    HdrMembers(c);
    AudioMembers(c.audio);
  }

  lemma HdrPresence(c: EncodeConfig)
    ensures var flags := ["-pix_fmt"] + ColourFlags(c) + HdrFlags(c) + AudioFlags(c.audio);
      ("-max-cll" in flags <==> c.contentLightLevel.Some?)
      && ("-master-display" in flags <==> c.masteringDisplay.Some?)
  {
    FlagListMembers(c);
    ColourMembers(c);
    HdrMembers(c);
    AudioMembers(c.audio);
  }

  lemma AudioPresence(c: EncodeConfig)
    ensures var flags := ["-pix_fmt"] + ColourFlags(c) + HdrFlags(c) + AudioFlags(c.audio);
      ("-ar" in flags <==> !c.audio.copyAudio)
      && ("-ac" in flags <==> !c.audio.copyAudio)
      && ("-b:a" in flags <==> !c.audio.copyAudio && c.audio.bitrateKbps > 0)
  {
    FlagListMembers(c);
    ColourMembers(c);
    HdrMembers(c);
    AudioMembers(c.audio);
  }

  lemma PixFmtOnce(c: EncodeConfig)
    ensures Count(["-pix_fmt"] + ColourFlags(c) + HdrFlags(c) + AudioFlags(c.audio), "-pix_fmt") == 1
  {
    var rest := ColourFlags(c) + HdrFlags(c) + AudioFlags(c.audio);
    assert "-pix_fmt" !in rest;
    CountAbsent(rest, "-pix_fmt");
    assert ["-pix_fmt"] + ColourFlags(c) + HdrFlags(c) + AudioFlags(c.audio) == ["-pix_fmt"] + rest;
    CountAppend(["-pix_fmt"], rest, "-pix_fmt");
  }

  // ---------------------------------------------------------------------------
  // The job
  // ---------------------------------------------------------------------------

  class ReencodeJob {
    var inputPath: string
    var outputPath: string
    var config: EncodeConfig

    constructor (inputPath: string, outputPath: string)
      ensures this.inputPath == inputPath && this.outputPath == outputPath
      ensures config == DefaultEncodeConfig
    {
      this.inputPath := inputPath;
      this.outputPath := outputPath;
      config := DefaultEncodeConfig;
    }

    method SetConfig(c: EncodeConfig)
      modifies this
      ensures config == c
      ensures inputPath == old(inputPath) && outputPath == old(outputPath)
    {
      config := c;
    }

    method SetInputPath(path: string)
      modifies this
      ensures inputPath == path
      ensures outputPath == old(outputPath) && config == old(config)
    {
      inputPath := path;
    }

    method SetOutputPath(path: string)
      modifies this
      ensures outputPath == path
      ensures inputPath == old(inputPath) && config == old(config)
    {
      outputPath := path;
    }

    method AddInputArgs(args: ArgVector)
      modifies args
      ensures args.items == old(args.items) + ["-i", inputPath]
    {
      args.PushPair("-i", inputPath);
    }

    method AddVideoCodecArgs(args: ArgVector)
      modifies args
      ensures args.items == old(args.items) + VideoCodecBlock(config)
    {
      ghost var s0 := args.items;
      args.PushPair("-c:v", JobEncoderName(config));
      ghost var s1 := args.items;
      if config.codec == ProRes {
        args.PushPair("-profile:v", IntToString(config.proresProfile));
        args.PushPair("-vendor", config.proresVendor);
        args.PushPair("-bits_per_mb", IntToString(config.bitsPerMb));
        assert args.items == s1 + ProResPart(config);
      } else {
        assert ProResPart(config) == [];
      }
      ghost var s2 := args.items;
      assert s2 == s1 + ProResPart(config);
      if config.codec == FFV1 {
        args.PushPair("-coder", IntToString(config.ffv1Coder));
        args.PushPair("-context", IntToString(config.ffv1Context));
        args.PushPair("-level", IntToString(config.ffv1Level));
        args.PushPair("-slices", IntToString(config.ffv1Slices));
        assert args.items == s2 + FFV1Part(config);
      } else {
        assert FFV1Part(config) == [];
      }
      ghost var s3 := args.items;
      assert s3 == s2 + FFV1Part(config);
      if config.codec == X264 && config.x264Params != [] {
        args.PushPair("-x264-params", config.x264Params);
      }
      ghost var s4 := args.items;
      assert s4 == s3 + X264Part(config);
      if config.codec == H264_NVENC || config.codec == H265_NVENC {
        AddNvencArgs(args);
      } else {
        assert NvencPart(config) == [];
      }
      assert args.items == s4 + NvencPart(config);
      AppendFive(s0, ["-c:v", JobEncoderName(config)], ProResPart(config), FFV1Part(config), X264Part(config), NvencPart(config));
    }

    /** The NVENC tail of the video section (the last branch of addVideoCodecArgs). */
    method AddNvencArgs(args: ArgVector)
      requires CodecUtils.IsNvenc(config.codec)
      modifies args
      ensures args.items == old(args.items) + NvencPart(config)
    {
      ghost var s0 := args.items;
      args.PushPair("-b_adapt", IntToString(config.bAdapt));
      args.PushPair("-rc-lookahead", IntToString(config.rcLookahead));
      ghost var s1 := args.items;
      if config.qpCbOffset != 0 {
        args.PushPair("-qp_cb_offset", IntToString(config.qpCbOffset));
      }
      ghost var s2 := args.items;
      assert s2 == s1 + OptionalNumber("-qp_cb_offset", config.qpCbOffset);
      if config.qpCrOffset != 0 {
        args.PushPair("-qp_cr_offset", IntToString(config.qpCrOffset));
      }
      assert args.items == s2 + OptionalNumber("-qp_cr_offset", config.qpCrOffset);
      AppendThree(s0, ["-b_adapt", IntToString(config.bAdapt), "-rc-lookahead", IntToString(config.rcLookahead)],
        OptionalNumber("-qp_cb_offset", config.qpCbOffset), OptionalNumber("-qp_cr_offset", config.qpCrOffset));
    }

    method AddRateControlArgs(args: ArgVector)
      modifies args
      ensures args.items == old(args.items) + RateControlBlock(config)
    {
      match config.rateControl {
        case CRF =>
          args.PushPair("-crf", IntToString(config.quality));
        case CQP =>
          args.PushPair("-qp", IntToString(config.quality));
        case VBR =>
          if config.bitrateKbps > 0 {
            args.PushPair("-b:v", IntToString(config.bitrateKbps) + "k");
          }
        case CBR =>
          if config.bitrateKbps > 0 {
            args.PushPair("-b:v", IntToString(config.bitrateKbps) + "k");
            args.PushPair("-maxrate", IntToString(config.bitrateKbps) + "k");
            var bufferSize := if config.bufferSizeKbps > 0 then config.bufferSizeKbps else config.bitrateKbps * 2;
            args.PushPair("-bufsize", IntToString(bufferSize) + "k");
          }
      }
    }

    method AddEncodingParams(args: ArgVector)
      modifies args
      ensures args.items == old(args.items) + EncodingParamsBlock(config)
    {
      ghost var s0 := args.items;
      if config.preset != [] {
        args.PushPair("-preset", config.preset);
      }
      ghost var s1 := args.items;
      assert s1 == s0 + OptionalText("-preset", config.preset);
      if config.tune != [] {
        args.PushPair("-tune", config.tune);
      }
      ghost var s2 := args.items;
      assert s2 == s1 + OptionalText("-tune", config.tune);
      if config.gopSize > 0 {
        args.PushPair("-g", IntToString(config.gopSize));
      }
      ghost var s3 := args.items;
      assert s3 == s2 + PositiveNumber("-g", config.gopSize);
      args.PushPair("-bf", IntToString(config.bframes));
      ghost var s4 := args.items;
      if config.threads > 0 {
        args.PushPair("-threads", IntToString(config.threads));
      }
      assert args.items == s4 + PositiveNumber("-threads", config.threads);
      AppendFive(s0, OptionalText("-preset", config.preset), OptionalText("-tune", config.tune),
        PositiveNumber("-g", config.gopSize), ["-bf", IntToString(config.bframes)], PositiveNumber("-threads", config.threads));
    }

    method AddPixelFormatArgs(args: ArgVector)
      modifies args
      ensures args.items == old(args.items) + PixelFormatBlock(config)
    {
      args.PushPair("-pix_fmt", PixelFormatName(config.pixelFormat));
    }

    method AddColorSpaceArgs(args: ArgVector)
      modifies args
      ensures args.items == old(args.items) + ColorSpaceBlock(config)
    {
      if config.passthroughColor {
        return;
      }
      args.PushPair("-color_range", RangeName(config.colorProfile.range));
      args.PushPair("-colorspace", MatrixName(config.colorProfile.matrix));
      args.PushPair("-color_primaries", PrimariesName(config.colorProfile.primaries));
      args.PushPair("-color_trc", TransferName(config.colorProfile.transfer));
    }

    method AddHdrMetadata(args: ArgVector, show: real -> string)
      modifies args
      ensures args.items == old(args.items) + HdrBlock(config, show)
    {
      if config.contentLightLevel.Some? {
        args.PushPair("-max-cll", LightLevelText(config.contentLightLevel.value));
      }
      if config.masteringDisplay.Some? {
        args.PushPair("-master-display", MasteringDisplayText(config.masteringDisplay.value, show));
      }
    }

    method AddAudioArgs(args: ArgVector)
      modifies args
      ensures args.items == old(args.items) + AudioBlock(config.audio)
    {
      if config.audio.copyAudio {
        args.PushPair("-c:a", "copy");
      } else {
        args.PushPair("-c:a", config.audio.codec);
        if config.audio.bitrateKbps > 0 {
          args.PushPair("-b:a", IntToString(config.audio.bitrateKbps) + "k");
        }
        args.PushPair("-ar", IntToString(config.audio.sampleRate as int));
        args.PushPair("-ac", IntToString(config.audio.channels as int));
      }
    }

    /** The extra arguments, verbatim and in order. */
    method AddExtraArgs(args: ArgVector)
      modifies args
      ensures args.items == old(args.items) + config.extraArgs
    {
      var i := 0;
      while i < |config.extraArgs|
        invariant 0 <= i <= |config.extraArgs|
        invariant args.items == old(args.items) + config.extraArgs[..i]
      {
        args.PushBack(config.extraArgs[i]);
        assert config.extraArgs[..i + 1] == config.extraArgs[..i] + [config.extraArgs[i]];
        i := i + 1;
      }
      assert config.extraArgs[..i] == config.extraArgs;
    }

    method AddOutputArgs(args: ArgVector)
      modifies args
      ensures args.items == old(args.items) + [outputPath]
    {
      args.PushBack(outputPath);
    }

    /** buildCommand: the sections in order, then the extra arguments, then the output. */
    method BuildCommand(show: real -> string) returns (cmd: seq<string>)
      ensures cmd == ReencodeArgs(inputPath, outputPath, config, show)
    {
      var args := new ArgVector();
      AddInputArgs(args);
      assert args.items == ["-i", inputPath];
      AddVideoCodecArgs(args);
      AddRateControlArgs(args);
      AddEncodingParams(args);
      AddPixelFormatArgs(args);
      AddColorSpaceArgs(args);
      AddHdrMetadata(args, show);
      AddAudioArgs(args);
      AddExtraArgs(args);
      AddOutputArgs(args);
      cmd := args.items;
    }

    /** The logged command line: "ffmpeg" and the arguments, quoting those with a space. */
    method GetCommandString(show: real -> string) returns (line: string)
      ensures line == Display("ffmpeg", ReencodeArgs(inputPath, outputPath, config, show), false)
    {
      var args := BuildCommand(show);
      line := RenderCommand("ffmpeg", args, false);
    }

    /** validate: None when the job may run, otherwise the reason it throws. */
    method Validate() returns (err: Option<ReencodeError>)
      ensures err == JobCheck(inputPath, outputPath, config)
    {
      if inputPath == [] {
        return Some(EmptyInputPath);
      }
      if outputPath == [] {
        return Some(EmptyOutputPath);
      }
      if config.rateControl == VBR || config.rateControl == CBR {
        if config.bitrateKbps <= 0 {
          return Some(NonPositiveBitrate);
        }
      }
      return None;
    }

    /** execute: validate, then run extern/ffmpeg.exe with the built arguments.
        `ffmpegSucceeds` is the outcome of that run. */
    method Execute(externPath: string, ffmpegSucceeds: bool, show: real -> string)
      returns (ok: bool, actions: seq<Action>)
      ensures JobCheck(inputPath, outputPath, config).Some? ==> !ok && actions == []
      ensures JobCheck(inputPath, outputPath, config).None? ==>
        ok == ffmpegSucceeds &&
        actions == [RunProgram(Join(externPath, "ffmpeg.exe"), ReencodeArgs(inputPath, outputPath, config, show))]
    {
      var err := Validate();
      if err.Some? {
        return false, [];
      }
      var args := BuildCommand(show);
      actions := [RunProgram(Join(externPath, "ffmpeg.exe"), args)];
      ok := ffmpegSucceeds;
    }
  }
}
