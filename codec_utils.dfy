/** The codec tables shared by the jobs: encoder names, the per-codec argument
    blocks, container extensions, codec/container compatibility and the
    quality and preset checks. */
module CodecUtils {
  import opened Wrappers
  import opened Text
  import opened Process
  import opened EncodeTypes

  /** The ffmpeg encoder behind each codec; both SVT-AV1 variants use libsvtav1. */
  function EncoderTable(codec: Codec): (name: string)
    ensures name != [] && ' ' !in name
  {
    match codec
    case X264 => "libx264"
    case X265 => "libx265"
    case H264_NVENC => "h264_nvenc"
    case H265_NVENC => "hevc_nvenc"
    case AV1 => "libaom-av1"
    case SVT_AV1 => "libsvtav1"
    case SVT_AV1_ESSENTIAL => "libsvtav1"
    case ProRes => "prores_ks"
    case FFV1 => "ffv1"
  }

  /** getEncoderName: a non-empty override wins; by default there is none. */
  function EncoderName(codec: Codec, encoderOverride: string := ""): (name: string)
    ensures name != []
    ensures encoderOverride != [] ==> name == encoderOverride
    ensures encoderOverride == [] ==> name == EncoderTable(codec)
  {
    if encoderOverride != [] then encoderOverride else EncoderTable(codec)
  }

  /** Reads an encoder name back as the codec it stands for. */
  function CodecOfEncoder(name: string): Option<Codec> {
    if name == "libx264" then Some(X264)
    else if name == "libx265" then Some(X265)
    else if name == "h264_nvenc" then Some(H264_NVENC)
    else if name == "hevc_nvenc" then Some(H265_NVENC)
    else if name == "libaom-av1" then Some(AV1)
    else if name == "libsvtav1" then Some(SVT_AV1)
    else if name == "prores_ks" then Some(ProRes)
    else if name == "ffv1" then Some(FFV1)
    else None
  }

  /** The encoder table loses only the distinction between the two SVT-AV1
      codecs: every other codec can be recovered from its encoder name. */
  lemma EncoderTableRoundTrip(codec: Codec)
    ensures CodecOfEncoder(EncoderTable(codec)) ==
      (if codec == SVT_AV1_ESSENTIAL then Some(SVT_AV1) else Some(codec))
  {
  }

  /** Two codecs share an encoder exactly when they are the two SVT-AV1 variants. */
  lemma EncoderTableCollisions(c1: Codec, c2: Codec)
    ensures EncoderTable(c1) == EncoderTable(c2) <==>
      c1 == c2 || ({c1, c2} == {SVT_AV1, SVT_AV1_ESSENTIAL})
  {
    if EncoderTable(c1) == EncoderTable(c2) {
      EncoderTableRoundTrip(c1);
      EncoderTableRoundTrip(c2);
    }
  }

  /** A one-argument call uses the table; an override replaces it for every codec. */
  lemma EncoderOverrideWins(c1: Codec, c2: Codec, encoderOverride: string)
    requires encoderOverride != []
    ensures EncoderName(c1, encoderOverride) == EncoderName(c2, encoderOverride)
    ensures EncoderName(c1) == EncoderTable(c1)
  {
  }

  // ---------------------------------------------------------------------------
  // Argument blocks
  // ---------------------------------------------------------------------------

  predicate IsCrfCodec(codec: Codec) {
    codec == X264 || codec == X265 || codec == AV1 || codec == SVT_AV1 || codec == SVT_AV1_ESSENTIAL
  }

  predicate IsNvenc(codec: Codec) {
    codec == H264_NVENC || codec == H265_NVENC
  }

  /** The "-preset p" pair, present only for a non-empty preset. */
  function PresetPair(preset: string): (r: seq<string>)
    ensures |r| == (if preset == [] then 0 else 2)
  {
    if preset != [] then ["-preset", preset] else []
  }

  function ProResBlock(profile: int, vendor: string, bitsPerMb: int): seq<string> {
    ["-profile:v", IntToString(profile), "-vendor", vendor,
     "-bits_per_mb", IntToString(bitsPerMb), "-pix_fmt", "yuva444p10le"]
  }

  function FFV1Block(level: int, coder: int, context: int, slices: int): seq<string> {
    ["-level", IntToString(level), "-coder", IntToString(coder),
     "-context", IntToString(context), "-g", "1", "-slices", IntToString(slices)]
  }

  /** What addCodecArgs appends for a codec. */
  function CodecBlock(codec: Codec, quality: int, preset: string): seq<string> {
    if IsCrfCodec(codec) then ["-crf", IntToString(quality)] + PresetPair(preset)
    else if IsNvenc(codec) then ["-cq", IntToString(quality)] + PresetPair(preset)
    else if codec == ProRes then ProResBlock(4, "apl0", 8000)
    else FFV1Block(3, 1, 1, 24)
  }

  method AddProResArgs(args: ArgVector, profile: int := 4, vendor: string := "apl0", bitsPerMb: int := 8000)
    modifies args
    ensures args.items == old(args.items) + ProResBlock(profile, vendor, bitsPerMb)
  {
    args.PushPair("-profile:v", IntToString(profile));
    args.PushPair("-vendor", vendor);
    args.PushPair("-bits_per_mb", IntToString(bitsPerMb));
    args.PushPair("-pix_fmt", "yuva444p10le");
  }

  method AddFFV1Args(args: ArgVector, level: int := 3, coder: int := 1, context: int := 1, slices: int := 24)
    modifies args
    ensures args.items == old(args.items) + FFV1Block(level, coder, context, slices)
  {
    args.PushPair("-level", IntToString(level));
    args.PushPair("-coder", IntToString(coder));
    args.PushPair("-context", IntToString(context));
    args.PushPair("-g", "1");
    args.PushPair("-slices", IntToString(slices));
  }

  /** Appends the codec block; what was already in args stays as its prefix. */
  method AddCodecArgs(args: ArgVector, codec: Codec, quality: int, preset: string)
    modifies args
    ensures args.items == old(args.items) + CodecBlock(codec, quality, preset)
  {
    match codec {
      case X264 | X265 | AV1 | SVT_AV1 | SVT_AV1_ESSENTIAL =>
        args.PushPair("-crf", IntToString(quality));
        if preset != [] {
          args.PushPair("-preset", preset);
        }
      case H264_NVENC | H265_NVENC =>
        args.PushPair("-cq", IntToString(quality));
        if preset != [] {
          args.PushPair("-preset", preset);
        }
      case ProRes =>
        AddProResArgs(args);
      case FFV1 =>
        AddFFV1Args(args);
    }
  }

  /** CRF codecs get "-crf q", NVENC codecs "-cq q", followed by the preset pair
      exactly when the preset is non-empty; the quality can be read back. */
  lemma QualityBlock(codec: Codec, quality: int, preset: string)
    requires IsCrfCodec(codec) || IsNvenc(codec)
    ensures var b := CodecBlock(codec, quality, preset);
      && |b| == (if preset == [] then 2 else 4)
      && b[0] == (if IsNvenc(codec) then "-cq" else "-crf")
      && ParseInt(b[1]) == quality
      && (preset != [] ==> b[2] == "-preset" && b[3] == preset)
  {
    IntToStringRoundTrip(quality);
  }

  /** ProRes always gets the default profile 4, vendor apl0 and 8000 bits per
      macroblock, in 8 tokens ending with its pixel format; FFV1 always gets
      level 3, coder 1, context 1 and 24 slices in 10 tokens. Neither looks at
      the quality or the preset. */
  lemma FixedBlocks(quality: int, preset: string)
    ensures CodecBlock(ProRes, quality, preset) == ProResBlock(4, "apl0", 8000)
    ensures |CodecBlock(ProRes, quality, preset)| == 8
    ensures CodecBlock(ProRes, quality, preset)[6..] == ["-pix_fmt", "yuva444p10le"]
    ensures CodecBlock(FFV1, quality, preset) == FFV1Block(3, 1, 1, 24)
    ensures |CodecBlock(FFV1, quality, preset)| == 10
    ensures CodecBlock(FFV1, quality, preset) ==
      ["-level", "3", "-coder", "1", "-context", "1", "-g", "1", "-slices", "24"]
  {
    assert NatToString(24) == "24" by {
      assert NatToString(2) == "2";
    }
  }

  // ---------------------------------------------------------------------------
  // Containers
  // ---------------------------------------------------------------------------

  predicate IsKnownContainer(container: string) {
    container == "mkv" || container == "webm" || container == "mp4" || container == "mov"
  }

  /** getContainerExtension: the dotted name of a known container, ".mkv" otherwise. */
  function ContainerExtension(container: string): (ext: string)
    ensures ext == "." + (if IsKnownContainer(container) then container else "mkv")
  {
    if container == "mkv" then ".mkv"
    else if container == "webm" then ".webm"
    else if container == "mp4" then ".mp4"
    else if container == "mov" then ".mov"
    else ".mkv"
  }

  function IsCodecCompatibleWithContainer(codec: Codec, container: string): bool {
    if container == "webm" then codec == AV1 || codec == SVT_AV1
    else if container == "mov" then true
    else if container == "mkv" then true
    else if container == "mp4" then codec != FFV1
    else true
  }

  /** Only two pairs are ever refused: a non-AV1 codec in webm (which includes
      SVT_AV1_ESSENTIAL) and FFV1 in mp4. */
  lemma CompatibilityRules(codec: Codec, container: string)
    ensures IsCodecCompatibleWithContainer(codec, container) <==>
      !(container == "webm" && codec != AV1 && codec != SVT_AV1) &&
      !(container == "mp4" && codec == FFV1)
  {
  }

  /** Every codec fits in mkv and mov, and in any container the table does not name. */
  lemma PermissiveContainers(codec: Codec, container: string)
    requires container != "webm" && container != "mp4"
    ensures IsCodecCompatibleWithContainer(codec, container)
  {
  }

  // ---------------------------------------------------------------------------
  // Validation
  // ---------------------------------------------------------------------------

  /** The codecs whose quality value is checked against 0..51. */
  predicate HasQualityScale(codec: Codec) {
    codec == X264 || codec == X265 || codec == AV1 || codec == SVT_AV1 ||
    codec == H264_NVENC || codec == H265_NVENC
  }

  function ValidateQuality(codec: Codec, quality: int): (ok: bool)
    ensures ok <==> (HasQualityScale(codec) ==> 0 <= quality <= 51)
  {
    if HasQualityScale(codec) then quality >= 0 && quality <= 51 else true
  }

  /** The checked codecs are exactly those emitting -crf or -cq except
      SVT_AV1_ESSENTIAL, which emits -crf with any quality accepted. */
  lemma QualityScaleCodecs(codec: Codec)
    ensures HasQualityScale(codec) <==> (IsCrfCodec(codec) || IsNvenc(codec)) && codec != SVT_AV1_ESSENTIAL
    ensures !HasQualityScale(codec) ==> forall q :: ValidateQuality(codec, q)
  {
  }

  const X26xPresets: set<string> :=
    {"ultrafast", "superfast", "veryfast", "faster", "fast", "medium", "slow", "slower", "veryslow"}

  const NvencNamedPresets: set<string> := {"fast", "medium", "slow", "hq"}

  function ValidatePreset(codec: Codec, preset: string): (ok: bool)
    ensures preset == [] ==> ok
    ensures preset != [] && (codec == X264 || codec == X265) ==> (ok <==> preset in X26xPresets)
    ensures preset != [] && IsNvenc(codec) ==> (ok <==> preset in NvencNamedPresets || StartsWith(preset, "p"))
    ensures !(codec == X264 || codec == X265 || IsNvenc(codec)) ==> ok
  {
    if preset == [] then true
    else if codec == X264 || codec == X265 then
      preset == "ultrafast" || preset == "superfast" || preset == "veryfast" || preset == "faster" ||
      preset == "fast" || preset == "medium" || preset == "slow" || preset == "slower" || preset == "veryslow"
    else if codec == H264_NVENC || codec == H265_NVENC then
      preset == "fast" || preset == "medium" || preset == "slow" || preset == "hq" || (|preset| > 0 && preset[0] == 'p')
    else true
  }

  /** The NVENC numbered presets (p1..p7) pass, while x264/x265 refuse them; the
      x264 names "ultrafast" and "veryslow" are refused by NVENC. */
  lemma PresetExamples()
    ensures ValidatePreset(H264_NVENC, "p6") && !ValidatePreset(X264, "p6")
    ensures !ValidatePreset(H265_NVENC, "ultrafast") && ValidatePreset(X265, "veryslow")
    ensures ValidatePreset(ProRes, "anything")
  {
    assert "p6"[..1] == "p";
  }
}
