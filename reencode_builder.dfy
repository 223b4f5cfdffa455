// The fluent builder for re-encode jobs: every setter changes named fields of
// one EncodeConfig (or one of the two paths), and build() is the only place a
// configuration is validated before a ReencodeJob is made.

module ReencodeBuilder {
  import opened Wrappers
  import opened Text
  import opened EncodeTypes
  import opened Reencode
  import CodecUtils

  // ---------------------------------------------------------------------------
  // Validation done by build()
  // ---------------------------------------------------------------------------

  predicate IsQualityMode(r: RateControl) {
    r == CRF || r == CQP
  }

  /** The builder's check: the job's own conditions, then the CRF/CQP quality
      range 0..51. The first failing condition is reported. */
  function BuildCheck(inputPath: string, outputPath: string, c: EncodeConfig): (r: Option<ReencodeError>)
    ensures r.None? <==>
      inputPath != [] && outputPath != []
      && (IsBitrateMode(c.rateControl) ==> c.bitrateKbps > 0)
      && (IsQualityMode(c.rateControl) ==> 0 <= c.quality <= 51)
    ensures r == Some(QualityOutOfRange) <==>
      JobCheck(inputPath, outputPath, c).None? && IsQualityMode(c.rateControl)
      && (c.quality < 0 || c.quality > 51)
  {
    match JobCheck(inputPath, outputPath, c)
    case Some(e) => Some(e)
    case None =>
      if IsQualityMode(c.rateControl) && (c.quality < 0 || c.quality > 51) then Some(QualityOutOfRange)
      else None
  }

  /** Whatever the builder lets through, the job accepts too; the builder only
      adds the quality range. */
  lemma BuildCheckRefinesJobCheck(inputPath: string, outputPath: string, c: EncodeConfig)
    ensures BuildCheck(inputPath, outputPath, c).None? ==> JobCheck(inputPath, outputPath, c).None?
    ensures BuildCheck(inputPath, outputPath, c) != Some(QualityOutOfRange) ==>
      BuildCheck(inputPath, outputPath, c) == JobCheck(inputPath, outputPath, c)
  {
  }

  /** A job made directly, without the builder, can carry a CRF outside 0..51. */
  lemma JobAcceptsWhatBuilderRefuses()
    ensures JobCheck("in.mov", "out.mp4", DefaultEncodeConfig.(quality := 60)).None?
    ensures BuildCheck("in.mov", "out.mp4", DefaultEncodeConfig.(quality := 60)) == Some(QualityOutOfRange)
  {
  }

  // ---------------------------------------------------------------------------
  // The complete presets, as changes of a configuration
  // ---------------------------------------------------------------------------

  function YoutubeSettings(c: EncodeConfig): EncodeConfig {
    c.(codec := X264, rateControl := CRF, quality := 23, preset := "medium",
       pixelFormat := YUV420P8, audio := c.audio.(copyAudio := true), container := "mp4")
  }

  function X264Settings(c: EncodeConfig): EncodeConfig {
    c.(codec := X264, rateControl := CRF, quality := 16, preset := "slow",
       x264Params := "direct=spatial:me=umh", pixelFormat := YUV420P8,
       audio := c.audio.(copyAudio := true), container := "mp4")
  }

  function X265Settings(c: EncodeConfig): EncodeConfig {
    c.(codec := X265, rateControl := CRF, quality := 18, preset := "medium",
       pixelFormat := YUV420P8, audio := c.audio.(copyAudio := true), container := "mp4")
  }

  function NvencSettings(c: EncodeConfig, codec: Codec): EncodeConfig {
    c.(codec := codec, rateControl := CQP, quality := 18, preset := "p6",
       bAdapt := 1, rcLookahead := 30, qpCbOffset := -2, qpCrOffset := -2,
       pixelFormat := NV12, audio := c.audio.(copyAudio := true), container := "mp4")
  }

  function ProResSettings(c: EncodeConfig, profile: int): EncodeConfig {
    c.(codec := ProRes, proresProfile := profile, proresVendor := "apl0", bitsPerMb := 8000,
       pixelFormat := YUVA444P10LE, audio := c.audio.(copyAudio := true), container := "mov")
  }

  function FFV1Settings(c: EncodeConfig): EncodeConfig {
    c.(codec := FFV1, ffv1Coder := 2, ffv1Context := 1, ffv1Level := 3, ffv1Slices := 12,
       gopSize := 1, audio := c.audio.(copyAudio := true), container := "mkv")
  }

  /** Every complete preset leaves a configuration that build() accepts as soon
      as both paths are set, whatever was configured before. */
  lemma PresetsPassBuildCheck(inputPath: string, outputPath: string, c: EncodeConfig, profile: int)
    requires inputPath != [] && outputPath != []
    ensures BuildCheck(inputPath, outputPath, YoutubeSettings(c)).None?
    ensures BuildCheck(inputPath, outputPath, X264Settings(c)).None?
    ensures BuildCheck(inputPath, outputPath, X265Settings(c)).None?
    ensures BuildCheck(inputPath, outputPath, NvencSettings(c, H264_NVENC)).None?
    ensures BuildCheck(inputPath, outputPath, NvencSettings(c, H265_NVENC)).None?
  {
  }

  /** The ProRes and FFV1 presets keep the incoming rate control, so they pass
      build() exactly when the previous rate-control settings did. */
  lemma IntraPresetsKeepRateControl(inputPath: string, outputPath: string, c: EncodeConfig, profile: int)
    ensures BuildCheck(inputPath, outputPath, ProResSettings(c, profile)) == BuildCheck(inputPath, outputPath, c)
    ensures BuildCheck(inputPath, outputPath, FFV1Settings(c)) == BuildCheck(inputPath, outputPath, c)
  {
  }

  /** What the presets put on the re-encode command line. */
  lemma YoutubePresetArgs(c: EncodeConfig)
    ensures RateControlBlock(YoutubeSettings(c)) == ["-crf", "23"]
    ensures AudioBlock(YoutubeSettings(c).audio) == ["-c:a", "copy"]
    ensures PixelFormatBlock(YoutubeSettings(c)) == ["-pix_fmt", "yuv420p"]
  {
    assert NatToString(23) == "23";
  }

  lemma NvencPresetArgs(c: EncodeConfig, codec: Codec)
    requires codec == H264_NVENC || codec == H265_NVENC
    requires c.encoderOverride == []
    ensures RateControlBlock(NvencSettings(c, codec)) == ["-qp", "18"]
    ensures VideoCodecBlock(NvencSettings(c, codec)) ==
      ["-c:v", if codec == H264_NVENC then "h264_nvenc" else "hevc_nvenc",
       "-b_adapt", "1", "-rc-lookahead", "30", "-qp_cb_offset", "-2", "-qp_cr_offset", "-2"]
  {
    var s := NvencSettings(c, codec);
    assert NatToString(18) == "18";
    assert NatToString(30) == "30";
    assert IntToString(-2) == "-2";
    assert NvencPart(s) == ["-b_adapt", "1", "-rc-lookahead", "30"] + ["-qp_cb_offset", "-2"] + ["-qp_cr_offset", "-2"];
  }

  lemma ProResPresetArgs(c: EncodeConfig, profile: int)
    requires c.encoderOverride == []
    ensures VideoCodecBlock(ProResSettings(c, profile)) ==
      ["-c:v", "prores_ks", "-profile:v", IntToString(profile), "-vendor", "apl0", "-bits_per_mb", "8000"]
    ensures PixelFormatBlock(ProResSettings(c, profile)) == ["-pix_fmt", "yuva444p10le"]
  {
    assert NatToString(8000) == "8000";
    assert ProResPart(ProResSettings(c, profile)) ==
      ["-profile:v", IntToString(profile), "-vendor", "apl0", "-bits_per_mb", "8000"];
  }

  lemma FFV1PresetArgs(c: EncodeConfig)
    requires c.encoderOverride == []
    ensures VideoCodecBlock(FFV1Settings(c)) ==
      ["-c:v", "ffv1", "-coder", "2", "-context", "1", "-level", "3", "-slices", "12"]
    ensures PositiveNumber("-g", FFV1Settings(c).gopSize) == ["-g", "1"]
  {
    assert NatToString(12) == "12";
  }

  /** cbr(k) stores a buffer of 2k, which is also what the job falls back to
      when no buffer is set: the CBR section is the same either way. */
  lemma CbrBufferAgrees(c: EncodeConfig, k: int)
    requires k > 0
    ensures RateControlBlock(c.(rateControl := CBR, bitrateKbps := k, bufferSizeKbps := k * 2))
         == RateControlBlock(c.(rateControl := CBR, bitrateKbps := k, bufferSizeKbps := 0))
    ensures RateControlBlock(c.(rateControl := CBR, bitrateKbps := k, bufferSizeKbps := k * 2))
         == ["-b:v", Kbps(k), "-maxrate", Kbps(k), "-bufsize", Kbps(2 * k)]
  {
  }

  // ---------------------------------------------------------------------------
  // The builder
  // ---------------------------------------------------------------------------

  class ReencodeJobBuilder {
    var inputPath: string
    var outputPath: string
    var config: EncodeConfig

    constructor ()
      ensures inputPath == [] && outputPath == [] && config == DefaultEncodeConfig
    {
      inputPath := [];
      outputPath := [];
      config := DefaultEncodeConfig;
    }

    // --- paths ---

    method Input(path: string)
      modifies this
      ensures inputPath == path && outputPath == old(outputPath) && config == old(config)
    {
      inputPath := path;
    }

    method Output(path: string)
      modifies this
      ensures outputPath == path && inputPath == old(inputPath) && config == old(config)
    {
      outputPath := path;
    }

    // --- codec shortcuts ---

    method SetCodec(c: Codec)
      modifies this
      ensures config == old(config).(codec := c)
      ensures inputPath == old(inputPath) && outputPath == old(outputPath)
    {
      config := config.(codec := c);
    }

    method UseX264()
      modifies this
      ensures config == old(config).(codec := X264)
      ensures inputPath == old(inputPath) && outputPath == old(outputPath)
    {
      config := config.(codec := X264);
    }

    method UseX265()
      modifies this
      ensures config == old(config).(codec := X265)
      ensures inputPath == old(inputPath) && outputPath == old(outputPath)
    {
      config := config.(codec := X265);
    }

    /** hevc() is an alias of x265(). */
    method UseHevc()
      modifies this
      ensures config == old(config).(codec := X265)
      ensures inputPath == old(inputPath) && outputPath == old(outputPath)
    {
      UseX265();
    }

    method UseAv1()
      modifies this
      ensures config == old(config).(codec := AV1)
      ensures inputPath == old(inputPath) && outputPath == old(outputPath)
    {
      config := config.(codec := AV1);
    }

    method UseSvtAv1()
      modifies this
      ensures config == old(config).(codec := SVT_AV1)
      ensures inputPath == old(inputPath) && outputPath == old(outputPath)
    {
      config := config.(codec := SVT_AV1);
    }

    /** prores() also selects the ProRes 4444 parameters and pixel format. */
    method UseProRes()
      modifies this
      ensures config == old(config).(codec := ProRes, proresProfile := 4, proresVendor := "apl0",
                                     bitsPerMb := 8000, pixelFormat := YUVA444P10LE)
      ensures inputPath == old(inputPath) && outputPath == old(outputPath)
    {
      config := config.(codec := ProRes, proresProfile := 4, proresVendor := "apl0",
                        bitsPerMb := 8000, pixelFormat := YUVA444P10LE);
    }

    /** ffv1() also selects the lossless FFV1 parameters and intra-only GOP. */
    method UseFfv1()
      modifies this
      ensures config == old(config).(codec := FFV1, ffv1Coder := 2, ffv1Context := 1,
                                     ffv1Level := 3, ffv1Slices := 12, gopSize := 1)
      ensures inputPath == old(inputPath) && outputPath == old(outputPath)
    {
      config := config.(codec := FFV1, ffv1Coder := 2, ffv1Context := 1,
                        ffv1Level := 3, ffv1Slices := 12, gopSize := 1);
    }

    method UseH264Nvenc()
      modifies this
      ensures config == old(config).(codec := H264_NVENC)
      ensures inputPath == old(inputPath) && outputPath == old(outputPath)
    {
      config := config.(codec := H264_NVENC);
    }

    method UseH265Nvenc()
      modifies this
      ensures config == old(config).(codec := H265_NVENC)
      ensures inputPath == old(inputPath) && outputPath == old(outputPath)
    {
      config := config.(codec := H265_NVENC);
    }

    // --- rate control ---

    method Crf(value: int)
      modifies this
      ensures config == old(config).(rateControl := CRF, quality := value)
      ensures inputPath == old(inputPath) && outputPath == old(outputPath)
    {
      config := config.(rateControl := CRF, quality := value);
    }

    method Qp(value: int)
      modifies this
      ensures config == old(config).(rateControl := CQP, quality := value)
      ensures inputPath == old(inputPath) && outputPath == old(outputPath)
    {
      config := config.(rateControl := CQP, quality := value);
    }

    /** bitrate(k) selects VBR and leaves the buffer size alone. */
    method Bitrate(kbps: int)
      modifies this
      ensures config == old(config).(rateControl := VBR, bitrateKbps := kbps)
      ensures inputPath == old(inputPath) && outputPath == old(outputPath)
    {
      config := config.(rateControl := VBR, bitrateKbps := kbps);
    }

    /** cbr(k) selects CBR with a buffer of twice the bitrate. */
    method Cbr(kbps: int)
      modifies this
      ensures config == old(config).(rateControl := CBR, bitrateKbps := kbps, bufferSizeKbps := kbps * 2)
      ensures inputPath == old(inputPath) && outputPath == old(outputPath)
    {
      config := config.(rateControl := CBR, bitrateKbps := kbps, bufferSizeKbps := kbps * 2);
    }

    /** vbr() is an alias of bitrate(). */
    method Vbr(kbps: int)
      modifies this
      ensures config == old(config).(rateControl := VBR, bitrateKbps := kbps)
      ensures inputPath == old(inputPath) && outputPath == old(outputPath)
    {
      Bitrate(kbps);
    }

    // --- encoding parameters ---

    method Preset(p: string)
      modifies this
      ensures config == old(config).(preset := p)
      ensures inputPath == old(inputPath) && outputPath == old(outputPath)
    {
      config := config.(preset := p);
    }

    method Tune(t: string)
      modifies this
      ensures config == old(config).(tune := t)
      ensures inputPath == old(inputPath) && outputPath == old(outputPath)
    {
      config := config.(tune := t);
    }

    method GopSize(frames: int)
      modifies this
      ensures config == old(config).(gopSize := frames)
      ensures inputPath == old(inputPath) && outputPath == old(outputPath)
    {
      config := config.(gopSize := frames);
    }

    method BFrames(count: int)
      modifies this
      ensures config == old(config).(bframes := count)
      ensures inputPath == old(inputPath) && outputPath == old(outputPath)
    {
      config := config.(bframes := count);
    }

    method Threads(count: int)
      modifies this
      ensures config == old(config).(threads := count)
      ensures inputPath == old(inputPath) && outputPath == old(outputPath)
    {
      config := config.(threads := count);
    }

    // --- pixel format ---

    method EightBit()
      modifies this
      ensures config == old(config).(pixelFormat := YUV420P8)
      ensures inputPath == old(inputPath) && outputPath == old(outputPath)
    {
      config := config.(pixelFormat := YUV420P8);
    }

    method TenBit()
      modifies this
      ensures config == old(config).(pixelFormat := YUV420P10)
      ensures inputPath == old(inputPath) && outputPath == old(outputPath)
    {
      config := config.(pixelFormat := YUV420P10);
    }

    method SetPixelFormat(fmt: PixelFormat)
      modifies this
      ensures config == old(config).(pixelFormat := fmt)
      ensures inputPath == old(inputPath) && outputPath == old(outputPath)
    {
      config := config.(pixelFormat := fmt);
    }

    // --- codec-specific parameters ---

    method ProResProfile(profile: int)
      modifies this
      ensures config == old(config).(proresProfile := profile)
      ensures inputPath == old(inputPath) && outputPath == old(outputPath)
    {
      config := config.(proresProfile := profile);
    }

    method ProResVendor(vendor: string)
      modifies this
      ensures config == old(config).(proresVendor := vendor)
      ensures inputPath == old(inputPath) && outputPath == old(outputPath)
    {
      config := config.(proresVendor := vendor);
    }

    method ProResBitsPerMb(bits: int)
      modifies this
      ensures config == old(config).(bitsPerMb := bits)
      ensures inputPath == old(inputPath) && outputPath == old(outputPath)
    {
      config := config.(bitsPerMb := bits);
    }

    method Ffv1Coder(coder: int)
      modifies this
      ensures config == old(config).(ffv1Coder := coder)
      ensures inputPath == old(inputPath) && outputPath == old(outputPath)
    {
      config := config.(ffv1Coder := coder);
    }

    method Ffv1Context(context: int)
      modifies this
      ensures config == old(config).(ffv1Context := context)
      ensures inputPath == old(inputPath) && outputPath == old(outputPath)
    {
      config := config.(ffv1Context := context);
    }

    method Ffv1Level(level: int)
      modifies this
      ensures config == old(config).(ffv1Level := level)
      ensures inputPath == old(inputPath) && outputPath == old(outputPath)
    {
      config := config.(ffv1Level := level);
    }

    method Ffv1Slices(slices: int)
      modifies this
      ensures config == old(config).(ffv1Slices := slices)
      ensures inputPath == old(inputPath) && outputPath == old(outputPath)
    {
      config := config.(ffv1Slices := slices);
    }

    method X264Params(params: string)
      modifies this
      ensures config == old(config).(x264Params := params)
      ensures inputPath == old(inputPath) && outputPath == old(outputPath)
    {
      config := config.(x264Params := params);
    }

    method NvencBAdapt(value: int)
      modifies this
      ensures config == old(config).(bAdapt := value)
      ensures inputPath == old(inputPath) && outputPath == old(outputPath)
    {
      config := config.(bAdapt := value);
    }

    method NvencRcLookahead(frames: int)
      modifies this
      ensures config == old(config).(rcLookahead := frames)
      ensures inputPath == old(inputPath) && outputPath == old(outputPath)
    {
      config := config.(rcLookahead := frames);
    }

    method NvencQpCbOffset(offset: int)
      modifies this
      ensures config == old(config).(qpCbOffset := offset)
      ensures inputPath == old(inputPath) && outputPath == old(outputPath)
    {
      config := config.(qpCbOffset := offset);
    }

    method NvencQpCrOffset(offset: int)
      modifies this
      ensures config == old(config).(qpCrOffset := offset)
      ensures inputPath == old(inputPath) && outputPath == old(outputPath)
    {
      config := config.(qpCrOffset := offset);
    }

    // --- colour ---

    /** colorSpace(): an explicit profile, which turns pass-through off. */
    method ColorSpace(primaries: ColorPrimaries, transfer: TransferCharacteristic,
                      matrix: MatrixCoefficients, range: Range := Limited)
      modifies this
      ensures config == old(config).(passthroughColor := false,
        colorProfile := ColorProfile(primaries, transfer, matrix, range))
      ensures inputPath == old(inputPath) && outputPath == old(outputPath)
    {
      config := config.(passthroughColor := false,
        colorProfile := ColorProfile(primaries, transfer, matrix, range));
    }

    method Sdr()
      modifies this
      ensures config == old(config).(passthroughColor := false,
        colorProfile := ColorProfile(PrimariesBT709, BT1886, MatrixBT709, Limited))
      ensures inputPath == old(inputPath) && outputPath == old(outputPath)
    {
      ColorSpace(PrimariesBT709, BT1886, MatrixBT709, Limited);
    }

    method Hdr10()
      modifies this
      ensures config == old(config).(passthroughColor := false,
        colorProfile := ColorProfile(PrimariesBT2020, PQ, MatrixBT2020NCL, Limited))
      ensures inputPath == old(inputPath) && outputPath == old(outputPath)
    {
      ColorSpace(PrimariesBT2020, PQ, MatrixBT2020NCL, Limited);
    }

    method Hlg()
      modifies this
      ensures config == old(config).(passthroughColor := false,
        colorProfile := ColorProfile(PrimariesBT2020, HLG, MatrixBT2020NCL, Limited))
      ensures inputPath == old(inputPath) && outputPath == old(outputPath)
    {
      ColorSpace(PrimariesBT2020, HLG, MatrixBT2020NCL, Limited);
    }

    // --- HDR metadata ---

    method MaxCll(maxCll: u16, maxFall: u16)
      modifies this
      ensures config == old(config).(contentLightLevel := Some(ContentLightLevel(maxCll, maxFall)))
      ensures inputPath == old(inputPath) && outputPath == old(outputPath)
    {
      config := config.(contentLightLevel := Some(ContentLightLevel(maxCll, maxFall)));
    }

    method SetMasteringDisplay(redX: real, redY: real, greenX: real, greenY: real, blueX: real, blueY: real,
                               whiteX: real, whiteY: real, minLum: real, maxLum: real)
      modifies this
      ensures config == old(config).(masteringDisplay :=
        Some(MasteringDisplay(redX, redY, greenX, greenY, blueX, blueY, whiteX, whiteY, minLum, maxLum)))
      ensures inputPath == old(inputPath) && outputPath == old(outputPath)
    {
      config := config.(masteringDisplay :=
        Some(MasteringDisplay(redX, redY, greenX, greenY, blueX, blueY, whiteX, whiteY, minLum, maxLum)));
    }

    // --- audio ---

    method CopyAudio()
      modifies this
      ensures config == old(config).(audio := old(config).audio.(copyAudio := true))
      ensures inputPath == old(inputPath) && outputPath == old(outputPath)
    {
      config := config.(audio := config.audio.(copyAudio := true));
    }

    /** Choosing an audio codec turns stream copy off. */
    method AudioCodec(codec: string)
      modifies this
      ensures config == old(config).(audio := old(config).audio.(copyAudio := false, codec := codec))
      ensures inputPath == old(inputPath) && outputPath == old(outputPath)
    {
      config := config.(audio := config.audio.(copyAudio := false, codec := codec));
    }

    method AudioBitrate(kbps: int)
      modifies this
      ensures config == old(config).(audio := old(config).audio.(bitrateKbps := kbps))
      ensures inputPath == old(inputPath) && outputPath == old(outputPath)
    {
      config := config.(audio := config.audio.(bitrateKbps := kbps));
    }

    /** The int argument is stored in a 32-bit unsigned field. */
    method AudioSampleRate(hz: int)
      modifies this
      ensures config == old(config).(audio := old(config).audio.(sampleRate := ToU32(hz)))
      ensures inputPath == old(inputPath) && outputPath == old(outputPath)
    {
      config := config.(audio := config.audio.(sampleRate := ToU32(hz)));
    }

    /** The int argument is stored in a 16-bit unsigned field. */
    method AudioChannels(channels: int)
      modifies this
      ensures config == old(config).(audio := old(config).audio.(channels := ToU16(channels)))
      ensures inputPath == old(inputPath) && outputPath == old(outputPath)
    {
      config := config.(audio := config.audio.(channels := ToU16(channels)));
    }

    // --- container and extra arguments ---

    method Container(ext: string)
      modifies this
      ensures config == old(config).(container := ext)
      ensures inputPath == old(inputPath) && outputPath == old(outputPath)
    {
      config := config.(container := ext);
    }

    method ExtraArgs(args: seq<string>)
      modifies this
      ensures config == old(config).(extraArgs := args)
      ensures inputPath == old(inputPath) && outputPath == old(outputPath)
    {
      config := config.(extraArgs := args);
    }

    method AddExtraArg(arg: string)
      modifies this
      ensures config == old(config).(extraArgs := old(config).extraArgs + [arg])
      ensures inputPath == old(inputPath) && outputPath == old(outputPath)
    {
      config := config.(extraArgs := config.extraArgs + [arg]);
    }

    // --- complete presets: each a sequence of the setters above ---

    method YoutubePreset()
      modifies this
      ensures config == YoutubeSettings(old(config))
      ensures inputPath == old(inputPath) && outputPath == old(outputPath)
    {
      UseX264();
      Crf(23);
      Preset("medium");
      EightBit();
      CopyAudio();
      config := config.(container := "mp4");
    }

    method X264Preset()
      modifies this
      ensures config == X264Settings(old(config))
      ensures inputPath == old(inputPath) && outputPath == old(outputPath)
    {
      UseX264();
      Crf(16);
      Preset("slow");
      X264Params("direct=spatial:me=umh");
      SetPixelFormat(YUV420P8);
      CopyAudio();
      config := config.(container := "mp4");
    }

    method X265Preset()
      modifies this
      ensures config == X265Settings(old(config))
      ensures inputPath == old(inputPath) && outputPath == old(outputPath)
    {
      UseX265();
      Crf(18);
      Preset("medium");
      SetPixelFormat(YUV420P8);
      CopyAudio();
      config := config.(container := "mp4");
    }

    method H264NvencPreset()
      modifies this
      ensures config == NvencSettings(old(config), H264_NVENC)
      ensures inputPath == old(inputPath) && outputPath == old(outputPath)
    {
      UseH264Nvenc();
      NvencCommon();
    }

    method H265NvencPreset()
      modifies this
      ensures config == NvencSettings(old(config), H265_NVENC)
      ensures inputPath == old(inputPath) && outputPath == old(outputPath)
    {
      UseH265Nvenc();
      NvencCommon();
    }

    /** The setter calls the two NVENC presets share after choosing the codec. */
    method NvencCommon()
      modifies this
      ensures config == NvencSettings(old(config), old(config).codec)
      ensures inputPath == old(inputPath) && outputPath == old(outputPath)
    {
      Qp(18);
      Preset("p6");
      NvencBAdapt(1);
      NvencRcLookahead(30);
      NvencQpCbOffset(-2);
      NvencQpCrOffset(-2);
      SetPixelFormat(NV12);
      CopyAudio();
      config := config.(container := "mp4");
    }

    method ProResPreset(profile: int := 4)
      modifies this
      ensures config == ProResSettings(old(config), profile)
      ensures inputPath == old(inputPath) && outputPath == old(outputPath)
    {
      UseProRes();
      ProResProfile(profile);
      ProResVendor("apl0");
      ProResBitsPerMb(8000);
      SetPixelFormat(YUVA444P10LE);
      CopyAudio();
      config := config.(container := "mov");
    }

    method Ffv1Preset()
      modifies this
      ensures config == FFV1Settings(old(config))
      ensures inputPath == old(inputPath) && outputPath == old(outputPath)
    {
      UseFfv1();
      Ffv1Coder(2);
      Ffv1Context(1);
      Ffv1Level(3);
      Ffv1Slices(12);
      GopSize(1);
      CopyAudio();
      config := config.(container := "mkv");
    }

    // --- validation and construction ---

    method Validate() returns (err: Option<ReencodeError>)
      ensures err == BuildCheck(inputPath, outputPath, config)
    {
      if inputPath == [] {
        return Some(EmptyInputPath);
      }
      if outputPath == [] {
        return Some(EmptyOutputPath);
      }
      if config.rateControl == VBR || config.rateControl == CBR {
        if config.bitrateKbps <= 0 {
          return Some(NonPositiveBitrate);
        }
      }
      if config.rateControl == CRF || config.rateControl == CQP {
        if config.quality < 0 || config.quality > 51 {
          return Some(QualityOutOfRange);
        }
      }
      return None;
    }

    /** build(): validate, then a new job carrying the builder's paths and
        configuration. Nothing is constructed when validation fails. */
    method Build() returns (r: Result<ReencodeJob, ReencodeError>)
      ensures r.Failure? <==> BuildCheck(inputPath, outputPath, config).Some?
      ensures r.Failure? ==> r.error == BuildCheck(inputPath, outputPath, config).value
      ensures r.Success? ==>
        (fresh(r.value) && r.value.inputPath == inputPath && r.value.outputPath == outputPath
         && r.value.config == config)
    {
      var err := Validate();
      if err.Some? {
        return Failure(err.value);
      }
      var job := new ReencodeJob(inputPath, outputPath);
      job.SetConfig(config);
      return Success(job);
    }
  }
}
