// The image-sequence encoder: a numbered image pattern in one directory becomes
// one video file, encoded with the codec table and the codec argument blocks.

module ImageEncode {
  import opened Wrappers
  import opened Text
  import opened Paths
  import opened Process
  import opened EncodeTypes
  import opened CommandText
  import CodecUtils

  datatype ContainerFormat = MKV | WEBM | MP4 | MOV

  /** The image-sequence job's own configuration (EncodeConfig in jobs/encode.hpp). */
  datatype SequenceConfig = SequenceConfig(
    inputDir: string,
    outputDir: string,
    outputFilename: string,
    format: ContainerFormat,
    codec: Codec,
    quality: int,
    preset: string,
    framerate: int,
    inputPattern: string)

  const DefaultSequenceConfig := SequenceConfig(
    inputDir := "", outputDir := "", outputFilename := "", format := MKV, codec := X264,
    quality := 23, preset := "medium", framerate := 24, inputPattern := "%08d.png")

  // ---------------------------------------------------------------------------
  // Output file name
  // ---------------------------------------------------------------------------

  /** The container's name as the codec table spells it. */
  function FormatName(f: ContainerFormat): string {
    match f
    case MKV => "mkv"
    case WEBM => "webm"
    case MP4 => "mp4"
    case MOV => "mov"
  }

  /** getContainerExtension of the image-sequence job. */
  function FormatExtension(f: ContainerFormat): (ext: string)
    ensures |ext| > 1 && ext[0] == '.'
  {
    match f
    case MKV => ".mkv"
    case WEBM => ".webm"
    case MP4 => ".mp4"
    case MOV => ".mov"
  }

  /** The four formats give the same extensions as the string-keyed codec table,
      and no two formats share one. */
  lemma FormatExtensionAgrees(f: ContainerFormat, g: ContainerFormat)
    ensures FormatExtension(f) == CodecUtils.ContainerExtension(FormatName(f))
    ensures FormatExtension(f) == FormatExtension(g) <==> f == g
  {
  }

  /** The file name with the extension appended unless it already occurs
      somewhere in the name (a substring test, not a suffix test). */
  function OutputName(c: SequenceConfig): (name: string)
    ensures Contains(name, FormatExtension(c.format))
    ensures Contains(c.outputFilename, FormatExtension(c.format)) ==> name == c.outputFilename
    ensures !Contains(c.outputFilename, FormatExtension(c.format)) ==>
      name == c.outputFilename + FormatExtension(c.format)
  {
    var ext := FormatExtension(c.format);
    FindFromStart(c.outputFilename, ext);
    if Find(c.outputFilename, ext, 0).None? then
      assert OccursAt(c.outputFilename + ext, ext, |c.outputFilename|);
      c.outputFilename + ext
    else c.outputFilename
  }

  /** getOutputPath: the output name under the output directory. */
  function OutputPath(c: SequenceConfig): string {
    Join(c.outputDir, OutputName(c))
  }

  /** Appending the extension when it is missing makes the name end with it. */
  lemma OutputPathEndsWithExtension(c: SequenceConfig)
    requires !Contains(c.outputFilename, FormatExtension(c.format))
    ensures EndsWith(OutputPath(c), FormatExtension(c.format))
  {
    var name := OutputName(c);
    var ext := FormatExtension(c.format);
    assert name[|name| - |ext|..] == ext;
  }

  /** A name that mentions the extension anywhere is kept as it is, even when
      it does not end with it. */
  lemma SubstringNotSuffix()
    ensures var c := DefaultSequenceConfig.(outputFilename := "a.mkv.bak");
      OutputName(c) == c.outputFilename && !EndsWith(c.outputFilename, FormatExtension(c.format))
  {
    var c := DefaultSequenceConfig.(outputFilename := "a.mkv.bak");
    assert FormatExtension(c.format) == ".mkv";
    assert OccursAt("a.mkv.bak", ".mkv", 1);
    assert "a.mkv.bak"[5] == '.' && "a.mkv.bak"[6] == 'b';
  }

  // ---------------------------------------------------------------------------
  // Command line
  // ---------------------------------------------------------------------------

  /** The yuv420p default: added for every codec but ProRes and FFV1, which
      choose their own. */
  function DefaultPixFmt(codec: Codec): seq<string> {
    if codec != ProRes && codec != FFV1 then ["-pix_fmt", "yuv420p"] else []
  }

  function InputPath(c: SequenceConfig): string {
    Join(c.inputDir, c.inputPattern)
  }

  function SequenceHead(c: SequenceConfig): seq<string> {
    ["-hide_banner", "-framerate", IntToString(c.framerate), "-i", InputPath(c),
     "-c:v", CodecUtils.EncoderName(c.codec)]
  }

  /** buildCommand: the whole argument list, in build order. */
  function SequenceArgs(c: SequenceConfig): seq<string> {
    SequenceHead(c) + CodecUtils.CodecBlock(c.codec, c.quality, c.preset)
    + DefaultPixFmt(c.codec) + [OutputPath(c)]
  }

  /** The fixed shape of the command: the banner flag first, the output path
      last, the encoder from the table (never an override). */
  lemma SequenceArgsShape(c: SequenceConfig)
    ensures var a := SequenceArgs(c);
      && |a| >= 8
      && a[..7] == ["-hide_banner", "-framerate", IntToString(c.framerate), "-i", InputPath(c),
                    "-c:v", CodecUtils.EncoderTable(c.codec)]
      && a[|a| - 1] == OutputPath(c)
  {
    HeadAndLast(SequenceHead(c), CodecUtils.CodecBlock(c.codec, c.quality, c.preset), DefaultPixFmt(c.codec),
                OutputPath(c));
  }
  lemma HeadAndLast<T>(head: seq<T>, m1: seq<T>, m2: seq<T>, last: T)
    ensures |head + m1 + m2 + [last]| >= |head| + 1
    ensures (head + m1 + m2 + [last])[..|head|] == head
    ensures (head + m1 + m2 + [last])[|head + m1 + m2 + [last]| - 1] == last
  {
  }
  /** The codec section carries exactly one -pix_fmt pair (the default one, or
      ProRes' own) except for FFV1, which carries none. */
  lemma PixFmtCount(codec: Codec, quality: int, preset: string)
    requires preset != "-pix_fmt"
    ensures Count(CodecUtils.CodecBlock(codec, quality, preset) + DefaultPixFmt(codec), "-pix_fmt")
         == (if codec == FFV1 then 0 else 1)
  {
    var block := CodecUtils.CodecBlock(codec, quality, preset);
    if codec == ProRes {
      ProResPixFmtCount(quality, preset);
      assert block + DefaultPixFmt(codec) == block;
    } else if codec == FFV1 {
      CodecUtils.FixedBlocks(quality, preset);
      CountAbsent(block, "-pix_fmt");
      assert block + DefaultPixFmt(codec) == block;
    } else {
      RateBlockPixFmtCount(codec, quality, preset);
      CountAppend(block, ["-pix_fmt", "yuv420p"], "-pix_fmt");
      assert Count(["-pix_fmt", "yuv420p"], "-pix_fmt") == 1;
    }
  }

  lemma RateBlockPixFmtCount(codec: Codec, quality: int, preset: string)
    requires preset != "-pix_fmt"
    requires CodecUtils.IsCrfCodec(codec) || CodecUtils.IsNvenc(codec)
    ensures Count(CodecUtils.CodecBlock(codec, quality, preset), "-pix_fmt") == 0
  {
    var block := CodecUtils.CodecBlock(codec, quality, preset);
    IntToStringIsPlain(quality);
    assert IsFlag("-pix_fmt");
    assert block == [block[0], IntToString(quality)] + CodecUtils.PresetPair(preset);
    assert block[0] == "-crf" || block[0] == "-cq";
    assert "-pix_fmt" !in block;
    CountAbsent(block, "-pix_fmt");
  }

  lemma ProResPixFmtCount(quality: int, preset: string)
    ensures Count(CodecUtils.CodecBlock(ProRes, quality, preset), "-pix_fmt") == 1
  {
    var block := CodecUtils.CodecBlock(ProRes, quality, preset);
    var front := ["-profile:v", IntToString(4), "-vendor", "apl0", "-bits_per_mb", IntToString(8000)];
    assert block == front + ["-pix_fmt", "yuva444p10le"];
    IntToStringIsPlain(4);
    IntToStringIsPlain(8000);
    assert IsFlag("-pix_fmt");
    assert "-pix_fmt" !in front;
    CountAbsent(front, "-pix_fmt");
    CountAppend(front, ["-pix_fmt", "yuva444p10le"], "-pix_fmt");
    assert Count(["-pix_fmt", "yuva444p10le"], "-pix_fmt") == 1;
  }

  // ---------------------------------------------------------------------------
  // Validation and execution
  // ---------------------------------------------------------------------------

  /** validatePaths: the input directory exists (an answer from the file
      system) and the output directory and file name are set. */
  predicate PathsValid(c: SequenceConfig, inputDirExists: bool) {
    inputDirExists && c.outputDir != [] && c.outputFilename != []
  }

  class EncodeJob {
    var config: SequenceConfig

    constructor (config: SequenceConfig)
      ensures this.config == config
    {
      this.config := config;
    }

    method SetConfig(c: SequenceConfig)
      modifies this
      ensures config == c
    {
      config := c;
    }

    method ValidatePaths(inputDirExists: bool) returns (ok: bool)
      ensures ok <==> PathsValid(config, inputDirExists)
    {
      if !inputDirExists {
        return false;
      }
      if config.outputDir == [] {
        return false;
      }
      if config.outputFilename == [] {
        return false;
      }
      return true;
    }

    method BuildCommand() returns (cmd: seq<string>)
      ensures cmd == SequenceArgs(config)
    {
      var args := new ArgVector();
      args.PushBack("-hide_banner");
      assert args.items == ["-hide_banner"];
      args.PushPair("-framerate", IntToString(config.framerate));
      args.PushPair("-i", InputPath(config));
      args.PushPair("-c:v", CodecUtils.EncoderName(config.codec));
      ghost var s1 := args.items;
      assert s1 == SequenceHead(config);
      CodecUtils.AddCodecArgs(args, config.codec, config.quality, config.preset);
      ghost var s2 := args.items;
      assert s2 == SequenceHead(config) + CodecUtils.CodecBlock(config.codec, config.quality, config.preset);
      if config.codec != ProRes && config.codec != FFV1 {
        args.PushPair("-pix_fmt", "yuv420p");
      } else {
        assert DefaultPixFmt(config.codec) == [];
      }
      assert args.items == s2 + DefaultPixFmt(config.codec);
      args.PushBack(OutputPath(config));
      cmd := args.items;
    }

    /** getCommandString: "ffmpeg" and the arguments, those with a space quoted. */
    method GetCommandString() returns (line: string)
      ensures line == Display("ffmpeg", SequenceArgs(config), false)
    {
      var args := BuildCommand();
      line := RenderCommand("ffmpeg", args, false);
    }

    /** execute: validate, create the output directory when it is missing, then
        run extern/ffmpeg.exe. The file-system and process outcomes are inputs. */
    method Execute(externPath: string, inputDirExists: bool, outputDirExists: bool,
                   mkdirSucceeds: bool, ffmpegSucceeds: bool)
      returns (ok: bool, actions: seq<Action>)
      ensures !PathsValid(config, inputDirExists) ==> !ok && actions == []
      ensures PathsValid(config, inputDirExists) && !outputDirExists && !mkdirSucceeds ==>
        !ok && actions == [MakeDirectories(config.outputDir)]
      ensures ok <==> PathsValid(config, inputDirExists) && (outputDirExists || mkdirSucceeds) && ffmpegSucceeds
      ensures PathsValid(config, inputDirExists) && (outputDirExists || mkdirSucceeds) ==>
        actions == (if outputDirExists then [] else [MakeDirectories(config.outputDir)])
                   + [RunProgram(Join(externPath, "ffmpeg.exe"), SequenceArgs(config))]
    {
      var valid := ValidatePaths(inputDirExists);
      if !valid {
        return false, [];
      }
      actions := [];
      if !outputDirExists {
        actions := [MakeDirectories(config.outputDir)];
        if !mkdirSucceeds {
          return false, actions;
        }
      }
      var args := BuildCommand();
      actions := actions + [RunProgram(Join(externPath, "ffmpeg.exe"), args)];
      ok := ffmpegSucceeds;
    }
  }

  // ---------------------------------------------------------------------------
  // The builder
  // ---------------------------------------------------------------------------

  class EncodeJobBuilder {
    var config: SequenceConfig

    constructor ()
      ensures config == DefaultSequenceConfig
    {
      config := DefaultSequenceConfig;
    }

    method InputDir(path: string)
      modifies this
      ensures config == old(config).(inputDir := path)
    {
      config := config.(inputDir := path);
    }

    method OutputDir(path: string)
      modifies this
      ensures config == old(config).(outputDir := path)
    {
      config := config.(outputDir := path);
    }

    method OutputFilename(name: string)
      modifies this
      ensures config == old(config).(outputFilename := name)
    {
      config := config.(outputFilename := name);
    }

    method InputPattern(pattern: string)
      modifies this
      ensures config == old(config).(inputPattern := pattern)
    {
      config := config.(inputPattern := pattern);
    }

    method Framerate(fps: int)
      modifies this
      ensures config == old(config).(framerate := fps)
    {
      config := config.(framerate := fps);
    }

    method Format(fmt: ContainerFormat)
      modifies this
      ensures config == old(config).(format := fmt)
    {
      config := config.(format := fmt);
    }

    method UseMkv()
      modifies this
      ensures config == old(config).(format := MKV)
    {
      Format(MKV);
    }

    method UseWebm()
      modifies this
      ensures config == old(config).(format := WEBM)
    {
      Format(WEBM);
    }

    method UseMp4()
      modifies this
      ensures config == old(config).(format := MP4)
    {
      Format(MP4);
    }

    method UseMov()
      modifies this
      ensures config == old(config).(format := MOV)
    {
      Format(MOV);
    }

    method SetCodec(c: Codec)
      modifies this
      ensures config == old(config).(codec := c)
    {
      config := config.(codec := c);
    }

    method UseX264()
      modifies this
      ensures config == old(config).(codec := X264)
    {
      SetCodec(X264);
    }

    method UseX265()
      modifies this
      ensures config == old(config).(codec := X265)
    {
      SetCodec(X265);
    }

    method UseAv1()
      modifies this
      ensures config == old(config).(codec := AV1)
    {
      SetCodec(AV1);
    }

    method UseH264Nvenc()
      modifies this
      ensures config == old(config).(codec := H264_NVENC)
    {
      SetCodec(H264_NVENC);
    }

    method UseH265Nvenc()
      modifies this
      ensures config == old(config).(codec := H265_NVENC)
    {
      SetCodec(H265_NVENC);
    }

    /** Only the codec: the ProRes block comes from the codec table defaults. */
    method UseProRes()
      modifies this
      ensures config == old(config).(codec := ProRes)
    {
      SetCodec(ProRes);
    }

    method UseFfv1()
      modifies this
      ensures config == old(config).(codec := FFV1)
    {
      SetCodec(FFV1);
    }

    method Quality(crf: int)
      modifies this
      ensures config == old(config).(quality := crf)
    {
      config := config.(quality := crf);
    }

    method Preset(p: string)
      modifies this
      ensures config == old(config).(preset := p)
    {
      config := config.(preset := p);
    }

    /** build(): no validation, a job holding a copy of the configuration. */
    method Build() returns (job: EncodeJob)
      ensures fresh(job) && job.config == config
    {
      job := new EncodeJob(config);
    }
  }
}
