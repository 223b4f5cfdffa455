// Frame extraction: every frame of a video written as a numbered still image,
// in PNG, TIFF or JPEG, into the output directory or a sub-folder of it.

module ExtractFrames {
  import opened Text
  import opened Paths
  import opened Process
  import opened CommandText

  datatype ImageFormat = PNG | TIFF | JPEG

  datatype FramesConfig = FramesConfig(
    inputPath: string,
    outputDir: string,
    createSubfolder: bool,
    subfolderName: string,
    format: ImageFormat)

  const DefaultFramesConfig := FramesConfig(
    inputPath := "", outputDir := "", createSubfolder := true, subfolderName := "", format := PNG)

  // ---------------------------------------------------------------------------
  // Output location
  // ---------------------------------------------------------------------------

  function FileExtension(f: ImageFormat): string {
    match f
    case PNG => ".png"
    case TIFF => ".tiff"
    case JPEG => ".jpg"
  }

  /** Each format has its own dotted extension. */
  lemma FileExtensionsDistinct(f: ImageFormat, g: ImageFormat)
    ensures |FileExtension(f)| > 1 && FileExtension(f)[0] == '.'
    ensures FileExtension(f) == FileExtension(g) <==> f == g
  {
  }

  /** The sub-folder is used only when it is requested and named. */
  predicate UsesSubfolder(createSubfolder: bool, subfolderName: string) {
    createSubfolder && subfolderName != []
  }

  function TargetDir(outputDir: string, createSubfolder: bool, subfolderName: string): string {
    if UsesSubfolder(createSubfolder, subfolderName) then Join(outputDir, subfolderName) else outputDir
  }

  /** The frames land in the output directory itself, or in a named child of it. */
  lemma TargetDirPlacement(outputDir: string, createSubfolder: bool, subfolderName: string)
    requires Separator !in subfolderName
    ensures !UsesSubfolder(createSubfolder, subfolderName) ==>
      TargetDir(outputDir, createSubfolder, subfolderName) == outputDir
    ensures UsesSubfolder(createSubfolder, subfolderName) && NoDoubleSeparator(outputDir) && outputDir != []
            && outputDir[|outputDir| - 1] != Separator ==>
      ParentPath(TargetDir(outputDir, createSubfolder, subfolderName)) == outputDir
      && Filename(TargetDir(outputDir, createSubfolder, subfolderName)) == subfolderName
  {
    if UsesSubfolder(createSubfolder, subfolderName) && NoDoubleSeparator(outputDir) && outputDir != []
       && outputDir[|outputDir| - 1] != Separator {
      var t := outputDir + [Separator] + subfolderName;
      assert TargetDir(outputDir, createSubfolder, subfolderName) == t;
      assert t[|outputDir|] == Separator;
      assert forall k :: |outputDir| < k < |t| ==> t[k] == subfolderName[k - |outputDir| - 1];
      LastIndexOfAt(t, Separator, |outputDir|);
      assert t[..|outputDir|] == outputDir;
      assert t[|outputDir| + 1..] == subfolderName;
    }
  }

  /** getOutputPattern: an eight-digit frame counter with the format's extension. */
  function OutputPattern(c: FramesConfig): string {
    Join(TargetDir(c.outputDir, c.createSubfolder, c.subfolderName), "%08d" + FileExtension(c.format))
  }

  // ---------------------------------------------------------------------------
  // Command line
  // ---------------------------------------------------------------------------

  /** The value of the three colour tags: 1 (BT.709) for TIFF, 2 (unspecified)
      otherwise. */
  function ColourTag(f: ImageFormat): string {
    if f == TIFF then "1" else "2"
  }

  function ColourTags(tag: string): seq<string> {
    ["-color_trc", tag, "-colorspace", tag, "-color_primaries", tag, "-map", "0:v"]
  }

  function EncoderTail(f: ImageFormat): seq<string> {
    match f
    case PNG => ["-c:v", "png", "-pix_fmt", "rgb24", "-start_number", "0"]
    case TIFF =>
      ["-c:v", "tiff", "-pix_fmt", "rgb24", "-compression_algo", "deflate", "-start_number", "0",
       "-movflags", "frag_keyframe+empty_moov+delay_moov+use_metadata_tags+write_colr", "-bf", "0"]
    case JPEG => ["-c:v", "mjpeg", "-pix_fmt", "yuvj420p", "-q:v", "1", "-start_number", "0"]
  }

  /** The colour tags, encoder, pixel format and numbering of one image format;
      frame extraction and thumbnails use the same blocks. */
  function FormatBlock(f: ImageFormat): seq<string> {
    ColourTags(ColourTag(f)) + EncoderTail(f)
  }

  /** Block sizes 14, 20 and 16; all start with the colour tags, the encoder
      follows "-c:v" at the same place, and none filters the video. */
  lemma FormatBlockFacts(f: ImageFormat)
    ensures |FormatBlock(f)| == (match f case PNG => 14 case TIFF => 20 case JPEG => 16)
    ensures FormatBlock(f)[..2] == ["-color_trc", (if f == TIFF then "1" else "2")]
    ensures FormatBlock(f)[8] == "-c:v"
    ensures FormatBlock(f)[9] == (match f case PNG => "png" case TIFF => "tiff" case JPEG => "mjpeg")
    ensures "-vf" !in FormatBlock(f)
  {
    var tags := ColourTags(ColourTag(f));
    var tail := EncoderTail(f);
    assert "-vf" !in tags;
    match f
    case PNG => assert |tail| == 6 && "-vf" !in tail;
    case TIFF => assert |tail| == 12 && "-vf" !in tail;
    case JPEG => assert |tail| == 8 && "-vf" !in tail;
    assert FormatBlock(f)[8..] == tail;
  }

  /** The input and scaling options every extraction starts with. */
  function FramesHead(inputPath: string): seq<string> {
    ["-hide_banner", "-i", inputPath, "-sws_flags", "spline+accurate_rnd+full_chroma_int"]
  }

  /** buildCommand: the whole argument list. */
  function FramesArgs(c: FramesConfig): seq<string> {
    FramesHead(c.inputPath) + FormatBlock(c.format) + [OutputPattern(c)]
  }

  /** The argument list starts with the input section and ends with the pattern. */
  lemma FramesArgsShape(c: FramesConfig)
    ensures var a := FramesArgs(c);
      && a[..5] == FramesHead(c.inputPath)
      && a[|a| - 1] == OutputPattern(c)
      && a[5..|a| - 1] == FormatBlock(c.format)
      && |a| == 6 + |FormatBlock(c.format)|
  {
    var a := FramesArgs(c);
    assert a == FramesHead(c.inputPath) + FormatBlock(c.format) + [OutputPattern(c)];
  }

  /** push_back of one format block, as the switch in buildCommand does. */
  method AddFormatArgs(args: ArgVector, f: ImageFormat)
    modifies args
    ensures args.items == old(args.items) + FormatBlock(f)
  {
    ghost var s0 := args.items;
    AddColourTags(args, if f == TIFF then "1" else "2");
    ghost var s1 := args.items;
    match f {
      case PNG => AddPngTail(args);
      case TIFF => AddTiffTail(args);
      case JPEG => AddJpegTail(args);
    }
    assert args.items == s1 + EncoderTail(f);
  }

  method AddColourTags(args: ArgVector, tag: string)
    modifies args
    ensures args.items == old(args.items) + ColourTags(tag)
  {
    args.PushPair("-color_trc", tag);
    args.PushPair("-colorspace", tag);
    args.PushPair("-color_primaries", tag);
    args.PushPair("-map", "0:v");
  }

  method AddPngTail(args: ArgVector)
    modifies args
    ensures args.items == old(args.items) + EncoderTail(PNG)
  {
    args.PushPair("-c:v", "png");
    args.PushPair("-pix_fmt", "rgb24");
    args.PushPair("-start_number", "0");
  }

  method AddTiffTail(args: ArgVector)
    modifies args
    ensures args.items == old(args.items) + EncoderTail(TIFF)
  {
    ghost var s0 := args.items;
    args.PushPair("-c:v", "tiff");
    args.PushPair("-pix_fmt", "rgb24");
    args.PushPair("-compression_algo", "deflate");
    ghost var s1 := args.items;
    assert s1 == s0 + EncoderTail(TIFF)[..6];
    args.PushPair("-start_number", "0");
    args.PushPair("-movflags", "frag_keyframe+empty_moov+delay_moov+use_metadata_tags+write_colr");
    args.PushPair("-bf", "0");
    assert args.items == s1 + EncoderTail(TIFF)[6..];
  }

  method AddJpegTail(args: ArgVector)
    modifies args
    ensures args.items == old(args.items) + EncoderTail(JPEG)
  {
    args.PushPair("-c:v", "mjpeg");
    args.PushPair("-pix_fmt", "yuvj420p");
    args.PushPair("-q:v", "1");
    args.PushPair("-start_number", "0");
  }

  /** validatePaths: the input file exists (an answer from the file system) and
      an output directory is set. */
  predicate PathsValid(c: FramesConfig, inputExists: bool) {
    inputExists && c.outputDir != []
  }

  // ---------------------------------------------------------------------------
  // The job
  // ---------------------------------------------------------------------------

  class ExtractFramesJob {
    var config: FramesConfig

    constructor (config: FramesConfig)
      ensures this.config == config
    {
      this.config := config;
    }

    method SetConfig(c: FramesConfig)
      modifies this
      ensures config == c
    {
      config := c;
    }

    method ValidatePaths(inputExists: bool) returns (ok: bool)
      ensures ok <==> PathsValid(config, inputExists)
    {
      if !inputExists {
        return false;
      }
      if config.outputDir == [] {
        return false;
      }
      return true;
    }

    /** createOutputDirectory: make the target directory unless it exists. */
    method CreateOutputDirectory(targetExists: bool, mkdirSucceeds: bool)
      returns (ok: bool, actions: seq<Action>)
      ensures ok <==> targetExists || mkdirSucceeds
      ensures actions == (if targetExists then []
        else [MakeDirectories(TargetDir(config.outputDir, config.createSubfolder, config.subfolderName))])
    {
      var target := config.outputDir;
      if config.createSubfolder && config.subfolderName != [] {
        target := Join(config.outputDir, config.subfolderName);
      }
      if targetExists {
        return true, [];
      }
      return mkdirSucceeds, [MakeDirectories(target)];
    }

    method OutputPatternOf() returns (pattern: string)
      ensures pattern == OutputPattern(config)
    {
      var target := config.outputDir;
      if config.createSubfolder && config.subfolderName != [] {
        target := Join(config.outputDir, config.subfolderName);
      }
      pattern := Join(target, "%08d" + FileExtension(config.format));
    }

    method BuildCommand() returns (cmd: seq<string>)
      ensures cmd == FramesArgs(config)
    {
      var args := new ArgVector();
      args.PushBack("-hide_banner");
      assert args.items == ["-hide_banner"];
      args.PushPair("-i", config.inputPath);
      args.PushPair("-sws_flags", "spline+accurate_rnd+full_chroma_int");
      ghost var s1 := args.items;
      assert s1 == FramesHead(config.inputPath);
      AddFormatArgs(args, config.format);
      var pattern := OutputPatternOf();
      args.PushBack(pattern);
      cmd := args.items;
    }

    /** getCommandString: "ffmpeg" and the arguments, those with a space quoted. */
    method GetCommandString() returns (line: string)
      ensures line == Display("ffmpeg", FramesArgs(config), false)
    {
      var args := BuildCommand();
      line := RenderCommand("ffmpeg", args, false);
    }

    /** execute: validate, create the target directory, run extern/ffmpeg.exe;
        each failure stops before the later steps. */
    method Execute(externPath: string, inputExists: bool, targetExists: bool,
                   mkdirSucceeds: bool, ffmpegSucceeds: bool)
      returns (ok: bool, actions: seq<Action>)
      ensures !PathsValid(config, inputExists) ==> !ok && actions == []
      ensures ok <==> PathsValid(config, inputExists) && (targetExists || mkdirSucceeds) && ffmpegSucceeds
      ensures PathsValid(config, inputExists) ==>
        var mkdir := if targetExists then []
          else [MakeDirectories(TargetDir(config.outputDir, config.createSubfolder, config.subfolderName))];
        actions == mkdir
          + (if targetExists || mkdirSucceeds
             then [RunProgram(Join(externPath, "ffmpeg.exe"), FramesArgs(config))] else [])
    {
      var valid := ValidatePaths(inputExists);
      if !valid {
        return false, [];
      }
      var created;
      created, actions := CreateOutputDirectory(targetExists, mkdirSucceeds);
      if !created {
        return false, actions;
      }
      var args := BuildCommand();
      actions := actions + [RunProgram(Join(externPath, "ffmpeg.exe"), args)];
      ok := ffmpegSucceeds;
    }
  }

  // ---------------------------------------------------------------------------
  // The builder
  // ---------------------------------------------------------------------------

  class ExtractFramesBuilder {
    var config: FramesConfig

    constructor ()
      ensures config == DefaultFramesConfig
    {
      config := DefaultFramesConfig;
    }

    method Input(path: string)
      modifies this
      ensures config == old(config).(inputPath := path)
    {
      config := config.(inputPath := path);
    }

    method OutputDir(path: string)
      modifies this
      ensures config == old(config).(outputDir := path)
    {
      config := config.(outputDir := path);
    }

    method CreateSubfolder(create: bool)
      modifies this
      ensures config == old(config).(createSubfolder := create)
    {
      config := config.(createSubfolder := create);
    }

    method SubfolderName(name: string)
      modifies this
      ensures config == old(config).(subfolderName := name)
    {
      config := config.(subfolderName := name);
    }

    method Format(fmt: ImageFormat)
      modifies this
      ensures config == old(config).(format := fmt)
    {
      config := config.(format := fmt);
    }

    method UsePng()
      modifies this
      ensures config == old(config).(format := PNG)
    {
      config := config.(format := PNG);
    }

    method UseTiff()
      modifies this
      ensures config == old(config).(format := TIFF)
    {
      config := config.(format := TIFF);
    }

    method UseJpeg()
      modifies this
      ensures config == old(config).(format := JPEG)
    {
      config := config.(format := JPEG);
    }

    /** build(): no validation; empty paths pass through to the job. */
    method Build() returns (job: ExtractFramesJob)
      ensures fresh(job) && job.config == config
    {
      job := new ExtractFramesJob(config);
    }
  }
}
