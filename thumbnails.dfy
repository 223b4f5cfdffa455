// Scene-change thumbnails: ffmpeg's scene score selects the frames that start
// a new scene, and each is written as a numbered still image.

module Thumbnails {
  import opened Wrappers
  import opened Text
  import opened Paths
  import opened Process
  import opened CommandText
  import opened ExtractFrames

  /** The thumbnail formats are the frame-extraction formats, with the same
      extensions and argument blocks. */
  type ThumbnailFormat = ImageFormat

  datatype ThumbnailsConfig = ThumbnailsConfig(
    inputPath: string,
    outputDir: string,
    createSubfolder: bool,
    subfolderName: string,
    format: ThumbnailFormat,
    sceneThreshold: real)

  const DefaultThumbnailsConfig := ThumbnailsConfig(
    inputPath := "", outputDir := "", createSubfolder := true, subfolderName := "",
    format := PNG, sceneThreshold := 0.15)

  // ---------------------------------------------------------------------------
  // Filter and output pattern
  // ---------------------------------------------------------------------------

  /** getSceneFilter: select the frames whose scene score exceeds the threshold
      and log them. `fixed2` prints the threshold with two decimals. */
  function SceneFilter(threshold: real, fixed2: real -> string): string {
    "select='gt(scene," + fixed2(threshold) + ")',showinfo"
  }

  /** getOutputPattern: "thumb_" and an eight-digit counter, in the same target
      directory as frame extraction. */
  function ThumbPattern(c: ThumbnailsConfig): string {
    Join(TargetDir(c.outputDir, c.createSubfolder, c.subfolderName), "thumb_%08d" + FileExtension(c.format))
  }

  function ThumbHead(c: ThumbnailsConfig, fixed2: real -> string): seq<string> {
    FramesHead(c.inputPath) + ["-vf", SceneFilter(c.sceneThreshold, fixed2), "-vsync", "vfr"]
  }

  /** buildCommand: input and scaling, the scene filter with variable frame rate,
      the format block, and the pattern. */
  function ThumbArgs(c: ThumbnailsConfig, fixed2: real -> string): seq<string> {
    ThumbHead(c, fixed2) + FormatBlock(c.format) + [ThumbPattern(c)]
  }

  /** The command differs from frame extraction's on the same input, directory
      and format exactly by the four filter tokens and the "thumb_" prefix. */
  lemma ThumbArgsExtendFrames(c: ThumbnailsConfig, fixed2: real -> string)
    ensures var f := FramesConfig(c.inputPath, c.outputDir, c.createSubfolder, c.subfolderName, c.format);
      var frames := FramesArgs(f);
      ThumbArgs(c, fixed2) == frames[..5] + ["-vf", SceneFilter(c.sceneThreshold, fixed2), "-vsync", "vfr"]
                              + frames[5..|frames| - 1] + [ThumbPattern(c)]
  {
    var f := FramesConfig(c.inputPath, c.outputDir, c.createSubfolder, c.subfolderName, c.format);
    FramesArgsShape(f);
  }

  /** The filter token has an apostrophe, so the displayed command always quotes
      it, whatever the threshold text. */
  lemma FilterTokenQuoted(threshold: real, fixed2: real -> string)
    ensures NeedsQuotes(SceneFilter(threshold, fixed2), true)
    ensures Shown(SceneFilter(threshold, fixed2), true) == "\"" + SceneFilter(threshold, fixed2) + "\""
  {
    assert SceneFilter(threshold, fixed2)[7] == '\'';
  }

  /** The threshold the builder accepts: 0 to 1, both ends included. */
  predicate ThresholdInRange(t: real) {
    0.0 <= t <= 1.0
  }

  // ---------------------------------------------------------------------------
  // The job
  // ---------------------------------------------------------------------------

  predicate ThumbPathsValid(c: ThumbnailsConfig, inputExists: bool) {
    inputExists && c.outputDir != []
  }

  class ThumbnailsJob {
    var config: ThumbnailsConfig

    constructor (config: ThumbnailsConfig)
      ensures this.config == config
    {
      this.config := config;
    }

    method SetConfig(c: ThumbnailsConfig)
      modifies this
      ensures config == c
    {
      config := c;
    }

    method ValidatePaths(inputExists: bool) returns (ok: bool)
      ensures ok <==> ThumbPathsValid(config, inputExists)
    {
      if !inputExists {
        return false;
      }
      if config.outputDir == [] {
        return false;
      }
      return true;
    }

    method CreateOutputDirectory(targetExists: bool, mkdirSucceeds: bool)
      returns (ok: bool, actions: seq<Action>)
      ensures ok <==> targetExists || mkdirSucceeds
      ensures actions == (if targetExists then []
        else [MakeDirectories(TargetDir(config.outputDir, config.createSubfolder, config.subfolderName))])
    {
      var target := config.outputDir;
      if config.createSubfolder && config.subfolderName != [] {
        target := Join(config.outputDir, config.subfolderName);
      }
      if targetExists {
        return true, [];
      }
      return mkdirSucceeds, [MakeDirectories(target)];
    }

    method BuildCommand(fixed2: real -> string) returns (cmd: seq<string>)
      ensures cmd == ThumbArgs(config, fixed2)
    {
      var args := new ArgVector();
      args.PushBack("-hide_banner");
      assert args.items == ["-hide_banner"];
      args.PushPair("-i", config.inputPath);
      args.PushPair("-sws_flags", "spline+accurate_rnd+full_chroma_int");
      args.PushPair("-vf", SceneFilter(config.sceneThreshold, fixed2));
      args.PushPair("-vsync", "vfr");
      ghost var s1 := args.items;
      assert s1 == ThumbHead(config, fixed2);
      AddFormatArgs(args, config.format);
      var target := config.outputDir;
      if config.createSubfolder && config.subfolderName != [] {
        target := Join(config.outputDir, config.subfolderName);
      }
      args.PushBack(Join(target, "thumb_%08d" + FileExtension(config.format)));
      cmd := args.items;
    }

    /** getCommandString: "ffmpeg" and the arguments, those with a space or an
        apostrophe quoted. */
    method GetCommandString(fixed2: real -> string) returns (line: string)
      ensures line == Display("ffmpeg", ThumbArgs(config, fixed2), true)
    {
      var args := BuildCommand(fixed2);
      line := RenderCommand("ffmpeg", args, true);
    }

    /** execute: validate, create the target directory, then run "ffmpeg" from
        the search path; each failure stops before the later steps. */
    method Execute(inputExists: bool, targetExists: bool, mkdirSucceeds: bool,
                   ffmpegSucceeds: bool, fixed2: real -> string)
      returns (ok: bool, actions: seq<Action>)
      ensures !ThumbPathsValid(config, inputExists) ==> !ok && actions == []
      ensures ok <==> ThumbPathsValid(config, inputExists) && (targetExists || mkdirSucceeds) && ffmpegSucceeds
      ensures ThumbPathsValid(config, inputExists) ==>
        var mkdir := if targetExists then []
          else [MakeDirectories(TargetDir(config.outputDir, config.createSubfolder, config.subfolderName))];
        actions == mkdir
          + (if targetExists || mkdirSucceeds then [RunProgram("ffmpeg", ThumbArgs(config, fixed2))] else [])
    {
      var valid := ValidatePaths(inputExists);
      if !valid {
        return false, [];
      }
      var created;
      created, actions := CreateOutputDirectory(targetExists, mkdirSucceeds);
      if !created {
        return false, actions;
      }
      var args := BuildCommand(fixed2);
      actions := actions + [RunProgram("ffmpeg", args)];
      ok := ffmpegSucceeds;
    }
  }

  // ---------------------------------------------------------------------------
  // The builder
  // ---------------------------------------------------------------------------

  datatype ThumbnailsError = ThresholdOutOfRange | EmptyInputPath | EmptyOutputDir

  /** build()'s check: the input path first, then the output directory. */
  function BuildCheck(c: ThumbnailsConfig): (r: Option<ThumbnailsError>)
    ensures r.None? <==> c.inputPath != [] && c.outputDir != []
    ensures r == Some(EmptyInputPath) <==> c.inputPath == []
    ensures r != Some(ThresholdOutOfRange)
  {
    if c.inputPath == [] then Some(EmptyInputPath)
    else if c.outputDir == [] then Some(EmptyOutputDir)
    else None
  }

  class ThumbnailsBuilder {
    var config: ThumbnailsConfig

    constructor ()
      ensures config == DefaultThumbnailsConfig
    {
      config := DefaultThumbnailsConfig;
    }

    method Input(path: string)
      modifies this
      ensures config == old(config).(inputPath := path)
    {
      config := config.(inputPath := path);
    }

    method OutputDir(path: string)
      modifies this
      ensures config == old(config).(outputDir := path)
    {
      config := config.(outputDir := path);
    }

    method CreateSubfolder(create: bool)
      modifies this
      ensures config == old(config).(createSubfolder := create)
    {
      config := config.(createSubfolder := create);
    }

    method SubfolderName(name: string)
      modifies this
      ensures config == old(config).(subfolderName := name)
    {
      config := config.(subfolderName := name);
    }

    method Format(fmt: ThumbnailFormat)
      modifies this
      ensures config == old(config).(format := fmt)
    {
      config := config.(format := fmt);
    }

    /** sceneThreshold(t): refused outside 0..1, leaving the configuration as
        it was; stored otherwise. */
    method SceneThreshold(t: real) returns (err: Option<ThumbnailsError>)
      modifies this
      ensures err.None? <==> ThresholdInRange(t)
      ensures err.Some? ==> err.value == ThresholdOutOfRange && config == old(config)
      ensures err.None? ==> config == old(config).(sceneThreshold := t)
    {
      if t < 0.0 || t > 1.0 {
        return Some(ThresholdOutOfRange);
      }
      config := config.(sceneThreshold := t);
      return None;
    }

    method UsePng()
      modifies this
      ensures config == old(config).(format := PNG)
    {
      config := config.(format := PNG);
    }

    method UseTiff()
      modifies this
      ensures config == old(config).(format := TIFF)
    {
      config := config.(format := TIFF);
    }

    method UseJpeg()
      modifies this
      ensures config == old(config).(format := JPEG)
    {
      config := config.(format := JPEG);
    }

    /** build(): refuses an empty input path or output directory; otherwise a
        job carrying the builder's configuration. */
    method Build() returns (r: Result<ThumbnailsJob, ThumbnailsError>)
      ensures r.Failure? <==> BuildCheck(config).Some?
      ensures r.Failure? ==> r.error == BuildCheck(config).value
      ensures r.Success? ==> fresh(r.value) && r.value.config == config
    {
      if config.inputPath == [] {
        return Failure(EmptyInputPath);
      }
      if config.outputDir == [] {
        return Failure(EmptyOutputDir);
      }
      var job := new ThumbnailsJob(config);
      return Success(job);
    }
  }
}
