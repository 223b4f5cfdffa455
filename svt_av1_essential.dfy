// The AV1 "Essential" pipeline: extract the audio, encode the video with the
// Auto-Boost script, mux video and audio with mkvmerge, copy the result to the
// output path, then optionally remove the temporary directory. Every outside
// effect is an outcome passed in (Outcomes) and every request is recorded as an
// Action.

module SvtAv1Essential {
  import opened Wrappers
  import opened Text
  import opened Paths
  import opened Process

  // ---------------------------------------------------------------------------
  // Configuration
  // ---------------------------------------------------------------------------

  datatype Quality = Low | Medium | High

  datatype SvtConfig = SvtConfig(
    inputPath: string,
    outputPath: string,
    quality: Quality,
    aggressive: bool,
    unshackle: bool,
    verbose: bool,
    cleanup: bool)

  const DefaultSvtConfig := SvtConfig(
    inputPath := "", outputPath := "", quality := High,
    aggressive := false, unshackle := false, verbose := true, cleanup := true)

  /** getQualityString: the booster's name for each quality level. */
  function QualityString(q: Quality): (s: string)
    ensures s in {"low", "medium", "high"}
    ensures q == High <==> s == "high"
  {
    match q
    case Low => "low"
    case Medium => "medium"
    case High => "high"
  }

  /** The three levels have three distinct names, so the name gives the level back. */
  lemma QualityStringInjective(p: Quality, q: Quality)
    ensures QualityString(p) == QualityString(q) <==> p == q
  {
  }

  // ---------------------------------------------------------------------------
  // Paths derived from the input
  // ---------------------------------------------------------------------------

  /** getTempDir: a directory named after the input's stem, beside the input. */
  function TempDir(input: string): string {
    Join(ParentPath(input), Stem(input))
  }

  /** getAviPath: the booster's .ivf output, beside the input. */
  function IvfPath(input: string): string {
    Join(ParentPath(input), Stem(input) + ".ivf")
  }

  /** getAudioPath: the extracted audio track, beside the input. */
  function AudioPath(input: string): string {
    Join(ParentPath(input), Stem(input) + "_audio.mka")
  }

  /** The muxer's intermediate file, beside the input. */
  function TempMkvPath(input: string): string {
    Join(ParentPath(input), "output_temp.mkv")
  }

  /** All four derived paths are siblings of the input: same parent directory,
      with the stem-based file names. */
  lemma DerivedPathsBesideInput(input: string)
    requires NoDoubleSeparator(input)
    ensures ParentPath(TempDir(input)) == ParentPath(input) && Filename(TempDir(input)) == Stem(input)
    ensures ParentPath(IvfPath(input)) == ParentPath(input) && Filename(IvfPath(input)) == Stem(input) + ".ivf"
    ensures ParentPath(AudioPath(input)) == ParentPath(input) && Filename(AudioPath(input)) == Stem(input) + "_audio.mka"
    ensures ParentPath(TempMkvPath(input)) == ParentPath(input) && Filename(TempMkvPath(input)) == "output_temp.mkv"
  {
    StemHasNoSeparator(input);
    InDirectory(input, Stem(input));
    IvfBesideInput(input);
    AudioBesideInput(input);
    TempMkvBesideInput(input);
  }

  lemma IvfBesideInput(input: string)
    requires NoDoubleSeparator(input)
    ensures ParentPath(IvfPath(input)) == ParentPath(input) && Filename(IvfPath(input)) == Stem(input) + ".ivf"
  {
    StemNameBesideInput(input, ".ivf");
  }

  lemma AudioBesideInput(input: string)
    requires NoDoubleSeparator(input)
    ensures ParentPath(AudioPath(input)) == ParentPath(input) && Filename(AudioPath(input)) == Stem(input) + "_audio.mka"
  {
    StemNameBesideInput(input, "_audio.mka");
  }

  lemma TempMkvBesideInput(input: string)
    requires NoDoubleSeparator(input)
    ensures ParentPath(TempMkvPath(input)) == ParentPath(input) && Filename(TempMkvPath(input)) == "output_temp.mkv"
  {
    InDirectory(input, "output_temp.mkv");
  }

  /** The temporary directory that cleanup removes is never the .ivf or the
      audio file. */
  lemma TempDirIsNotAnOutput(input: string)
    requires NoDoubleSeparator(input)
    ensures TempDir(input) != IvfPath(input)
    ensures TempDir(input) != AudioPath(input)
  {
    DerivedPathsBesideInput(input);
  }

  /** An input without an extension has the same path as its temporary
      directory, so the directory that cleanup removes is the input itself. */
  lemma {:induction false} TempDirIsInputWithoutExtension(input: string)
    requires NoDoubleSeparator(input)
    requires Extension(input) == []
    ensures TempDir(input) == input
  {
    StemExtension(input);
    assert Stem(input) == Filename(input);
    JoinParentFilename(input);
  }

  // ---------------------------------------------------------------------------
  // Commands
  // ---------------------------------------------------------------------------

  /** Backslashes turned into forward slashes (std::replace of '\\' by '/'). */
  function Slashed(s: string): string {
    Replaced(s, '\\', '/')
  }

  /** A slashed string has no backslash left, is the same length, and slashing
      it again changes nothing. */
  lemma SlashedFacts(s: string)
    ensures '\\' !in Slashed(s)
    ensures |Slashed(s)| == |s|
    ensures Slashed(Slashed(s)) == Slashed(s)
    ensures '\\' !in s ==> Slashed(s) == s
  {
    var r := Slashed(s);
    assert forall i :: 0 <= i < |r| ==> r[i] != '\\';
  }

  /** std::replace on a character buffer, one position at a time. */
  method ReplaceInPlace(a: array<char>, from: char, to: char)
    modifies a
    ensures a[..] == Replaced(old(a[..]), from, to)
  {
    var i := 0;
    while i < a.Length
      invariant 0 <= i <= a.Length
      invariant forall k :: 0 <= k < i ==> a[k] == (if old(a[k]) == from then to else old(a[k]))
      invariant forall k :: i <= k < a.Length ==> a[k] == old(a[k])
    {
      if a[i] == from {
        a[i] := to;
      }
      i := i + 1;
    }
  }

  /** A string copy with its backslashes replaced in place. */
  method SlashedCopy(s: string) returns (r: string)
    ensures r == Slashed(s)
  {
    var a := new char[|s|](i requires 0 <= i < |s| => s[i]);
    assert a[..] == s;
    ReplaceInPlace(a, '\\', '/');
    r := a[..];
  }

  function AbeScript(externPath: string): string {
    Join(Join(externPath, "scripts"), "ABE.ps1")
  }

  /** The optional booster switches, in the order they are written. */
  function FlagTokens(c: SvtConfig): seq<string> {
    (if c.aggressive then ["-aggressive"] else [])
    + (if c.unshackle then ["-unshackle"] else [])
    + (if c.verbose then ["-verboseOutput"] else [])
  }

  function FlagRank(flag: string): nat {
    if flag == "-aggressive" then 0 else if flag == "-unshackle" then 1 else 2
  }

  /** Each switch is present iff its setting is on, and the switches keep the
      order aggressive, unshackle, verbose. */
  lemma FlagTokensFacts(c: SvtConfig)
    ensures "-aggressive" in FlagTokens(c) <==> c.aggressive
    ensures "-unshackle" in FlagTokens(c) <==> c.unshackle
    ensures "-verboseOutput" in FlagTokens(c) <==> c.verbose
    ensures |FlagTokens(c)| == (if c.aggressive then 1 else 0) + (if c.unshackle then 1 else 0) + (if c.verbose then 1 else 0)
    ensures forall i, j :: 0 <= i < j < |FlagTokens(c)| ==> FlagRank(FlagTokens(c)[i]) < FlagRank(FlagTokens(c)[j])
  {
  }

  /** Each token preceded by one space. */
  function Prefixed(tokens: seq<string>): string {
    if tokens == [] then "" else Prefixed(tokens[..|tokens| - 1]) + " " + tokens[|tokens| - 1]
  }

  lemma {:induction false} PrefixedAppend(xs: seq<string>, ys: seq<string>)
    ensures Prefixed(xs + ys) == Prefixed(xs) + Prefixed(ys)
  {
    if ys == [] {
      assert xs + ys == xs;
    } else {
      var init, last := ys[..|ys| - 1], ys[|ys| - 1];
      assert (xs + ys)[..|xs + ys| - 1] == xs + init;
      assert (xs + ys)[|xs + ys| - 1] == last;
      PrefixedAppend(xs, init);
      calc {
        Prefixed(xs + ys);
        Prefixed(xs + init) + " " + last;
        Prefixed(xs) + Prefixed(init) + " " + last;
        Prefixed(xs) + (Prefixed(init) + " " + last);
      }
    }
  }

  /** One optional switch: its text, a space and the switch, or nothing. */
  lemma PrefixedSwitch(on: bool, flag: string, text: string)
    requires text == " " + flag
    ensures Prefixed(if on then [flag] else []) == (if on then text else "")
  {
    if on {
      assert [flag][..0] == [];
    }
  }

  /** The switches as the stream receives them. */
  function FlagsText(c: SvtConfig): string {
    (if c.aggressive then " -aggressive" else "")
    + (if c.unshackle then " -unshackle" else "")
    + (if c.verbose then " -verboseOutput" else "")
  }

  /** The written switches are exactly the switch tokens, each after a space. */
  lemma FlagsTextTokens(c: SvtConfig)
    ensures FlagsText(c) == Prefixed(FlagTokens(c))
  {
    var a: seq<string> := if c.aggressive then ["-aggressive"] else [];
    var u: seq<string> := if c.unshackle then ["-unshackle"] else [];
    var v: seq<string> := if c.verbose then ["-verboseOutput"] else [];
    PrefixedSwitch(c.aggressive, "-aggressive", " -aggressive");
    PrefixedSwitch(c.unshackle, "-unshackle", " -unshackle");
    PrefixedSwitch(c.verbose, "-verboseOutput", " -verboseOutput");
    PrefixedAppend(a, u);
    PrefixedAppend(a + u, v);
  }
  function AbeBase(externPath: string, c: SvtConfig): string {
    "powershell -ExecutionPolicy Bypass -File \"" + Slashed(AbeScript(externPath)) + "\""
    + " -inputFile \"" + Slashed(c.inputPath) + "\""
    + " -quality " + QualityString(c.quality)
  }

  /** buildABECommand: the script, the slashed input and the quality, then the
      switches that are on. */
  function AbeCommand(externPath: string, c: SvtConfig): (cmd: string)
    ensures StartsWith(cmd, "powershell -ExecutionPolicy Bypass -File \"")
    ensures EndsWith(cmd, " -quality " + QualityString(c.quality) + FlagsText(c))
  {
    var launcher := "powershell -ExecutionPolicy Bypass -File \"";
    var script, input := Slashed(AbeScript(externPath)), Slashed(c.inputPath);
    Regroup6(launcher, script, "\"", " -inputFile \"", input, "\"", " -quality ", QualityString(c.quality));
    Bracketed(launcher, script + "\"" + " -inputFile \"" + input + "\"",
              " -quality " + QualityString(c.quality), FlagsText(c));
    AbeBase(externPath, c) + FlagsText(c)
  }

  lemma Regroup6(p: string, a: string, b: string, d: string, e: string, g: string, h: string, q: string)
    ensures p + a + b + d + e + g + h + q == p + (a + b + d + e + g) + (h + q)
  {
  }

  lemma Bracketed(p: string, x: string, q: string, f: string)
    ensures StartsWith(p + x + q + f, p) && EndsWith(p + x + q + f, q + f)
  {
    assert (p + x + q + f)[..|p|] == p;
    assert (p + x + q + f)[|p + x|..] == q + f;
  }

  /** The booster command ends with the last letter of the quality word or of
      a switch, so it differs from the audio and mux commands. */
  lemma AbeCommandLastChar(externPath: string, c: SvtConfig)
    ensures var cmd := AbeCommand(externPath, c);
      cmd != [] && cmd[|cmd| - 1] in {'w', 'm', 'h', 'e', 't'}
  {
    var base := AbeBase(externPath, c);
    var q := QualityString(c.quality);
    assert base[|base| - 1] == q[|q| - 1];
  }

  /** extractAudio's command: copy the audio stream, no video, overwrite. */
  function AudioCommand(externPath: string, input: string): (cmd: string)
    ensures EndsWith(cmd, " -y")
  {
    Slashed(Join(externPath, "ffmpeg.exe"))
    + " -i \"" + Slashed(input) + "\""
    + " -vn" + " -c:a copy"
    + " \"" + Slashed(AudioPath(input)) + "\""
    + " -y"
  }

  function MkvMergeExe(externPath: string): string {
    Join(Join(Join(externPath, "env"), "mkvtoolnix"), "mkvmerge.exe")
  }

  /** muxFinal's command: the .ivf video and the audio into the temporary mkv. */
  function MuxCommand(externPath: string, input: string): (cmd: string)
    ensures EndsWith(cmd, "\"")
  {
    Slashed(MkvMergeExe(externPath))
    + " -o \"" + Slashed(TempMkvPath(input)) + "\""
    + " \"" + Slashed(IvfPath(input)) + "\""
    + " \"" + Slashed(AudioPath(input)) + "\""
  }

  /** The command text muxFinal assembles from the slashed paths. */
  lemma MuxCommandText(externPath: string, input: string, mkvmerge: string, tempMkv: string, ivf: string, audio: string)
    requires mkvmerge == Slashed(MkvMergeExe(externPath)) && tempMkv == Slashed(TempMkvPath(input))
    requires ivf == Slashed(IvfPath(input)) && audio == Slashed(AudioPath(input))
    ensures mkvmerge + " -o \"" + tempMkv + "\"" + " \"" + ivf + "\"" + " \"" + audio + "\"" == MuxCommand(externPath, input)
  {
  }

  /** The booster command ends with exactly the switches that are on; the input
      it names has no backslash. */
  lemma AbeCommandShape(externPath: string, c: SvtConfig)
    ensures AbeCommand(externPath, c) == AbeBase(externPath, c) + Prefixed(FlagTokens(c))
    ensures '\\' !in Slashed(c.inputPath)
  {
    SlashedFacts(c.inputPath);
    FlagsTextTokens(c);
  }

  /** With no switch on, the booster command ends with the quality name. */
  lemma AbeCommandEndsWithQuality(externPath: string, c: SvtConfig)
    requires FlagTokens(c) == []
    ensures EndsWith(AbeCommand(externPath, c), " -quality " + QualityString(c.quality))
  {
    FlagsTextTokens(c);
    assert AbeCommand(externPath, c) == AbeBase(externPath, c);
    var head := "powershell -ExecutionPolicy Bypass -File \"" + Slashed(AbeScript(externPath)) + "\""
      + " -inputFile \"" + Slashed(c.inputPath) + "\"";
    EndsWithTail(head, " -quality ", QualityString(c.quality));
  }

  /** The three commands a run issues, one per external program. */
  datatype Commands = Commands(audio: string, boost: string, mux: string)

  function CommandsOf(externPath: string, c: SvtConfig): (cmds: Commands)
    ensures cmds.audio != cmds.boost && cmds.audio != cmds.mux && cmds.boost != cmds.mux
  {
    var audio := AudioCommand(externPath, c.inputPath);
    var boost := AbeCommand(externPath, c);
    var mux := MuxCommand(externPath, c.inputPath);
    AbeCommandLastChar(externPath, c);
    assert audio[|audio| - 1] == 'y';
    assert mux[|mux| - 1] == '"';
    Commands(audio, boost, mux)
  }

  // ---------------------------------------------------------------------------
  // The steps and their sequencing
  // ---------------------------------------------------------------------------

  /** What the outside world answers while the pipeline runs. */
  datatype Outcomes = Outcomes(
    inputExists: bool,             // the input file exists
    outputDirExists: bool,         // the output's parent directory exists
    outputDirCreated: bool,        // creating it succeeds (otherwise it throws)
    tempDirExists: bool,           // the temporary directory exists before step 1
    tempDirCreated: bool,          // creating it succeeds (otherwise it throws)
    audioExit: int,                // exit status of the audio extraction
    boostExit: int,                // exit status of the booster
    ivfExists: bool,               // the .ivf exists after the booster
    muxExit: int,                  // exit status of mkvmerge
    copySucceeds: bool,            // copying the temporary mkv to the output succeeds
    tempDirPresentAtCleanup: bool, // the temporary directory exists at cleanup
    removeSucceeds: bool)          // removing it succeeds (otherwise it throws)

  /** A step's verdict and the effects it requested. */
  datatype Step = Step(ok: bool, actions: seq<Action>)

  /** validatePaths: the input must exist; a missing output directory is
      created. */
  function ValidateStep(c: SvtConfig, o: Outcomes): Step {
    if !o.inputExists then Step(false, [])
    else
      var dir := ParentPath(c.outputPath);
      if dir != [] && !o.outputDirExists then Step(o.outputDirCreated, [MakeDirectories(dir)])
      else Step(true, [])
  }

  /** extractAudio: create the temporary directory if missing, then run the
      extraction command; success is a zero exit status. */
  function AudioStep(command: string, c: SvtConfig, o: Outcomes): Step {
    var mkdir := if o.tempDirExists then [] else [MakeDirectories(TempDir(c.inputPath))];
    if !o.tempDirExists && !o.tempDirCreated then Step(false, mkdir)
    else Step(o.audioExit == 0, mkdir + [RunShell(command)])
  }

  /** runAutoBoost: a zero exit status is not enough, the .ivf must exist too. */
  function BoostStep(command: string, o: Outcomes): Step {
    Step(o.boostExit == 0 && o.ivfExists, [RunShell(command)])
  }

  /** muxFinal: run mkvmerge; only after a zero exit status copy the temporary
      mkv over the output. */
  function MuxStep(command: string, c: SvtConfig, o: Outcomes): Step {
    if o.muxExit != 0 then Step(false, [RunShell(command)])
    else Step(o.copySucceeds, [RunShell(command), CopyFile(TempMkvPath(c.inputPath), c.outputPath)])
  }

  /** cleanup: nothing when disabled or when the directory is gone; otherwise
      remove the temporary directory. */
  function CleanupStep(c: SvtConfig, o: Outcomes): Step {
    if !c.cleanup || !o.tempDirPresentAtCleanup then Step(true, [])
    else Step(o.removeSucceeds, [RemoveAll(TempDir(c.inputPath))])
  }

  /** Run b only when a succeeded. */
  function AndThen(a: Step, b: Step): Step {
    if a.ok then Step(b.ok, a.actions + b.actions) else a
  }

  function MainSteps(cmds: Commands, c: SvtConfig, o: Outcomes): Step {
    AndThen(AndThen(AndThen(ValidateStep(c, o), AudioStep(cmds.audio, c, o)),
                    BoostStep(cmds.boost, o)),
            MuxStep(cmds.mux, c, o))
  }

  /** execute: the four steps in order, then cleanup, whose verdict is dropped. */
  function Pipeline(cmds: Commands, c: SvtConfig, o: Outcomes): Step {
    var main := MainSteps(cmds, c, o);
    if main.ok then Step(true, main.actions + CleanupStep(c, o).actions) else main
  }

  /** The pipeline succeeds iff each of the four steps does; cleanup's verdict
      is dropped, so the run's verdict is that of the four steps alone. */
  lemma PipelineVerdict(cmds: Commands, c: SvtConfig, o: Outcomes)
    ensures Pipeline(cmds, c, o).ok <==>
      ValidateStep(c, o).ok && AudioStep(cmds.audio, c, o).ok
      && BoostStep(cmds.boost, o).ok && MuxStep(cmds.mux, c, o).ok
    ensures Pipeline(cmds, c, o).ok == MainSteps(cmds, c, o).ok
  {
  }

  /** The first failing step ends the run: the effects are exactly those of the
      steps up to and including it. */
  lemma PipelineStopsAtFirstFailure(cmds: Commands, c: SvtConfig, o: Outcomes)
    ensures var v := ValidateStep(c, o);
      !v.ok ==> Pipeline(cmds, c, o) == v
    ensures var v, a := ValidateStep(c, o), AudioStep(cmds.audio, c, o);
      v.ok && !a.ok ==> Pipeline(cmds, c, o) == Step(false, v.actions + a.actions)
    ensures var v, a, b := ValidateStep(c, o), AudioStep(cmds.audio, c, o), BoostStep(cmds.boost, o);
      v.ok && a.ok && !b.ok ==> Pipeline(cmds, c, o) == Step(false, v.actions + a.actions + b.actions)
    ensures var v, a, b, m := ValidateStep(c, o), AudioStep(cmds.audio, c, o), BoostStep(cmds.boost, o), MuxStep(cmds.mux, c, o);
      v.ok && a.ok && b.ok && !m.ok ==> Pipeline(cmds, c, o) == Step(false, v.actions + a.actions + b.actions + m.actions)
  {
  }

  /** A booster that exits with 0 but leaves no .ivf still fails the run, and the
      muxer is then never started. */
  lemma MissingIvfFails(cmds: Commands, c: SvtConfig, o: Outcomes)
    requires cmds.mux != cmds.audio && cmds.mux != cmds.boost
    requires o.boostExit == 0 && !o.ivfExists
    ensures !Pipeline(cmds, c, o).ok
    ensures RunShell(cmds.mux) !in Pipeline(cmds, c, o).actions
  {
    PipelineStopsAtFirstFailure(cmds, c, o);
    var v, a, b := ValidateStep(c, o), AudioStep(cmds.audio, c, o), BoostStep(cmds.boost, o);
    var mux := RunShell(cmds.mux);
    assert mux !in v.actions;
    assert mux !in a.actions;
    assert mux !in b.actions;
    if v.ok && a.ok {
      assert mux !in v.actions + a.actions + b.actions;
    } else if v.ok {
      assert mux !in v.actions + a.actions;
    }
  }

  /** None of the four main steps removes anything. */
  lemma MainStepsRemoveNothing(cmds: Commands, c: SvtConfig, o: Outcomes)
    ensures RemovesNothing(MainSteps(cmds, c, o))
  {
    var v, a := ValidateStep(c, o), AudioStep(cmds.audio, c, o);
    var b, m := BoostStep(cmds.boost, o), MuxStep(cmds.mux, c, o);
    StepsRemoveNothing(cmds, c, o);
    AndThenRemovesNothing(v, a);
    AndThenRemovesNothing(AndThen(v, a), b);
    AndThenRemovesNothing(AndThen(AndThen(v, a), b), m);
  }

  /** Each of the four steps only creates, runs or copies. */
  lemma StepsRemoveNothing(cmds: Commands, c: SvtConfig, o: Outcomes)
    ensures RemovesNothing(ValidateStep(c, o)) && RemovesNothing(AudioStep(cmds.audio, c, o))
    ensures RemovesNothing(BoostStep(cmds.boost, o)) && RemovesNothing(MuxStep(cmds.mux, c, o))
  {
    var a := AudioStep(cmds.audio, c, o);
    if !o.tempDirExists {
      assert a.actions[0] == MakeDirectories(TempDir(c.inputPath));
    }
  }

  predicate RemovesNothing(s: Step) {
    forall x <- s.actions :: !x.RemoveAll?
  }

  lemma AndThenRemovesNothing(a: Step, b: Step)
    requires RemovesNothing(a) && RemovesNothing(b)
    ensures RemovesNothing(AndThen(a, b))
  {
  }

  /** Cleanup removes the temporary directory and nothing else, and only after a
      successful run with cleanup on and the directory present. */
  lemma CleanupRemovesOnlyTempDir(cmds: Commands, c: SvtConfig, o: Outcomes)
    ensures forall a <- Pipeline(cmds, c, o).actions :: a.RemoveAll? ==> a.path == TempDir(c.inputPath)
    ensures RemoveAll(TempDir(c.inputPath)) in Pipeline(cmds, c, o).actions <==>
      Pipeline(cmds, c, o).ok && c.cleanup && o.tempDirPresentAtCleanup
  {
    MainStepsRemoveNothing(cmds, c, o);
    var main := MainSteps(cmds, c, o);
    var clean := CleanupStep(c, o);
    if main.ok {
      assert Pipeline(cmds, c, o).actions == main.actions + clean.actions;
    }
  }

  /** As written, a successful run on an input without an extension, with
      cleanup on, removes the input itself: its temporary directory has the
      input's path, which exists at cleanup. */
  lemma CleanupRemovesExtensionlessInput(cmds: Commands, c: SvtConfig, o: Outcomes)
    requires NoDoubleSeparator(c.inputPath) && Extension(c.inputPath) == []
    requires MainSteps(cmds, c, o).ok && c.cleanup && o.tempDirPresentAtCleanup
    ensures RemoveAll(c.inputPath) in Pipeline(cmds, c, o).actions
  {
    TempDirIsInputWithoutExtension(c.inputPath);
    CleanupRemovesOnlyTempDir(cmds, c, o);
  }

  /** cleanup as evidently intended: the temporary directory is removed only
      when it is not the input itself. */
  function GuardedCleanupStep(c: SvtConfig, o: Outcomes): Step {
    if TempDir(c.inputPath) == c.inputPath then Step(true, []) else CleanupStep(c, o)
  }

  /** execute with the guarded cleanup. */
  function GuardedPipeline(cmds: Commands, c: SvtConfig, o: Outcomes): Step {
    var main := MainSteps(cmds, c, o);
    if main.ok then Step(true, main.actions + GuardedCleanupStep(c, o).actions) else main
  }

  /** With the guard, no run ever removes the input, and a run whose temporary
      directory is not the input behaves exactly as written. */
  lemma GuardedPipelineKeepsInput(cmds: Commands, c: SvtConfig, o: Outcomes)
    ensures RemoveAll(c.inputPath) !in GuardedPipeline(cmds, c, o).actions
    ensures TempDir(c.inputPath) != c.inputPath ==> GuardedPipeline(cmds, c, o) == Pipeline(cmds, c, o)
  {
    MainStepsRemoveNothing(cmds, c, o);
    var main := MainSteps(cmds, c, o);
    var clean := GuardedCleanupStep(c, o);
    if main.ok {
      assert GuardedPipeline(cmds, c, o).actions == main.actions + clean.actions;
    }
  }

  // ---------------------------------------------------------------------------
  // The job
  // ---------------------------------------------------------------------------

  class SvtAv1EssentialJob {
    var config: SvtConfig

    /** The constructor stores the two paths and keeps the other defaults. */
    constructor (input: string, output: string)
      ensures config == DefaultSvtConfig.(inputPath := input, outputPath := output)
    {
      config := DefaultSvtConfig.(inputPath := input, outputPath := output);
    }

    method SetQuality(q: Quality)
      modifies this
      ensures config == old(config).(quality := q)
    {
      config := config.(quality := q);
    }

    method SetAggressive(enabled: bool)
      modifies this
      ensures config == old(config).(aggressive := enabled)
    {
      config := config.(aggressive := enabled);
    }

    method SetUnshackle(enabled: bool)
      modifies this
      ensures config == old(config).(unshackle := enabled)
    {
      config := config.(unshackle := enabled);
    }

    method SetVerbose(enabled: bool)
      modifies this
      ensures config == old(config).(verbose := enabled)
    {
      config := config.(verbose := enabled);
    }

    method SetCleanup(enabled: bool)
      modifies this
      ensures config == old(config).(cleanup := enabled)
    {
      config := config.(cleanup := enabled);
    }

    /** config() handed out for assignment: the whole configuration replaced. */
    method SetConfig(c: SvtConfig)
      modifies this
      ensures config == c
    {
      config := c;
    }

    /** buildABECommand, written to a stream piece by piece. */
    method BuildAbeCommand(externPath: string) returns (cmd: string)
      ensures cmd == AbeCommand(externPath, config)
    {
      var script := SlashedCopy(AbeScript(externPath));
      var input := SlashedCopy(config.inputPath);
      cmd := "powershell -ExecutionPolicy Bypass -File \"" + script + "\"";
      cmd := cmd + " -inputFile \"" + input + "\"";
      cmd := cmd + " -quality " + QualityString(config.quality);
      ghost var base := cmd;
      assert base == AbeBase(externPath, config);
      ghost var fa := if config.aggressive then " -aggressive" else "";
      ghost var fu := if config.unshackle then " -unshackle" else "";
      ghost var fv := if config.verbose then " -verboseOutput" else "";
      if config.aggressive {
        cmd := cmd + " -aggressive";
      }
      assert cmd == base + fa;
      if config.unshackle {
        cmd := cmd + " -unshackle";
      }
      assert cmd == base + fa + fu;
      if config.verbose {
        cmd := cmd + " -verboseOutput";
      }
      assert cmd == base + fa + fu + fv;
      AppendThree(base, fa, fu, fv);
    }

    method ValidatePaths(o: Outcomes) returns (ok: bool, actions: seq<Action>)
      ensures Step(ok, actions) == ValidateStep(config, o)
    {
      if !o.inputExists {
        return false, [];
      }
      var dir := ParentPath(config.outputPath);
      if dir != [] && !o.outputDirExists {
        return o.outputDirCreated, [MakeDirectories(dir)];
      }
      return true, [];
    }

    method ExtractAudio(externPath: string, o: Outcomes) returns (ok: bool, actions: seq<Action>)
      ensures Step(ok, actions) == AudioStep(AudioCommand(externPath, config.inputPath), config, o)
    {
      actions := [];
      if !o.tempDirExists {
        actions := [MakeDirectories(TempDir(config.inputPath))];
        if !o.tempDirCreated {
          return false, actions;
        }
      }
      var ffmpeg := SlashedCopy(Join(externPath, "ffmpeg.exe"));
      var input := SlashedCopy(config.inputPath);
      var audio := SlashedCopy(AudioPath(config.inputPath));
      var cmd := ffmpeg + " -i \"" + input + "\"" + " -vn" + " -c:a copy" + " \"" + audio + "\"" + " -y";
      actions := actions + [RunShell(cmd)];
      ok := o.audioExit == 0;
    }

    method RunAutoBoost(externPath: string, o: Outcomes) returns (ok: bool, actions: seq<Action>)
      ensures Step(ok, actions) == BoostStep(AbeCommand(externPath, config), o)
    {
      var cmd := BuildAbeCommand(externPath);
      actions := [RunShell(cmd)];
      if o.boostExit != 0 {
        return false, actions;
      }
      ok := o.ivfExists;
    }

    method MuxFinal(externPath: string, o: Outcomes) returns (ok: bool, actions: seq<Action>)
      ensures Step(ok, actions) == MuxStep(MuxCommand(externPath, config.inputPath), config, o)
    {
      var mkvmerge := SlashedCopy(MkvMergeExe(externPath));
      var tempMkv := SlashedCopy(TempMkvPath(config.inputPath));
      var ivf := SlashedCopy(IvfPath(config.inputPath));
      var audio := SlashedCopy(AudioPath(config.inputPath));
      var cmd := mkvmerge + " -o \"" + tempMkv + "\"" + " \"" + ivf + "\"" + " \"" + audio + "\"";
      MuxCommandText(externPath, config.inputPath, mkvmerge, tempMkv, ivf, audio);
      ghost var run := RunShell(MuxCommand(externPath, config.inputPath));
      actions := [RunShell(cmd)];
      if o.muxExit != 0 {
        return false, actions;
      }
      var copy := CopyFile(TempMkvPath(config.inputPath), config.outputPath);
      actions := actions + [copy];
      assert actions == [run, copy];
      ok := o.copySucceeds;
    }

    method Cleanup(o: Outcomes) returns (ok: bool, actions: seq<Action>)
      ensures Step(ok, actions) == CleanupStep(config, o)
    {
      if !config.cleanup {
        return true, [];
      }
      if o.tempDirPresentAtCleanup {
        return o.removeSucceeds, [RemoveAll(TempDir(config.inputPath))];
      }
      return true, [];
    }

    /** execute: each step runs only if all earlier ones succeeded; cleanup's
        verdict is ignored. */
    method Execute(externPath: string, o: Outcomes) returns (ok: bool, actions: seq<Action>)
      ensures Step(ok, actions) == Pipeline(CommandsOf(externPath, config), config, o)
    {
      var stepOk, stepActions := ValidatePaths(o);
      actions := stepActions;
      if !stepOk {
        return false, actions;
      }
      stepOk, stepActions := ExtractAudio(externPath, o);
      actions := actions + stepActions;
      if !stepOk {
        return false, actions;
      }
      stepOk, stepActions := RunAutoBoost(externPath, o);
      actions := actions + stepActions;
      if !stepOk {
        return false, actions;
      }
      stepOk, stepActions := MuxFinal(externPath, o);
      actions := actions + stepActions;
      if !stepOk {
        return false, actions;
      }
      var cleaned, cleanupActions := Cleanup(o);
      actions := actions + cleanupActions;
      ok := true;
    }
  }

  // ---------------------------------------------------------------------------
  // The builder
  // ---------------------------------------------------------------------------

  datatype SvtBuildError = InputPathRequired | OutputPathRequired

  /** build()'s check: the input path first, then the output path. */
  function BuildCheck(c: SvtConfig): (r: Option<SvtBuildError>)
    ensures r.None? <==> c.inputPath != [] && c.outputPath != []
    ensures r == Some(InputPathRequired) <==> c.inputPath == []
  {
    if c.inputPath == [] then Some(InputPathRequired)
    else if c.outputPath == [] then Some(OutputPathRequired)
    else None
  }

  class SvtAv1EssentialBuilder {
    var config: SvtConfig

    constructor ()
      ensures config == DefaultSvtConfig
    {
      config := DefaultSvtConfig;
    }

    method Input(path: string)
      modifies this
      ensures config == old(config).(inputPath := path)
    {
      config := config.(inputPath := path);
    }

    method Output(path: string)
      modifies this
      ensures config == old(config).(outputPath := path)
    {
      config := config.(outputPath := path);
    }

    method SetQuality(q: Quality)
      modifies this
      ensures config == old(config).(quality := q)
    {
      config := config.(quality := q);
    }

    /** aggressive(): switches the mode on; the builder has no way to switch it off. */
    method Aggressive()
      modifies this
      ensures config == old(config).(aggressive := true)
    {
      config := config.(aggressive := true);
    }

    /** unshackle(): switches the mode on; the builder has no way to switch it off. */
    method Unshackle()
      modifies this
      ensures config == old(config).(unshackle := true)
    {
      config := config.(unshackle := true);
    }

    method Verbose(enabled: bool := true)
      modifies this
      ensures config == old(config).(verbose := enabled)
    {
      config := config.(verbose := enabled);
    }

    method Cleanup(enabled: bool := true)
      modifies this
      ensures config == old(config).(cleanup := enabled)
    {
      config := config.(cleanup := enabled);
    }

    /** build(): an empty input or output path is refused (an exception in the
        original); otherwise a job carrying the whole configuration. */
    method Build() returns (r: Result<SvtAv1EssentialJob, SvtBuildError>)
      ensures r.Failure? <==> BuildCheck(config).Some?
      ensures r.Failure? ==> r.error == BuildCheck(config).value
      ensures r.Success? ==> fresh(r.value) && r.value.config == config
    {
      if config.inputPath == [] {
        return Failure(InputPathRequired);
      }
      if config.outputPath == [] {
        return Failure(OutputPathRequired);
      }
      var job := new SvtAv1EssentialJob(config.inputPath, config.outputPath);
      job.SetConfig(config);
      return Success(job);
    }
  }
}
