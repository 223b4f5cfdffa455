// The command-line front end for the Auto-Boost-Filtering PowerShell script:
// the user's answers become one shell command, the input path is unquoted and
// the output is placed beside the input with "_filtered" added to its stem.

module TestFiltering {
  import opened Wrappers
  import opened Text
  import opened Paths
  import opened StringUtils

  datatype FilteringRequest = FilteringRequest(
    scriptPath: string,
    inputFile: string,
    outputFile: string,
    profile: string,
    codec: string,
    quality: string,
    preset: string,
    verbose: bool,
    analyzeOnly: bool)

  /** Codecs driven by a quality (CRF) value: all but the two intra/lossless ones. */
  predicate TakesQuality(codec: string) {
    codec != "prores" && codec != "ffv1"
  }

  /** Codecs that accept a speed preset. */
  predicate TakesPreset(codec: string) {
    codec == "x264" || codec == "x265" || codec == "av1"
  }

  // ---------------------------------------------------------------------------
  // The command as a list of switches
  // ---------------------------------------------------------------------------

  /** One switch of the script's command line, with its value if it takes one. */
  datatype Switch = Switch(flag: string, value: Option<string>)

  /** The four switches always passed. */
  function FixedSwitches(r: FilteringRequest): seq<Switch> {
    [Switch("-inputFile", Some(Quoted(r.inputFile))),
     Switch("-outputFile", Some(Quoted(r.outputFile))),
     Switch("-profile", Some(r.profile)),
     Switch("-codec", Some(r.codec))]
  }

  /** A switch passed only under a condition. */
  function Optional(passed: bool, sw: Switch): seq<Switch> {
    if passed then [sw] else []
  }

  /** The switches that depend on the codec and on the two flags. */
  function QualitySwitch(r: FilteringRequest): seq<Switch> {
    Optional(TakesQuality(r.codec), Switch("-quality", Some(r.quality)))
  }

  function PresetSwitch(r: FilteringRequest): seq<Switch> {
    Optional(TakesPreset(r.codec), Switch("-preset", Some(r.preset)))
  }

  function VerboseSwitch(r: FilteringRequest): seq<Switch> {
    Optional(r.verbose, Switch("-verboseOutput", None))
  }

  function AnalyzeSwitch(r: FilteringRequest): seq<Switch> {
    Optional(r.analyzeOnly, Switch("-analyzeOnly", None))
  }

  /** The switches the command passes, in the order it passes them. */
  function Switches(r: FilteringRequest): seq<Switch> {
    FixedSwitches(r) + QualitySwitch(r) + PresetSwitch(r) + VerboseSwitch(r) + AnalyzeSwitch(r)
  }

  function Flags(sws: seq<Switch>): seq<string> {
    seq(|sws|, i requires 0 <= i < |sws| => sws[i].flag)
  }

  /** The fixed order of the switches. */
  function Rank(flag: string): nat {
    match flag
    case "-inputFile" => 0
    case "-outputFile" => 1
    case "-profile" => 2
    case "-codec" => 3
    case "-quality" => 4
    case "-preset" => 5
    case "-verboseOutput" => 6
    case _ => 7
  }

  function Rendered(sw: Switch): string {
    match sw.value
    case None => " " + sw.flag
    case Some(v) => " " + sw.flag + " " + v
  }

  /** The text after `prefix` once every switch is appended in turn. */
  function CommandFrom(prefix: string, sws: seq<Switch>): string {
    if sws == [] then prefix else CommandFrom(prefix, sws[..|sws| - 1]) + Rendered(sws[|sws| - 1])
  }

  function Launcher(scriptPath: string): string {
    "powershell -ExecutionPolicy Bypass -File " + Quoted(scriptPath)
  }

  /** The command: the PowerShell launcher for the script, then every switch. */
  function FilteringCommand(r: FilteringRequest): string {
    CommandFrom(Launcher(r.scriptPath), Switches(r))
  }

  /** Input, output, profile and codec always come first, in that order, the
      two paths quoted. */
  lemma SwitchesStartWithPathsProfileCodec(r: FilteringRequest)
    ensures |Switches(r)| >= 4
    ensures Switches(r)[..4] == [Switch("-inputFile", Some(Quoted(r.inputFile))),
                                 Switch("-outputFile", Some(Quoted(r.outputFile))),
                                 Switch("-profile", Some(r.profile)),
                                 Switch("-codec", Some(r.codec))]
  {
  }

  /** Each switch ranks above the one before it. */
  predicate Ascending(sws: seq<Switch>) {
    forall i :: 0 < i < |sws| ==> Rank(sws[i - 1].flag) < Rank(sws[i].flag)
  }

  /** An optional switch ranking above the last one keeps the list ascending. */
  lemma AscendingExtend(sws: seq<Switch>, passed: bool, sw: Switch, k: nat)
    requires Ascending(sws) && sws != []
    requires Rank(sws[|sws| - 1].flag) <= k < Rank(sw.flag)
    ensures var ext := sws + Optional(passed, sw);
      Ascending(ext) && ext != [] && Rank(ext[|ext| - 1].flag) <= Rank(sw.flag)
  {
    var ext := sws + Optional(passed, sw);
    if passed {
      forall i | 0 < i < |ext|
        ensures Rank(ext[i - 1].flag) < Rank(ext[i].flag)
      {
        if i < |sws| {
          assert ext[i - 1] == sws[i - 1] && ext[i] == sws[i];
        }
      }
    } else {
      assert ext == sws;
    }
  }

  /** The fixed switches are ascending and end at rank 3. */
  lemma FixedAscending(r: FilteringRequest)
    ensures Ascending(FixedSwitches(r))
    ensures Rank(FixedSwitches(r)[3].flag) == 3
  {
    var f := FixedSwitches(r);
    assert Rank(f[0].flag) == 0 && Rank(f[1].flag) == 1 && Rank(f[2].flag) == 2 && Rank(f[3].flag) == 3;
  }

  lemma OptionalRanks()
    ensures Rank("-quality") == 4 && Rank("-preset") == 5
    ensures Rank("-verboseOutput") == 6 && Rank("-analyzeOnly") == 7
  {
  }

  /** The switches come in the fixed order, each ranking above the one before
      it: in particular -verboseOutput comes before -analyzeOnly when both are
      present, and no switch is passed twice. */
  lemma SwitchesInOrder(r: FilteringRequest)
    ensures Ascending(Switches(r))
  {
    var f := FixedSwitches(r);
    FixedAscending(r);
    var q := Switch("-quality", Some(r.quality));
    var p := Switch("-preset", Some(r.preset));
    var v := Switch("-verboseOutput", None);
    var a := Switch("-analyzeOnly", None);
    OptionalRanks();
    AscendingExtend(f, TakesQuality(r.codec), q, 3);
    var s1 := f + QualitySwitch(r);
    AscendingExtend(s1, TakesPreset(r.codec), p, 4);
    var s2 := s1 + PresetSwitch(r);
    AscendingExtend(s2, r.verbose, v, 5);
    var s3 := s2 + VerboseSwitch(r);
    AscendingExtend(s3, r.analyzeOnly, a, 6);
  }

  /** -quality is passed exactly when the codec is neither ProRes nor FFV1. */
  lemma QualityIff(r: FilteringRequest)
    ensures "-quality" in Flags(Switches(r)) <==> TakesQuality(r.codec)
  {
    SwitchesFlags(r);
  }

  /** -preset is passed exactly for x264, x265 and AV1. */
  lemma PresetIff(r: FilteringRequest)
    ensures "-preset" in Flags(Switches(r)) <==> TakesPreset(r.codec)
  {
    SwitchesFlags(r);
  }

  /** The two bare switches follow their flags exactly. */
  lemma BareSwitchesIff(r: FilteringRequest)
    ensures "-verboseOutput" in Flags(Switches(r)) <==> r.verbose
    ensures "-analyzeOnly" in Flags(Switches(r)) <==> r.analyzeOnly
  {
    SwitchesFlags(r);
  }

  /** The flags of the switches, spelled out. */
  lemma SwitchesFlags(r: FilteringRequest)
    ensures Flags(Switches(r)) ==
      ["-inputFile", "-outputFile", "-profile", "-codec"]
      + (if TakesQuality(r.codec) then ["-quality"] else [])
      + (if TakesPreset(r.codec) then ["-preset"] else [])
      + (if r.verbose then ["-verboseOutput"] else [])
      + (if r.analyzeOnly then ["-analyzeOnly"] else [])
  {
  }

  /** Appending one more switch appends its text. */
  lemma CommandFromSnoc(prefix: string, sws: seq<Switch>, sw: Switch)
    ensures CommandFrom(prefix, sws + [sw]) == CommandFrom(prefix, sws) + Rendered(sw)
  {
    assert (sws + [sw])[..|sws|] == sws;
  }

  // ---------------------------------------------------------------------------
  // buildFilteringCommand
  // ---------------------------------------------------------------------------

  /** The launcher as the code spells it. */
  lemma LauncherText(scriptPath: string)
    ensures "powershell -ExecutionPolicy Bypass -File \"" + scriptPath + "\"" == Launcher(scriptPath)
  {
  }

  /** A conditional `cmd += ...`: the text grows by the switch exactly when
      it is passed. */
  lemma OptionalStep(prefix: string, done: seq<Switch>, passed: bool, sw: Switch)
    ensures CommandFrom(prefix, done + Optional(passed, sw)) ==
      if passed then CommandFrom(prefix, done) + Rendered(sw) else CommandFrom(prefix, done)
  {
    if passed {
      CommandFromSnoc(prefix, done, sw);
    } else {
      assert done + [] == done;
    }
  }

  /** The piece appended for a path switch is its rendering. */
  lemma QuotedPiece(lead: string, flag: string, path: string)
    requires lead == " " + flag + " \""
    ensures lead + path + "\"" == Rendered(Switch(flag, Some(Quoted(path))))
  {
  }

  /** The piece appended for a switch with a plain value is its rendering. */
  lemma ValuedPiece(lead: string, flag: string, value: string)
    requires lead == " " + flag + " "
    ensures lead + value == Rendered(Switch(flag, Some(value)))
  {
  }

  /** Each piece the code appends is the rendering of its switch: the four
      fixed ones, ... */
  lemma FixedPieces(r: FilteringRequest)
    ensures " -inputFile \"" + r.inputFile + "\"" == Rendered(Switch("-inputFile", Some(Quoted(r.inputFile))))
    ensures " -outputFile \"" + r.outputFile + "\"" == Rendered(Switch("-outputFile", Some(Quoted(r.outputFile))))
    ensures " -profile " + r.profile == Rendered(Switch("-profile", Some(r.profile)))
    ensures " -codec " + r.codec == Rendered(Switch("-codec", Some(r.codec)))
  {
    QuotedPiece(" -inputFile \"", "-inputFile", r.inputFile);
    QuotedPiece(" -outputFile \"", "-outputFile", r.outputFile);
    ValuedPiece(" -profile ", "-profile", r.profile);
    ValuedPiece(" -codec ", "-codec", r.codec);
  }

  /** ... and the four optional ones. */
  lemma OptionalPieces(r: FilteringRequest)
    ensures " -quality " + r.quality == Rendered(Switch("-quality", Some(r.quality)))
    ensures " -preset " + r.preset == Rendered(Switch("-preset", Some(r.preset)))
    ensures " -verboseOutput" == Rendered(Switch("-verboseOutput", None))
    ensures " -analyzeOnly" == Rendered(Switch("-analyzeOnly", None))
  {
    ValuedPiece(" -quality ", "-quality", r.quality);
    ValuedPiece(" -preset ", "-preset", r.preset);
  }

  /** The four fixed switches, rendered one after the other. */
  lemma FixedText(prefix: string, r: FilteringRequest)
    ensures CommandFrom(prefix, FixedSwitches(r)) ==
      prefix + Rendered(Switch("-inputFile", Some(Quoted(r.inputFile))))
      + Rendered(Switch("-outputFile", Some(Quoted(r.outputFile))))
      + Rendered(Switch("-profile", Some(r.profile)))
      + Rendered(Switch("-codec", Some(r.codec)))
  {
    var f := FixedSwitches(r);
    assert f[..3][..2][..1][..0] == [];
    assert CommandFrom(prefix, f[..1]) == prefix + Rendered(f[0]);
    assert CommandFrom(prefix, f[..2]) == CommandFrom(prefix, f[..1]) + Rendered(f[1]) by {
      assert f[..2][..1] == f[..1];
    }
    assert CommandFrom(prefix, f[..3]) == CommandFrom(prefix, f[..2]) + Rendered(f[2]) by {
      assert f[..3][..2] == f[..2];
    }
    assert f[..4] == f;
  }

  /** buildFilteringCommand: the launcher, then each switch appended with +=;
      -quality and -preset depend on the codec, the last two on the flags. */
  method BuildFilteringCommand(r: FilteringRequest) returns (cmd: string)
    ensures cmd == FilteringCommand(r)
  {
    ghost var launcher := Launcher(r.scriptPath);
    cmd := "powershell -ExecutionPolicy Bypass -File \"" + r.scriptPath + "\"";
    LauncherText(r.scriptPath);
    FixedPieces(r);
    OptionalPieces(r);
    cmd := cmd + (" -inputFile \"" + r.inputFile + "\"");
    cmd := cmd + (" -outputFile \"" + r.outputFile + "\"");
    cmd := cmd + (" -profile " + r.profile);
    cmd := cmd + (" -codec " + r.codec);
    FixedText(launcher, r);
    ghost var done := FixedSwitches(r);
    assert cmd == CommandFrom(launcher, done);
    OptionalStep(launcher, done, TakesQuality(r.codec), Switch("-quality", Some(r.quality)));
    if r.codec != "prores" && r.codec != "ffv1" {
      cmd := cmd + (" -quality " + r.quality);
    }
    done := done + QualitySwitch(r);
    OptionalStep(launcher, done, TakesPreset(r.codec), Switch("-preset", Some(r.preset)));
    if r.codec == "x264" || r.codec == "x265" || r.codec == "av1" {
      cmd := cmd + (" -preset " + r.preset);
    }
    done := done + PresetSwitch(r);
    OptionalStep(launcher, done, r.verbose, Switch("-verboseOutput", None));
    if r.verbose {
      cmd := cmd + " -verboseOutput";
    }
    done := done + VerboseSwitch(r);
    OptionalStep(launcher, done, r.analyzeOnly, Switch("-analyzeOnly", None));
    if r.analyzeOnly {
      cmd := cmd + " -analyzeOnly";
    }
    done := done + AnalyzeSwitch(r);
  }

  // ---------------------------------------------------------------------------
  // The input and output paths in main
  // ---------------------------------------------------------------------------

  /** A typed path loses its surrounding double quotes, and only when it has
      at least two characters and both ends are double quotes. */
  function StripSurroundingQuotes(s: string): (r: string)
    ensures |s| >= 2 && s[0] == '"' && s[|s| - 1] == '"' ==> Quoted(r) == s
    ensures !(|s| >= 2 && s[0] == '"' && s[|s| - 1] == '"') ==> r == s
  {
    if |s| >= 2 && s[0] == '"' && s[|s| - 1] == '"' then s[1..|s| - 1] else s
  }

  /** Quoting and stripping are inverse. */
  lemma StripQuotedRoundTrip(p: string)
    ensures StripSurroundingQuotes(Quoted(p)) == p
  {
    var q := Quoted(p);
    assert q[1..|q| - 1] == p;
  }

  /** The tool's own rule is narrower than removeQuotes: the two agree on a
      path between double quotes, but single quotes and a lone double quote
      are left alone. */
  lemma StripNarrowerThanUnquoted(p: string)
    ensures StripSurroundingQuotes(Quoted(p)) == Unquoted(Quoted(p))
    ensures StripSurroundingQuotes("'a'") == "'a'" && Unquoted("'a'") == "a"
    ensures StripSurroundingQuotes("\"") == "\"" && Unquoted("\"") == ""
  {
    StripQuotedRoundTrip(p);
    UnquotedWrapped(p, '"', '"');
    assert [('"')] + p + [('"')] == Quoted(p);
    UnquotedWrapped("a", '\'', '\'');
    assert [('\'')] + "a" + [('\'')] == "'a'";
  }

  /** The output: beside the input, the stem with "_filtered" and the same
      extension. */
  function FilteredOutputPath(input: string): string {
    Join(ParentPath(input), Stem(input) + "_filtered" + Extension(input))
  }

  /** The output sits in the input's directory under the stem-based name. */
  lemma FilteredOutputBesideInput(input: string)
    requires NoDoubleSeparator(input)
    ensures ParentPath(FilteredOutputPath(input)) == ParentPath(input)
    ensures Filename(FilteredOutputPath(input)) == Stem(input) + "_filtered" + Extension(input)
  {
    var ext := Extension(input);
    var f := Filename(input);
    assert EndsWith(f, ext);
    forall i | 0 <= i < |ext|
      ensures ext[i] != Separator
    {
      assert ext[i] == f[|f| - |ext| + i];
    }
    StemHasNoSeparator(input);
    var name := Stem(input) + "_filtered" + ext;
    assert Separator !in name;
    InDirectory(input, name);
  }

  /** The output never overwrites the input: its file name is nine characters
      longer. */
  lemma FilteredOutputDiffersFromInput(input: string)
    requires NoDoubleSeparator(input)
    ensures FilteredOutputPath(input) != input
  {
    FilteredOutputBesideInput(input);
    StemExtension(input);
    assert |Filename(FilteredOutputPath(input))| == |Filename(input)| + 9;
  }

  // ---------------------------------------------------------------------------
  // The menu answers in main
  // ---------------------------------------------------------------------------

  /** The profile menu: only the first character counts, an empty answer is
      "2", "5" keeps the medium profile and switches to analysis only, and any
      other answer is medium. */
  function ChosenProfile(answer: string): (r: (string, bool))
    ensures r.1 <==> answer != [] && answer[0] == '5'
    ensures r.0 in {"light", "medium", "heavy", "extreme"}
    ensures answer == [] ==> r == ("medium", false)
  {
    var c := if answer == [] then '2' else answer[0];
    match c
    case '1' => ("light", false)
    case '2' => ("medium", false)
    case '3' => ("heavy", false)
    case '4' => ("extreme", false)
    case '5' => ("medium", true)
    case _ => ("medium", false)
  }

  /** The codec menu: only the first character counts, an empty or unknown
      answer is x264. */
  function ChosenCodec(answer: string): (codec: string)
    ensures codec in {"x264", "x265", "av1", "prores", "ffv1"}
    ensures answer == [] || !(answer[0] in "12345") ==> codec == "x264"
  {
    var c := if answer == [] then '1' else answer[0];
    match c
    case '1' => "x264"
    case '2' => "x265"
    case '3' => "av1"
    case '4' => "prores"
    case '5' => "ffv1"
    case _ => "x264"
  }

  /** Among the menu's codecs, those that take a quality are exactly those
      that take a preset. */
  lemma MenuCodecSwitches(answer: string)
    ensures TakesQuality(ChosenCodec(answer)) <==> TakesPreset(ChosenCodec(answer))
  {
  }
}
