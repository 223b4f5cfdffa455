// Media inspection with ffprobe: the command, the scan of its JSON output for
// single values and stream types, the export path, and the integer parts of the
// size and duration read-outs. The captured output is passed in.

module Probe {
  import opened Wrappers
  import opened Text
  import opened Paths

  /** What the scanner returns for a missing key or an unreadable value. */
  const NotAvailable := "N/A"

  // ---------------------------------------------------------------------------
  // extractJsonValue
  // ---------------------------------------------------------------------------

  predicate IsBlank(c: char) {
    c == ' ' || c == '\t'
  }

  /** The characters of an unquoted number: digits, '.' and '-'. */
  predicate IsNumberChar(c: char) {
    IsDigit(c) || c == '.' || c == '-'
  }

  /** The first position at or after i that is not a space or a tab. */
  function SkipBlanks(s: string, i: nat): (r: nat)
    requires i <= |s|
    decreases |s| - i
    ensures i <= r <= |s|
    ensures forall k :: i <= k < r ==> IsBlank(s[k])
    ensures r < |s| ==> !IsBlank(s[r])
  {
    if i < |s| && IsBlank(s[i]) then SkipBlanks(s, i + 1) else i
  }

  /** The end of the run of number characters starting at i. */
  function NumberEnd(s: string, i: nat): (r: nat)
    requires i <= |s|
    decreases |s| - i
    ensures i <= r <= |s|
    ensures forall k :: i <= k < r ==> IsNumberChar(s[k])
    ensures r < |s| ==> !IsNumberChar(s[r])
  {
    if i < |s| && IsNumberChar(s[i]) then NumberEnd(s, i + 1) else i
  }

  /** The text searched for: the quoted key and a colon. */
  function SearchKey(key: string): string {
    "\"" + key + "\":"
  }

  /** No position in [from, to) holds the character c, when find(c, from)
      answers to (or nothing). */
  lemma NoCharBefore(s: string, c: char, from: nat, to: nat)
    requires from <= to <= |s|
    requires forall k: nat :: from <= k < to ==> !OccursAt(s, [c], k)
    ensures forall k :: from <= k < to ==> s[k] != c
  {
    forall k | from <= k < to
      ensures s[k] != c
    {
      assert !OccursAt(s, [c], k);
      assert s[k..k + 1] == [s[k]];
    }
  }

  /** The value read from position start on: "N/A" at the end of the text, the
      text up to the next quote after an opening quote ("N/A" without one), or
      else the run of number characters, which may be empty. */
  function ValueAt(json: string, start: nat): (v: string)
    requires start <= |json|
    ensures '"' !in v
  {
    if start == |json| then NotAvailable
    else if json[start] == '"' then
      match Find(json, "\"", start + 1)
      case None => NotAvailable
      case Some(e) =>
        NoCharBefore(json, '"', start + 1, e);
        json[start + 1..e]
    else
      json[start..NumberEnd(json, start)]
  }

  /** extractJsonValue: the value after the first occurrence of "key": and
      any blanks; "N/A" when the key does not occur. The value never holds a
      quote. */
  function JsonValue(json: string, key: string): (v: string)
    ensures !Contains(json, SearchKey(key)) ==> v == NotAvailable
    ensures '"' !in v
  {
    FindFromStart(json, SearchKey(key));
    ValueAfter(json, SearchKey(key))
  }

  /** The value after the first occurrence of a search pattern. */
  function ValueAfter(json: string, pat: string): (v: string)
    ensures Find(json, pat, 0).None? ==> v == NotAvailable
    ensures '"' !in v
  {
    match Find(json, pat, 0)
    case None => NotAvailable
    case Some(p) => ValueAt(json, SkipBlanks(json, p + |pat|))
  }

  /** "N/A", a run of number characters, or a text that stands between two
      quotes in the JSON. */
  predicate WellFormedValue(json: string, v: string) {
    v == NotAvailable || (forall c <- v :: IsNumberChar(c)) || Contains(json, "\"" + v + "\"")
  }

  /** A value read from a position has one of the three shapes. */
  lemma ValueAtShape(json: string, start: nat)
    requires start <= |json|
    ensures WellFormedValue(json, ValueAt(json, start))
  {
    if start < |json| && json[start] == '"' {
      match Find(json, "\"", start + 1)
      case None =>
      case Some(e) =>
        var v := json[start + 1..e];
        assert json[start..e + 1] == "\"" + v + "\"";
        assert OccursAt(json, "\"" + v + "\"", start);
    }
  }

  lemma JsonValueShape(json: string, key: string)
    ensures WellFormedValue(json, JsonValue(json, key))
  {
    ValueAfterShape(json, SearchKey(key));
  }

  lemma ValueAfterShape(json: string, pat: string)
    ensures WellFormedValue(json, ValueAfter(json, pat))
  {
    match Find(json, pat, 0)
    case None =>
    case Some(p) => ValueAtShape(json, SkipBlanks(json, p + |pat|));
  }

  /** The read after the blanks, as written. */
  method ReadValueAt(json: string, start: nat) returns (v: string)
    requires start <= |json|
    ensures v == ValueAt(json, start)
  {
    var pos := start;
    if pos >= |json| {
      return NotAvailable;
    }
    if json[pos] == '"' {
      pos := pos + 1;
      var endPos := Find(json, "\"", pos);
      if endPos.None? {
        return NotAvailable;
      }
      return json[pos..endPos.value];
    }
    var endPos := pos;
    while endPos < |json| && (IsDigit(json[endPos]) || json[endPos] == '.' || json[endPos] == '-')
      invariant pos <= endPos <= |json|
      invariant NumberEnd(json, pos) == NumberEnd(json, endPos)
    {
      endPos := endPos + 1;
    }
    return json[pos..endPos];
  }

  /** The scan as written: build the search key, find it, skip blanks, then
      read the value. */
  method ExtractJsonValue(json: string, key: string) returns (v: string)
    ensures v == JsonValue(json, key)
  {
    var searchKey := "\"" + key + "\":";
    assert searchKey == SearchKey(key);
    v := ReadValueAfter(json, searchKey);
  }

  /** The part of the scan after the search key is built. */
  method ReadValueAfter(json: string, searchKey: string) returns (v: string)
    ensures v == ValueAfter(json, searchKey)
  {
    var found := Find(json, searchKey, 0);
    if found.None? {
      return NotAvailable;
    }
    var first := found.value + |searchKey|;
    var pos := first;
    while pos < |json| && (json[pos] == ' ' || json[pos] == '\t')
      invariant first <= pos <= |json|
      invariant SkipBlanks(json, first) == SkipBlanks(json, pos)
    {
      pos := pos + 1;
    }
    v := ReadValueAt(json, pos);
  }

  /** A number is read up to the first character that cannot belong to one. */
  lemma JsonValueNumber()
    ensures JsonValue("{\"width\": 1920,", "width") == "1920"
  {
    var j := "{\"width\": 1920,";
    assert j[0..8][0] != SearchKey("width")[0];
    assert OccursAt(j, SearchKey("width"), 1);
    assert Find(j, SearchKey("width"), 0) == Some(1);
    assert SkipBlanks(j, 10) == 10;
    assert SkipBlanks(j, 9) == 10;
    assert NumberEnd(j, 14) == 14;
    assert NumberEnd(j, 13) == 14;
    assert NumberEnd(j, 12) == 14;
    assert NumberEnd(j, 11) == 14;
    assert NumberEnd(j, 10) == 14;
  }

  /** A value that is neither quoted nor numeric reads as the empty run. */
  lemma JsonValueBoolean()
    ensures JsonValue("{\"default\": true}", "default") == ""
  {
    var j := "{\"default\": true}";
    assert j[0..10][0] != SearchKey("default")[0];
    assert OccursAt(j, SearchKey("default"), 1);
    assert Find(j, SearchKey("default"), 0) == Some(1);
    assert SkipBlanks(j, 12) == 12;
    assert SkipBlanks(j, 11) == 12;
    assert NumberEnd(j, 12) == 12;
  }

  // ---------------------------------------------------------------------------
  // Stream-type counting
  // ---------------------------------------------------------------------------

  const CodecTypeKey := "\"codec_type\""

  /** The positions the counting loop visits: each next occurrence of the
      quoted key, resuming 12 characters (the key's length) further on. */
  function Scan(json: string, from: nat): (ps: seq<nat>)
    requires from <= |json|
    decreases |json| - from
    ensures forall i :: 0 <= i < |ps| ==> from <= ps[i] && ps[i] + 12 <= |json|
  {
    match Find(json, CodecTypeKey, from)
    case None => []
    case Some(p) => [p] + Scan(json, p + 12)
  }

  /** The stream type read at one visited position. */
  function TypeAt(json: string, p: nat): string {
    if p <= |json| then JsonValue(json[p..], "codec_type") else NotAvailable
  }

  datatype StreamCounts = StreamCounts(video: nat, audio: nat, subtitle: nat)

  /** One stream type added to the counts; any other type changes nothing. */
  function Classified(r: StreamCounts, t: string): (r': StreamCounts)
    ensures r'.video + r'.audio + r'.subtitle == r.video + r.audio + r.subtitle + (if KnownType(t) then 1 else 0)
    ensures r'.video == r.video + (if t == "video" then 1 else 0)
    ensures r'.audio == r.audio + (if t == "audio" then 1 else 0)
    ensures r'.subtitle == r.subtitle + (if t == "subtitle" then 1 else 0)
  {
    if t == "video" then r.(video := r.video + 1)
    else if t == "audio" then r.(audio := r.audio + 1)
    else if t == "subtitle" then r.(subtitle := r.subtitle + 1)
    else r
  }

  predicate KnownType(t: string) {
    t == "video" || t == "audio" || t == "subtitle"
  }

  /** The tally of the types at the given positions. */
  function Tally(json: string, ps: seq<nat>): (r: StreamCounts)
    ensures r.video + r.audio + r.subtitle <= |ps|
  {
    if ps == [] then StreamCounts(0, 0, 0)
    else Classified(Tally(json, ps[..|ps| - 1]), TypeAt(json, ps[|ps| - 1]))
  }

  /** The visited positions whose type is none of the three. */
  function Unclassified(json: string, ps: seq<nat>): nat
  {
    if ps == [] then 0
    else Unclassified(json, ps[..|ps| - 1]) + (if KnownType(TypeAt(json, ps[|ps| - 1])) then 0 else 1)
  }

  /** Every visited occurrence is counted exactly once: as video, audio or
      subtitle, or as one of the unclassified. */
  lemma {:induction false} TallyAccounts(json: string, ps: seq<nat>)
    ensures Tally(json, ps).video + Tally(json, ps).audio + Tally(json, ps).subtitle + Unclassified(json, ps) == |ps|
  {
    if ps != [] {
      TallyAccounts(json, ps[..|ps| - 1]);
    }
  }

  /** Each visited position holds the key. */
  lemma {:induction false} ScanVisitsOccurrences(json: string, from: nat)
    requires from <= |json|
    decreases |json| - from
    ensures forall i :: 0 <= i < |Scan(json, from)| ==> OccursAt(json, CodecTypeKey, Scan(json, from)[i])
  {
    match Find(json, CodecTypeKey, from)
    case None =>
    case Some(p) =>
      ScanVisitsOccurrences(json, p + 12);
      var rest := Scan(json, p + 12);
      var ps := Scan(json, from);
      assert ps == [p] + rest;
      forall i | 0 <= i < |ps|
        ensures OccursAt(json, CodecTypeKey, ps[i])
      {
        if i > 0 {
          assert ps[i] == rest[i - 1];
        }
      }
  }

  /** The visits move forward by at least the key's length. */
  lemma {:induction false} ScanAdvances(json: string, from: nat)
    requires from <= |json|
    decreases |json| - from
    ensures forall i :: 0 <= i < |Scan(json, from)| - 1 ==> Scan(json, from)[i] + 12 <= Scan(json, from)[i + 1]
  {
    match Find(json, CodecTypeKey, from)
    case None =>
    case Some(p) =>
      ScanAdvances(json, p + 12);
      var rest := Scan(json, p + 12);
      var ps := Scan(json, from);
      assert ps == [p] + rest;
      forall i | 0 <= i < |ps| - 1
        ensures ps[i] + 12 <= ps[i + 1]
      {
        if i > 0 {
          assert ps[i] == rest[i - 1] && ps[i + 1] == rest[i];
        }
      }
  }

  function StreamCountsOf(json: string): StreamCounts {
    Tally(json, Scan(json, 0))
  }

  lemma TallyAppend(json: string, ps: seq<nat>, p: nat)
    ensures Tally(json, ps + [p]) == Classified(Tally(json, ps), TypeAt(json, p))
  {
    assert (ps + [p])[..|ps|] == ps;
  }

  /** One step of the scan: the occurrence found and the scan resumed after it. */
  lemma ScanStep(json: string, pos: nat, p: nat, seen: seq<nat>)
    requires pos <= |json|
    requires Find(json, CodecTypeKey, pos) == Some(p)
    ensures p + 12 <= |json|
    ensures seen + Scan(json, pos) == (seen + [p]) + Scan(json, p + 12)
  {
    assert Scan(json, pos) == [p] + Scan(json, p + 12);
  }

  /** The counting loop of parseAndFormatOutput. */
  method CountStreams(json: string) returns (counts: StreamCounts)
    ensures counts == StreamCountsOf(json)
  {
    counts := StreamCounts(0, 0, 0);
    ghost var seen: seq<nat> := [];
    var pos := 0;
    var found := Find(json, CodecTypeKey, pos);
    while found.Some?
      invariant pos <= |json|
      invariant found == Find(json, CodecTypeKey, pos)
      invariant Scan(json, 0) == seen + Scan(json, pos)
      invariant counts == Tally(json, seen)
      decreases |json| - pos
    {
      var p := found.value;
      ScanStep(json, pos, p, seen);
      var codecType := ExtractJsonValue(json[p..], "codec_type");
      TallyAppend(json, seen, p);
      ghost var before := counts;
      if codecType == "video" {
        counts := counts.(video := counts.video + 1);
      } else if codecType == "audio" {
        counts := counts.(audio := counts.audio + 1);
      } else if codecType == "subtitle" {
        counts := counts.(subtitle := counts.subtitle + 1);
      }
      assert counts == Classified(before, TypeAt(json, p));
      seen := seen + [p];
      pos := p + 12;
      found := Find(json, CodecTypeKey, pos);
    }
    assert Scan(json, pos) == [];
    assert seen + [] == seen;
  }

  // ---------------------------------------------------------------------------
  // The sections read for the first video and audio streams
  // ---------------------------------------------------------------------------

  /** substr(pos, 1000) from the first occurrence of the marker, if any. */
  function Section(json: string, marker: string): (r: Option<string>)
    ensures r.Some? <==> Contains(json, marker)
    ensures r.Some? ==> |r.value| <= 1000 && (|marker| <= 1000 ==> StartsWith(r.value, marker))
  {
    FindFromStart(json, marker);
    match Find(json, marker, 0)
    case None => None
    case Some(p) =>
      var e := if p + 1000 <= |json| then p + 1000 else |json|;
      SectionStartsWithMarker(json, marker, p, e);
      Some(json[p..e])
  }

  /** A section cut at most 1000 characters after an occurrence of a marker
      no longer than that starts with the marker. */
  lemma SectionStartsWithMarker(json: string, marker: string, p: nat, e: nat)
    requires OccursAt(json, marker, p) && p <= e <= |json|
    requires e == |json| || e == p + 1000
    ensures |marker| <= 1000 ==> StartsWith(json[p..e], marker)
  {
    if |marker| <= 1000 {
      assert json[p..e][..|marker|] == json[p..p + |marker|];
    }
  }

  datatype VideoInfo = VideoInfo(codecName: string, codecLongName: string, width: string,
                                 height: string, pixFmt: string, frameRate: string)

  datatype AudioInfo = AudioInfo(codecName: string, codecLongName: string, sampleRate: string,
                                 channels: string, channelLayout: string)

  /** What parseAndFormatOutput reads; the text it lays out around these
      values is not modelled. */
  datatype ProbeSummary = ProbeSummary(
    filename: string, formatName: string, formatLongName: string,
    duration: string, size: string, bitRate: string,
    streams: StreamCounts,
    video: Option<VideoInfo>,
    audio: Option<AudioInfo>)

  function VideoOf(section: string): VideoInfo {
    VideoInfo(JsonValue(section, "codec_name"), JsonValue(section, "codec_long_name"),
              JsonValue(section, "width"), JsonValue(section, "height"),
              JsonValue(section, "pix_fmt"), JsonValue(section, "r_frame_rate"))
  }

  function AudioOf(section: string): AudioInfo {
    AudioInfo(JsonValue(section, "codec_name"), JsonValue(section, "codec_long_name"),
              JsonValue(section, "sample_rate"), JsonValue(section, "channels"),
              JsonValue(section, "channel_layout"))
  }

  const VideoMarker := "\"codec_type\": \"video\""
  const AudioMarker := "\"codec_type\": \"audio\""

  function Summarize(json: string): (s: ProbeSummary)
    ensures s.video.Some? <==> Contains(json, VideoMarker)
    ensures s.audio.Some? <==> Contains(json, AudioMarker)
    ensures !Contains(json, SearchKey("duration")) ==> s.duration == NotAvailable
  {
    ProbeSummary(
      JsonValue(json, "filename"), JsonValue(json, "format_name"), JsonValue(json, "format_long_name"),
      JsonValue(json, "duration"), JsonValue(json, "size"), JsonValue(json, "bit_rate"),
      StreamCountsOf(json),
      match Section(json, VideoMarker) case None => None case Some(v) => Some(VideoOf(v)),
      match Section(json, AudioMarker) case None => None case Some(a) => Some(AudioOf(a)))
  }

  // ---------------------------------------------------------------------------
  // Numeric conversions (std::stod, std::stoll)
  // ---------------------------------------------------------------------------

  /** The text after the leading white space that std::stod and std::stoll
      skip. */
  function SkipSpaces(s: string): (r: string)
    ensures |r| <= |s| && r == s[|s| - |r|..]
    ensures r != [] ==> !IsSpace(r[0])
  {
    if s != [] && IsSpace(s[0]) then SkipSpaces(s[1..]) else s
  }

  /** The text after one optional sign. */
  function Unsigned(s: string): (r: string)
    ensures r == (if s != [] && (s[0] == '+' || s[0] == '-') then s[1..] else s)
  {
    if s != [] && (s[0] == '+' || s[0] == '-') then s[1..] else s
  }

  function Lower(c: char): char {
    if 'A' <= c <= 'Z' then (c as int - 'A' as int + 'a' as int) as char else c
  }

  /** s starts with the lower-case word w, ignoring case. */
  predicate StartsWithWord(s: string, w: string) {
    |w| <= |s| && forall i :: 0 <= i < |w| ==> Lower(s[i]) == w[i]
  }

  /** std::stod converts something (and so does not throw invalid_argument):
      after white space and a sign comes a digit, a point and a digit, or an
      infinity or NaN spelled in any case. */
  predicate StodAccepts(s: string) {
    var u := Unsigned(SkipSpaces(s));
    (u != [] && IsDigit(u[0])) || (|u| >= 2 && u[0] == '.' && IsDigit(u[1]))
    || StartsWithWord(u, "inf") || StartsWithWord(u, "nan")
  }

  /** The longest run of digits at the start of s. */
  function LeadingDigits(s: string): (r: string)
    ensures AllDigits(r) && |r| <= |s| && r == s[..|r|]
    ensures |r| < |s| ==> !IsDigit(s[|r|])
  {
    if s != [] && IsDigit(s[0]) then [s[0]] + LeadingDigits(s[1..]) else []
  }

  const LongLongMin := -0x8000_0000_0000_0000
  const LongLongMax := 0x7FFF_FFFF_FFFF_FFFF

  /** The number std::stoll reads: the sign and the digits that follow the
      leading white space. */
  function StollValue(s: string): int {
    var t := SkipSpaces(s);
    var m: int := ParseNat(LeadingDigits(Unsigned(t)));
    if t != [] && t[0] == '-' then -m else m
  }

  /** std::stoll returns a value (throwing neither invalid_argument nor
      out_of_range): a digit follows the white space and the sign, and the
      number fits a long long. */
  predicate StollAccepts(s: string) {
    var u := Unsigned(SkipSpaces(s));
    u != [] && IsDigit(u[0]) && LongLongMin <= StollValue(s) <= LongLongMax
  }

  /** The frame rate is read only when it is not "N/A" and holds a '/'; then
      both sides go through std::stod. */
  predicate FrameRateConverts(rate: string) {
    rate == NotAvailable
    || match Find(rate, "/", 0)
       case None => true
       case Some(k) => StodAccepts(rate[..k]) && StodAccepts(rate[k + 1..])
  }

  /** Every value parseAndFormatOutput converts to a number converts. */
  predicate Converts(s: ProbeSummary) {
    (s.duration == NotAvailable || StodAccepts(s.duration))
    && (s.size == NotAvailable || StollAccepts(s.size))
    && (s.bitRate == NotAvailable || StollAccepts(s.bitRate))
    && (s.video.None? || FrameRateConverts(s.video.value.frameRate))
  }

  lemma {:induction false} LeadingDigitsOfDigits(s: string)
    requires AllDigits(s)
    ensures LeadingDigits(s) == s
  {
    if s != [] {
      LeadingDigitsOfDigits(s[1..]);
    }
  }

  /** std::stoll reads back every long long that std::to_string writes. */
  lemma StollAcceptsToString(n: int)
    requires LongLongMin <= n <= LongLongMax
    ensures StollAccepts(IntToString(n)) && StollValue(IntToString(n)) == n
  {
    var s := IntToString(n);
    if n < 0 {
      var digits := NatToString(-n);
      assert s == "-" + digits;
      SignedDigits(s, digits);
      ParseNatToString(-n);
    } else {
      var digits := NatToString(n);
      assert s == digits;
      PlainDigits(s);
      ParseNatToString(n);
    }
  }

  lemma SignedDigits(s: string, digits: string)
    requires AllDigits(digits) && digits != [] && s == "-" + digits
    ensures Unsigned(SkipSpaces(s)) == digits && SkipSpaces(s)[0] == '-'
    ensures StollValue(s) == -(ParseNat(digits) as int)
  {
    assert SkipSpaces(s) == s;
    assert s[1..] == digits;
    LeadingDigitsOfDigits(digits);
  }

  lemma PlainDigits(s: string)
    requires AllDigits(s) && s != []
    ensures Unsigned(SkipSpaces(s)) == s
    ensures StollValue(s) == ParseNat(s)
  {
    assert IsDigit(s[0]);
    assert !IsSpace(s[0]) && s[0] != '+' && s[0] != '-';
    assert SkipSpaces(s) == s;
    assert Unsigned(s) == s;
    LeadingDigitsOfDigits(s);
  }

  /** "N/A" itself would not convert: the value is tested before conversion
      for that reason. */
  lemma NotAvailableRejected()
    ensures !StodAccepts(NotAvailable) && !StollAccepts(NotAvailable)
  {
    var u := NotAvailable;
    assert u[0] == 'N' && u[1] == '/';
    assert !IsSpace(u[0]) && u[0] != '+' && u[0] != '-';
    assert SkipSpaces(u) == u;
    assert Unsigned(u) == u;
    assert !IsDigit(u[0]) && u[0] != '.';
    assert Lower(u[0]) != "inf"[0];
    assert Lower(u[1]) != "nan"[1];
  }

  /** A duration given as a boolean reads as the empty run, which std::stod
      rejects. */
  lemma BooleanDurationRejected()
    ensures !Converts(Summarize("{\"duration\": true}"))
  {
    var j := "{\"duration\": true}";
    assert j[0..11][0] != SearchKey("duration")[0];
    assert OccursAt(j, SearchKey("duration"), 1);
    assert Find(j, SearchKey("duration"), 0) == Some(1);
    assert SkipBlanks(j, 13) == 13;
    assert SkipBlanks(j, 12) == 13;
    assert NumberEnd(j, 13) == 13;
    assert JsonValue(j, "duration") == "";
  }

  // ---------------------------------------------------------------------------
  // Sizes and durations
  // ---------------------------------------------------------------------------

  const Units := ["B", "KB", "MB", "GB", "TB"]

  function Pow1024(k: nat): (p: int)
    ensures p >= 1
  {
    if k == 0 then 1 else 1024 * Pow1024(k - 1)
  }

  /** The unit formatBytes settles on: the largest of B..TB whose size the byte
      count reaches, TB at most. */
  function UnitIndex(bytes: int): (u: nat)
    ensures u <= 4
    ensures u > 0 ==> bytes >= Pow1024(u)
    ensures u < 4 ==> bytes < Pow1024(u + 1)
  {
    if bytes >= Pow1024(4) then 4
    else if bytes >= Pow1024(3) then 3
    else if bytes >= Pow1024(2) then 2
    else if bytes >= Pow1024(1) then 1
    else 0
  }

  lemma ScaledAtLeast(b: real, p: real)
    requires p > 0.0
    ensures b / p >= 1024.0 <==> b >= 1024.0 * p
    ensures b / p / 1024.0 == b / (1024.0 * p)
  {
    var q := b / p;
    assert q * p == b;
  }

  lemma Pow1024Grows(j: nat, k: nat)
    requires j <= k
    ensures Pow1024(j) <= Pow1024(k)
  {
  }

  /** formatBytes: divide by 1024 while the size is at least 1024 and the unit
      is below TB; `fixed2` prints the size with two decimals. */
  method FormatBytes(bytes: int, fixed2: real -> string) returns (text: string)
    ensures text == fixed2((bytes as real) / (Pow1024(UnitIndex(bytes)) as real)) + " " + Units[UnitIndex(bytes)]
  {
    var unitIndex := 0;
    var size: real := bytes as real;
    while size >= 1024.0 && unitIndex < 4
      invariant 0 <= unitIndex <= 4
      invariant size == (bytes as real) / (Pow1024(unitIndex) as real)
      invariant unitIndex > 0 ==> bytes >= Pow1024(unitIndex)
      decreases 4 - unitIndex
    {
      ScaledAtLeast(bytes as real, Pow1024(unitIndex) as real);
      size := size / 1024.0;
      unitIndex := unitIndex + 1;
    }
    ScaledAtLeast(bytes as real, Pow1024(unitIndex) as real);
    if unitIndex < 4 {
      assert bytes < Pow1024(unitIndex + 1);
      forall k: nat | unitIndex < k <= 4
        ensures bytes < Pow1024(k)
      {
        Pow1024Grows(unitIndex + 1, k);
      }
    }
    assert unitIndex == UnitIndex(bytes);
    text := fixed2(size) + " " + Units[unitIndex];
  }

  /** Integer division truncating toward zero, as C++ int division does. */
  function TruncDiv(a: int, b: int): (q: int)
    requires b > 0
    ensures a >= 0 ==> q == a / b
    ensures a < 0 ==> q == -((-a) / b)
  {
    if a >= 0 then a / b else -((-a) / b)
  }

  /** The remainder that goes with TruncDiv: it takes the sign of a. */
  function TruncMod(a: int, b: int): (r: int)
    requires b > 0
    ensures a == b * TruncDiv(a, b) + r
    ensures a >= 0 ==> 0 <= r < b
    ensures a < 0 ==> -b < r <= 0
  {
    a - b * TruncDiv(a, b)
  }

  datatype Clock = Clock(hours: int, minutes: int, seconds: int)

  /** formatDuration's fields from the whole seconds. */
  function DurationFields(whole: int): Clock {
    Clock(TruncDiv(whole, 3600), TruncDiv(TruncMod(whole, 3600), 60), TruncMod(whole, 60))
  }

  /** The fields add back up to the whole seconds; for a non-negative duration
      minutes and seconds are below 60, and a negative one gives fields that are
      all zero or negative. */
  lemma DurationFieldsRecombine(whole: int)
    ensures var f := DurationFields(whole);
      3600 * f.hours + 60 * f.minutes + f.seconds == whole
    ensures var f := DurationFields(whole);
      whole >= 0 ==> f.hours >= 0 && 0 <= f.minutes < 60 && 0 <= f.seconds < 60
    ensures var f := DurationFields(whole);
      whole < 0 ==> f.hours <= 0 && -60 < f.minutes <= 0 && -60 < f.seconds <= 0
  {
    var h := TruncDiv(whole, 3600);
    var r := TruncMod(whole, 3600);
    var m := TruncDiv(r, 60);
    var s := TruncMod(r, 60);
    assert r == 60 * m + s;
    assert whole == 3600 * h + 60 * m + s;
    assert 60 * (60 * h + m) + s == whole;
    if whole >= 0 {
      assert 0 <= s < 60;
      assert TruncMod(whole, 60) == s by {
        assert whole == 60 * (60 * h + m) + s;
        assert whole / 60 == 60 * h + m;
      }
    } else {
      assert -60 < s <= 0;
      assert TruncMod(whole, 60) == s by {
        assert -whole == 60 * (-(60 * h + m)) + (-s);
        assert (-whole) / 60 == -(60 * h + m);
      }
    }
  }

  /** setfill('0') with setw(width): zeros on the left up to the width. */
  function Padded(n: int, width: nat): (t: string)
    ensures |t| >= width
    ensures EndsWith(t, IntToString(n))
  {
    var s := IntToString(n);
    if |s| < width then seq(width - |s|, _ => '0') + s else s
  }

  lemma SmallNatLength(n: nat, width: nat)
    requires 1 <= width <= 3
    requires n < (if width == 1 then 10 else if width == 2 then 100 else 1000)
    ensures |NatToString(n)| <= width
  {
    if n >= 10 {
      SmallNatLength(n / 10, width - 1);
    }
  }

  /** formatDuration's text, given the whole seconds and the milliseconds. */
  function DurationText(whole: int, millis: int): string {
    var f := DurationFields(whole);
    Padded(f.hours, 2) + ":" + Padded(f.minutes, 2) + ":" + Padded(f.seconds, 2) + "." + Padded(millis, 3)
  }

  /** A non-negative number with at most `width` digits fills exactly the width. */
  lemma PaddedExact(n: int, width: nat)
    requires 0 <= n && |NatToString(n)| <= width
    ensures |Padded(n, width)| == width
  {
  }

  lemma ClockLayout(h: string, m: string, s: string, ms: string)
    requires |h| == 2 && |m| == 2 && |s| == 2 && |ms| == 3
    ensures var t := h + ":" + m + ":" + s + "." + ms;
      |t| == 12 && t[2] == ':' && t[5] == ':' && t[8] == '.'
  {
  }

  /** Below 100 hours the text is always "hh:mm:ss.mmm": twelve characters with
      the separators in place. */
  lemma DurationTextLayout(whole: int, millis: int)
    requires 0 <= whole < 360000 && 0 <= millis < 1000
    ensures var t := DurationText(whole, millis);
      |t| == 12 && t[2] == ':' && t[5] == ':' && t[8] == '.'
  {
    DurationFieldsRecombine(whole);
    var f := DurationFields(whole);
    assert f.hours < 100;
    SmallNatLength(f.hours, 2);
    SmallNatLength(f.minutes, 2);
    SmallNatLength(f.seconds, 2);
    SmallNatLength(millis, 3);
    PaddedExact(f.hours, 2);
    PaddedExact(f.minutes, 2);
    PaddedExact(f.seconds, 2);
    PaddedExact(millis, 3);
    ClockLayout(Padded(f.hours, 2), Padded(f.minutes, 2), Padded(f.seconds, 2), Padded(millis, 3));
  }

  // ---------------------------------------------------------------------------
  // Export path and command
  // ---------------------------------------------------------------------------

  /** generateExportPath: beside the input, the stem with "_ffprobe" and the
      export's extension. */
  function ExportPath(input: string, isJson: bool): string {
    Join(ParentPath(input), Stem(input) + (if isJson then "_ffprobe.json" else "_ffprobe.txt"))
  }

  /** The export sits in the input's directory under the stem-based name. */
  lemma ExportPathBesideInput(input: string, isJson: bool)
    requires NoDoubleSeparator(input)
    ensures ParentPath(ExportPath(input, isJson)) == ParentPath(input)
    ensures Filename(ExportPath(input, isJson)) == Stem(input) + (if isJson then "_ffprobe.json" else "_ffprobe.txt")
  {
    if isJson {
      StemNameBesideInput(input, "_ffprobe.json");
    } else {
      StemNameBesideInput(input, "_ffprobe.txt");
    }
  }

  /** The JSON and the text export of one input are different files. */
  lemma ExportPathsDiffer(input: string)
    requires NoDoubleSeparator(input)
    ensures ExportPath(input, true) != ExportPath(input, false)
  {
    ExportPathBesideInput(input, true);
    ExportPathBesideInput(input, false);
    var json, txt := Stem(input) + "_ffprobe.json", Stem(input) + "_ffprobe.txt";
    assert json[|json| - 1] != txt[|txt| - 1];
  }

  function ProbeArgs(externPath: string, input: string): seq<string> {
    [Join(externPath, "ffprobe.exe"), "-v", "quiet", "-print_format", "json",
     "-show_format", "-show_streams", "\"" + input + "\""]
  }

  /** Spacing one more token onto a non-empty list. */
  lemma SpacedSnoc(tokens: seq<string>, t: string)
    requires tokens != []
    ensures Spaced(tokens + [t]) == Spaced(tokens) + " " + t
  {
    assert (tokens + [t])[..|tokens|] == tokens;
  }

  /** The join loop of buildFFProbeCommand: a space before every argument
      but the first. The result is the spaced list whenever the first argument
      is not empty (an empty one would leave the second without its space). */
  method JoinArgs(args: seq<string>) returns (cmd: string)
    ensures (args == [] || args[0] != []) ==> cmd == Spaced(args)
  {
    cmd := "";
    var i := 0;
    while i < |args|
      invariant 0 <= i <= |args|
      invariant (args == [] || args[0] != []) ==> cmd == Spaced(args[..i])
      invariant i > 0 && args[0] != [] ==> cmd != []
    {
      assert args[..i + 1][..i] == args[..i];
      if cmd != [] {
        cmd := cmd + " ";
      }
      cmd := cmd + args[i];
      i := i + 1;
    }
    assert args[..i] == args;
  }

  /** The command is the program path, the six options and the quoted input,
      each two separated by one space. */
  lemma ProbeCommandText(externPath: string, input: string)
    ensures var exe := Join(externPath, "ffprobe.exe");
      Spaced(ProbeArgs(externPath, input)) ==
        exe + " " + "-v" + " " + "quiet" + " " + "-print_format" + " " + "json"
        + " " + "-show_format" + " " + "-show_streams" + " " + "\"" + input + "\""
  {
    var exe := Join(externPath, "ffprobe.exe");
    var t := [exe];
    SpacedSnoc(t, "-v");
    t := t + ["-v"];
    SpacedSnoc(t, "quiet");
    t := t + ["quiet"];
    SpacedSnoc(t, "-print_format");
    t := t + ["-print_format"];
    SpacedSnoc(t, "json");
    t := t + ["json"];
    SpacedSnoc(t, "-show_format");
    t := t + ["-show_format"];
    SpacedSnoc(t, "-show_streams");
    t := t + ["-show_streams"];
    SpacedSnoc(t, "\"" + input + "\"");
    t := t + ["\"" + input + "\""];
    assert t == ProbeArgs(externPath, input);
  }

  // ---------------------------------------------------------------------------
  // The job
  // ---------------------------------------------------------------------------

  class ProbeJob {
    var inputFile: string
    var output: string
    var summary: Option<ProbeSummary>
    var shouldExport: bool
    var exportPath: string

    constructor (inputFile: string)
      ensures this.inputFile == inputFile && output == [] && summary == None
      ensures !shouldExport && exportPath == []
    {
      this.inputFile := inputFile;
      output := [];
      summary := None;
      shouldExport := false;
      exportPath := [];
    }

    method SetShouldExport(value: bool)
      modifies this
      ensures shouldExport == value
      ensures inputFile == old(inputFile) && output == old(output) && summary == old(summary)
      ensures exportPath == old(exportPath)
    {
      shouldExport := value;
    }

    method SetExportPath(path: string)
      modifies this
      ensures exportPath == path
      ensures inputFile == old(inputFile) && output == old(output) && summary == old(summary)
      ensures shouldExport == old(shouldExport)
    {
      exportPath := path;
    }

    method GenerateExportPath(isJson: bool) returns (path: string)
      ensures path == ExportPath(inputFile, isJson)
    {
      var extension := if isJson then "_ffprobe.json" else "_ffprobe.txt";
      path := Join(ParentPath(inputFile), Stem(inputFile) + extension);
    }

    /** buildFFProbeCommand: the arguments joined with single spaces. */
    method BuildFFProbeCommand(externPath: string) returns (cmd: string)
      ensures cmd == Spaced(ProbeArgs(externPath, inputFile))
    {
      var args := ProbeArgs(externPath, inputFile);
      cmd := JoinArgs(args);
    }

    /** parseAndFormatOutput: the values read from the captured output. A
        value that std::stod or std::stoll cannot convert throws before the
        formatted text is stored; ok is false then and the summary is left as
        it was. */
    method ParseAndFormatOutput() returns (ok: bool)
      modifies this
      ensures ok <==> Converts(Summarize(output))
      ensures ok ==> summary == Some(Summarize(output))
      ensures !ok ==> summary == old(summary)
      ensures inputFile == old(inputFile) && output == old(output)
      ensures shouldExport == old(shouldExport) && exportPath == old(exportPath)
    {
      var streams := CountStreams(output);
      var s := Summarize(output);
      assert s.streams == streams;
      if !Converts(s) {
        return false;
      }
      summary := Some(s.(streams := streams));
      return true;
    }

    /** execute: a non-zero ffprobe exit status is an error that leaves the job
        as it was; otherwise the captured text is kept and read, and reading
        fails when a value does not convert. */
    method Execute(captured: string, exitCode: int) returns (ok: bool)
      modifies this
      ensures ok <==> exitCode == 0 && Converts(Summarize(captured))
      ensures exitCode != 0 ==> output == old(output)
      ensures exitCode == 0 ==> output == captured
      ensures ok ==> summary == Some(Summarize(captured))
      ensures !ok ==> summary == old(summary)
      ensures inputFile == old(inputFile)
      ensures shouldExport == old(shouldExport) && exportPath == old(exportPath)
    {
      if exitCode != 0 {
        return false;
      }
      output := captured;
      ok := ParseAndFormatOutput();
    }
  }
}
