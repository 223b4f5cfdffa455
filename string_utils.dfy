// String cleaning for paths typed or pasted by the user: surrounding quotes and
// surrounding whitespace are dropped, the inside is kept as it is.

module StringUtils {
  import opened Wrappers
  import opened Text

  predicate IsQuote(c: char) {
    c == '"' || c == '\''
  }

  // ---------------------------------------------------------------------------
  // removeQuotes
  // ---------------------------------------------------------------------------

  /** At most one quote character dropped at the front, then at most one at
      the back; the two are independent and need not match. */
  function Unquoted(s: string): (r: string)
    ensures |r| <= |s| <= |r| + 2
    ensures var lead := if s != [] && IsQuote(s[0]) then 1 else 0;
      lead + |r| <= |s| && r == s[lead..lead + |r|]
    ensures s != [] && !IsQuote(s[0]) && !IsQuote(s[|s| - 1]) ==> r == s
  {
    var t := if s != [] && IsQuote(s[0]) then s[1..] else s;
    if t != [] && IsQuote(t[|t| - 1]) then t[..|t| - 1] else t
  }

  /** Exactly the quotes at the two ends go: a string wrapped in quotes of
      either kind comes back as its inside. */
  lemma UnquotedWrapped(inner: string, open: char, close: char)
    requires IsQuote(open) && IsQuote(close)
    ensures Unquoted([open] + inner + [close]) == inner
  {
    var s := [open] + inner + [close];
    assert s[1..] == inner + [close];
    assert (inner + [close])[..|inner|] == inner;
  }

  /** Only one quote per end is dropped: doubled quotes leave one on each side. */
  lemma UnquotedOnlyOnce(inner: string)
    ensures Unquoted("\"\"" + inner + "\"\"") == "\"" + inner + "\""
  {
    var s := "\"\"" + inner + "\"\"";
    assert s[1..] == "\"" + inner + "\"\"";
    assert ("\"" + inner + "\"\"")[..|inner| + 2] == "\"" + inner + "\"";
  }

  /** A lone quote is both the leading and, once that is gone, nothing is left
      to drop at the back. */
  lemma UnquotedLoneQuote()
    ensures Unquoted("\"") == ""
    ensures Unquoted("'") == ""
  {
  }

  /** removeQuotes: erase the first character of a copy when it is a quote,
      then pop the last one when it is a quote. */
  method RemoveQuotes(str: string) returns (result: string)
    ensures result == Unquoted(str)
  {
    result := str;
    if result != [] && (result[0] == '"' || result[0] == '\'') {
      result := result[1..];
    }
    if result != [] && (result[|result| - 1] == '"' || result[|result| - 1] == '\'') {
      result := result[..|result| - 1];
    }
  }

  // ---------------------------------------------------------------------------
  // trim
  // ---------------------------------------------------------------------------

  /** The string without its leading whitespace. */
  function DropLeading(s: string): (r: string)
    ensures |r| <= |s|
    ensures r == [] || !IsSpace(r[0])
  {
    if s != [] && IsSpace(s[0]) then DropLeading(s[1..]) else s
  }

  /** The string without its trailing whitespace. */
  function DropTrailing(s: string): (r: string)
    ensures |r| <= |s|
    ensures r == [] || !IsSpace(r[|r| - 1])
  {
    if s != [] && IsSpace(s[|s| - 1]) then DropTrailing(s[..|s| - 1]) else s
  }

  /** What DropLeading keeps is a suffix of its input. */
  lemma {:induction false} DropLeadingSuffix(s: string)
    ensures DropLeading(s) == s[|s| - |DropLeading(s)|..]
  {
    if s != [] && IsSpace(s[0]) {
      DropLeadingSuffix(s[1..]);
      assert s[1..][|s| - 1 - |DropLeading(s)|..] == s[|s| - |DropLeading(s)|..];
    }
  }

  /** What DropTrailing keeps is a prefix of its input. */
  lemma {:induction false} DropTrailingPrefix(s: string)
    ensures DropTrailing(s) == s[..|DropTrailing(s)|]
  {
    if s != [] && IsSpace(s[|s| - 1]) {
      DropTrailingPrefix(s[..|s| - 1]);
      assert s[..|s| - 1][..|DropTrailing(s)|] == s[..|DropTrailing(s)|];
    }
  }

  /** The reference meaning of trim: whitespace dropped at both ends. */
  function Trimmed(s: string): string {
    DropTrailing(DropLeading(s))
  }

  predicate AllSpace(s: string) {
    forall i :: 0 <= i < |s| ==> IsSpace(s[i])
  }

  /** Dropping leading whitespace removes exactly the whitespace before the
      first other character. */
  lemma {:induction false} DropLeadingAt(s: string, k: nat)
    requires k <= |s| && (forall i :: 0 <= i < k ==> IsSpace(s[i])) && (k == |s| || !IsSpace(s[k]))
    ensures DropLeading(s) == s[k..]
  {
    if k > 0 {
      var t := s[1..];
      assert forall i :: 0 <= i < k - 1 ==> t[i] == s[i + 1];
      DropLeadingAt(t, k - 1);
      assert t[k - 1..] == s[k..];
    }
  }

  /** Dropping trailing whitespace removes exactly the whitespace after the
      last other character. */
  lemma {:induction false} DropTrailingAt(s: string, e: nat)
    requires e <= |s| && (forall i :: e <= i < |s| ==> IsSpace(s[i])) && (e == 0 || !IsSpace(s[e - 1]))
    ensures DropTrailing(s) == s[..e]
  {
    if e < |s| {
      var t := s[..|s| - 1];
      DropTrailingAt(t, e);
      assert t[..e] == s[..e];
    }
  }

  /** Everything DropLeading removes is whitespace. */
  lemma {:induction false} DropLeadingRemovesSpace(s: string)
    ensures AllSpace(s[..|s| - |DropLeading(s)|])
  {
    if s != [] && IsSpace(s[0]) {
      DropLeadingRemovesSpace(s[1..]);
      var k := |s| - |DropLeading(s)|;
      forall i | 0 <= i < k
        ensures IsSpace(s[i])
      {
        if i > 0 {
          assert s[i] == s[1..][..k - 1][i - 1];
        }
      }
    }
  }

  /** Everything DropTrailing removes is whitespace. */
  lemma {:induction false} DropTrailingRemovesSpace(s: string)
    ensures AllSpace(s[|DropTrailing(s)|..])
  {
    if s != [] && IsSpace(s[|s| - 1]) {
      var t := s[..|s| - 1];
      DropTrailingRemovesSpace(t);
      var e := |DropTrailing(s)|;
      forall i | e <= i < |s|
        ensures IsSpace(s[i])
      {
        if i < |s| - 1 {
          assert s[i] == t[e..][i - e];
        }
      }
    }
  }

  /** trim keeps one contiguous piece of its input: only whitespace goes
      before and after it, it has no whitespace at either end, and everything
      between its first and last character, interior whitespace included, is
      kept. */
  lemma TrimmedIsCore(s: string)
    ensures var r := Trimmed(s);
      var k := |s| - |DropLeading(s)|;
      k + |r| <= |s| && r == s[k..k + |r|]
      && AllSpace(s[..k]) && AllSpace(s[k + |r|..])
      && (r == [] || (!IsSpace(r[0]) && !IsSpace(r[|r| - 1])))
  {
    var d := DropLeading(s);
    var r := Trimmed(s);
    var k := |s| - |d|;
    DropLeadingSuffix(s);
    DropTrailingPrefix(d);
    DropLeadingRemovesSpace(s);
    DropTrailingRemovesSpace(d);
    assert d == s[k..];
    assert r == d[..|r|];
    assert d[..|r|] == s[k..k + |r|];
    assert d[|r|..] == s[k + |r|..];
    if r != [] {
      assert r[0] == d[0];
    }
  }

  /** trim gives the empty string exactly when the input is all whitespace. */
  lemma TrimmedEmptyIff(s: string)
    ensures Trimmed(s) == [] <==> AllSpace(s)
  {
    TrimmedIsCore(s);
    var k := |s| - |DropLeading(s)|;
    if AllSpace(s) {
      DropLeadingAt(s, |s|);
    }
    if Trimmed(s) == [] {
      var d := DropLeading(s);
      DropTrailingRemovesSpace(d);
      assert d[0..] == d;
      DropLeadingRemovesSpace(s);
      assert s[..|s|] == s;
    }
  }

  /** Trimming twice is trimming once. */
  lemma TrimmedIdempotent(s: string)
    ensures Trimmed(Trimmed(s)) == Trimmed(s)
  {
    var r := Trimmed(s);
    TrimmedIsCore(s);
    if r == [] {
    } else {
      assert r[..0] == [];
      DropLeadingAt(r, 0);
      assert r[|r|..] == [];
      DropTrailingAt(r, |r|);
    }
  }

  /** trim: the first iterator skips leading whitespace; the second steps back
      from the end (a do-while) while it is past the first and on whitespace.
      The empty string is answered before the second iterator is formed: the
      corrected behaviour, where TrimAsWritten has none. */
  method Trim(str: string) returns (r: string)
    ensures r == Trimmed(str)
  {
    if str == [] {
      return "";
    }
    var start := 0;
    while start < |str| && IsSpace(str[start])
      invariant start <= |str|
      invariant forall i :: 0 <= i < start ==> IsSpace(str[i])
    {
      start := start + 1;
    }
    DropLeadingAt(str, start);
    var end: int := |str|;
    end := end - 1;
    while end - start > 0 && IsSpace(str[end])
      invariant start - 1 <= end < |str|
      invariant start < |str| ==> start <= end
      invariant forall i :: end < i < |str| ==> IsSpace(str[i])
    {
      end := end - 1;
    }
    TrimmedRange(str, start, end + 1);
    r := str[start..end + 1];
  }

  /** trim's result from the two indices its iterators stop at. */
  lemma TrimmedRange(s: string, start: nat, stop: nat)
    requires start <= stop <= |s|
    requires DropLeading(s) == s[start..]
    requires forall i :: stop <= i < |s| ==> IsSpace(s[i])
    requires start < stop ==> !IsSpace(s[stop - 1])
    requires start == stop ==> start == |s|
    ensures Trimmed(s) == s[start..stop]
  {
    var d := s[start..];
    var e := stop - start;
    assert Trimmed(s) == DropTrailing(d);
    forall i | e <= i < |d|
      ensures IsSpace(d[i])
    {
      assert d[i] == s[start + i];
    }
    if e > 0 {
      assert d[e - 1] == s[stop - 1];
    }
    DropTrailingAt(d, e);
    assert d[..e] == s[start..stop];
  }

  /** The do-while of trim on indices: step back while past start and on
      whitespace; the result is the index of the last character kept. */
  function LastKept(s: string, start: nat, end: int): (e: int)
    requires start <= |s| && start - 1 <= end < |s|
    requires start < |s| ==> start <= end && !IsSpace(s[start])
    decreases end
    ensures start - 1 <= e <= end
    ensures start < |s| ==> start <= e && !IsSpace(s[e])
    ensures forall i :: e < i <= end ==> IsSpace(s[i])
  {
    if end - start > 0 && IsSpace(s[end]) then LastKept(s, start, end - 1) else end
  }

  /** trim as written, on indices: the first iterator skips the leading
      whitespace, the second is decremented once from end() before its first
      test. On the empty string that first decrement steps before begin(),
      outside the string; None stands for that undefined behaviour. */
  function TrimAsWritten(s: string): (r: Option<string>)
    ensures r.None? <==> s == []
  {
    var start := |s| - |DropLeading(s)|;
    DropLeadingSuffix(s);
    if |s| - 1 < 0 then None
    else
      var e := LastKept(s, start, |s| - 1);
      Some(s[start..e + 1])
  }

  /** The discrepancy: on "" the code as written has no defined result, while
      the evident intent, which Trim and the rest of the model use, is "".
      On every other input the two agree. */
  lemma TrimAsWrittenAgrees(s: string)
    ensures s == [] ==> TrimAsWritten(s) == None && Trimmed(s) == ""
    ensures s != [] ==> TrimAsWritten(s) == Some(Trimmed(s))
  {
    if s != [] {
      var start := |s| - |DropLeading(s)|;
      DropLeadingSuffix(s);
      var e := LastKept(s, start, |s| - 1);
      TrimmedRange(s, start, e + 1);
    }
  }

  // ---------------------------------------------------------------------------
  // clean
  // ---------------------------------------------------------------------------

  /** clean: trim first, then remove the quotes. */
  function Cleaned(s: string): (r: string)
    ensures |r| <= |s|
  {
    Unquoted(Trimmed(s))
  }

  /** Whitespace inside the quotes survives: only the outside is trimmed. */
  lemma CleanKeepsInnerSpace()
    ensures Cleaned("  \" a \"  ") == " a "
  {
    var s := "  \" a \"  ";
    DropLeadingAt(s, 2);
    TrimmedRange(s, 2, 7);
    assert s[2..7] == [('"')] + " a " + [('"')];
    UnquotedWrapped(" a ", '"', '"');
  }

  /** A double-quoted path with whitespace around the quotes comes back as
      the bare path, whatever the path holds. */
  lemma CleanQuotedPath(path: string, before: string, after: string)
    requires AllSpace(before) && AllSpace(after)
    ensures Cleaned(before + "\"" + path + "\"" + after) == path
  {
    var q := [('"')] + path + [('"')];
    assert "\"" + path + "\"" == q;
    var s := before + q + after;
    assert before + "\"" + path + "\"" + after == s;
    var lo, hi := |before|, |before| + |q|;
    assert forall i :: 0 <= i < lo ==> s[i] == before[i];
    assert forall i :: hi <= i < |s| ==> s[i] == after[i - hi];
    assert s[lo] == '"' && s[hi - 1] == '"';
    DropLeadingAt(s, lo);
    TrimmedRange(s, lo, hi);
    assert s[lo..hi] == q;
    UnquotedWrapped(path, '"', '"');
  }

  /** clean as the code composes it. */
  method Clean(str: string) returns (r: string)
    ensures r == Cleaned(str)
  {
    var t := Trim(str);
    r := RemoveQuotes(t);
  }
}
