/** The one-line rendering of a command that the jobs log (getCommandString):
    the program name, then each argument after a single space, wrapped in double
    quotes when it contains a space (and, for the thumbnail job, an apostrophe). */
module CommandText {
  import opened Text

  /** Whether an argument is shown between double quotes. */
  predicate NeedsQuotes(arg: string, quoteApostrophe: bool) {
    ' ' in arg || (quoteApostrophe && '\'' in arg)
  }

  function Shown(arg: string, quoteApostrophe: bool): string {
    if NeedsQuotes(arg, quoteApostrophe) then "\"" + arg + "\"" else arg
  }

  /** The rendering of program followed by args. */
  function Display(program: string, args: seq<string>, quoteApostrophe: bool): string {
    if args == [] then program
    else Display(program, args[..|args| - 1], quoteApostrophe) + " " + Shown(args[|args| - 1], quoteApostrophe)
  }

  /** Builds the rendering token by token, as the jobs' logging loops do. */
  method RenderCommand(program: string, args: seq<string>, quoteApostrophe: bool) returns (cmd: string)
    ensures cmd == Display(program, args, quoteApostrophe)
  {
    cmd := program;
    var i := 0;
    while i < |args|
      invariant i <= |args|
      invariant cmd == Display(program, args[..i], quoteApostrophe)
    {
      cmd := cmd + " ";
      if NeedsQuotes(args[i], quoteApostrophe) {
        cmd := cmd + ("\"" + args[i] + "\"");
      } else {
        cmd := cmd + args[i];
      }
      assert args[..i + 1][..i] == args[..i];
      i := i + 1;
    }
    assert args[..i] == args;
  }

  /** Splits a line at every space. */
  function SplitOnSpaces(s: string): (parts: seq<string>)
    ensures 0 < |parts|
  {
    match LastIndexOf(s, ' ')
    case None => [s]
    case Some(k) => SplitOnSpaces(s[..k]) + [s[k + 1..]]
  }

  /** For arguments that hold no space, the rendering is a faithful record of
      the command: splitting it at spaces gives back the program and its
      arguments exactly. */
  lemma {:induction false} DisplaySplits(program: string, args: seq<string>, quoteApostrophe: bool)
    requires ' ' !in program
    requires forall i :: 0 <= i < |args| ==> ' ' !in args[i] && !NeedsQuotes(args[i], quoteApostrophe)
    ensures SplitOnSpaces(Display(program, args, quoteApostrophe)) == [program] + args
  {
    if args != [] {
      var init := args[..|args| - 1];
      var last := args[|args| - 1];
      DisplayPlainLast(program, args, quoteApostrophe);
      SplitAtLastSpace(Display(program, init, quoteApostrophe), last);
      DisplaySplits(program, init, quoteApostrophe);
      assert [program] + init + [last] == [program] + args;
    }
  }

  /** A last argument shown without quotes follows its space as it is. */
  lemma DisplayPlainLast(program: string, args: seq<string>, quoteApostrophe: bool)
    requires args != [] && !NeedsQuotes(args[|args| - 1], quoteApostrophe)
    ensures Display(program, args, quoteApostrophe)
      == Display(program, args[..|args| - 1], quoteApostrophe) + [' '] + args[|args| - 1]
  {
  }

  /** A space followed by a space-free token splits off exactly that token. */
  lemma SplitAtLastSpace(d: string, last: string)
    requires ' ' !in last
    ensures SplitOnSpaces(d + [' '] + last) == SplitOnSpaces(d) + [last]
  {
    var s := d + [' '] + last;
    assert s[|d|] == ' ';
    forall i | |d| < i < |s|
      ensures s[i] != ' '
    {
      assert s[i] == last[i - |d| - 1];
    }
    LastIndexOfAt(s, ' ', |d|);
    assert s[..|d|] == d && s[|d| + 1..] == last;
  }

  /** The total length of the arguments. */
  function ArgsLength(args: seq<string>): nat {
    if args == [] then 0 else ArgsLength(args[..|args| - 1]) + |args[|args| - 1]|
  }

  /** How many arguments are shown between quotes. */
  function QuotedArgs(args: seq<string>, quoteApostrophe: bool): nat {
    if args == [] then 0
    else
      var last := if NeedsQuotes(args[|args| - 1], quoteApostrophe) then 1 else 0;
      QuotedArgs(args[..|args| - 1], quoteApostrophe) + last
  }

  /** The rendering is exactly the program name, one space per argument, the
      arguments themselves and two quote marks per quoted argument: nothing is
      dropped or added. */
  lemma {:induction false} DisplayLength(program: string, args: seq<string>, quoteApostrophe: bool)
    ensures |Display(program, args, quoteApostrophe)|
      == |program| + |args| + ArgsLength(args) + 2 * QuotedArgs(args, quoteApostrophe)
  {
    if args != [] {
      DisplayLength(program, args[..|args| - 1], quoteApostrophe);
    }
  }
}
