// Concatenation of video files with mkvmerge's append syntax:
//   mkvmerge -o "out" "in1" + "in2" + ... + "inN"
// The command is one shell string; the exit status decides success.

module Concat {
  import opened Text
  import opened Paths
  import opened Process

  /** The input part as tokens: the first input, then "+" and each later input,
      every input quoted. */
  function InputTokens(inputs: seq<string>): seq<string>
    requires |inputs| >= 1
  {
    if |inputs| == 1 then [Quoted(inputs[0])]
    else InputTokens(inputs[..|inputs| - 1]) + ["+", Quoted(inputs[|inputs| - 1])]
  }

  /** The whole command line for a tool, an output and at least one input. */
  function ConcatCommand(tool: string, output: string, inputs: seq<string>): string
    requires |inputs| >= 1
  {
    tool + " -o " + Quoted(output) + " " + Spaced(InputTokens(inputs))
  }

  /** The inputs appear quoted, in their original order, at the even positions,
      with a "+" between each two: 2n-1 tokens for n inputs. */
  lemma {:induction false} InputTokensLayout(inputs: seq<string>)
    requires |inputs| >= 1
    ensures |InputTokens(inputs)| == 2 * |inputs| - 1
    ensures forall k :: 0 <= k < |inputs| ==> InputTokens(inputs)[2 * k] == Quoted(inputs[k])
    ensures forall k :: 0 <= k < |inputs| - 1 ==> InputTokens(inputs)[2 * k + 1] == "+"
  {
    if |inputs| > 1 {
      var init := inputs[..|inputs| - 1];
      InputTokensLayout(init);
      var t := InputTokens(inputs);
      assert t == InputTokens(init) + ["+", Quoted(inputs[|inputs| - 1])];
      forall k | 0 <= k < |inputs|
        ensures t[2 * k] == Quoted(inputs[k])
      {
        if k < |inputs| - 1 {
          assert inputs[k] == init[k];
        }
      }
    }
  }

  /** n inputs are joined by exactly n-1 separators. */
  lemma {:induction false} SeparatorCount(inputs: seq<string>)
    requires |inputs| >= 1
    ensures Count(InputTokens(inputs), "+") == |inputs| - 1
  {
    var q := Quoted(inputs[|inputs| - 1]);
    assert q[0] == '"';
    if |inputs| == 1 {
      assert InputTokens(inputs) == [q];
      CountAbsent([q], "+");
    } else {
      var init := inputs[..|inputs| - 1];
      SeparatorCount(init);
      CountAppend(InputTokens(init), ["+", q], "+");
      assert ["+", q][..1] == ["+"];
      CountAbsent(["+", q][..1][..0], "+");
    }
  }

  /** The tool path: the bundled mkvmerge when it exists under extern/env,
      otherwise the bare name looked up on the search path. */
  function MkvMergePath(externPath: string, bundledExists: bool): (p: string)
    ensures bundledExists ==> p == Join(Join(Join(externPath, "env"), "mkvtoolnix"), "mkvmerge.exe")
    ensures bundledExists ==> EndsWith(p, "mkvmerge.exe")
    ensures !bundledExists ==> p == "mkvmerge"
  {
    if bundledExists then Join(Join(Join(externPath, "env"), "mkvtoolnix"), "mkvmerge.exe")
    else "mkvmerge"
  }

  class ConcatJob {
    var inputs: seq<string>
    var output: string

    constructor (inputs: seq<string>, output: string)
      ensures this.inputs == inputs && this.output == output
    {
      this.inputs := inputs;
      this.output := output;
    }

    /** The command string, grown with += as in execute. */
    method BuildCommand(tool: string) returns (command: string)
      requires |inputs| >= 2
      ensures command == ConcatCommand(tool, output, inputs)
    {
      command := tool + " -o \"" + output + "\"";
      command := command + " \"" + inputs[0] + "\"";
      assert command == tool + " -o " + Quoted(output) + " " + Spaced(InputTokens(inputs[..1]));
      var i := 1;
      while i < |inputs|
        invariant 1 <= i <= |inputs|
        invariant command == tool + " -o " + Quoted(output) + " " + Spaced(InputTokens(inputs[..i]))
      {
        ghost var before := InputTokens(inputs[..i]);
        command := command + " + \"" + inputs[i] + "\"";
        assert inputs[..i + 1][..i] == inputs[..i];
        ghost var after := InputTokens(inputs[..i + 1]);
        assert after == before + ["+", Quoted(inputs[i])];
        assert after[..|after| - 1] == before + ["+"];
        assert (before + ["+"])[..|before|] == before;
        i := i + 1;
      }
      assert inputs[..i] == inputs;
    }

    /** execute: fewer than two inputs fail before any command is built;
        otherwise the command runs through the shell and succeeds iff its exit
        status is 0. */
    method Execute(externPath: string, bundledExists: bool, exitStatus: int)
      returns (ok: bool, actions: seq<Action>)
      ensures |inputs| < 2 ==> !ok && actions == []
      ensures |inputs| >= 2 ==>
        ok == (exitStatus == 0)
        && actions == [RunShell(ConcatCommand(MkvMergePath(externPath, bundledExists), output, inputs))]
    {
      if |inputs| < 2 {
        return false, [];
      }
      var tool := MkvMergePath(externPath, bundledExists);
      var command := BuildCommand(tool);
      actions := [RunShell(command)];
      ok := exitStatus == 0;
    }
  }

  class ConcatBuilder {
    var inputs: seq<string>
    var output: string

    constructor ()
      ensures inputs == [] && output == []
    {
      inputs := [];
      output := [];
    }

    method AddInput(input: string)
      modifies this
      ensures inputs == old(inputs) + [input] && output == old(output)
    {
      inputs := inputs + [input];
    }

    method Output(path: string)
      modifies this
      ensures output == path && inputs == old(inputs)
    {
      output := path;
    }

    /** build(): no validation; the input count is checked only by execute. */
    method Build() returns (job: ConcatJob)
      ensures fresh(job) && job.inputs == inputs && job.output == output
    {
      job := new ConcatJob(inputs, output);
    }
  }
}
