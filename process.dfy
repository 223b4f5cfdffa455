/** What a job asks of the outside world, recorded as a trace of actions, and the
    growable argument vector (std::vector<std::string>) the builders fill. */
module Process {

  /** One side effect of a job, in the order it is requested. */
  datatype Action =
    | MakeDirectories(path: string)               // std::filesystem::create_directories
    | RunProgram(program: string, args: seq<string>)  // ffmpegProcess::execute(program, args)
    | RunShell(command: string)                   // std::system(command)
    | CopyFile(source: string, target: string)    // copy_file with overwrite_existing
    | RemoveAll(path: string)                     // std::filesystem::remove_all

  /** Appending sections one after another appends their concatenation. */
  lemma AppendThree<T>(s: seq<T>, a: seq<T>, b: seq<T>, c: seq<T>)
    ensures s + (a + b + c) == s + a + b + c
  {
  }

  lemma AppendFive<T>(s: seq<T>, a: seq<T>, b: seq<T>, c: seq<T>, d: seq<T>, e: seq<T>)
    ensures s + (a + b + c + d + e) == s + a + b + c + d + e
  {
  }

  /** An argument list that the command builders append to in place. */
  class ArgVector {
    var items: seq<string>

    constructor ()
      ensures items == []
    {
      items := [];
    }

    method PushBack(arg: string)
      modifies this
      ensures items == old(items) + [arg]
    {
      items := items + [arg];
    }

    /** Two consecutive push_back calls: an option followed by its value. */
    method PushPair(option: string, value: string)
      modifies this
      ensures items == old(items) + [option, value]
    {
      PushBack(option);
      PushBack(value);
    }
  }
}
