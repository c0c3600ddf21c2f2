/**
 * The command line of chat-parser (main, lines 363-420): one input source, a
 * file name or "-" for standard input, and an optional "-o <file>" that tees the
 * raw stream to a capture file and is only allowed with "-".
 */
module Cli {
  import opened Wrappers

  /** What main goes on with: the input source and the capture file, "" for none. */
  datatype Config = Config(inputSource: string, outputFile: string)

  /** The ways main stops with the usage text or an error message and exit code 1. */
  datatype UsageError =
    | NoArguments
    | MissingOutputName
    | UnexpectedArgument(arg: string)
    | NoInputSource
    | OutputRequiresStdin

  /** The two variables the argument loop updates. */
  datatype Scan = Scan(input: string, output: string)

  const Initial := Scan("", "")

  /** The argument loop (lines 371-392) from the given state on the arguments
      still to be read: "-o" takes the next argument as the capture file, "-"
      selects standard input, and any other argument is the input file unless one
      was already set. */
  function ScanFrom(args: seq<string>, st: Scan): Result<Scan, UsageError>
    decreases |args|
  {
    if args == [] then Success(st)
    else if args[0] == "-o" then
      if |args| < 2 then Failure(MissingOutputName)
      else ScanFrom(args[2..], st.(output := args[1]))
    else if args[0] == "-" then ScanFrom(args[1..], st.(input := "-"))
    else if st.input == "" then ScanFrom(args[1..], st.(input := args[0]))
    else Failure(UnexpectedArgument(args[0]))
  }

  /** The outcome of main's argument handling (lines 366-420). */
  function ParseArgsSpec(args: seq<string>): Result<Config, UsageError> {
    if args == [] then Failure(NoArguments)
    else
      match ScanFrom(args, Initial)
      case Failure(e) => Failure(e)
      case Success(st) =>
        if st.input == "" then Failure(NoInputSource)
        else if st.output != "" && st.input != "-" then Failure(OutputRequiresStdin)
        else Success(Config(st.input, st.output))
  }

  /** main's argument loop with its index, which skips the file name after "-o". */
  method ParseArgs(args: seq<string>) returns (r: Result<Config, UsageError>)
    ensures r == ParseArgsSpec(args)
    ensures r.Success? ==> r.value.inputSource != "" && (r.value.outputFile != "" ==> r.value.inputSource == "-")
  {
    if |args| == 0 {
      return Failure(NoArguments);
    }
    var inputSource, outputFile := "", "";
    var i := 0;
    while i < |args|
      invariant 0 <= i <= |args|
      invariant ScanFrom(args, Initial) == ScanFrom(args[i..], Scan(inputSource, outputFile))
    {
      var arg := args[i];
      if arg == "-o" {
        if i + 1 >= |args| {
          return Failure(MissingOutputName);
        }
        outputFile := args[i + 1];
        assert args[i..][2..] == args[i + 2..];
        i := i + 1;
      } else if arg == "-" {
        inputSource := "-";
        assert args[i..][1..] == args[i + 1..];
      } else if inputSource == "" {
        inputSource := arg;
        assert args[i..][1..] == args[i + 1..];
      } else {
        return Failure(UnexpectedArgument(arg));
      }
      i := i + 1;
    }
    if inputSource == "" {
      return Failure(NoInputSource);
    }
    if outputFile != "" && inputSource != "-" {
      return Failure(OutputRequiresStdin);
    }
    return Success(Config(inputSource, outputFile));
  }

  // ---------------------------------------------------------------------------
  // Properties

  /** A scan that reads all of p without error resumes on what follows p from the
      state it reached. */
  lemma {:induction false} ScanAppend(p: seq<string>, q: seq<string>, st: Scan)
    requires ScanFrom(p, st).Success?
    ensures ScanFrom(p + q, st) == ScanFrom(q, ScanFrom(p, st).value)
  {
    if p != [] {
      var pq := p + q;
      assert pq[0] == p[0];
      if p[0] == "-o" {
        assert pq[2..] == p[2..] + q;
        ScanAppend(p[2..], q, st.(output := p[1]));
      } else if p[0] == "-" {
        assert pq[1..] == p[1..] + q;
        ScanAppend(p[1..], q, st.(input := "-"));
      } else {
        assert pq[1..] == p[1..] + q;
        ScanAppend(p[1..], q, st.(input := p[0]));
      }
    } else {
      assert p + q == q;
    }
  }

  /** "-o" reached as a flag with nothing after it is an error. */
  lemma DanglingOutputFlag(p: seq<string>)
    requires ScanFrom(p, Initial).Success?
    ensures ParseArgsSpec(p + ["-o"]) == Failure(MissingOutputName)
  {
    ScanAppend(p, ["-o"], Initial);
  }

  /** An argument that is neither flag, read once the input file is set, is
      rejected by name. */
  lemma SecondPositional(p: seq<string>, arg: string)
    requires ScanFrom(p, Initial).Success? && ScanFrom(p, Initial).value.input != ""
    requires arg != "-o" && arg != "-"
    ensures ParseArgsSpec(p + [arg]) == Failure(UnexpectedArgument(arg))
  {
    ScanAppend(p, [arg], Initial);
  }

  /** A later "-" overrides an earlier input file: the arguments then select
      standard input, whatever file was named before. */
  lemma LaterStdinOverrides(p: seq<string>)
    requires ScanFrom(p, Initial).Success?
    ensures ParseArgsSpec(p + ["-"]) == Success(Config("-", ScanFrom(p, Initial).value.output))
  {
    ScanAppend(p, ["-"], Initial);
  }

  /** "-o name" with a non-empty name records the capture file, replacing any
      earlier one; main then accepts it only with standard input. */
  lemma OutputFlagRecorded(p: seq<string>, name: string)
    requires ScanFrom(p, Initial).Success? && name != ""
    ensures var input := ScanFrom(p, Initial).value.input;
      ParseArgsSpec(p + ["-o", name]) ==
        if input == "" then Failure(NoInputSource)
        else if input != "-" then Failure(OutputRequiresStdin)
        else Success(Config("-", name))
  {
    var tail: seq<string> := ["-o", name];
    ScanAppend(p, tail, Initial);
    assert tail[2..] == [];
  }

  /** "-o" with an empty name clears the capture file: main then treats the
      input like a run without -o, so a file input is accepted. */
  lemma EmptyOutputName(p: seq<string>)
    requires ScanFrom(p, Initial).Success?
    ensures var input := ScanFrom(p, Initial).value.input;
      ParseArgsSpec(p + ["-o", ""]) ==
        if input == "" then Failure(NoInputSource)
        else Success(Config(input, ""))
  {
    var tail: seq<string> := ["-o", ""];
    ScanAppend(p, tail, Initial);
    assert tail[2..] == [];
  }

  /** The input source and capture file a scan ends with are the ones it started
      with or arguments it read. */
  lemma {:induction false} ScanValuesFromArgs(args: seq<string>, st: Scan)
    requires ScanFrom(args, st).Success?
    ensures var end := ScanFrom(args, st).value;
      && (end.input == st.input || end.input in args)
      && (end.output == st.output || end.output in args)
  {
    if args != [] {
      if args[0] == "-o" {
        ScanValuesFromArgs(args[2..], st.(output := args[1]));
      } else if args[0] == "-" {
        ScanValuesFromArgs(args[1..], st.(input := "-"));
      } else {
        ScanValuesFromArgs(args[1..], st.(input := args[0]));
      }
    }
  }

  /** An accepted command line names its input source, and its capture file if
      any, among its arguments. */
  lemma AcceptedFromArgs(args: seq<string>)
    requires ParseArgsSpec(args).Success?
    ensures ParseArgsSpec(args).value.inputSource in args
    ensures ParseArgsSpec(args).value.outputFile != "" ==> ParseArgsSpec(args).value.outputFile in args
  {
    ScanValuesFromArgs(args, Initial);
  }
}
