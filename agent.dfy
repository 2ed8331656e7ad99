/** The boundary to the external `goose` agent: how one run of it looks from
    the bridge, the argument vectors the bridge passes to it, and the
    clock readings the bridge takes. */
module Agent {
  import opened Wrappers

  /** One run of the agent as the bridge observes it.
      `Finished`: the process ran to exit; `stdout` holds the lines iteration
      over its standard output produced, in emission order.
      `StderrUnreadable`: the process ran to a non-zero exit, and reading
      its error output then raised (for instance a decoding error); `error`
      is the exception's text.
      `Raised`: spawning, or reading the output, raised an exception after
      `stdout` had been read (`stdout` is empty when spawning failed, for
      instance because the binary is not installed); `error` is its text. */
  datatype AgentRun =
    | Finished(stdout: seq<string>, exitCode: int, stderr: string)
    | StderrUnreadable(stdout: seq<string>, error: string)
    | Raised(stdout: seq<string>, error: string)

  /** Whether the blocking `goose session start` call returned or raised
      (a timeout, a missing binary, ...). Its exit code is never looked at. */
  datatype InitOutcome = Started | InitFailed(error: string)

  /** One reading of the clock, in the three renderings the front-ends use:
      `clock` is `%H:%M:%S`, `stamp` is `%Y%m%d_%H%M%S`, `iso` is ISO 8601.
      The readings are opaque inputs to the model. */
  datatype Instant = Instant(clock: string, stamp: string, iso: string)

  const Program: string := "goose"

  /** The three shapes in which the bridge invokes the agent. */
  datatype Invocation =
    | Start(name: string)                    // goose session start -n <name>
    | Resume(name: string, prompt: string)   // goose session resume -n <name> -t <prompt>
    | OneShot(prompt: string)                // goose run -t <prompt>

  /** The argument vector handed to the process runner for an invocation. */
  function Argv(inv: Invocation): (argv: seq<string>)
    ensures |argv| >= 4 && argv[0] == Program
  {
    match inv
    case Start(name) => [Program, "session", "start", "-n", name]
    case Resume(name, prompt) => [Program, "session", "resume", "-n", name, "-t", prompt]
    case OneShot(prompt) => [Program, "run", "-t", prompt]
  }

  /** Reads an argument vector back as an invocation, by position. */
  function Parse(argv: seq<string>): Option<Invocation> {
    if |argv| == 5 && argv[..4] == [Program, "session", "start", "-n"] then
      Some(Start(argv[4]))
    else if |argv| == 7 && argv[..4] == [Program, "session", "resume", "-n"] && argv[5] == "-t" then
      Some(Resume(argv[4], argv[6]))
    else if |argv| == 4 && argv[..3] == [Program, "run", "-t"] then
      Some(OneShot(argv[3]))
    else None
  }

  /** Every invocation reads back from its argument vector, whatever its name
      and prompt are; so distinct invocations never share an argument vector. */
  lemma ParseArgv(inv: Invocation)
    ensures Parse(Argv(inv)) == Some(inv)
  {
    var a := Argv(inv);
    match inv
    case Start(_) => assert a[..4] == [Program, "session", "start", "-n"];
    case Resume(_, _) => assert a[..4] == [Program, "session", "resume", "-n"];
    case OneShot(_) => assert a[..3] == [Program, "run", "-t"];
  }

  lemma ArgvInjective(a: Invocation, b: Invocation)
    requires Argv(a) == Argv(b)
    ensures a == b
  {
    ParseArgv(a);
    ParseArgv(b);
  }

  /** A session name as both front-ends default it: `name` when it is given
      and truthy (present and not ""), otherwise the time-derived fallback. */
  function NameOr(name: Option<string>, fallback: string): (r: string)
    ensures name.Some? && name.value != "" ==> r == name.value
    ensures name.None? || name.value == "" ==> r == fallback
  {
    if name.Some? && name.value != "" then name.value else fallback
  }
}
