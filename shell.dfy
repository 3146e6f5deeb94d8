/** The abstract host that build.py talks to through `subprocess`: what a shell
    command answers, and how the script's run ends. */
module Shell {

  datatype Option<T> = None | Some(value: T)

  /** The exit status a shell command returns when it is issued after the
      commands in the history (the host may answer the same command
      differently later in the run). */
  type Oracle = (seq<string>, string) -> int

  /** What a command prints on standard output (`subprocess.check_output`). */
  type Reader = (seq<string>, string) -> string

  /** Why the Python process died with an uncaught exception. */
  datatype Cause =
    | CalledProcessError(command: string)  // check_call/check_output outside any `except`
    | PathError(path: seq<string>)         // OSError raised by os.mkdir or shutil.copyfile
    | NotExecutable(program: string)       // no program of that name can be started

  /** How a step of the script ends: it returns to its caller, it calls
      `sys.exit(code)`, or an exception escapes to the interpreter. */
  datatype Status = Returned | Exited(code: int) | Crashed(cause: Cause)

  /** A step that only issues commands: the trace after it and how it ended. */
  datatype Run = Run(trace: seq<string>, status: Status)

  /** The process exit status the operator sees: 0 when the script runs to its
      end, the `sys.exit` argument, or 1 for an uncaught exception. */
  function ExitCode(s: Status): int
  {
    match s
    case Returned => 0
    case Exited(code) => code
    case Crashed(_) => 1
  }

  /** The statuses the script's own steps can end with. */
  predicate Fatal(s: Status)
  {
    s == Exited(1) || s.Crashed?
  }

  lemma ExitCodeOfStep(s: Status)
    requires s == Returned || Fatal(s)
    ensures ExitCode(s) == 0 <==> s == Returned
    ensures ExitCode(s) == 0 || ExitCode(s) == 1
  {
  }
}
