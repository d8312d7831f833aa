/** The `run_command` tool the agent is given: the safety filter in front of the
    shell, and the reply built from what the shell printed. */
module CommandRunner {
  import opened PythonStrings
  import CommandGuard

  /** How `subprocess.run` with a 3-second timeout ends: the process finishes,
      leaving text on its two output streams; it overruns the timeout; or the call
      raises another exception, named by `error` (`OSError` when the shell cannot
      be started, `UnicodeDecodeError` when the output is not valid text). */
  datatype Completed = Finished(stderr: string, stdout: string) | Expired | Failed(error: string)

  /** What `run_command` gives back: a text reply, or an exception, which the tool
      does not catch and so passes on to its caller. */
  datatype Reply = Text(text: string) | TimeoutExpired | Raised(error: string)

  /** The exception for a command holding a NUL character, which cannot be passed
      to a process. */
  const EmbeddedNull: string := "ValueError: embedded null byte"

  /** The shell allowed commands are handed to. `respond(n, c)` is how the command
      `c` ends when it is the n-th command run (counting from 0), so the same
      command may behave differently at different times; `executed` records
      every command started so far, in order. */
  class Shell {
    const respond: (nat, string) -> Completed
    var executed: seq<string>

    constructor (respond: (nat, string) -> Completed)
      ensures this.respond == respond
      ensures executed == []
    {
      this.respond := respond;
      executed := [];
    }

    /** Runs `command` once, unchanged, and returns how it ended. A command holding
        a NUL character is refused before any process starts. */
    method Execute(command: string) returns (result: Completed)
      modifies this
      ensures '\0' in command ==> executed == old(executed) && result == Failed(EmbeddedNull)
      ensures '\0' !in command ==>
        executed == old(executed) + [command] && result == respond(|old(executed)|, command)
    {
      if '\0' in command {
        return Failed(EmbeddedNull);
      }
      result := respond(|executed|, command);
      executed := executed + [command];
    }
  }

  const RejectionPrefix: string := "you are not allowed to run `"

  /** The reply to a command the filter blocks. */
  function Rejection(command: string): string
  {
    RejectionPrefix + command + "`"
  }

  /** The command can be read back from its rejection, so two different commands
      are never rejected with the same words. */
  lemma RejectionNamesCommand(command: string)
    ensures var r := Rejection(command);
      |r| == |RejectionPrefix| + |command| + 1 && r[|RejectionPrefix|..|r| - 1] == command
  {
  }

  lemma RejectionInjective(a: string, b: string)
    ensures Rejection(a) == Rejection(b) ==> a == b
  {
    RejectionNamesCommand(a);
    RejectionNamesCommand(b);
  }

  /** The reply to a command that ran: stripped standard error, a line feed, stripped standard output. */
  function FormatOutput(stderr: string, stdout: string): (r: string)
    ensures '\n' in r
  {
    var e, o := Strip(stderr), Strip(stdout);
    SeparatorIn(e, o);
    e + "\n" + o
  }

  lemma SeparatorIn(e: string, o: string)
    ensures '\n' in e + "\n" + o
  {
    assert (e + "\n" + o)[|e|] == '\n';
  }

  /** Both halves of the reply are free of surrounding whitespace: padding either
      stream with whitespace does not change the reply. */
  lemma FormatOutputIgnoresPadding(stderr: string, stdout: string, p1: string, q1: string, p2: string, q2: string)
    requires AllSpace(p1) && AllSpace(q1) && AllSpace(p2) && AllSpace(q2)
    ensures FormatOutput(p1 + stderr + q1, p2 + stdout + q2) == FormatOutput(stderr, stdout)
  {
    StripIgnoresPadding(p1, stderr, q1);
    StripIgnoresPadding(p2, stdout, q2);
  }

  /** Stripping the streams beforehand changes nothing. */
  lemma FormatOutputOfStrippedStreams(stderr: string, stdout: string)
    ensures FormatOutput(Strip(stderr), Strip(stdout)) == FormatOutput(stderr, stdout)
  {
    StripIdempotent(stderr);
    StripIdempotent(stdout);
  }

  /** A command that prints only whitespace gets an empty line as its reply. */
  lemma SilentCommandReply(stderr: string, stdout: string)
    requires AllSpace(stderr) && AllSpace(stdout)
    ensures FormatOutput(stderr, stdout) == "\n"
  {
    AllSpaceStripsToEmpty(stderr);
    AllSpaceStripsToEmpty(stdout);
  }

  /** A rejection of a one-line command never looks like the reply of a command
      that ran, since that reply always holds a line feed. */
  lemma RejectionIsNoOutput(command: string, stderr: string, stdout: string)
    requires '\n' !in command
    ensures Rejection(command) != FormatOutput(stderr, stdout)
  {
    assert '\n' !in RejectionPrefix;
    assert '\n' !in Rejection(command);
  }

  /** The reply for a command the shell ran or refused: the formatted output, or
      the exception passed on unchanged. */
  function ReplyFor(result: Completed): Reply
  {
    match result
    case Finished(stderr, stdout) => Text(FormatOutput(stderr, stdout))
    case Expired => TimeoutExpired
    case Failed(error) => Raised(error)
  }

  /** `run_command`: a blocked command is answered with its rejection and never
      reaches the shell. A command holding a NUL character raises `ValueError` and
      starts nothing. Any other command is started exactly once, unchanged, and is
      answered with what it printed, or with the exception the run raised. */
  method RunCommand(shell: Shell, command: string) returns (reply: Reply)
    modifies shell
    ensures CommandGuard.Harmful(command) ==>
      reply == Text(Rejection(command)) && shell.executed == old(shell.executed)
    ensures !CommandGuard.Harmful(command) && '\0' in command ==>
      reply == Raised(EmbeddedNull) && shell.executed == old(shell.executed)
    ensures !CommandGuard.Harmful(command) && '\0' !in command ==>
      shell.executed == old(shell.executed) + [command] &&
      reply == ReplyFor(shell.respond(|old(shell.executed)|, command))
  {
    var harmful := CommandGuard.IsCommandHarmful(command);
    if harmful {
      return Text(Rejection(command));
    }
    var response := shell.Execute(command);
    reply := ReplyFor(response);
  }

  /** Only a finished command is answered with text, and that text always holds a
      line feed; an exception is passed on under its own name. */
  lemma ReplyForShowsOutcome(result: Completed)
    ensures ReplyFor(result).Text? <==> result.Finished?
    ensures ReplyFor(result).Text? ==> '\n' in ReplyFor(result).text
    ensures ReplyFor(result) == TimeoutExpired <==> result == Expired
    ensures result.Failed? ==> ReplyFor(result) == Raised(result.error)
  {
  }
}
