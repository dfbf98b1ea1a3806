/**
 * The error values runSSH branches on (cmd/errors.go): the invalid-command
 * error, which carries the usage text, and every other Go `error`, which
 * carries only its message; plus the runtime panic an out-of-range index
 * raises, which ends the process instead of being returned.
 */
module Errors {
  import opened Strings

  /** invalidCommandError: an unexported message and the usage text shown with it. */
  datatype InvalidCommandError = InvalidCommandError(message: string, help: string) {

    /** The text the `error` interface reports: the message alone, never the help. */
    function Error(): (text: string)
      ensures text == message
    {
      message
    }
  }

  /**
   * How a run of the core ends badly: an invalid command, a failure known by
   * its message, or a panic from indexing a slice of length `length` at
   * `index` (not an `error` value: the Go runtime ends the process).
   */
  datatype Error =
    | InvalidCommand(cause: InvalidCommandError)
    | Failure(message: string)
    | IndexOutOfRange(index: int, length: int)
  {
    function Text(): string {
      match this
      case InvalidCommand(cause) => cause.Error()
      case Failure(message) => message
      case IndexOutOfRange(index, length) =>
        "runtime error: index out of range [" + IntText(index) + "] with length " + IntText(length)
    }
  }

  /** errors.New("no instances found"), returned when no candidate exists. */
  const NotFound: Error := Failure("no instances found")

  /** The lines of the usage text. */
  const UsageLines: seq<string> := [
    "Usage:",
    "\tassh " + "instanceId",
    "\tassh " + "environment role [profile]",
    "",
    "For example:",
    "\tassh " + "i-036e822ed4ec8c585",
    "\tassh " + "dev gaf_appserver",
    "\tassh " + "dev gaf_appserver php72"
  ]

  const UsageText: string := Join(UsageLines, "\n")

  /** The two invocation forms the usage text names. */
  const UsageForms: seq<string> := ["instanceId", "environment role [profile]"]

  /** The arguments of the three example invocations the usage text lists, in order. */
  const UsageExamples: seq<seq<string>> :=
    [["i-036e822ed4ec8c585"], ["dev", "gaf_appserver"], ["dev", "gaf_appserver", "php72"]]

  function NewInvalidCommandError(): (err: InvalidCommandError)
    ensures err.Error() == "invalid command"
    ensures err.help == UsageText
    ensures HasPrefix(err.help, "Usage:")
  {
    JoinStartsWithFirst(UsageLines, "\n");
    InvalidCommandError("invalid command", UsageText)
  }

  /** Every line of the usage text is a line of it: the text holds it right after a newline. */
  lemma UsageHasLine(i: nat, line: string)
    requires 1 <= i < |UsageLines| && UsageLines[i] == line
    ensures ContainsLine(UsageText, line)
  {
    JoinContainsLine(UsageLines, "\n", i, line);
  }

  lemma FormLine(k: nat)
    requires k < |UsageForms|
    ensures UsageLines[1 + k] == "\tassh " + UsageForms[k]
  {
    if k == 0 {
      assert UsageLines[1] == "\tassh " + "instanceId";
    } else {
      assert UsageLines[2] == "\tassh " + "environment role [profile]";
    }
  }

  /** The usage text names both invocation forms, each on a line of its own. */
  lemma UsageListsForms(k: nat)
    requires k < |UsageForms|
    ensures ContainsLine(UsageText, "\tassh " + UsageForms[k])
  {
    FormLine(k);
    UsageHasLine(1 + k, "\tassh " + UsageForms[k]);
  }

  lemma InstanceExampleLine()
    ensures UsageLines[5] == "\tassh " + Join(UsageExamples[0], " ")
  {
    assert Join(UsageExamples[0], " ") == "i-036e822ed4ec8c585";
  }

  lemma RoleExampleLine()
    ensures UsageLines[6] == "\tassh " + Join(UsageExamples[1], " ")
  {
    var args := UsageExamples[1];
    assert args[1..] == ["gaf_appserver"];
    assert Join(args, " ") == "dev gaf_appserver";
  }

  lemma ProfileExampleLine()
    ensures UsageLines[7] == "\tassh " + Join(UsageExamples[2], " ")
  {
    var args := UsageExamples[2];
    assert args[1..][1..] == ["php72"];
    assert Join(args, " ") == "dev" + " " + ("gaf_appserver" + " " + "php72");
    assert "dev" + " " + ("gaf_appserver" + " " + "php72") == "dev gaf_appserver php72";
  }

  /** Line 5 + k of the usage text is `assh` followed by example k's arguments. */
  lemma ExampleLine(k: nat)
    requires k < |UsageExamples|
    ensures UsageLines[5 + k] == "\tassh " + Join(UsageExamples[k], " ")
  {
    if k == 0 {
      InstanceExampleLine();
    } else if k == 1 {
      RoleExampleLine();
    } else {
      ProfileExampleLine();
    }
  }

  /** Each example is an `assh` line of the usage text, in the order of UsageExamples. */
  lemma UsageListsExamples(k: nat)
    requires k < |UsageExamples|
    ensures ContainsLine(UsageText, "\tassh " + Join(UsageExamples[k], " "))
  {
    ExampleLine(k);
    UsageHasLine(5 + k, "\tassh " + Join(UsageExamples[k], " "));
  }
}
