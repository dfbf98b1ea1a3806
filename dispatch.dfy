/**
 * runSSH (cmd/ssh.go): choose the mode from the arguments, run it, and turn
 * the error it hands back into the report and the exit status of the
 * process.
 */
module Dispatch {
  import opened Results
  import opened Strings
  import opened Ec2
  import opened Errors
  import opened Filters
  import opened Candidates
  import opened Session
  import opened InstanceSearch
  import opened RoleSearch

  /** What the arguments ask for. Role mode is RoleProfile with an empty profile. */
  datatype Mode =
    | InstanceId(instanceId: string)
    | RoleProfile(env: string, role: string, profile: string)
    | InvalidArgs

  /**
   * The branches of runSSH, tried in order: one argument starting with
   * "i-" is an instance id; two are an environment and a role; three add
   * a profile; anything else is an invalid command.
   */
  function ParseArgs(args: seq<string>): (mode: Mode)
    ensures mode.InstanceId? <==> |args| == 1 && HasPrefix(args[0], "i-")
    ensures mode.InstanceId? ==> mode.instanceId == args[0]
    ensures mode.RoleProfile? <==> |args| == 2 || |args| == 3
    ensures mode.RoleProfile? ==> mode.env == args[0] && mode.role == args[1]
    ensures mode.RoleProfile? ==> (mode.profile == "" <==> |args| == 2 || args[2] == "")
    ensures |args| == 3 ==> mode == RoleProfile(args[0], args[1], args[2])
    ensures mode.InvalidArgs? <==> !(|args| == 1 && HasPrefix(args[0], "i-")) && |args| != 2 && |args| != 3
  {
    if |args| == 1 && HasPrefix(args[0], "i-") then InstanceId(args[0])
    else if |args| == 2 then RoleProfile(args[0], args[1], "")
    else if |args| == 3 then RoleProfile(args[0], args[1], args[2])
    else InvalidArgs
  }

  /** Every example invocation of the usage text selects the mode it illustrates. */
  lemma ExamplesAreAccepted()
    ensures ParseArgs(UsageExamples[0]) == InstanceId("i-036e822ed4ec8c585")
    ensures ParseArgs(UsageExamples[1]) == RoleProfile("dev", "gaf_appserver", "")
    ensures ParseArgs(UsageExamples[2]) == RoleProfile("dev", "gaf_appserver", "php72")
    ensures forall k :: 0 <= k < |UsageExamples| ==> !ParseArgs(UsageExamples[k]).InvalidArgs?
  {
    assert "i-" <= UsageExamples[0][0];
  }

  /**
   * The exit status: none when the mode returns nil, 1 for an invalid
   * command, 255 for any other error, and 2, the Go runtime's status, after
   * a panic.
   */
  function ExitCode(err: Option<Error>): (code: Option<int>)
    ensures code.None? <==> err.None?
    ensures code == Some(1) <==> err.Some? && err.value.InvalidCommand?
    ensures code == Some(255) <==> err.Some? && err.value.Failure?
    ensures code == Some(2) <==> err.Some? && err.value.IndexOutOfRange?
  {
    match err
    case None => None
    case Some(InvalidCommand(_)) => Some(1)
    case Some(Failure(_)) => Some(255)
    case Some(IndexOutOfRange(_, _)) => Some(2)
  }

  /**
   * What the process prints for an error: the message then the usage text
   * for an invalid command; "Error: ", the separating space Println adds,
   * and the message for any other error; the runtime's "panic: " line for
   * a panic.
   */
  function Report(err: Error): (out: string)
    ensures !err.IndexOutOfRange? ==> HasPrefix(out, "Error: ")
    ensures err.IndexOutOfRange? ==> HasPrefix(out, "panic: ")
    ensures Contains(out, err.Text())
    ensures err.InvalidCommand? ==> Contains(out, err.cause.help)
    ensures |out| > 0 && out[|out| - 1] == '\n'
  {
    match err
    case InvalidCommand(cause) =>
      var out := "Error: " + cause.Error() + "\n" + cause.help + "\n";
      ContainsAt("Error: ", cause.Error(), "\n" + cause.help + "\n");
      assert "Error: " + cause.Error() + ("\n" + cause.help + "\n") == out;
      ContainsAt("Error: " + cause.Error() + "\n", cause.help, "\n");
      out
    case Failure(message) =>
      var out := "Error: " + " " + message + "\n";
      ContainsAt("Error: " + " ", message, "\n");
      out
    case IndexOutOfRange(_, _) =>
      var out := "panic: " + err.Text() + "\n";
      ContainsAt("panic: ", err.Text(), "\n");
      out
  }

  /**
   * runSSH: the error the chosen mode ends with, the exit status and the
   * text printed for it, and the effects of the run. With `corrected`
   * false this is the source as written; with `corrected` true, instance-id
   * mode returns after a session that ends well and the picker lists one
   * row per candidate.
   */
  method RunSsh(args: seq<string>, cloud: Cloud, term: Terminal, humanize: int -> string, align: Aligner,
                corrected: bool)
    returns (err: Option<Error>, exit: Option<int>, output: string, trace: seq<Event>)
    requires KeepsLines(align)
    requires ParseArgs(args).InstanceId? ==> MatchesHaveAddress(cloud, GetInstanceIdFilters(args[0]))
    ensures exit == ExitCode(err)
    ensures output == if err.Some? then Report(err.value) else ""
    ensures exit == Some(1) <==> ParseArgs(args).InvalidArgs?
    ensures ParseArgs(args).InvalidArgs? ==> err == Some(InvalidCommand(NewInvalidCommandError())) && trace == []
    ensures ParseArgs(args).InstanceId? ==>
      Run(err, trace) == Scan(EnvsToSearch, GetInstanceIdFilters(args[0]), cloud, term.ssh, corrected)
    ensures ParseArgs(args).InstanceId? && !corrected ==> exit == Some(255)
    ensures ParseArgs(args).RoleProfile? ==>
      Run(err, trace) == RoleRun(args[0], args[1], ParseArgs(args).profile, cloud, term, humanize, align, corrected)
    ensures corrected && PicksListedItem(term) ==> exit != Some(2)
  {
    var mode := ParseArgs(args);
    match mode {
      case InstanceId(instanceId) =>
        var filters := GetInstanceIdFilters(instanceId);
        if corrected {
          err, trace := SshByInstanceId(instanceId, cloud, term.ssh);
        } else {
          err, trace := SshByInstanceIdAsWritten(instanceId, cloud, term.ssh);
        }
        ScanFailsPlainly(EnvsToSearch, filters, cloud, term.ssh, corrected);
      case RoleProfile(env, role, profile) =>
        if |args| == 2 {
          err, trace := SshByRole(env, role, cloud, term, humanize, align, corrected);
        } else {
          err, trace := SshByRoleProfile(env, role, profile, cloud, term, humanize, align, corrected);
        }
        RoleErrorsAreFailuresOrPanics(env, role, profile, cloud, term, humanize, align, corrected);
        if corrected && PicksListedItem(term) {
          CorrectedNeverPanics(env, role, profile, cloud, term, humanize, align);
        }
      case InvalidArgs =>
        err := Some(InvalidCommand(NewInvalidCommandError()));
        trace := [];
    }
    exit := ExitCode(err);
    output := if err.Some? then Report(err.value) else "";
  }
}
