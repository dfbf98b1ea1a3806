/**
 * What a run of the core does to the outside world, and the operator's
 * side of it: the picker (promptui.Select.Run) and the `ssh` child process
 * (exec.Command("ssh", address).Run()), both taken as given.
 */
module Session {
  import opened Results
  import opened Ec2
  import opened Errors

  /** One effect of a run, in the order it happens. */
  datatype Event =
    | Connect(env: string)                           // newEC2Client(env)
    | Describe(env: string, filters: seq<Filter>)    // DescribeInstances in that environment
    | Prompt(heading: string, items: seq<string>)    // the picker is shown
    | Ssh(address: string)                           // `ssh address` is started

  /** The outcome of a run: the error handed back to runSSH (None is nil) and its effects. */
  datatype Run = Run(err: Option<Error>, trace: seq<Event>)

  /** The operator's terminal: which item they choose (or how they abort) and how `ssh` ends. */
  datatype Terminal = Terminal(
    pick: (string, seq<string>) -> Result<int>,
    ssh: string -> Option<string>)

  /** The picker only ever returns the index of an item it was given. */
  ghost predicate PicksListedItem(term: Terminal) {
    forall heading, items :: term.pick(heading, items).Ok? ==> 0 <= term.pick(heading, items).value < |items|
  }

  /** The picker's answer to one prompt lies within the items shown. */
  lemma PickIsListed(term: Terminal, heading: string, items: seq<string>)
    requires PicksListedItem(term)
    ensures term.pick(heading, items).Ok? ==> 0 <= term.pick(heading, items).value < |items|
  {
  }

  predicate NeverPrompts(trace: seq<Event>) {
    forall k :: 0 <= k < |trace| ==> !trace[k].Prompt?
  }

  /** The events `before`, then the run `rest`. */
  function Then(before: seq<Event>, rest: Run): Run {
    Run(rest.err, before + rest.trace)
  }

  /** The environments connected to, in order. */
  function ConnectedEnvs(trace: seq<Event>): seq<string> {
    if trace == [] then []
    else (if trace[0].Connect? then [trace[0].env] else []) + ConnectedEnvs(trace[1..])
  }

  lemma {:induction false} ConnectedEnvsAppend(a: seq<Event>, b: seq<Event>)
    ensures ConnectedEnvs(a + b) == ConnectedEnvs(a) + ConnectedEnvs(b)
  {
    if a != [] {
      assert (a + b)[1..] == a[1..] + b;
      ConnectedEnvsAppend(a[1..], b);
    } else {
      assert a + b == b;
    }
  }
}
