/**
 * Instance-id mode (cmd/ssh.go, sshByInstanceID): query each environment
 * of a fixed list in turn and open a session to the first instance of the
 * first reservation of every environment that has one.
 */
module InstanceSearch {
  import opened Results
  import opened Ec2
  import opened Errors
  import opened Filters
  import opened Session

  /** envsToSearch, in search order. */
  const EnvsToSearch: seq<string> := ["prod", "dev", "stg", "sandbox"]

  /** The instance taken from a query result: the first of the first reservation, if any. */
  function FirstInstance(res: Reservations): Option<Instance> {
    if |res| != 0 && |res[0]| != 0 then Some(res[0][0]) else None
  }

  /** The instance an environment's query yields, if the query succeeds and yields one. */
  function Match(cloud: Cloud, env: string, filters: seq<Filter>): Option<Instance> {
    var result := cloud.describe(env, filters);
    if result.Ok? then FirstInstance(result.value) else None
  }

  /** The source dereferences the matched instance's private address, so it must exist. */
  ghost predicate MatchesHaveAddress(cloud: Cloud, filters: seq<Filter>) {
    forall env :: Match(cloud, env, filters).Some? ==> Match(cloud, env, filters).value.privateIpAddress.Some?
  }

  /** What one environment contributes: the run ends there, or its events and the next environment. */
  datatype Step = Stop(run: Run) | Next(events: seq<Event>) {
    function Events(): seq<Event> {
      if Stop? then run.trace else events
    }
  }

  /**
   * One environment of the search. A client error, a query error or a
   * failed session stops it with that error. After a session that ends
   * well, the code as written goes on with the next environment
   * (`returnAfterSession` false); the intended search stops with nil
   * (`returnAfterSession` true).
   */
  function Probe(env: string, filters: seq<Filter>, cloud: Cloud, ssh: string -> Option<string>,
                 returnAfterSession: bool): (step: Step)
    requires MatchesHaveAddress(cloud, filters)
    ensures step.Stop? && step.run.err == None ==> returnAfterSession && Match(cloud, env, filters).Some?
  {
    var clientErr := cloud.connect(env);
    if clientErr.Some? then Stop(Run(Some(Failure(clientErr.value)), [Connect(env)]))
    else
      var result := cloud.describe(env, filters);
      var queried := [Connect(env), Describe(env, filters)];
      if result.Err? then Stop(Run(Some(Failure(result.message)), queried))
      else if FirstInstance(result.value).None? then Next(queried)
      else
        assert Match(cloud, env, filters).Some?;
        var address := FirstInstance(result.value).value.privateIpAddress.value;
        var session := queried + [Ssh(address)];
        var sshErr := ssh(address);
        if sshErr.Some? then Stop(Run(Some(Failure(sshErr.value)), session))
        else if returnAfterSession then Stop(Run(None, session))
        else Next(session)
  }

  /** The search over `envs`, in order; running out of environments gives "no instances found". */
  function Scan(envs: seq<string>, filters: seq<Filter>, cloud: Cloud, ssh: string -> Option<string>,
                returnAfterSession: bool): (run: Run)
    requires MatchesHaveAddress(cloud, filters)
    ensures run.err.None? ==> returnAfterSession
    decreases |envs|
  {
    if envs == [] then Run(Some(NotFound), [])
    else
      match Probe(envs[0], filters, cloud, ssh, returnAfterSession)
      case Stop(run) => run
      case Next(events) => Then(events, Scan(envs[1..], filters, cloud, ssh, returnAfterSession))
  }

  /** The search from position i: the environment there, then the search from i + 1 if it hands on. */
  lemma ScanStep(envs: seq<string>, i: nat, filters: seq<Filter>, cloud: Cloud, ssh: string -> Option<string>,
                 returnAfterSession: bool)
    requires MatchesHaveAddress(cloud, filters)
    requires i < |envs|
    ensures Scan(envs[i..], filters, cloud, ssh, returnAfterSession) ==
      match Probe(envs[i], filters, cloud, ssh, returnAfterSession)
      case Stop(run) => run
      case Next(events) => Then(events, Scan(envs[i + 1..], filters, cloud, ssh, returnAfterSession))
  {
    assert envs[i..][0] == envs[i] && envs[i..][1..] == envs[i + 1..];
  }

  /** Events handed on one after the other add up. */
  lemma ThenThen(before: seq<Event>, events: seq<Event>, rest: Run)
    ensures Then(before, Then(events, rest)) == Then(before + events, rest)
  {
    assert before + (events + rest.trace) == (before + events) + rest.trace;
  }

  /**
   * The body of sshByInstanceID's loop for one environment: connect, query,
   * and `ssh` to the first instance of the first reservation if there is
   * one. `done` says the function returns here with `err`; `events` are the
   * effects either way. `Probe` is its reference: the same pass as a value,
   * which `Scan` and the lemmas below reason about.
   */
  method Visit(env: string, filters: seq<Filter>, cloud: Cloud, ssh: string -> Option<string>,
               returnAfterSession: bool)
    returns (done: bool, err: Option<Error>, events: seq<Event>)
    requires MatchesHaveAddress(cloud, filters)
    ensures done ==> Probe(env, filters, cloud, ssh, returnAfterSession) == Stop(Run(err, events))
    ensures !done ==> Probe(env, filters, cloud, ssh, returnAfterSession) == Next(events)
  {
    done, err := true, None;
    events := [Connect(env)];
    var clientErr := cloud.connect(env);
    if clientErr.Some? {
      err := Some(Failure(clientErr.value));
      return;
    }
    events := events + [Describe(env, filters)];
    var result := cloud.describe(env, filters);
    if result.Err? {
      err := Some(Failure(result.message));
      return;
    }
    var reservations := result.value;
    if |reservations| != 0 && |reservations[0]| != 0 {
      var instance := reservations[0][0];
      assert Match(cloud, env, filters) == Some(instance);
      var privateIP := instance.privateIpAddress.value;
      events := events + [Ssh(privateIP)];
      var sshErr := ssh(privateIP);
      if sshErr.Some? {
        err := Some(Failure(sshErr.value));
        return;
      }
      if returnAfterSession {
        return;
      }
    }
    done := false;
  }

  /**
   * The loop over envsToSearch: each environment in turn, ending early when
   * one ends the function, else with "no instances found".
   */
  method SearchEnvs(filters: seq<Filter>, cloud: Cloud, ssh: string -> Option<string>, returnAfterSession: bool)
    returns (err: Option<Error>, trace: seq<Event>)
    requires MatchesHaveAddress(cloud, filters)
    ensures Run(err, trace) == Scan(EnvsToSearch, filters, cloud, ssh, returnAfterSession)
  {
    trace := [];
    ghost var whole := Scan(EnvsToSearch, filters, cloud, ssh, returnAfterSession);
    assert EnvsToSearch[0..] == EnvsToSearch;
    for i := 0 to |EnvsToSearch|
      invariant Then(trace, Scan(EnvsToSearch[i..], filters, cloud, ssh, returnAfterSession)) == whole
    {
      var env := EnvsToSearch[i];
      ScanStep(EnvsToSearch, i, filters, cloud, ssh, returnAfterSession);
      var done, stepErr, events := Visit(env, filters, cloud, ssh, returnAfterSession);
      ThenThen(trace, events, Scan(EnvsToSearch[i + 1..], filters, cloud, ssh, returnAfterSession));
      trace := trace + events;
      if done {
        err := stepErr;
        return;
      }
    }
    err := Some(NotFound);
  }

  /** sshByInstanceID as written: a session that ends well does not end the search. */
  method SshByInstanceIdAsWritten(instanceId: string, cloud: Cloud, ssh: string -> Option<string>)
    returns (err: Option<Error>, trace: seq<Event>)
    requires MatchesHaveAddress(cloud, GetInstanceIdFilters(instanceId))
    ensures Run(err, trace) == Scan(EnvsToSearch, GetInstanceIdFilters(instanceId), cloud, ssh, false)
  {
    err, trace := SearchEnvs(GetInstanceIdFilters(instanceId), cloud, ssh, false);
  }

  /** sshByInstanceID as intended: the search ends with nil once a session ends well. */
  method SshByInstanceId(instanceId: string, cloud: Cloud, ssh: string -> Option<string>)
    returns (err: Option<Error>, trace: seq<Event>)
    requires MatchesHaveAddress(cloud, GetInstanceIdFilters(instanceId))
    ensures Run(err, trace) == Scan(EnvsToSearch, GetInstanceIdFilters(instanceId), cloud, ssh, true)
  {
    err, trace := SearchEnvs(GetInstanceIdFilters(instanceId), cloud, ssh, true);
  }

  /** The environment answers its query without error and yields no instance. */
  predicate Quiet(cloud: Cloud, env: string, filters: seq<Filter>) {
    cloud.connect(env).None? && cloud.describe(env, filters).Ok? && Match(cloud, env, filters).None?
  }

  /** The environment yields an instance with an address, and `ssh` to it ends well. */
  predicate Answers(cloud: Cloud, env: string, filters: seq<Filter>, ssh: string -> Option<string>) {
    && cloud.connect(env).None? && cloud.describe(env, filters).Ok?
    && Match(cloud, env, filters).Some?
    && Match(cloud, env, filters).value.privateIpAddress.Some?
    && ssh(Match(cloud, env, filters).value.privateIpAddress.value).None?
  }

  /** The events of one environment: it is connected to first, and only it; the picker is never shown. */
  lemma ProbeEvents(env: string, filters: seq<Filter>, cloud: Cloud, ssh: string -> Option<string>,
                    returnAfterSession: bool)
    requires MatchesHaveAddress(cloud, filters)
    ensures ConnectedEnvs(Probe(env, filters, cloud, ssh, returnAfterSession).Events()) == [env]
    ensures NeverPrompts(Probe(env, filters, cloud, ssh, returnAfterSession).Events())
  {
    var events := Probe(env, filters, cloud, ssh, returnAfterSession).Events();
    var later := events[1..];
    assert events == [Connect(env)] + later;
    assert forall k :: 0 <= k < |later| ==> later[k].Describe? || later[k].Ssh?;
    NoConnects(later);
  }

  lemma {:induction false} NoConnects(trace: seq<Event>)
    requires forall k :: 0 <= k < |trace| ==> !trace[k].Connect?
    ensures ConnectedEnvs(trace) == []
  {
    if trace != [] {
      NoConnects(trace[1..]);
    }
  }

  /** Every error of the search is a plain failure, never the invalid-command error. */
  lemma {:induction false} ScanFailsPlainly(envs: seq<string>, filters: seq<Filter>, cloud: Cloud,
                                            ssh: string -> Option<string>, returnAfterSession: bool)
    requires MatchesHaveAddress(cloud, filters)
    ensures var run := Scan(envs, filters, cloud, ssh, returnAfterSession);
      run.err.Some? ==> run.err.value.Failure?
    decreases |envs|
  {
    if envs != [] {
      ScanFailsPlainly(envs[1..], filters, cloud, ssh, returnAfterSession);
    }
  }

  /** The search never shows the picker: instance-id mode selects without asking. */
  lemma {:induction false} ScanNeverPrompts(envs: seq<string>, filters: seq<Filter>, cloud: Cloud,
                                            ssh: string -> Option<string>, returnAfterSession: bool)
    requires MatchesHaveAddress(cloud, filters)
    ensures NeverPrompts(Scan(envs, filters, cloud, ssh, returnAfterSession).trace)
    decreases |envs|
  {
    if envs != [] {
      var step := Probe(envs[0], filters, cloud, ssh, returnAfterSession);
      ProbeEvents(envs[0], filters, cloud, ssh, returnAfterSession);
      ScanNeverPrompts(envs[1..], filters, cloud, ssh, returnAfterSession);
      if step.Next? {
        var rest := Scan(envs[1..], filters, cloud, ssh, returnAfterSession).trace;
        var trace := step.events + rest;
        forall k | 0 <= k < |trace|
          ensures !trace[k].Prompt?
        {
          if k >= |step.events| {
            assert trace[k] == rest[k - |step.events|];
          } else {
            assert trace[k] == step.Events()[k];
          }
        }
      }
    }
  }

  /** Environments are connected to one at a time, in list order, each at most once. */
  lemma {:induction false} ScanFollowsEnvOrder(envs: seq<string>, filters: seq<Filter>, cloud: Cloud,
                                               ssh: string -> Option<string>, returnAfterSession: bool)
    requires MatchesHaveAddress(cloud, filters)
    ensures ConnectedEnvs(Scan(envs, filters, cloud, ssh, returnAfterSession).trace) <= envs
    decreases |envs|
  {
    if envs != [] {
      var env := envs[0];
      var step := Probe(env, filters, cloud, ssh, returnAfterSession);
      ProbeEvents(env, filters, cloud, ssh, returnAfterSession);
      ScanFollowsEnvOrder(envs[1..], filters, cloud, ssh, returnAfterSession);
      if step.Next? {
        var rest := Scan(envs[1..], filters, cloud, ssh, returnAfterSession);
        ConnectedEnvsAppend(step.events, rest.trace);
        assert envs == [env] + envs[1..];
      }
    }
  }

  /** The first k + 1 environments are the first one followed by the next k. */
  lemma PrefixAfterFirst(envs: seq<string>, k: nat)
    requires k < |envs|
    ensures envs[..k + 1] == [envs[0]] + envs[1..][..k]
  {
  }

  /** A quiet environment hands on its connect and query events and nothing else. */
  lemma QuietPasses(env: string, filters: seq<Filter>, cloud: Cloud, ssh: string -> Option<string>,
                    returnAfterSession: bool)
    requires MatchesHaveAddress(cloud, filters)
    requires Quiet(cloud, env, filters)
    ensures Probe(env, filters, cloud, ssh, returnAfterSession) == Next([Connect(env), Describe(env, filters)])
  {}

  /** An environment that answers ends the intended search with nil, its session the last event. */
  lemma AnswerStops(env: string, filters: seq<Filter>, cloud: Cloud, ssh: string -> Option<string>)
    requires MatchesHaveAddress(cloud, filters)
    requires Answers(cloud, env, filters, ssh)
    ensures Probe(env, filters, cloud, ssh, true)
      == Stop(Run(None, [Connect(env), Describe(env, filters), Ssh(Match(cloud, env, filters).value.privateIpAddress.value)]))
  {}

  /**
   * As intended: when the environments before `k` yield nothing and
   * environment `k` yields an instance whose session ends well, the search
   * returns nil right there, having connected to `envs[..k + 1]` only and
   * opened its one session to that instance.
   */
  lemma {:induction false} StopsAtFirstMatch(envs: seq<string>, filters: seq<Filter>, cloud: Cloud,
                                             ssh: string -> Option<string>, k: nat)
    requires MatchesHaveAddress(cloud, filters)
    requires k < |envs|
    requires forall j :: 0 <= j < k ==> Quiet(cloud, envs[j], filters)
    requires Answers(cloud, envs[k], filters, ssh)
    ensures var run := Scan(envs, filters, cloud, ssh, true);
      && run.err == None
      && ConnectedEnvs(run.trace) == envs[..k + 1]
      && run.trace[|run.trace| - 1] == Ssh(Match(cloud, envs[k], filters).value.privateIpAddress.value)
    decreases k
  {
    var env := envs[0];
    var step := Probe(env, filters, cloud, ssh, true);
    var events := [Connect(env), Describe(env, filters)];
    ProbeEvents(env, filters, cloud, ssh, true);
    if k == 0 {
      AnswerStops(env, filters, cloud, ssh);
      assert Scan(envs, filters, cloud, ssh, true) == step.run;
    } else {
      assert Quiet(cloud, envs[0], filters);
      QuietPasses(env, filters, cloud, ssh, true);
      StopsAtFirstMatch(envs[1..], filters, cloud, ssh, k - 1);
      var rest := Scan(envs[1..], filters, cloud, ssh, true);
      assert Scan(envs, filters, cloud, ssh, true) == Then(events, rest);
      ConnectedEnvsAppend(events, rest.trace);
      PrefixAfterFirst(envs, k);
    }
  }

  /**
   * The message an environment fails with, if it fails: creating the
   * client, the query, or the session to the instance it yields.
   */
  function FailureAt(cloud: Cloud, env: string, filters: seq<Filter>, ssh: string -> Option<string>): Option<string>
    requires MatchesHaveAddress(cloud, filters)
  {
    if cloud.connect(env).Some? then cloud.connect(env)
    else if cloud.describe(env, filters).Err? then Some(cloud.describe(env, filters).message)
    else if Match(cloud, env, filters).None? then None
    else ssh(Match(cloud, env, filters).value.privateIpAddress.value)
  }

  /**
   * When environments before k yield nothing and environment k fails,
   * the search, as written or intended, returns that failure's message
   * unchanged, having connected to `envs[..k + 1]` only.
   */
  lemma {:induction false} ErrorEndsSearch(envs: seq<string>, filters: seq<Filter>, cloud: Cloud,
                                           ssh: string -> Option<string>, returnAfterSession: bool,
                                           k: nat, message: string)
    requires MatchesHaveAddress(cloud, filters)
    requires k < |envs|
    requires forall j :: 0 <= j < k ==> Quiet(cloud, envs[j], filters)
    requires FailureAt(cloud, envs[k], filters, ssh) == Some(message)
    ensures var run := Scan(envs, filters, cloud, ssh, returnAfterSession);
      && run.err == Some(Failure(message))
      && ConnectedEnvs(run.trace) == envs[..k + 1]
    decreases k
  {
    var env := envs[0];
    var step := Probe(env, filters, cloud, ssh, returnAfterSession);
    ProbeEvents(env, filters, cloud, ssh, returnAfterSession);
    if k == 0 {
      assert step.Stop? && step.run.err == Some(Failure(message));
      assert Scan(envs, filters, cloud, ssh, returnAfterSession) == step.run;
      assert envs[..1] == [env];
    } else {
      var events := [Connect(env), Describe(env, filters)];
      assert Quiet(cloud, envs[0], filters);
      QuietPasses(env, filters, cloud, ssh, returnAfterSession);
      ErrorEndsSearch(envs[1..], filters, cloud, ssh, returnAfterSession, k - 1, message);
      var rest := Scan(envs[1..], filters, cloud, ssh, returnAfterSession);
      assert Scan(envs, filters, cloud, ssh, returnAfterSession) == Then(events, rest);
      ConnectedEnvsAppend(events, rest.trace);
      PrefixAfterFirst(envs, k);
    }
  }

  /**
   * As written: when no environment fails and every environment either
   * yields nothing or yields an instance whose session ends well, the search
   * connects to every environment and ends with "no instances found".
   */
  lemma {:induction false} AsWrittenSearchesEveryEnv(envs: seq<string>, filters: seq<Filter>, cloud: Cloud,
                                                     ssh: string -> Option<string>)
    requires MatchesHaveAddress(cloud, filters)
    requires forall j :: 0 <= j < |envs| ==> Quiet(cloud, envs[j], filters) || Answers(cloud, envs[j], filters, ssh)
    ensures var run := Scan(envs, filters, cloud, ssh, false);
      run.err == Some(NotFound) && ConnectedEnvs(run.trace) == envs
    decreases |envs|
  {
    if envs != [] {
      var env := envs[0];
      var step := Probe(env, filters, cloud, ssh, false);
      AsWrittenSearchesEveryEnv(envs[1..], filters, cloud, ssh);
      var rest := Scan(envs[1..], filters, cloud, ssh, false);
      assert step.Next?;
      ProbeEvents(env, filters, cloud, ssh, false);
      ConnectedEnvsAppend(step.events, rest.trace);
      assert envs == [env] + envs[1..];
    }
  }

  /** A cloud in which every environment answers and only `stg` holds `inst`. */
  function StgOnlyCloud(inst: Instance): Cloud {
    Cloud(env => None, (env, filters) => if env == "stg" then Ok([[inst]]) else Ok([]))
  }

  /**
   * The instance lives in `stg` only and its session ends well. As
   * intended, the search connects to prod, dev and stg and returns nil. As
   * written, it also connects to sandbox and then reports "no instances
   * found", although the session took place.
   */
  lemma OnlyStgHoldsTheInstance(instanceId: string, address: string)
    ensures var inst := Instance([], instanceId, Some(address), "t3.micro", "running", 0);
      var cloud, filters, ssh := StgOnlyCloud(inst), GetInstanceIdFilters(instanceId), (a: string) => None;
      MatchesHaveAddress(cloud, filters) &&
      var intended, asWritten := Scan(EnvsToSearch, filters, cloud, ssh, true), Scan(EnvsToSearch, filters, cloud, ssh, false);
      && intended.err == None
      && ConnectedEnvs(intended.trace) == ["prod", "dev", "stg"]
      && intended.trace[|intended.trace| - 1] == Ssh(address)
      && asWritten.err == Some(NotFound)
      && ConnectedEnvs(asWritten.trace) == ["prod", "dev", "stg", "sandbox"]
  {
    var inst := Instance([], instanceId, Some(address), "t3.micro", "running", 0);
    var cloud, filters, ssh := StgOnlyCloud(inst), GetInstanceIdFilters(instanceId), (a: string) => None;
    assert forall env :: Match(cloud, env, filters) == if env == "stg" then Some(inst) else None;
    assert Answers(cloud, "stg", filters, ssh);
    assert forall j :: 0 <= j < 2 ==> Quiet(cloud, EnvsToSearch[j], filters);
    StopsAtFirstMatch(EnvsToSearch, filters, cloud, ssh, 2);
    assert EnvsToSearch[..3] == ["prod", "dev", "stg"];
    assert Quiet(cloud, EnvsToSearch[3], filters);
    AsWrittenSearchesEveryEnv(EnvsToSearch, filters, cloud, ssh);
  }
}
