/**
 * Role/profile mode (cmd/ssh.go, sshByRole and sshByRoleProfile): one query
 * in the named environment, the candidate table, the operator's choice and
 * a session to the chosen candidate's address.
 *
 * `corrected` selects the picker's item list: false is the list the source
 * builds (every line after the header, the trailing empty line included),
 * true the list of one row per candidate.
 */
module RoleSearch {
  import opened Results
  import opened Ec2
  import opened Errors
  import opened Filters
  import opened Candidates
  import opened Session

  /** The candidates, in order, when creating the client and querying succeed. */
  function Found(cloud: Cloud, env: string, filters: seq<Filter>): Option<seq<Instance>> {
    if cloud.connect(env).None? && cloud.describe(env, filters).Ok?
    then Some(Flatten(cloud.describe(env, filters).value))
    else None
  }

  /** The items the picker is given, as written or corrected. */
  function Items(textLines: seq<string>, corrected: bool): seq<string>
    requires |textLines| >= 2
  {
    if corrected then PromptItems(textLines) else PromptItemsAsWritten(textLines)
  }

  /**
   * The picker and what follows it: an aborted pick is returned; a pick
   * outside privateIPs panics before `ssh` starts; otherwise `ssh` runs to
   * the address at that index and its error, if any, is returned.
   */
  function PickOutcome(heading: string, items: seq<string>, privateIPs: seq<string>, term: Terminal): (run: Run)
    ensures |run.trace| >= 1 && run.trace[0] == Prompt(heading, items)
    ensures run.err.None? ==>
      var picked := term.pick(heading, items);
      picked.Ok? && 0 <= picked.value < |privateIPs| && run.trace == [Prompt(heading, items), Ssh(privateIPs[picked.value])]
  {
    var shown := [Prompt(heading, items)];
    var picked := term.pick(heading, items);
    if picked.Err? then Run(Some(Failure(picked.message)), shown)
    else if !(0 <= picked.value < |privateIPs|) then Run(Some(IndexOutOfRange(picked.value, |privateIPs|)), shown)
    else
      var address := privateIPs[picked.value];
      var sshErr := term.ssh(address);
      Run(if sshErr.Some? then Some(Failure(sshErr.value)) else None, shown + [Ssh(address)])
  }

  /**
   * The picker's outcome panics exactly when the index picked lies outside
   * privateIPs; every other error is a plain failure.
   */
  lemma PickOutcomeErrors(heading: string, items: seq<string>, privateIPs: seq<string>, term: Terminal)
    ensures var run, picked := PickOutcome(heading, items, privateIPs, term), term.pick(heading, items);
      && (run.err.Some? && run.err.value.IndexOutOfRange? <==> picked.Ok? && !(0 <= picked.value < |privateIPs|))
      && (run.err.Some? ==> run.err.value.Failure? || run.err.value.IndexOutOfRange?)
      && (picked.Err? ==> run.err == Some(Failure(picked.message)))
  {
  }

  /**
   * The picker is shown first; a pick inside privateIPs then starts exactly
   * one `ssh`, to the address at that index, whose error decides the
   * outcome; any other pick starts none.
   */
  lemma PickOutcomeEffects(heading: string, items: seq<string>, privateIPs: seq<string>, term: Terminal)
    ensures var run, picked := PickOutcome(heading, items, privateIPs, term), term.pick(heading, items);
      && (picked.Ok? && 0 <= picked.value < |privateIPs| ==>
            var address := privateIPs[picked.value];
            && run.trace == [Prompt(heading, items), Ssh(address)]
            && (run.err == None <==> term.ssh(address).None?)
            && (term.ssh(address).Some? ==> run.err == Some(Failure(term.ssh(address).value))))
      && (!(picked.Ok? && 0 <= picked.value < |privateIPs|) ==> run.trace == [Prompt(heading, items)])
  {
  }

  /** sshByRoleProfile as a value: its error and its effects. */
  function RoleRun(env: string, role: string, profile: string, cloud: Cloud, term: Terminal,
                   humanize: int -> string, align: Aligner, corrected: bool): (run: Run)
    requires KeepsLines(align)
    ensures |run.trace| >= 1 && run.trace[0] == Connect(env)
    ensures run.err.None? ==> |run.trace| == 4 && run.trace[2].Prompt? && run.trace[3].Ssh?
  {
    var filters := GetRoleProfileFilters(role, profile);
    var clientErr := cloud.connect(env);
    if clientErr.Some? then Run(Some(Failure(clientErr.value)), [Connect(env)])
    else
      var queried := [Connect(env), Describe(env, filters)];
      var result := cloud.describe(env, filters);
      if result.Err? then Run(Some(Failure(result.message)), queried)
      else
        var insts := Flatten(result.value);
        if insts == [] then Run(Some(NotFound), queried)
        else Then(queried, Offer(insts, term, humanize, align, corrected))
  }

  /** The candidates' table shown in the picker, and the picker's outcome. */
  function Offer(insts: seq<Instance>, term: Terminal, humanize: int -> string, align: Aligner, corrected: bool): Run
    requires KeepsLines(align) && insts != []
  {
    TextLinesShape(insts, humanize, align);
    var textLines := TextLines(insts, humanize, align);
    PickOutcome("  " + textLines[0], Items(textLines, corrected), Addresses(insts), term)
  }

  /**
   * The tail of sshByRoleProfile once there are candidates: show the
   * picker, then start `ssh` to the address at the index picked.
   */
  method PickAndSsh(heading: string, items: seq<string>, privateIPs: seq<string>, term: Terminal)
    returns (err: Option<Error>, trace: seq<Event>)
    ensures Run(err, trace) == PickOutcome(heading, items, privateIPs, term)
  {
    trace := [Prompt(heading, items)];
    var picked := term.pick(heading, items);
    if picked.Err? {
      err := Some(Failure(picked.message));
      return;
    }
    var index := picked.value;
    if !(0 <= index < |privateIPs|) {
      err := Some(IndexOutOfRange(index, |privateIPs|));
      return;
    }
    trace := trace + [Ssh(privateIPs[index])];
    var sshErr := term.ssh(privateIPs[index]);
    if sshErr.Some? {
      err := Some(Failure(sshErr.value));
      return;
    }
    err := None;
  }

  /** sshByRoleProfile: connect, query, build the table, pick, `ssh`. */
  method SshByRoleProfile(env: string, role: string, profile: string, cloud: Cloud, term: Terminal,
                          humanize: int -> string, align: Aligner, corrected: bool)
    returns (err: Option<Error>, trace: seq<Event>)
    requires KeepsLines(align)
    ensures Run(err, trace) == RoleRun(env, role, profile, cloud, term, humanize, align, corrected)
  {
    var filters := GetRoleProfileFilters(role, profile);
    ClientOrQueryErrorReturned(env, role, profile, cloud, term, humanize, align, corrected);
    trace := [Connect(env)];
    var clientErr := cloud.connect(env);
    if clientErr.Some? {
      err := Some(Failure(clientErr.value));
      return;
    }
    trace := trace + [Describe(env, filters)];
    var result := cloud.describe(env, filters);
    if result.Err? {
      err := Some(Failure(result.message));
      return;
    }
    var privateIPs, textLines := GetPrivateIPsAndTextLines(result.value, humanize, align);
    ghost var insts := Flatten(result.value);
    assert Found(cloud, env, filters) == Some(insts);
    if |privateIPs| == 0 {
      NoCandidateIsNotFound(env, role, profile, cloud, term, humanize, align, corrected);
      err := Some(NotFound);
      return;
    }
    RoleRunWithCandidates(env, role, profile, cloud, term, humanize, align, corrected, insts);
    ghost var queried := trace;
    assert queried == [Connect(env), Describe(env, filters)];
    var rest;
    err, rest := PickAndSsh("  " + textLines[0], Items(textLines, corrected), privateIPs, term);
    assert Run(err, rest) == Offer(insts, term, humanize, align, corrected);
    trace := trace + rest;
    assert Run(err, trace) == Then(queried, Offer(insts, term, humanize, align, corrected));
  }

  /** sshByRole: role mode is role/profile mode with an empty profile. */
  method SshByRole(env: string, role: string, cloud: Cloud, term: Terminal, humanize: int -> string,
                   align: Aligner, corrected: bool)
    returns (err: Option<Error>, trace: seq<Event>)
    requires KeepsLines(align)
    ensures Run(err, trace) == RoleRun(env, role, "", cloud, term, humanize, align, corrected)
  {
    err, trace := SshByRoleProfile(env, role, "", cloud, term, humanize, align, corrected);
  }

  /** With an empty profile only the `tag:role` filter is sent. */
  lemma RoleModeFilters(role: string)
    ensures GetRoleProfileFilters(role, "") == [Filter("tag:role", ["*" + role + "*"])]
  {
  }

  /** A failure to create the client or to query is returned as it is, before any prompt. */
  lemma ClientOrQueryErrorReturned(env: string, role: string, profile: string, cloud: Cloud, term: Terminal,
                                   humanize: int -> string, align: Aligner, corrected: bool)
    requires KeepsLines(align)
    ensures var run := RoleRun(env, role, profile, cloud, term, humanize, align, corrected);
      var result := cloud.describe(env, GetRoleProfileFilters(role, profile));
      && (cloud.connect(env).Some? ==> run == Run(Some(Failure(cloud.connect(env).value)), [Connect(env)]))
      && (cloud.connect(env).None? && result.Err? ==>
            run == Run(Some(Failure(result.message)), [Connect(env), Describe(env, GetRoleProfileFilters(role, profile))]))
  {
  }

  /** No candidate at all: "no instances found", after the query and without showing the picker. */
  lemma NoCandidateIsNotFound(env: string, role: string, profile: string, cloud: Cloud, term: Terminal,
                              humanize: int -> string, align: Aligner, corrected: bool)
    requires KeepsLines(align)
    requires Found(cloud, env, GetRoleProfileFilters(role, profile)) == Some([])
    ensures RoleRun(env, role, profile, cloud, term, humanize, align, corrected) ==
      Run(Some(NotFound), [Connect(env), Describe(env, GetRoleProfileFilters(role, profile))])
  {
  }

  /**
   * With candidates, the picker is shown "  " + the aligned header and the
   * aligned rows, followed as written by the empty line; the first three
   * effects are connect, query, prompt.
   */
  lemma CandidatesArePrompted(env: string, role: string, profile: string, cloud: Cloud, term: Terminal,
                              humanize: int -> string, align: Aligner, corrected: bool, insts: seq<Instance>)
    requires KeepsLines(align)
    requires Found(cloud, env, GetRoleProfileFilters(role, profile)) == Some(insts) && insts != []
    ensures var run := RoleRun(env, role, profile, cloud, term, humanize, align, corrected);
      var aligned := align(Table(insts, humanize));
      && |run.trace| >= 3
      && run.trace[..2] == [Connect(env), Describe(env, GetRoleProfileFilters(role, profile))]
      && run.trace[2] == Prompt("  " + aligned[0], if corrected then aligned[1..] else aligned[1..] + [""])
  {
    RoleRunWithCandidates(env, role, profile, cloud, term, humanize, align, corrected, insts);
    TextLinesShape(insts, humanize, align);
    var lines := TextLines(insts, humanize, align);
    var aligned := align(Table(insts, humanize));
    var heading, items := "  " + lines[0], Items(lines, corrected);
    assert lines == aligned + [""];
    assert heading == "  " + aligned[0];
    assert items == if corrected then aligned[1..] else aligned[1..] + [""];
    PickOutcomeEffects(heading, items, Addresses(insts), term);
    var queried := [Connect(env), Describe(env, GetRoleProfileFilters(role, profile))];
    var outcome := PickOutcome(heading, items, Addresses(insts), term);
    assert outcome.trace[0] == Prompt(heading, items);
    var run := RoleRun(env, role, profile, cloud, term, humanize, align, corrected);
    assert run.trace == queried + outcome.trace;
  }

  /** With candidates, the run is the query's two effects followed by the picker's outcome. */
  lemma RoleRunWithCandidates(env: string, role: string, profile: string, cloud: Cloud, term: Terminal,
                              humanize: int -> string, align: Aligner, corrected: bool, insts: seq<Instance>)
    requires KeepsLines(align)
    requires Found(cloud, env, GetRoleProfileFilters(role, profile)) == Some(insts) && insts != []
    ensures |TextLines(insts, humanize, align)| == |insts| + 2
    ensures RoleRun(env, role, profile, cloud, term, humanize, align, corrected) ==
      Then([Connect(env), Describe(env, GetRoleProfileFilters(role, profile))], Offer(insts, term, humanize, align, corrected))
    ensures var lines := TextLines(insts, humanize, align);
      RoleRun(env, role, profile, cloud, term, humanize, align, corrected) ==
        Then([Connect(env), Describe(env, GetRoleProfileFilters(role, profile))],
             PickOutcome("  " + lines[0], Items(lines, corrected), Addresses(insts), term))
  {
    TextLinesShape(insts, humanize, align);
  }

  /** With candidates, an aborted pick is returned as it is, and no session starts. */
  lemma AbortedPickIsReturned(env: string, role: string, profile: string, cloud: Cloud, term: Terminal,
                              humanize: int -> string, align: Aligner, corrected: bool, insts: seq<Instance>)
    requires KeepsLines(align)
    requires Found(cloud, env, GetRoleProfileFilters(role, profile)) == Some(insts) && insts != []
    ensures var lines := TextLines(insts, humanize, align);
      |lines| >= 2 &&
      var picked := term.pick("  " + lines[0], Items(lines, corrected));
      var run := RoleRun(env, role, profile, cloud, term, humanize, align, corrected);
      picked.Err? ==> run.err == Some(Failure(picked.message)) && |run.trace| == 3 && run.trace[2].Prompt?
  {
    RoleRunWithCandidates(env, role, profile, cloud, term, humanize, align, corrected, insts);
    var lines := TextLines(insts, humanize, align);
    PickOutcomeErrors("  " + lines[0], Items(lines, corrected), Addresses(insts), term);
    PickOutcomeEffects("  " + lines[0], Items(lines, corrected), Addresses(insts), term);
  }

  /**
   * With candidates, picking candidate k runs `ssh` to its address as the
   * fourth and last effect, and the run succeeds exactly when `ssh` does,
   * returning `ssh`'s error otherwise.
   */
  lemma PickedCandidateGetsSession(env: string, role: string, profile: string, cloud: Cloud, term: Terminal,
                                   humanize: int -> string, align: Aligner, corrected: bool, insts: seq<Instance>)
    requires KeepsLines(align)
    requires Found(cloud, env, GetRoleProfileFilters(role, profile)) == Some(insts) && insts != []
    ensures var lines := TextLines(insts, humanize, align);
      |lines| >= 2 &&
      var picked := term.pick("  " + lines[0], Items(lines, corrected));
      var run := RoleRun(env, role, profile, cloud, term, humanize, align, corrected);
      picked.Ok? && 0 <= picked.value < |insts| ==>
        var address := AddressOf(insts[picked.value]);
        && |run.trace| == 4 && run.trace[2].Prompt? && run.trace[3] == Ssh(address)
        && (run.err == None <==> term.ssh(address).None?)
        && (term.ssh(address).Some? ==> run.err == Some(Failure(term.ssh(address).value)))
  {
    RoleRunWithCandidates(env, role, profile, cloud, term, humanize, align, corrected, insts);
    var lines := TextLines(insts, humanize, align);
    var heading, items := "  " + lines[0], Items(lines, corrected);
    PickOutcomeEffects(heading, items, Addresses(insts), term);
    var picked := term.pick(heading, items);
    if picked.Ok? && 0 <= picked.value < |insts| {
      assert Addresses(insts)[picked.value] == AddressOf(insts[picked.value]);
    }
  }

  /** With candidates, a pick outside the candidates panics, and no session starts. */
  lemma PickOutsideCandidatesPanics(env: string, role: string, profile: string, cloud: Cloud, term: Terminal,
                                    humanize: int -> string, align: Aligner, corrected: bool, insts: seq<Instance>)
    requires KeepsLines(align)
    requires Found(cloud, env, GetRoleProfileFilters(role, profile)) == Some(insts) && insts != []
    ensures var lines := TextLines(insts, humanize, align);
      |lines| >= 2 &&
      var picked := term.pick("  " + lines[0], Items(lines, corrected));
      var run := RoleRun(env, role, profile, cloud, term, humanize, align, corrected);
      picked.Ok? && !(0 <= picked.value < |insts|) ==>
        run.err == Some(IndexOutOfRange(picked.value, |insts|)) && |run.trace| == 3 && run.trace[2].Prompt?
  {
    RoleRunWithCandidates(env, role, profile, cloud, term, humanize, align, corrected, insts);
    var lines := TextLines(insts, humanize, align);
    PickOutcomeEffects("  " + lines[0], Items(lines, corrected), Addresses(insts), term);
  }

  /** Role mode ends badly only with a plain failure or a panic, never with the invalid-command error. */
  lemma RoleErrorsAreFailuresOrPanics(env: string, role: string, profile: string, cloud: Cloud, term: Terminal,
                                      humanize: int -> string, align: Aligner, corrected: bool)
    requires KeepsLines(align)
    ensures var run := RoleRun(env, role, profile, cloud, term, humanize, align, corrected);
      run.err.Some? ==> run.err.value.Failure? || run.err.value.IndexOutOfRange?
  {
    var found := Found(cloud, env, GetRoleProfileFilters(role, profile));
    if found.Some? && found.value != [] {
      var insts := found.value;
      RoleRunWithCandidates(env, role, profile, cloud, term, humanize, align, corrected, insts);
      var lines := TextLines(insts, humanize, align);
      PickOutcomeErrors("  " + lines[0], Items(lines, corrected), Addresses(insts), term);
    }
  }

  /** Given a picker that only returns listed indices, the corrected list never panics. */
  lemma CorrectedNeverPanics(env: string, role: string, profile: string, cloud: Cloud, term: Terminal,
                             humanize: int -> string, align: Aligner)
    requires KeepsLines(align) && PicksListedItem(term)
    ensures var run := RoleRun(env, role, profile, cloud, term, humanize, align, true);
      run.err.Some? ==> run.err.value.Failure?
  {
    var filters := GetRoleProfileFilters(role, profile);
    var found := Found(cloud, env, filters);
    if found.Some? && found.value != [] {
      var insts := found.value;
      RoleRunWithCandidates(env, role, profile, cloud, term, humanize, align, true, insts);
      var lines := TextLines(insts, humanize, align);
      var heading, items := "  " + lines[0], Items(lines, true);
      assert |items| == |insts| == |Addresses(insts)|;
      PickIsListed(term, heading, items);
      PickOutcomeErrors(heading, items, Addresses(insts), term);
    }
  }

  /**
   * As written, the picker lists one item more than there are candidates;
   * picking that last, empty item (a listed index) panics with index and
   * length both the number of candidates, and no session starts.
   */
  lemma AsWrittenBlankPickPanics(env: string, role: string, profile: string, cloud: Cloud, term: Terminal,
                                 humanize: int -> string, align: Aligner, insts: seq<Instance>)
    requires KeepsLines(align)
    requires Found(cloud, env, GetRoleProfileFilters(role, profile)) == Some(insts) && insts != []
    requires var lines := TextLines(insts, humanize, align);
      |lines| >= 2 && term.pick("  " + lines[0], Items(lines, false)) == Ok(|insts|)
    ensures |Items(TextLines(insts, humanize, align), false)| == |insts| + 1
    ensures var run := RoleRun(env, role, profile, cloud, term, humanize, align, false);
      && run.err == Some(IndexOutOfRange(|insts|, |insts|))
      && |run.trace| == 3 && !run.trace[2].Ssh?
  {
    BlankItemHasNoAddress(insts, humanize, align);
    PickOutsideCandidatesPanics(env, role, profile, cloud, term, humanize, align, false, insts);
  }
}
