# assh: a Dafny model of the `ssh` command

`assh` opens an SSH session to an EC2 instance. It takes one of three
argument forms:

- `assh i-…` names an instance id. Each AWS environment of a fixed list
  (`prod`, `dev`, `stg`, `sandbox`) is queried in turn. `ssh` is run to the
  private address of the first instance of the first reservation that the
  environment reports.
- `assh env role [profile]` queries one environment with tag filters: the
  role tag contains `role`, and the profile tag equals `profile` when one is
  given. It lays the candidates out as a table (name, id, private IP,
  role/profile, type, state, uptime) and lets the operator pick a row in an
  interactive picker. It then runs `ssh` to that row's address.
- Anything else is an invalid command. The command prints the usage text
  and exits with status 1. Every other error exits with status 255.

The model covers `cmd/ssh.go` (dispatch, both search modes, the filter
builders, the candidate table, tag reading) and `cmd/errors.go` (the
invalid-command error and its usage text). Everything outside the process
is passed in as a function value:

- `Cloud.connect` creates the client for an environment (`newEC2Client`).
- `Cloud.describe` is `DescribeInstances`.
- `Terminal.pick` is the picker.
- `Terminal.ssh` is the `ssh` child process.
- `humanize` is `humanize.Time`.
- `Aligner` is the tabwriter. It is only assumed to give one line per row,
  with no newline inside a line.

Each run yields the error it hands back (`None` for Go's `nil`) and a trace
of its effects: `Connect`, `Describe`, `Prompt` and `Ssh`, in order. A pick
outside the address list indexes past the end of the slice. Go then
panics, which the model gives as the error `IndexOutOfRange`, with exit
status 2.

Two places in the code look unintended (see Findings). The model writes
each of them both ways. `Dispatch.RunSsh` takes a flag, `corrected`:

- With `corrected` false, `RunSsh` is `runSSH` as written.
- With `corrected` true, instance-id mode returns nil after a session that
  ends well, and the picker lists one row per candidate.

Modules:

- `Results`: Option and Result.
- `Strings`: prefix, containment, split and join.
- `Ec2`: SDK shapes, plus the provider's filter semantics as a reference.
- `Errors`, `Filters`, `Tags`.
- `Candidates`: the table and the picker items.
- `Session`: events and the terminal.
- `InstanceSearch`, `RoleSearch`, `Dispatch`.

## Model

| member | source | states |
|---|---|---|
| Errors.InvalidCommandError.Error | cmd/errors.go:8-10 | the error's text is its message |
| Errors.NewInvalidCommandError | cmd/errors.go:12-24 | the error reads "invalid command"; its help is the usage text, which begins with "Usage:" |
| Errors.UsageListsForms | cmd/errors.go:15-17 | the usage text has an `assh instanceId` line and an `assh environment role [profile]` line |
| Errors.UsageListsExamples | cmd/errors.go:19-22 | the usage text has one line for each of the three example invocations |
| Filters.GetInstanceIdFilters | cmd/ssh.go:142-150 | exactly one filter, `instance-id`, with the id as its only value |
| Filters.GetRoleProfileFilters | cmd/ssh.go:152-169 | first filter: `tag:role` on `*role*`; a second filter, `tag:profile` on the profile, exists exactly when the profile is not empty |
| Filters.InstanceIdFilterSelects | cmd/ssh.go:142-150 | for an id without `*`, `?` or `\`, the filter list selects an instance exactly when its id equals the given id |
| Filters.RoleProfileFilterSelects | cmd/ssh.go:152-169 | for inputs without `*`, `?` or `\`, an instance is selected exactly when some role tag contains `role` and, if the profile is not empty, some profile tag equals it |
| Ec2.GlobContains | cmd/ssh.go:153 | wrapping a role without special characters in `*…*` makes the filter a substring test |
| Ec2.SpecialCharacters | cmd/ssh.go:153 | a role ending in `\` is not taken literally: `*x\*` selects values ending in "x*", not those containing "x\"; `?` matches zero or one character |
| Tags.GetValueFromTags | cmd/ssh.go:216-224 | the value is "" or the value of some tag with the key |
| Tags.ValueOfFirstMatchingTag | cmd/ssh.go:216-221 | the value is that of the first tag with the key; later tags with the same key are ignored |
| Tags.ValueOfMissingTag | cmd/ssh.go:222-223 | a key that no tag has reads as "" |
| Tags.ValueIsFirstTagValue | cmd/ssh.go:216-224 | the value shown is the first value a `tag:key` filter tests, or "" when the filter tests none |
| Tags.FormatRoleProfileFromTags | cmd/ssh.go:226-233 | the Role column starts with the role tag's value |
| Tags.RoleColumnSplitsBack | cmd/ssh.go:226-233 | if neither value contains '/', splitting the column at '/' gives `[role]` when the profile is empty and `[role, profile]` otherwise |
| Candidates.FlattenOrder | cmd/ssh.go:176-177 | instance k of reservation r comes right after all instances of the earlier reservations |
| Candidates.FlattenEmpty | cmd/ssh.go:176-177 | there are no candidates exactly when every reservation is empty |
| Candidates.GetPrivateIPsAndTextLines | cmd/ssh.go:171-198 | the addresses are those of all candidates in order, "N/A" where an instance has none; the text lines are the aligned header and rows split at newlines |
| Strings.SplitTerminated | cmd/ssh.go:195-196 | splitting newline-terminated lines gives the lines back plus one trailing "" |
| Candidates.TextLinesShape | cmd/ssh.go:175-196 | the split text is the aligned header, one aligned line per candidate, then "" (so candidates + 2 lines) |
| Candidates.AddressIsRowCell | cmd/ssh.go:178-192 | candidate i's address is the PrivateIP cell of table row i + 1 |
| Candidates.PromptItemsAsWritten | cmd/ssh.go:106 | the items are every line after the header: one fewer than the lines, namely the candidate rows followed by the last line |
| Candidates.Searcher | cmd/ssh.go:108-110 | item `index` is kept exactly when the item at that position contains the typed input |
| Candidates.BlankItemHasNoAddress | cmd/ssh.go:106 | as written, the item list has one entry more than there are addresses; that last entry is "" and is kept for an empty search |
| Candidates.PromptItemsAreCandidateRows | cmd/ssh.go:104-110 | without the trailing line, there are as many items as addresses, and item i is candidate i's aligned row |
| InstanceSearch.Probe | cmd/ssh.go:49-73 | one environment ends the search with nil only when stopping after a session, and only when it yields an instance |
| InstanceSearch.Scan | cmd/ssh.go:48-77 | the search over a list of environments returns nil only when it stops after a session; as written it never returns nil |
| InstanceSearch.Visit | cmd/ssh.go:49-73 | one pass of the loop: connect, query, then `ssh` to the first instance of the first reservation; it either ends the function with an error (or with nil when stopping after a session) or hands on its events, exactly as `Probe` specifies |
| InstanceSearch.SearchEnvs | cmd/ssh.go:48-77 | the loop over prod, dev, stg, sandbox in order: its result and effects are `Scan` over those environments, ending with "no instances found" when no environment ends it |
| InstanceSearch.SshByInstanceIdAsWritten | cmd/ssh.go:45-78 | the search as written: its result and effects are `Scan` over prod, dev, stg, sandbox, continuing after a session that ends well |
| InstanceSearch.SshByInstanceId | cmd/ssh.go:45-78 | the intended search: its result and effects are `Scan` over the same environments, returning nil after a session that ends well |
| InstanceSearch.ProbeEvents | cmd/ssh.go:49-73 | handling one environment connects to that environment only, and first; it never shows the picker |
| InstanceSearch.ScanFailsPlainly | cmd/ssh.go:45-78 | every error of the search is a plain failure, never the invalid-command error |
| InstanceSearch.ScanNeverPrompts | cmd/ssh.go:45-78 | instance-id mode never shows the picker |
| InstanceSearch.ScanFollowsEnvOrder | cmd/ssh.go:48 | the environments connected to are a prefix of the search order |
| InstanceSearch.ErrorEndsSearch | cmd/ssh.go:49-72 | when the environments before k yield nothing and environment k fails to create its client, to query, or in its session, both searches return that failure's message unchanged, having connected to the first k + 1 environments only |
| InstanceSearch.StopsAtFirstMatch | cmd/ssh.go:48-75 | when environments before k yield nothing and environment k yields an instance whose session ends well, the intended search returns nil after connecting to the first k + 1 environments; its last effect is `ssh` to that address |
| InstanceSearch.AsWrittenSearchesEveryEnv | cmd/ssh.go:48-77 | as written, when every environment yields nothing or a session that ends well, all environments are connected to and the result is "no instances found" |
| InstanceSearch.OnlyStgHoldsTheInstance | cmd/ssh.go:19-77 | with the instance only in stg: the intended search stops at stg with nil, while the search as written also queries sandbox and reports "no instances found" |
| RoleSearch.PickOutcome | cmd/ssh.go:104-127 | the picker is shown first; the outcome is nil only after a pick inside the addresses followed by exactly one `ssh`, to the address at that index |
| RoleSearch.RoleRun | cmd/ssh.go:84-128 | role mode connects first; it ends with nil only after connect, query, prompt and `ssh`, in that order |
| RoleSearch.PickOutcomeErrors | cmd/ssh.go:114-126 | after the prompt, the run panics exactly when the index picked lies outside the addresses; a picker error is returned as a failure; no other error kind occurs |
| RoleSearch.PickOutcomeEffects | cmd/ssh.go:104-127 | the prompt comes first; a pick inside the addresses starts exactly one `ssh`, to the address at that index, and the run succeeds exactly when `ssh` does, returning `ssh`'s error otherwise; any other pick starts no `ssh` |
| RoleSearch.PickAndSsh | cmd/ssh.go:104-127 | the prompt, the pick and the `ssh` step behave as `PickOutcome`, whose errors and effects the two lemmas above state |
| RoleSearch.SshByRoleProfile | cmd/ssh.go:84-128 | its result and effects are those of `RoleRun`, whose outcomes the lemmas below state |
| RoleSearch.SshByRole | cmd/ssh.go:80-82 | its result and effects are those of `RoleRun` with an empty profile |
| RoleSearch.RoleModeFilters | cmd/ssh.go:80-82 | with an empty profile, only the `tag:role` filter is sent |
| RoleSearch.ClientOrQueryErrorReturned | cmd/ssh.go:85-97 | a client error is returned after connecting only; a query error is returned after the query; no prompt follows either |
| RoleSearch.NoCandidateIsNotFound | cmd/ssh.go:99-102 | no candidate gives "no instances found" after the query, with no prompt |
| RoleSearch.CandidatesArePrompted | cmd/ssh.go:104-107 | with candidates, the third effect is the prompt, headed "  " + the aligned header; it lists the aligned rows followed, as written, by the empty line |
| RoleSearch.AbortedPickIsReturned | cmd/ssh.go:114-117 | with candidates, a picker error is returned as it is, and no `ssh` starts |
| RoleSearch.PickedCandidateGetsSession | cmd/ssh.go:119-127 | with candidates, picking candidate k runs `ssh` to its address as the fourth and last effect; nil exactly when `ssh` ends well, otherwise `ssh`'s error |
| RoleSearch.PickOutsideCandidatesPanics | cmd/ssh.go:119 | with candidates, a pick outside them panics with that index and the number of candidates, and no `ssh` starts |
| RoleSearch.RoleErrorsAreFailuresOrPanics | cmd/ssh.go:84-128 | role mode ends badly only with a plain failure or a panic, never with the invalid-command error |
| RoleSearch.AsWrittenBlankPickPanics | cmd/ssh.go:104-119 | as written, the picker lists one item more than there are candidates, and picking that last, empty item panics with index and length both the number of candidates |
| RoleSearch.CorrectedNeverPanics | cmd/ssh.go:104-119 | with one item per candidate and a picker that returns only listed indices, role mode never panics |
| Dispatch.ParseArgs | cmd/ssh.go:23-31 | instance mode exactly for one argument starting with "i-"; role/profile mode exactly for two or three arguments, with an empty profile for two; invalid otherwise |
| Dispatch.ExamplesAreAccepted | cmd/ssh.go:23-28 | each example in the usage text selects the mode it illustrates |
| Dispatch.ExitCode | cmd/ssh.go:33-42 | no exit on nil; 1 exactly for the invalid-command error; 255 exactly for a plain failure; 2 exactly for a panic |
| Dispatch.Report | cmd/ssh.go:33-42 | an error's message starts with "Error: " (a panic's with "panic: "), contains the error text, contains the usage text for an invalid command, and ends with a newline |
| Dispatch.RunSsh | cmd/ssh.go:21-43 | exit status 1 exactly for invalid arguments, which do nothing else; the printed text is the error's report; instance mode is `Scan` as written (so it always exits 255) or as intended; role modes are `RoleRun`; with the corrected item list and a picker that returns only listed indices, the run never panics |

## Left out

- Creating the AWS session and client (`newEC2Client`, cmd/ssh.go:130-140) is the `connect` oracle. `DescribeInstances` is the `describe` oracle. Pagination and SDK retries are not modelled.
- The picker (promptui) is the `pick` oracle. It may return any index; `RoleSearch.CorrectedNeverPanics` alone assumes it returns only the index of an item it was shown. Its size, search mode and rendering are not modelled.
- The `ssh` child process and its terminal wiring are the `ssh` oracle.
- All oracles are deterministic functions. Calling one twice with the same arguments gives the same answer.
- `humanize.Time` is an abstract `int -> string`. Launch times are plain integers.
- The tabwriter is an abstract `Aligner`, assumed to give one line per row with no newline inside. Column widths and padding are not modelled. Fields that contain tabs or newlines are not modelled.
- `getInstanceInfoString` (cmd/ssh.go:200-214) and the text printed before a session in instance mode are not modelled: output only.
- Dispatch.Report: its contract states the prefix, the contents and the final newline of the printed text, not the exact text. The Go runtime writes a panic's message to standard error, followed by a goroutine trace, which is not modelled. `os.Exit` is the `exit` value of `Dispatch.RunSsh`.
- InstanceSearch.SshByInstanceId: this method, like `InstanceSearch.SshByInstanceIdAsWritten` and `Dispatch.RunSsh` in instance mode, requires every matched instance to have a private address. The source dereferences the address unchecked (cmd/ssh.go:63), so a missing address would be a nil-pointer panic, which is not modelled.
- Filters.RoleProfileFilterSelects and Filters.InstanceIdFilterSelects: stated only for arguments without `*`, `?` or `\`. Such characters are passed to the provider unescaped (cmd/ssh.go:146, 153, 165), and the filter then means more than containment or equality, as `Ec2.SpecialCharacters` shows.
- Tag values are plain strings. A tag with a nil value pointer is not modelled.
- Go's nil slice is the empty sequence, so `privateIPs == nil` is `|privateIPs| == 0`.
- The picker's failure is handed back as a failure with its message. Interrupting the picker is not told apart from other picker errors.
- `cmd/root.go`, `cmd/version.go` and `main.go` (command registration and version output) are not part of this model.

## Findings

| source | as written | input that shows it | evidently intended | confidence | as-written member | corrected member |
|---|---|---|---|---|---|---|
| cmd/ssh.go:69-77 | after `ssh` ends well, the loop goes on to the next environment, and the function finally returns "no instances found" | `assh i-…` where the instance is only in `stg` and the session ends well: `sandbox` is queried too, and the process prints "Error:  no instances found" and exits with 255 | return nil after the session | not executed | InstanceSearch.OnlyStgHoldsTheInstance | InstanceSearch.StopsAtFirstMatch |
| cmd/ssh.go:106 | the picker's items are `textLines[1:]`, which ends with the "" left by splitting the newline-terminated table | with N candidates, picking the last, blank item gives index N, and `privateIPs[N]` is out of range (panic) | items `textLines[1:len(textLines)-1]`, one per candidate | not executed | RoleSearch.AsWrittenBlankPickPanics | RoleSearch.CorrectedNeverPanics |

Both readings come from the code itself:

- Instance-id mode. Every other path through `sshByInstanceID` either returns an error or looks at the next environment. A session that ends well is the one outcome whose report, "Error:  no instances found" with exit status 255, is plainly wrong: an instance was found and used.
- Role mode. `privateIPs` and the rows are built together, one per candidate, so only the row items have an address to go with them.

`Dispatch.RunSsh` with `corrected` false is the code as written, and with `corrected` true it uses both corrections.
