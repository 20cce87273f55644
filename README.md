# Terramate: git base revision, repository checks and the `script` block validator

This project models two parts of Terramate's command line and configuration parser and
proves what they promise.

**The project's git decisions** (`cmd/terramate/cli/project.go`):
- which revision HEAD is compared with when stacks are selected by git changes (`defaultBaseRev`);
- the `remote/branch` ref it is built around;
- how `setDefaults` fills in the git options of the root configuration;
- the two repository checks, `checkDefaultRemote` and `checkRemoteDefaultBranchIsReachable`;
- the values the project memoises in its fields: the HEAD commit, the remote default commit and the
  normalised repository URL.

Every git call is an input: an `Answer<T>` that is either the call's answer or `Errored`.
Where the source discards a git error, the model reads the failed answer as Go's zero value
(`OrZero`).

**The `script` block validator** (`hcl/hcl_script.go`). It checks an already parsed block:
- the labels;
- the attribute names and the description;
- the nested `job` blocks, with their `command` / `commands` attributes and the rule that these two
  exclude each other.

It collects every error instead of stopping at the first, and builds the script only when
there is none. Errors are kept as their kinds (`ErrKind`), in the order they are reported.

## Files

| file | module | contents |
|---|---|---|
| wrappers.dfy | Wrappers | `Option`, `Result` |
| git_port.dfy | GitPort | `Answer<T>` (a git call's answer or its failure), `Remote` |
| project_config.dfy | ProjectConfig | the root configuration's optional terramate / config / git blocks |
| base_rev.dfy | BaseRev | `DefaultBaseRev`, its six cases in priority order, and its lemmas |
| project.dfy | Project | the `Project` class: memo fields, `SetDefaults`, the two checks |
| script_schema.dfy | ScriptSchema | the block AST, error kinds, and the functions that give a block's errors and parsed script |
| script_parser.dfy | ScriptParser | the validator's loops as methods, proved equal to those functions |
| script_properties.dfy | ScriptProperties | what the validator promises, as lemmas |
| script_examples.dfy | ScriptExamples | the cases of the parser's test table |

## Model

| member | source | states |
|---|---|---|
| GitPort.Answer.OrZero | cmd/terramate/cli/project.go:130-161 | a failed git call reads as the given zero value, a successful one as its answer |
| ProjectConfig.NewGitConfig | cmd/terramate/cli/project.go:199-201 | a new git block has all three branch/remote options empty |
| BaseRev.RemoteDefaultBranchRef | cmd/terramate/cli/project.go:171-174 | the ref is the remote name, then '/', then the branch name, and nothing else |
| BaseRev.DefaultBaseRev | cmd/terramate/cli/project.go:104-169 | the result is always the remote ref, the configured base ref, or a non-empty fork point |
| BaseRev.FirstMatchWins | cmd/terramate/cli/project.go:109-168 | when a case applies and no earlier case does, the result is that case's revision |
| BaseRev.SomeCaseDecides | cmd/terramate/cli/project.go:109-168 | some case always applies and gives the result (the procedure is exhaustive and never fails) |
| BaseRev.PendingUnmergedUsesRemoteRef | cmd/terramate/cli/project.go:129-139 | HEAD not at the remote commit and the ancestor probe false or failed gives the remote ref |
| BaseRev.AtRemoteTipCases | cmd/terramate/cli/project.go:133-153 | HEAD at the remote commit gives the base ref on the default branch, the remote ref on any other branch |
| BaseRev.AncestorCases | cmd/terramate/cli/project.go:155-168 | otherwise, with a true ancestor probe: a true first-parent probe `IsFirstParentAncestor(remote/branch, "HEAD")` gives the base ref, then a non-empty fork point, else the base ref |
| BaseRev.LaterCasesNeedAncestor | cmd/terramate/cli/project.go:133-139 | any result other than the remote ref needs HEAD at the remote commit or a true ancestor probe |
| BaseRev.EmptyHeadIsNeverAtRemote | cmd/terramate/cli/project.go:130-133 | an empty or failed HEAD never counts as the remote commit |
| BaseRev.BaseRevNonEmpty | cmd/terramate/cli/project.go:161-168 | with a non-empty base ref the result is never empty |
| BaseRev.AllProbesFailed | cmd/terramate/cli/project.go:130-139 | with every git call failed the result is the remote ref |
| BaseRev.RemoteRefDeterminesParts | cmd/terramate/cli/project.go:171-174 | for remote names without '/', equal refs mean equal remote and branch |
| Project.MemoLookup | cmd/terramate/cli/project.go:62-78 | a set memo is returned as is; otherwise a failed call ends the process, a successful one gives its answer |
| Project.MemoIsStable | cmd/terramate/cli/project.go:62-101 | after a non-empty value was returned, every later lookup returns it whatever git answers |
| Project.WithDefaults | cmd/terramate/cli/project.go:184-215 | the git block exists afterwards and each option is kept if set, else takes its default |
| Project.WithDefaultsIdempotent | cmd/terramate/cli/project.go:184-215 | setting the defaults twice gives the configuration that setting them once gives |
| Project.WithDefaultsKeepsSetOptions | cmd/terramate/cli/project.go:205-215 | options already set are unchanged; with non-empty defaults no option stays empty |
| Project.FirstRemoteNamed | cmd/terramate/cli/project.go:238-243 | the index found is the first remote with the name; none means no remote has it |
| Project.Project.constructor | cmd/terramate/cli/project.go:18-34 | a new project has every memo unset |
| Project.Project.SetDefaults | cmd/terramate/cli/project.go:176-218 | the configuration becomes `WithDefaults` of the old one and has a git block |
| Project.Project.HeadCommit | cmd/terramate/cli/project.go:62-78 | the result is the memoising lookup of HEAD; the memo takes the value returned |
| Project.Project.RemoteDefaultCommit | cmd/terramate/cli/project.go:80-101 | the memo if set, else the fetched commit, else an exit naming the remote and branch; the memo takes the value |
| Project.Project.PrettyRepo | cmd/terramate/cli/project.go:40-60 | the memo if set; else, in a repository whose URL is known, the normalised URL, memoised; else empty |
| Project.Project.CheckDefaultRemote | cmd/terramate/cli/project.go:220-263 | passes iff the remotes are listed, one has the default name, and the first such lists the default branch; distinct errors otherwise, the branch error listing the branches |
| Project.Project.CheckRemoteDefaultBranchIsReachable | cmd/terramate/cli/project.go:265-296 | passes iff both commits resolve and their merge base is the remote commit; out of date otherwise, or the exit of a failed lookup; the head memo ends as one lookup leaves it, the remote memo too once the head resolved, and untouched otherwise |
| Project.HeadCommitIsReadOnce | cmd/terramate/cli/project.go:62-66 | two reads of HEAD through one project agree once the first gave a non-empty commit |
| ScriptSchema.Message | hcl/hcl_script.go:12-24 | every error text starts with the schema error prefix and says more |
| ScriptProperties.MessagesDistinct | hcl/hcl_script.go:12-24 | two kinds have the same error text exactly when they are the same kind |
| ScriptSchema.ValidateDescription | hcl/hcl_script.go:102-116 | a description is accepted, unchanged, iff it is a non-empty string (corrected: see Findings) |
| ScriptSchema.DescriptionAsWritten | hcl/hcl_script.go:102-116 | as written: an evaluation error or empty string is rejected, a non-empty string accepted, any other value panics |
| ScriptSchema.ValidateCommand | hcl/hcl_script.go:161-181 | a command is accepted, unchanged, iff its value is a list of strings |
| ScriptSchema.CommandsAsWritten | hcl/hcl_script.go:185-212 | as written: a string, number, boolean or failed evaluation panics; accepted iff a tuple of string lists, with those commands |
| ScriptParser.ValidateCommands | hcl/hcl_script.go:185-212 | accepted iff the value is a tuple whose every element is a list of strings; then every inner list is kept, in order |
| ScriptParser.ValidateScriptJobBlock | hcl/hcl_script.go:118-157 | the job iff its attributes report no error, else exactly the errors of its attributes in order, plus the conflict |
| ScriptParser.CheckScriptAttributes | hcl/hcl_script.go:62-74 | the errors of the script's attributes in order, and the last valid description |
| ScriptParser.CheckNestedBlocks | hcl/hcl_script.go:80-92 | the errors of the nested blocks in order, and with none the jobs of the job blocks |
| ScriptParser.ParseScriptBlock | hcl/hcl_script.go:45-100 | a script iff no error was collected: its labels, last valid description and jobs in order; else every error in report order |
| ScriptProperties.ScriptAttrErrorKinds | hcl/hcl_script.go:62-74 | script attributes report only invalid-description and unknown-attribute errors |
| ScriptProperties.JobAttrErrorKinds | hcl/hcl_script.go:123-145 | job attributes report only invalid-command, invalid-commands and unknown-attribute errors |
| ScriptProperties.NestedBlockErrorKinds | hcl/hcl_script.go:80-92 | nested blocks report only job errors and unknown-block errors |
| ScriptProperties.InvalidJobNeverReported | hcl/hcl_script.go:20 | the declared invalid-job kind is never reported |
| ScriptProperties.LabelErrorsExclusive | hcl/hcl_script.go:48-52 | two-labels iff the count is not 2; empty-label iff two labels, the first empty; never both, each at most once |
| ScriptProperties.MissingAttrsAndBlocks | hcl/hcl_script.go:58-78 | no-attributes iff none, no-blocks iff none; with neither, exactly both, in that order, after the label error |
| ScriptProperties.ScriptAttrErrorsPerOffender | hcl/hcl_script.go:62-74 | one unknown-attribute error per attribute not named description, one invalid-description per rejected description, nothing else |
| ScriptProperties.JobUnknownAttrPerOffender | hcl/hcl_script.go:141-142 | one unknown-attribute error per job attribute that is neither command nor commands |
| ScriptProperties.InvalidCommandPerOffender | hcl/hcl_script.go:125-140 | one invalid-command error per bad command, one invalid-commands per bad commands |
| ScriptProperties.UnknownBlockPerOffender | hcl/hcl_script.go:88-89 | one unknown-block error per nested block that is not a job |
| ScriptProperties.EmptyDescriptionRejected | hcl/hcl_script.go:64-69 | an empty description adds invalid-description and leaves the description as it was |
| ScriptProperties.DescriptionOfIsValid | hcl/hcl_script.go:64-70 | a description is set iff the block has a valid one, and it is one of them |
| ScriptProperties.CmdConflictIffBoth | hcl/hcl_script.go:147-150 | the conflict is reported iff both a command and a commands were accepted |
| ScriptProperties.JobSucceedsIff | hcl/hcl_script.go:118-157 | a job is accepted iff every attribute is a valid command or commands and not both are present |
| ScriptProperties.JobOfCommand | hcl/hcl_script.go:125-132 | the job's command is set iff a valid command is present, and it is one of them |
| ScriptProperties.JobOfCommands | hcl/hcl_script.go:133-140 | the job's commands are those of a valid commands attribute if there is one, else empty |
| ScriptProperties.ScriptSucceedsIff | hcl/hcl_script.go:45-100 | a script is accepted iff two labels, first non-empty, some attributes all valid descriptions, some nested blocks all accepted jobs |
| ScriptProperties.JobsOfCount | hcl/hcl_script.go:80-87 | there is one job per job block |
| ScriptProperties.JobsOfAllJobs | hcl/hcl_script.go:80-87 | when all blocks are jobs, job i is built from block i |
| ScriptProperties.AcceptedScriptJobs | hcl/hcl_script.go:80-98 | an accepted script has one job per nested block, in source order |
| ScriptProperties.NumericDescriptionPanics | hcl/hcl_script.go:110 | as written, `description = 1` panics; corrected, it is rejected |
| ScriptProperties.CorrectedDescriptionAgrees | hcl/hcl_script.go:102-116 | the corrected description check agrees with the source wherever the source does not panic |
| ScriptProperties.StringCommandsPanics | hcl/hcl_script.go:196 | as written, `commands = "ls"` and a failed evaluation panic; corrected, `"ls"` is rejected |
| ScriptProperties.CorrectedCommandsAgrees | hcl/hcl_script.go:185-212 | the corrected commands check agrees with the source wherever the source does not panic |
| ScriptExamples.UnrecognizedBlocks | hcl/hcl_script_test.go:34-56 | two unknown blocks give two unknown-block errors |
| ScriptExamples.NoDescription | hcl/hcl_script_test.go:57-76 | an empty script gives no-attributes then no-blocks |
| ScriptExamples.EmptyDescription | hcl/hcl_script_test.go:77-97 | an empty description gives invalid-description then no-blocks |
| ScriptExamples.DescriptionOnly | hcl/hcl_script_test.go:98-116 | a description alone gives no-blocks |
| ScriptExamples.UnknownScriptAttr | hcl/hcl_script_test.go:117-139 | an unknown attribute gives one unknown-attribute error |
| ScriptExamples.OneJobScript | hcl/hcl_script.go:45-100 | valid labels, one valid description and one good job give that script |
| ScriptExamples.JobCommand | hcl/hcl_script_test.go:140-171 | a job with a command parses to that command |
| ScriptExamples.JobCommands | hcl/hcl_script_test.go:172-209 | a job with commands parses, keeping the description and both command lists, in order |
| ScriptExamples.CommandAndCommands | hcl/hcl_script_test.go:210-235 | command and commands together give the conflict |
| ScriptExamples.UnknownJobAttr | hcl/hcl_script_test.go:236-258 | an unknown job attribute gives one unknown-attribute error |
| ScriptExamples.InvalidCommand | hcl/hcl_script_test.go:259-280 | a command holding a number gives invalid-command |
| ScriptExamples.InvalidCommands | hcl/hcl_script_test.go:281-305 | commands holding a number gives invalid-commands |
| ScriptExamples.MultipleJobs | hcl/hcl_script_test.go:306-361 | three jobs parse in source order |
| ScriptExamples.MultipleScripts | hcl/hcl_script_test.go:362-419 | two scripts are validated independently, each with its own job |

## Left out

- The git plumbing is not modelled: `RevParse`, `IsAncestor`, `IsFirstParentAncestor`,
  `FindForkPoint`, `CurrentBranch`, `MergeBase`, `Remotes`, `FetchRemoteRev` and `URL` run
  subprocesses. Their answers are parameters (`Probes`, `Answer<T>`).
- Logging is left out.
- `logger.Fatal()` ends the process in `headCommit` and `remoteDefaultCommit`. Here it is the error
  result `Fatal`. A check that hits it returns `Exited`.
- `cloud.NormalizeGitURI` is not part of this model. `PrettyRepo` takes the normaliser as a function
  parameter.
- The package constants `defaultRemote`, `defaultBranch` and `defaultBranchBaseRef` are not part of
  this model. `SetDefaults` takes them as a `GitConfig` parameter.
- `CheckError.RemotesUnavailable` carries no remote name. The source's message names the package
  constant `defaultRemote`, not the configured remote.
- ProjectConfig.NewGitConfig assumes that a new git block starts with the three string options
  empty, as the comment at cmd/terramate/cli/project.go:194-198 says; the function itself is not
  part of this model. The boolean options it sets are dropped, since `setDefaults` does not read
  them.
- The root configuration tree is reduced to the one node whose terramate block `setDefaults` and
  `gitcfg` read.
- Project.Project.CheckRemoteDefaultBranchIsReachable does not repeat the lookups. The source asks
  for each commit two or three times (for logging and for the merge base). The model asks once per
  commit and uses that answer for the merge base and the comparison. After a non-empty answer the
  repeated lookups return the memo anyway (`MemoIsStable`). After an empty answer the source would ask
  git again, and the model does not.
- HCL expression evaluation is abstracted. An evaluated value is a `Value`: a string, number,
  boolean, list, tuple, or an evaluation that reported errors.
- Null values are not modelled. The only unknown value modelled is the one a failed evaluation
  returns (`VEvalErr`).
- The other cty types are not modelled.
- `ValueAsStringList` is not part of this model. The model takes "is a list of strings" to mean a
  list or tuple whose every element is a string, as the tests use it.
- Source ranges and error messages' extra arguments are not modelled. Errors are their kinds.
- ScriptParser.ValidateCommands does not model the elements of a failed value. After an error, the
  source still walks a list or tuple and collects the parsed lists of a rejected value. The model
  returns only `None`, because the source discards that slice on error.
- A nil `Commands` and an empty one are both the empty sequence.
- The model splits `parseScriptBlock` into three parts: `ParseScriptBlock` and the two loops
  `CheckScriptAttributes` and `CheckNestedBlocks`. Together they make the same checks in the same
  order. `ParseScriptBlock`'s contract ties the three back to the one `ScriptErrors` function.
- Not modelled: the cloud credential code, the end-to-end test helper and the status and tag
  filtering exercised by the end-to-end tests. They do network calls, concurrency, wall-clock time
  and process I/O, and the filtering's implementation is not part of this model.
- A failed ancestor probe reads as `false` (cmd/terramate/cli/project.go:135). So with HEAD away
  from the remote commit, the result is the remote ref (case 1), not the deployed fallback at
  cmd/terramate/cli/project.go:167-168. `AllProbesFailed` states this.

## Findings

| source | as written | input that shows it | evidently intended | confidence | as-written member | corrected member |
|---|---|---|---|---|---|---|
| hcl/hcl_script.go:110 | `val.AsString()` is called on any value that evaluated without errors | `description = 1` (a number): the string conversion panics | a non-string description is reported as an invalid description | not executed | ScriptSchema.DescriptionAsWritten, ScriptProperties.NumericDescriptionPanics | ScriptSchema.ValidateDescription, ScriptProperties.CorrectedDescriptionAgrees |
| hcl/hcl_script.go:196 | `val.AsValueSlice()` is called after the evaluation errors or the "wrong type" error are recorded, whatever the value | `commands = "ls"` (a string), or a value whose evaluation failed (an unknown value): taking the elements of a non-collection panics | a non-tuple value or a failed evaluation is reported as invalid commands | not executed | ScriptSchema.CommandsAsWritten, ScriptProperties.StringCommandsPanics | ScriptParser.ValidateCommands, ScriptProperties.CorrectedCommandsAgrees |
