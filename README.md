# release-police, modelled in Dafny

release-police is an interactive release workflow for npm projects. It
resolves a configuration (a config file, a `releasePolice` field in
package.json, or built-in defaults). It applies the command-line overrides.
Then it runs eight steps in a fixed order:

1. check the branch;
2. sync with the remote;
3. run the checks (typecheck, lint, test);
4. commit the work tree;
5. bump the version;
6. push;
7. deploy;
8. create a GitHub release.

Every step may stop the process: with exit code 1 on a fatal failure, or with
exit code 0 when the user declines or cancels a prompt.

The model replaces the outside world with oracles (module `Effects`):

- `shell(log, command)` gives a command's output, or `None` when the command
  fails.
- `confirm(log)` answers a yes/no prompt with `Yes`, `No` or `Cancel`.
- `select(log)` and `text(log)` answer the version-type and commit-message
  prompts; `None` means cancel.

Each oracle answers as a function of everything that happened before. The
`Terminal` class records every command run and every prompt shown, in order,
in an event log. `process.exit` becomes an `Exit(code)` outcome.

Each step has two parts:

- a specification function `XRun(context, env, log)`, which returns the new
  log, the outcome and the new context; its `ensures` clauses and the lemmas
  beside it state what the step promises;
- a method that works on the mutable `ReleaseContext` class and the
  `Terminal`, proved to do exactly what the specification function says.

`Runner.RunRelease` loads the configuration, applies the overrides, creates
the context and calls the eight step methods. It is proved equal to
`Runner.ReleaseRun`, which chains the step functions together.

The configuration defaults follow src/core/config.ts:7-38. The test file
src/core/config.test.ts still expects an older set of defaults ('npm run
test:all', no typecheck, lint, deploy or runChecks); the model follows the
code, not that test.

The modules follow the source files:

- `Types`: src/core/types.ts
- `Config`: src/core/config.ts
- `Cli`: src/cli.ts
- `Runner`: src/core/runner.ts
- one module per step under src/steps/
- `JsString`: the JavaScript string operations the source relies on
- `Effects`: src/utils/exec.ts and src/utils/prompts.ts
- `Wrappers`: `Option` and `Result`

## Model

| member | source | states |
|---|---|---|
| `Types.ParseVersionType` | src/core/types.ts:6 | a string is a version type iff it is one of "patch", "minor", "major", and then it names exactly that type |
| `Types.ParseVersionTypeName` | src/core/types.ts:6 | every version type reads back from its name |
| `Types.ReleaseContext.constructor` | src/core/runner.ts:57-61 | a new context holds the config and options, takes `dryRun` from the options, and has no branch, current version or new version yet |
| `Config.MergePrecedence` | src/core/config.ts:108-136 | for each of the 22 keys, the resolved value is the user's value when the key is given (an explicit null command included) and otherwise the default, spelled out key by key; `runChecks` falls back to `runTests` before its default |
| `Config.MergeRunTestsAlias` | src/core/config.ts:115-118 | `runTests` given without `runChecks` sets `runChecks` to the `runTests` value |
| `Config.MergeRunChecksExplicit` | src/core/config.ts:110-118 | an explicit `runChecks` is kept whatever `runTests` says |
| `Config.MergeExtremes` | src/core/config.ts:108-136 | an empty user config merges to exactly the defaults; a user config that gives every key merges to exactly that config |
| `Config.CommandsKeyLocal` | src/core/config.ts:122-125 | two command sections that agree on a command resolve to the same value for it, whatever the other commands say |
| `Config.StepsKeyLocal` | src/core/config.ts:110-118 | two steps sections that agree on a step resolve to the same value for it; `runChecks` needs agreement on `runChecks` and `runTests` |
| `Config.MergeIsKeyLocal` | src/core/config.ts:108-136 | over any default object, two user configs that agree on a key resolve to the same value for that key, for every one of the 22 keys (`runChecks`: agreement on `runChecks` and `runTests`) |
| `Config.DevelopBranchExample` | src/core/config.ts:120-125 | a user `releaseBranches` replaces the default list wholesale, and a lone test command leaves install at its default |
| `Config.DefineConfig` | src/core/config.ts:141-143 | returns its argument unchanged |
| `Config.FirstExisting` | src/core/config.ts:57-63 | gives the first existing candidate; every earlier one is missing, and `None` means none exists |
| `Config.LoadConfig` | src/core/config.ts:43-80 | the search loop yields exactly `Resolve`: explicit path, then the candidate files in order, then package.json, then the defaults |
| `Config.ExplicitPathMissing` | src/core/config.ts:47-51 | a missing explicit path is the error "Config file not found: <path>" |
| `Config.ExplicitPathWins` | src/core/config.ts:47-54 | an existing explicit path is loaded, ahead of every other source |
| `Config.FirstCandidateWins` | src/core/config.ts:56-63 | without an explicit path, the first existing of release.config.ts, .js, .mjs is loaded |
| `Config.NothingFoundGivesDefaults` | src/core/config.ts:65-79 | no path, no file, and a missing, unparsable or field-less package.json give the defaults, which are spelled out, and never an error |
| `Config.ManifestFieldUsed` | src/core/config.ts:65-72 | with no config file, package.json's `releasePolice` is merged over the defaults |
| `Config.OnlyFilesFail` | src/core/config.ts:43-80 | without an explicit path, the only possible failure is loading a candidate file |
| `Cli.MapArgs` | src/cli.ts:69-89 | fails with code 1 iff a non-empty version type is not patch/minor/major; otherwise every flag and `--config` is copied to its option, and the version type is set iff it was given, naming it |
| `Cli.NoArgsNoOptions` | src/cli.ts:22-78 | with no argument every flag is false and no version type or config path is set |
| `Cli.ValidVersionTypeKept` | src/cli.ts:81-89 | a valid `--version-type` reaches the options as that type |
| `Cli.Dispatch` | src/cli.ts:96-112 | the release command runs iff the first argument is not `init`; `init` with `--help`/`-h` only prints help; otherwise init gets the remaining arguments |
| `Cli.HandlerRun` | src/cli.ts:68-92 | an invalid version type ends with exit 1 before anything runs; otherwise the handler is the release run on the mapped options |
| `Cli.RunHandler` | src/cli.ts:68-92 | the handler's log and outcome are exactly `HandlerRun` |
| `Runner.ApplyOverrides` | src/core/runner.ts:38-54 | each skip flag switches its step off and never on; `--github-release` switches both release switches on and never off; nothing else changes |
| `Runner.NoFlagsNoChange` | src/core/runner.ts:38-54 | with no flags the loaded configuration is kept unchanged |
| `Runner.OverridesIdempotent` | src/core/runner.ts:38-54 | applying the overrides twice is applying them once |
| `Runner.Override` | src/core/runner.ts:38-54 | the in-place override block yields `ApplyOverrides` |
| `Runner.InitialContext` | src/core/runner.ts:57-61 | `dryRun` comes from the options; branch and versions start unset |
| `Runner.StepRun` | src/core/runner.ts:64-71 | every step only appends to the log; it keeps the config, options and dry-run flag; it continues or exits with 0 or 1 |
| `Runner.PipelineFrom` | src/core/runner.ts:64-71 | the steps from any point on keep the history, the config, the options and the dry-run flag, and end in continue, exit 0 or exit 1 |
| `Runner.ReleaseRun` | src/core/runner.ts:29-71 | a config that does not load gives exit 1 with nothing run; otherwise the steps run on the overridden config in a fresh context |
| `Runner.StepDryRun` | src/core/runner.ts:64-71 | in a dry run each step issues only read-only queries, shows no prompt and never exits with 0 |
| `Runner.DryRunIsReadOnly` | src/core/runner.ts:64-71 | a whole dry run issues only `git branch --show-current`, `git fetch`, `git rev-list`, `git status` and `npm pkg get version`, and shows no prompt |
| `Runner.AllOffIsNoOp` | src/core/runner.ts:64-71 | with every step disabled the workflow runs nothing and changes nothing |
| `Runner.FailFast` | src/core/runner.ts:64-71 | a step that exits ends the run there, so no later step issues anything; otherwise the next step starts from the state it left |
| `Runner.SkipFlagsSilenceSteps` | src/core/runner.ts:39-50 | `--skip-sync`, `--skip-tests`/`--skip-checks`, `--skip-push` and `--skip-deploy` make their steps no-ops |
| `Runner.RunSteps` | src/core/runner.ts:64-71 | the eight step calls, with early return, are exactly `PipelineFrom(0)` |
| `Runner.RunRelease` | src/core/runner.ts:18-78 | the whole run's log and outcome are exactly `ReleaseRun` |
| `Runner.SharedConfigAsWritten` | src/core/config.ts:43-135 | `loadConfig` merges over, or falls back to, the shared default object as it stands; the config is the overridden result, a load error is passed on; after a fallback call the overridden config becomes the shared object, after any other call the shared object is unchanged |
| `Runner.SharedDefaultsLeak` | src/core/runner.ts:48-50 | as written, `--skip-push` in one call switches push off for a later flag-less call that uses the defaults |
| `Runner.SharedDefaultsLeakThroughFile` | src/core/config.ts:110-134 | as written, after a fallback call with `--skip-push` and `--github-release`, a flag-less call whose release.config.ts exports `{}` skips the push and creates a GitHub release, though that file over the built-in defaults pushes and creates none |
| `Runner.FreshDefaultsEachCall` | src/core/config.ts:78-79 | with the defaults taken as a value, a call that uses them starts from the defaults, with only its own flags applied |
| `Runner.FileConfigStartsFromDefaults` | src/core/config.ts:110-134 | with the defaults taken as a value, a release.config.ts exporting `{}` resolves to the built-in defaults: push on, no GitHub release |
| `BranchCheck.BranchAllowed` | src/steps/branch-check.ts:27-34 | a branch is allowed iff some pattern allows it; so an empty list allows nothing |
| `BranchCheck.StarMatches` | src/steps/branch-check.ts:30 | `*` alone matches any single-line name, the empty one included |
| `BranchCheck.LiteralMatches` | src/steps/branch-check.ts:30 | a pattern without `*` or `.` matches only the identical name |
| `BranchCheck.PrefixStarMatches` | src/steps/branch-check.ts:28-31 | `<prefix>*` matches exactly the single-line names that start with the prefix |
| `BranchCheck.ReleaseSlashStar` | src/steps/branch-check.ts:28-31 | 'release/*' allows 'release/1.0' and 'release/' but not 'release' or 'releasefoo' |
| `BranchCheck.ExactPattern` | src/steps/branch-check.ts:33 | a pattern without `*` allows only the identical branch |
| `BranchCheck.CheckBranchRun` | src/steps/branch-check.ts:9-59 | disabled is a no-op; a failed branch query exits 1; the branch is stored trimmed; an allowed branch or a dry run continues without a prompt; otherwise only "yes" continues and anything else exits 0 |
| `BranchCheck.CheckBranchDryRun` | src/steps/branch-check.ts:45-48 | a dry run only reads the branch and never exits with 0 |
| `BranchCheck.CheckBranch` | src/steps/branch-check.ts:9-59 | the method's log, outcome and context are exactly `CheckBranchRun` |
| `RemoteSync.PullCommand` | src/steps/remote-sync.ts:112-118 | rebase gives 'git pull --rebase', ff-only gives 'git pull --ff-only', merge gives 'git pull', in both directions |
| `RemoteSync.PullRun` | src/steps/remote-sync.ts:107-135 | `pullChanges` only appends to the log, keeps the context, and continues or exits 1 |
| `RemoteSync.PullSteps` | src/steps/remote-sync.ts:112-134 | the pull command for the strategy runs first; a failed pull exits 1 with nothing after it; install runs iff the pull succeeded and install is a non-empty command; a failed install exits 1; the step continues iff the pull and, when configured, the install succeeded |
| `RemoteSync.UncommittedRun` | src/steps/remote-sync.ts:65-105 | `handleUncommittedChanges` only appends to the log, keeps the context, and continues or exits with 0 or 1 |
| `RemoteSync.UncommittedSteps` | src/steps/remote-sync.ts:65-98 | a clean or unreadable status does nothing more; a dry run only shows the changes; declining the WIP commit exits 0; going on past a dirty tree means 'git add .' and the WIP commit ran |
| `RemoteSync.UncommittedApproved` | src/steps/remote-sync.ts:94-104 | once the WIP commit is accepted, a failed 'git add .' exits 1 with nothing after it; otherwise the WIP commit runs, and its failure exits 1; the step continues iff both succeeded |
| `RemoteSync.SyncRemoteRun` | src/steps/remote-sync.ts:9-63 | `syncRemote` only appends to the log, keeps the context, continues or exits with 0 or 1, and is a no-op when disabled |
| `RemoteSync.SyncRemoteSteps` | src/steps/remote-sync.ts:14-48 | a failed fetch only warns and ends the step; an up-to-date branch ends the step; a dry run never prompts or pulls; declining the pull exits 0 |
| `RemoteSync.SyncRemoteApproved` | src/steps/remote-sync.ts:51-55 | after the user agrees, uncommitted work is handled first, and the pull runs only when that went through |
| `RemoteSync.SyncRemoteDryRun` | src/steps/remote-sync.ts:35-39 | a dry run only fetches and counts, and continues |
| `RemoteSync.HandleUncommittedChanges` | src/steps/remote-sync.ts:65-105 | the method is exactly `UncommittedRun` |
| `RemoteSync.PullChanges` | src/steps/remote-sync.ts:107-135 | the method is exactly `PullRun` |
| `RemoteSync.SyncRemote` | src/steps/remote-sync.ts:9-63 | the method is exactly `SyncRemoteRun` |
| `ChecksRunner.Capitalize` | src/steps/checks-runner.ts:9-11 | the first character is upper-cased and the rest kept; "" stays "" |
| `ChecksRunner.CapitalizeIdempotent` | src/steps/checks-runner.ts:9-11 | capitalizing twice is capitalizing once; a non-lower-case head is left alone |
| `ChecksRunner.CheckCommands` | src/steps/checks-runner.ts:50-55 | at most three commands, none of them empty |
| `ChecksRunner.RunCommandRun` | src/steps/checks-runner.ts:16-40 | an unset or empty command, or a dry run, runs nothing; otherwise the command runs once and its failure is exit 1 |
| `ChecksRunner.RunChecksRun` | src/steps/checks-runner.ts:45-56 | disabled or dry run runs nothing; the outcome is continue or exit 1 |
| `ChecksRunner.AttemptRunsPrefix` | src/steps/checks-runner.ts:34-39 | a fail-fast run issues a prefix of the commands in order; it continues only if all ran, else it exits 1 after at least one |
| `ChecksRunner.AttemptSucceeded` | src/steps/checks-runner.ts:34-39 | every command run before the last one succeeded |
| `ChecksRunner.AttemptFailed` | src/steps/checks-runner.ts:34-39 | when the run exits, the last command run is the one that failed, and none after it ran |
| `ChecksRunner.AttemptSlot` | src/steps/checks-runner.ts:22-39 | one `runCommand` followed by the rest is the fail-fast run of its command followed by the rest |
| `ChecksRunner.RunChecksIsAttempt` | src/steps/checks-runner.ts:45-56 | an enabled real run is the fail-fast run of the configured commands in the order typecheck, lint, test |
| `ChecksRunner.RunCommand` | src/steps/checks-runner.ts:16-40 | the method is exactly `RunCommandRun` |
| `ChecksRunner.RunChecks` | src/steps/checks-runner.ts:45-56 | the method is exactly `RunChecksRun` |
| `GitStatus.EscapeQuotes` | src/steps/git-status.ts:80 | escaping adds exactly one character per double quote, and only the empty message escapes to "" |
| `GitStatus.EscapedQuotesGuarded` | src/steps/git-status.ts:80 | every double quote in an escaped message has a backslash before it |
| `GitStatus.EscapeRoundTrip` | src/steps/git-status.ts:80 | taking the inserted backslashes out gives back the original message |
| `GitStatus.CommitCommand` | src/steps/git-status.ts:80 | the command is exactly as long as 'git commit -m "', the escaped message and the closing quote together |
| `GitStatus.CommitCommandReadsBack` | src/steps/git-status.ts:80 | the command is 'git commit -m "', the escaped message and a closing quote, and the message reads back from it exactly |
| `GitStatus.CheckAndCommitRun` | src/steps/git-status.ts:9-96 | `checkAndCommit` only appends to the log, keeps the context, continues or exits with 0 or 1, and is a no-op when disabled |
| `GitStatus.CleanTreeSteps` | src/steps/git-status.ts:14-41 | the status is read first; a failed status exits 1; a clean tree continues in a dry run, and otherwise only on "yes" |
| `GitStatus.DirtyTreeSteps` | src/steps/git-status.ts:43-74 | a dirty tree is shown; a dry run stops there; declining the commit or cancelling the message exits 0 |
| `GitStatus.DirtyTreeCommitted` | src/steps/git-status.ts:64-82 | going on past a dirty tree means the message was asked, and 'git add .' and the commit with that message ran, in that order, and both succeeded |
| `GitStatus.DirtyTreeApproved` | src/steps/git-status.ts:76-95 | with the commit accepted and a message typed, a failed 'git add .' exits 1 with nothing after it; a failed commit exits 1; the step continues iff both succeeded |
| `GitStatus.CheckAndCommitDryRun` | src/steps/git-status.ts:26-52 | a dry run only reads the status and never exits with 0 |
| `GitStatus.CheckAndCommit` | src/steps/git-status.ts:9-96 | the method is exactly `CheckAndCommitRun` |
| `VersionBump.BumpCommand` | src/steps/version-bump.ts:95 | the command is 'npm version ' followed by the name of the chosen type |
| `VersionBump.CleanVersion` | src/steps/version-bump.ts:40 | the current version holds no double quote and is the trimmed output when that has none |
| `VersionBump.Unquote` | src/steps/version-bump.ts:40 | a version printed as a JSON string without inner quotes loses exactly its two quotes |
| `VersionBump.CleanVersionExample` | src/steps/version-bump.ts:40 | the output '"1.2.3"' on a line of its own gives 1.2.3 |
| `VersionBump.BumpedVersion` | src/steps/version-bump.ts:96 | the new version is the trimmed output with one 'v' removed, or unchanged when it has none |
| `VersionBump.BumpedVersionExample` | src/steps/version-bump.ts:95-96 | the output "v1.2.4\n" gives "1.2.4" |
| `VersionBump.ChooseType` | src/steps/version-bump.ts:14-35 | a command-line type wins without a prompt; a dry run uses patch without a prompt; otherwise the selection is asked, and a cancel is `None` |
| `VersionBump.ChangelogLog` | src/steps/version-bump.ts:68-89 | changelog, status, add and commit run in that order as a prefix; the commit part runs iff the changelog succeeded and the status is non-empty |
| `VersionBump.PrepareRun` | src/steps/version-bump.ts:52-89 | only a failed build stops the release, with exit 1 and nothing after the build; a changelog failure only warns |
| `VersionBump.PrepareSteps` | src/steps/version-bump.ts:54-66 | a configured build is the first command; without one a configured changelog is first; going on, the changelog part runs after the build when configured, and nothing runs otherwise |
| `VersionBump.BumpRun` | src/steps/version-bump.ts:91-111 | continuing means 'npm version <type>' ran last and its output is the new version; a failure records no new version |
| `VersionBump.ReadAndBumpRun` | src/steps/version-bump.ts:37-111 | after the type is chosen, only the two versions in the context may change, and a new version is recorded only by a real, successful bump |
| `VersionBump.ReadAndBumpSteps` | src/steps/version-bump.ts:37-52 | a failed version query exits 1; otherwise the current version is recorded without quotes before anything else; a dry run stops there; a real run goes on to build, changelog and bump |
| `VersionBump.BumpVersionRun` | src/steps/version-bump.ts:9-112 | `bumpVersion` only appends to the log and changes only the two versions; it is a no-op when disabled; it exits 0 only on a cancelled selection, which a dry run never shows; only a real, successful bump records a new version |
| `VersionBump.BumpVersionSteps` | src/steps/version-bump.ts:14-37 | the type is chosen first; a cancelled selection exits 0; otherwise the version is read and the chosen type is bumped |
| `VersionBump.BumpVersionDryRun` | src/steps/version-bump.ts:47-50 | a dry run only reads the version, prompts for nothing and records no new version |
| `VersionBump.GenerateChangelog` | src/steps/version-bump.ts:69-89 | the method's log is exactly `ChangelogLog` |
| `VersionBump.Prepare` | src/steps/version-bump.ts:52-89 | the build and changelog part is exactly `PrepareRun` |
| `VersionBump.Bump` | src/steps/version-bump.ts:52-111 | the method is exactly `BumpRun` |
| `VersionBump.BumpVersion` | src/steps/version-bump.ts:9-112 | the method is exactly `BumpVersionRun` |
| `Push.PushRun` | src/steps/push.ts:9-56 | disabled or dry run does nothing; declining or cancelling exits 0; accepting runs exactly 'git push && git push --tags', and its failure exits 1; continuing implies an approved push |
| `Push.PushToRemote` | src/steps/push.ts:9-56 | the method is exactly `PushRun` |
| `Deploy.DeployRun` | src/steps/deploy.ts:9-37 | disabled, unconfigured or dry run does nothing; otherwise the deploy command runs once and exits 1 iff it fails |
| `Deploy.Deploy` | src/steps/deploy.ts:9-37 | the method is exactly `DeployRun` |
| `TestRunner.RunTestsRun` | src/steps/test-runner.ts:9-38 | gated by `runTests`; unconfigured or dry run does nothing; otherwise the test command runs once and exits 1 iff it fails |
| `TestRunner.RunTestsIsRunChecks` | src/steps/test-runner.ts:9-38 | with only a test command configured, the deprecated step does what `runChecks` does |
| `TestRunner.RunTests` | src/steps/test-runner.ts:9-38 | the method is exactly `RunTestsRun` |
| `GithubRelease.Tag` | src/steps/github-release.ts:28 | the tag is 'v' followed by the version |
| `GithubRelease.AnnouncedTag` | src/steps/github-release.ts:16 | a dry run announces 'v<version>', or 'v<new-version>' when no non-empty version is known |
| `GithubRelease.CreateCommandParts` | src/steps/github-release.ts:56-63 | the filter keeps the three fixed parts and exactly the flags switched on, in order |
| `GithubRelease.CreateCommandShape` | src/steps/github-release.ts:56-64 | the command is 'gh release create <tag> --title "<tag>"' followed by each flag switched on ('--draft', then '--generate-notes'), each preceded by one space |
| `GithubRelease.GithubReleaseRun` | src/steps/github-release.ts:8-89 | never exits and never changes the context; off, dry run or no new version runs nothing; the release is created iff `gh --version` and `gh auth status` both report something |
| `GithubRelease.CreateGithubRelease` | src/steps/github-release.ts:8-89 | the method is exactly `GithubReleaseRun` |
| `Effects.Terminal.Exec` | src/utils/exec.ts:10-34 | a command is logged and yields the oracle's output, or `None` on failure |
| `Effects.Terminal.Confirm` | src/utils/prompts.ts:18-35 | a confirmation is logged and yields yes, no or cancel |
| `Effects.Terminal.SelectVersion` | src/steps/version-bump.ts:24-33 | the version selection is logged and yields a type or a cancel |
| `Effects.Terminal.AskMessage` | src/steps/git-status.ts:65-74 | the message prompt is logged and yields a non-empty message or a cancel |
| `JsString.Trim` | src/steps/branch-check.ts:16 | the result is the input with all leading and trailing ECMAScript white space and line terminators removed, and nothing else |
| `JsString.TrimIdempotent` | src/steps/git-status.ts:16 | trimming twice is trimming once |
| `JsString.RemoveAll` | src/steps/version-bump.ts:40 | `replace(/"/g, '')` leaves no such character and keeps every other character as often as it occurs |
| `JsString.RemoveAllAppend` | src/steps/version-bump.ts:40 | removing from a concatenation is concatenating the removals, so the kept characters stay in order |
| `JsString.RemoveAllChar` | src/steps/version-bump.ts:40 | a single character is removed when it is the one removed and kept otherwise |
| `JsString.RemoveFirst` | src/steps/version-bump.ts:96 | `replace('v', '')` removes exactly the first occurrence, if any |
| `JsString.NonEmpty` | src/steps/github-release.ts:56-64 | `filter(Boolean)` keeps only non-empty strings, keeps every non-empty one, and keeps a list without empty strings as it is |
| `JsString.NonEmptyAppend` | src/steps/github-release.ts:56-64 | filtering a concatenation is concatenating the filtered parts, so the kept strings stay in order |
| `JsString.NonEmptySingle` | src/steps/github-release.ts:56-64 | a single string is dropped when empty and kept otherwise |
| `JsString.JoinAppend` | src/steps/github-release.ts:56-64 | `join` of two non-empty lists puts exactly one separator between their joins |
| `JsString.PrefixedJoin` | src/steps/github-release.ts:56-64 | a separator followed by the `join` of a non-empty list is every element preceded by one separator |

## Left out

- `BranchCheck.Matches` treats every regular-expression metacharacter in a branch pattern other than `*` and `.` as a literal character. In the source, `+`, `?`, `[`, `(`, `^`, `$`, `|` and `\` keep their regular-expression meaning.
- `ChecksRunner.Capitalize` upper-cases only ASCII letters. `toUpperCase` also maps other scripts and can lengthen a string (e.g. 'ß' to 'SS'); this only affects log text.
- Console output: spinners, notes, log lines, the intro and outro, `console.clear`, and prompt texts and initial values. Only commands, prompts and outcomes are modelled.
- Process termination: `process.exit` becomes an `Exit(code)` outcome returned to the caller.
- The argument parser (citty): the model starts from the parsed arguments (`Cli.ParsedArgs`). Flag spelling, the `-c` alias and the generated help text are not modelled.
- src/core/init.ts (`initConfig`) is not part of this model; `Cli.Dispatch` only decides when it runs.
- How a config module is loaded (dynamic `import` and jiti) and how paths are resolved against the working directory: a `Workspace` value says which files exist and what loading each yields.
- A package.json `releasePolice` value of the wrong shape. The model takes the field as a well-formed user config; absent or falsy is `None`.
- A user config key set explicitly to `undefined` is modelled as absent. In the source an explicit `undefined` spreads over the default.
- The `silent` flag of `exec` decides whether output is shown on the terminal and also whether it is returned: without it, `exec` inherits the terminal and returns '' (src/utils/exec.ts:12-16). The shell oracle's output does not depend on the flag. No caller reads the output of a call without the flag, so the difference is never observed.
- The commit message is put inside double quotes in a shell command with only `"` escaped. Shell expansion of `$`, backquotes and backslashes in the message is not modelled: a command is an opaque string to the shell oracle.
- Concurrency: every step runs to completion before the next starts. `runChecks` and `deploy` are synchronous in the source, so not awaiting them changes nothing.

## Findings

| source | as written | input that shows it | evidently intended | confidence | as-written member | corrected member |
|---|---|---|---|---|---|---|
| src/core/config.ts:79 | with no config found, `loadConfig` returns the shared `DEFAULT_CONFIG` object itself, and `runRelease` then sets `steps.*` and `github.release` on it in place (src/core/runner.ts:39-54), so the overrides outlive the call | two `runRelease` calls in one process in a project with no config: the first with `skipPush`, the second with no option; the second runs without the push step | each call starts from the defaults, with only its own flags applied | medium, not executed | `Runner.SharedDefaultsLeak` | `Runner.FreshDefaultsEachCall` |
| src/core/config.ts:110-134 | `mergeConfig` spreads `DEFAULT_CONFIG.steps` and `DEFAULT_CONFIG.github` as they stand, so after the leak above a config file or package.json field also merges over the altered sections | a first call with no config and `skipPush` and `githubRelease`; a second call, with no option, in a project whose release.config.ts exports `{}`; the second skips the push and creates a GitHub release | a config is merged over the built-in defaults | medium, not executed | `Runner.SharedDefaultsLeakThroughFile` | `Runner.FileConfigStartsFromDefaults` |
