/**
 * The release workflow (src/core/runner.ts): load the configuration, apply
 * the command-line overrides, build the context, and run the eight steps in
 * their fixed order, stopping at the first step that ends the process.
 */
module Runner {
  import opened Wrappers
  import opened Types
  import opened Effects
  import Config
  import BranchCheck
  import RemoteSync
  import ChecksRunner
  import GitStatus
  import VersionBump
  import Push
  import Deploy
  import GithubRelease

  /**
   * The command-line overrides applied to a resolved configuration: the skip
   * flags switch steps off, `--github-release` switches the release on.
   */
  function ApplyOverrides(config: ResolvedConfig, o: CliOptions): (r: ResolvedConfig)
    // Each skip flag turns its step off; without the flag the step keeps its configured value.
    ensures r.steps.runChecks == (config.steps.runChecks && !o.skipTests && !o.skipChecks)
    ensures r.steps.deploy == (config.steps.deploy && !o.skipDeploy)
    ensures r.steps.syncRemote == (config.steps.syncRemote && !o.skipSync)
    ensures r.steps.push == (config.steps.push && !o.skipPush)
    // The release flag turns both release switches on and never off.
    ensures r.steps.githubRelease == (config.steps.githubRelease || o.githubRelease)
    ensures r.github.release == (config.github.release || o.githubRelease)
    // Nothing else changes.
    ensures r.releaseBranches == config.releaseBranches && r.commands == config.commands && r.git == config.git
    ensures r.github.draft == config.github.draft && r.github.generateNotes == config.github.generateNotes
    ensures r.steps.checkBranch == config.steps.checkBranch && r.steps.commitChanges == config.steps.commitChanges
    ensures r.steps.versionBump == config.steps.versionBump && r.steps.runTests == config.steps.runTests
  {
    var s := config.steps;
    var steps := s.(
      runChecks := if o.skipTests || o.skipChecks then false else s.runChecks,
      deploy := if o.skipDeploy then false else s.deploy,
      syncRemote := if o.skipSync then false else s.syncRemote,
      push := if o.skipPush then false else s.push,
      githubRelease := if o.githubRelease then true else s.githubRelease);
    var github := if o.githubRelease then config.github.(release := true) else config.github;
    config.(steps := steps, github := github)
  }

  /** Options with no flag set. */
  function NoOptions(): CliOptions {
    CliOptions(false, false, false, false, false, false, false, None, None)
  }

  /** With no flags the configuration is left exactly as loaded. */
  lemma NoFlagsNoChange(config: ResolvedConfig)
    ensures ApplyOverrides(config, NoOptions()) == config
  {
  }

  /** Applying the overrides twice is applying them once. */
  lemma OverridesIdempotent(config: ResolvedConfig, o: CliOptions)
    ensures ApplyOverrides(ApplyOverrides(config, o), o) == ApplyOverrides(config, o)
  {
  }

  /** The context `runRelease` builds: `dryRun` from the options, nothing found yet. */
  function InitialContext(config: ResolvedConfig, o: CliOptions): (c: Context)
    ensures c.config == config && c.cliOptions == o && c.dryRun == o.dryRun
    ensures c.currentBranch.None? && c.currentVersion.None? && c.newVersion.None?
  {
    Context(config, o, o.dryRun, None, None, None)
  }

  /** The number of steps. */
  const StepCount := 8

  /**
   * Step `i` of the workflow on a context value, in the order checkBranch,
   * syncRemote, runChecks, checkAndCommit, bumpVersion, pushToRemote, deploy,
   * createGithubRelease. Every step only appends to the log, keeps the
   * configuration, options and dry-run flag, and either continues or ends
   * the process with code 0 or 1.
   */
  function StepRun(i: nat, c: Context, env: Env, h: seq<Event>): (r: Run)
    requires i < StepCount
    ensures Extends(h, r.log)
    ensures r.ctx.config == c.config && r.ctx.cliOptions == c.cliOptions && r.ctx.dryRun == c.dryRun
    ensures r.outcome in {Continue, Exit(0), Exit(1)}
  {
    match i
    case 0 => BranchCheck.CheckBranchRun(c, env, h)
    case 1 => RemoteSync.SyncRemoteRun(c, env, h)
    case 2 => ChecksRunner.RunChecksRun(c, env, h)
    case 3 => GitStatus.CheckAndCommitRun(c, env, h)
    case 4 => VersionBump.BumpVersionRun(c, env, h)
    case 5 => Push.PushRun(c, env, h)
    case 6 => Deploy.DeployRun(c, env, h)
    case 7 => GithubRelease.GithubReleaseRun(c, env, h)
  }

  /**
   * The steps from `i` on: each runs once, in order, on the context and log
   * the previous one left, and the first that ends the process ends the run.
   */
  function PipelineFrom(i: nat, c: Context, env: Env, h: seq<Event>): (r: Run)
    requires i <= StepCount
    decreases StepCount - i
    ensures Extends(h, r.log)
    ensures r.ctx.config == c.config && r.ctx.cliOptions == c.cliOptions && r.ctx.dryRun == c.dryRun
    ensures r.outcome in {Continue, Exit(0), Exit(1)}
  {
    if i == StepCount then Run(h, Continue, c)
    else
      var r := StepRun(i, c, env, h);
      if r.outcome.Exit? then r
      else
        var rest := PipelineFrom(i + 1, r.ctx, env, r.log);
        ExtendsTrans(h, r.log, rest.log);
        rest
  }

  /**
   * `runRelease` on values: a configuration that does not load ends the
   * process with code 1 before anything runs; otherwise the steps run on
   * the overridden configuration. Returns the log and the outcome.
   */
  function ReleaseRun(o: CliOptions, ws: Config.Workspace, env: Env, h: seq<Event>): (r: (seq<Event>, Outcome))
    ensures Config.Resolve(o.config, ws).Failure? ==> r == (h, Exit(1))
    ensures Config.Resolve(o.config, ws).Success? ==>
      var r1 := PipelineFrom(0, InitialContext(ApplyOverrides(Config.Resolve(o.config, ws).value, o), o), env, h);
      r == (r1.log, r1.outcome)
  {
    match Config.Resolve(o.config, ws)
    case Failure(_) => (h, Exit(1))
    case Success(config) =>
      var r := PipelineFrom(0, InitialContext(ApplyOverrides(config, o), o), env, h);
      (r.log, r.outcome)
  }

  /** In a dry run each step issues only read-only queries, prompts for nothing, and never exits with 0. */
  lemma StepDryRun(i: nat, c: Context, env: Env, h: seq<Event>)
    requires i < StepCount && c.dryRun
    ensures var r := StepRun(i, c, env, h);
      DryRunSafe(Added(h, r.log)) && r.outcome != Exit(0)
  {
    match i
    case 0 => BranchCheck.CheckBranchDryRun(c, env, h);
    case 1 => RemoteSync.SyncRemoteDryRun(c, env, h);
    case 2 =>
    case 3 => GitStatus.CheckAndCommitDryRun(c, env, h);
    case 4 => VersionBump.BumpVersionDryRun(c, env, h);
    case 5 =>
    case 6 =>
    case 7 =>
  }

  /**
   * A dry run of the workflow issues only read-only queries (the branch
   * name, fetch, the behind count, the status and the current version) and
   * shows no prompt; it only ever stops on a failed query.
   */
  lemma {:induction false} DryRunIsReadOnly(i: nat, c: Context, env: Env, h: seq<Event>)
    requires i <= StepCount && c.dryRun
    decreases StepCount - i
    ensures var r := PipelineFrom(i, c, env, h);
      DryRunSafe(Added(h, r.log)) && r.outcome != Exit(0)
  {
    if i < StepCount {
      var r := StepRun(i, c, env, h);
      StepDryRun(i, c, env, h);
      FailFast(i, c, env, h);
      if r.outcome.Continue? {
        var rest := PipelineFrom(i + 1, r.ctx, env, r.log);
        DryRunIsReadOnly(i + 1, r.ctx, env, r.log);
        AddedChain(h, r.log, rest.log);
      }
    } else {
      assert Added(h, h) == [];
    }
  }

  /** Whether every step is switched off. */
  predicate AllOff(config: ResolvedConfig) {
    var s := config.steps;
    !s.checkBranch && !s.syncRemote && !s.runChecks && !s.commitChanges && !s.versionBump &&
    !s.push && !s.deploy && !GithubRelease.Enabled(config)
  }

  /** With every step switched off the workflow does nothing at all: a disabled step is a no-op. */
  lemma {:induction false} AllOffIsNoOp(i: nat, c: Context, env: Env, h: seq<Event>)
    requires i <= StepCount && AllOff(c.config)
    decreases StepCount - i
    ensures PipelineFrom(i, c, env, h) == Run(h, Continue, c)
  {
    if i < StepCount {
      assert StepRun(i, c, env, h) == Run(h, Continue, c);
      AllOffIsNoOp(i + 1, c, env, h);
    }
  }

  /**
   * Fail fast: when step `i` ends the process, the run from `i` is that
   * step's run, so no later step issues anything; when it continues, the
   * next step starts from the log and context it left.
   */
  lemma FailFast(i: nat, c: Context, env: Env, h: seq<Event>)
    requires i < StepCount
    ensures var s := StepRun(i, c, env, h);
      PipelineFrom(i, c, env, h) == if s.outcome.Exit? then s else PipelineFrom(i + 1, s.ctx, env, s.log)
  {
  }

  /** `--skip-push` makes the push step a no-op for every context the overridden configuration leads to. */
  lemma SkipFlagsSilenceSteps(config: ResolvedConfig, o: CliOptions, c: Context, env: Env, h: seq<Event>)
    requires c.config == ApplyOverrides(config, o)
    ensures o.skipSync ==> StepRun(1, c, env, h) == Run(h, Continue, c)
    ensures o.skipTests || o.skipChecks ==> StepRun(2, c, env, h) == Run(h, Continue, c)
    ensures o.skipPush ==> StepRun(5, c, env, h) == Run(h, Continue, c)
    ensures o.skipDeploy ==> StepRun(6, c, env, h) == Run(h, Continue, c)
  {
  }

  // ---------------------------------------------------------------------------
  // The shared default object. When no config is found, `loadConfig` hands
  // back its default object itself rather than a copy, and the override block
  // then switches steps on that very object, so the changes outlive the call.

  /** Whether `loadConfig` falls through to the defaults: no explicit path, no candidate file, no usable package.json field. */
  predicate FallsBackToDefaults(configPath: Option<string>, ws: Config.Workspace) {
    && (configPath.None? || configPath.value == "")
    && Config.FirstExisting(Config.ConfigFiles, ws.hasFile).None?
    && (!ws.manifest.ManifestJson? || ws.manifest.releasePolice.None?)
  }

  /**
   * The configuration the steps see, as written: `loadConfig` merges over the
   * shared default object `shared` as it stands, or hands back `shared`
   * itself; in the second case the override block switches steps on the
   * shared object, so the overridden configuration becomes the shared
   * object for later calls. Returns the configuration (or the load error)
   * and the shared object afterwards.
   */
  function SharedConfigAsWritten(shared: ResolvedConfig, o: CliOptions, ws: Config.Workspace):
    (r: (Result<ResolvedConfig, Config.ConfigError>, ResolvedConfig))
    ensures !FallsBackToDefaults(o.config, ws) ==> r.1 == shared
    ensures FallsBackToDefaults(o.config, ws) ==> r.0 == Success(ApplyOverrides(shared, o)) && r.1 == r.0.value
    ensures r.0.Success? <==> Config.ResolveOver(shared, o.config, ws).Success?
    ensures r.0.Success? ==> r.0.value == ApplyOverrides(Config.ResolveOver(shared, o.config, ws).value, o)
  {
    match Config.ResolveOver(shared, o.config, ws)
    case Failure(e) => (Failure(e), shared)
    case Success(loaded) =>
      var config := ApplyOverrides(loaded, o);
      (Success(config), if FallsBackToDefaults(o.config, ws) then config else shared)
  }

  /** A project with no config file and no package.json. */
  function EmptyWorkspace(): Config.Workspace {
    Config.Workspace(_ => false, _ => Config.LoadFailed("missing"), Config.NoManifest)
  }

  /** A project whose release.config.ts exports an empty config. */
  function EmptyConfigFileWorkspace(): Config.Workspace {
    Config.Workspace(f => f == "release.config.ts", _ => Config.Loaded(Config.EmptyConfig), Config.NoManifest)
  }

  /** The empty workspace falls back to the shared default object. */
  lemma EmptyWorkspaceFallsBack()
    ensures FallsBackToDefaults(None, EmptyWorkspace())
  {
    var ws := EmptyWorkspace();
    assert Config.FirstExisting(Config.ConfigFiles, ws.hasFile).None? by {
      assert !ws.hasFile(Config.ConfigFiles[0]) && !ws.hasFile(Config.ConfigFiles[1]) && !ws.hasFile(Config.ConfigFiles[2]);
    }
  }

  /**
   * As written, `--skip-push` in one call switches the push step off for every
   * later call in the same process that falls back to the defaults, even
   * one without any flag.
   */
  lemma SharedDefaultsLeak()
    ensures var first := SharedConfigAsWritten(Config.Defaults, NoOptions().(skipPush := true), EmptyWorkspace());
      var second := SharedConfigAsWritten(first.1, NoOptions(), EmptyWorkspace());
      second.0.Success? && !second.0.value.steps.push && Config.Defaults.steps.push
  {
    EmptyWorkspaceFallsBack();
  }

  /**
   * The leak reaches configs read from a file too: after a call without any
   * config that passed `--skip-push` and `--github-release`, a later call
   * without flags whose release.config.ts exports `{}` merges over the
   * altered steps and github sections, so it skips the push and creates a
   * GitHub release, where the built-in defaults push and create none.
   */
  lemma SharedDefaultsLeakThroughFile()
    ensures var first := SharedConfigAsWritten(Config.Defaults,
                           NoOptions().(skipPush := true, githubRelease := true), EmptyWorkspace());
      var second := SharedConfigAsWritten(first.1, NoOptions(), EmptyConfigFileWorkspace());
      && second.0.Success?
      && !second.0.value.steps.push && second.0.value.steps.githubRelease && second.0.value.github.release
      && Config.Resolve(None, EmptyConfigFileWorkspace()) == Success(Config.Defaults)
  {
    EmptyWorkspaceFallsBack();
    var ws := EmptyConfigFileWorkspace();
    assert Config.FirstExisting(Config.ConfigFiles, ws.hasFile) == Some(0) by {
      assert ws.hasFile(Config.ConfigFiles[0]);
    }
    assert !FallsBackToDefaults(None, ws);
  }

  /**
   * With the defaults taken as a value, a config file is merged over the
   * built-in defaults whatever earlier calls did: a release.config.ts that
   * exports `{}`, with no flag, pushes and creates no GitHub release.
   */
  lemma FileConfigStartsFromDefaults()
    ensures var r := Config.Resolve(None, EmptyConfigFileWorkspace());
      && r == Success(Config.MergeConfig(Config.EmptyConfig))
      && r.value.steps.push && !r.value.steps.githubRelease && !r.value.github.release
  {
    var ws := EmptyConfigFileWorkspace();
    assert Config.FirstExisting(Config.ConfigFiles, ws.hasFile) == Some(0) by {
      assert ws.hasFile(Config.ConfigFiles[0]);
    }
  }

  /**
   * With the defaults taken as a value, every call that falls back to them
   * starts from the defaults themselves: a call without flags runs every
   * default step, whatever earlier calls did.
   */
  lemma FreshDefaultsEachCall(o: CliOptions, ws: Config.Workspace)
    requires FallsBackToDefaults(o.config, ws)
    ensures Config.Resolve(o.config, ws) == Success(Config.Defaults)
    ensures var config := ApplyOverrides(Config.Defaults, o);
      config.steps.push == !o.skipPush && config.steps.syncRemote == !o.skipSync &&
      config.steps.runChecks == !(o.skipTests || o.skipChecks) &&
      config.steps.githubRelease == o.githubRelease && config.github.release == o.githubRelease
  {
  }

  /** The override block of `runRelease`, switch by switch. */
  method Override(loaded: ResolvedConfig, o: CliOptions) returns (config: ResolvedConfig)
    ensures config == ApplyOverrides(loaded, o)
  {
    var steps := loaded.steps;
    var github := loaded.github;
    if o.skipTests || o.skipChecks {
      steps := steps.(runChecks := false);
    }
    if o.skipDeploy {
      steps := steps.(deploy := false);
    }
    if o.skipSync {
      steps := steps.(syncRemote := false);
    }
    if o.skipPush {
      steps := steps.(push := false);
    }
    if o.githubRelease {
      steps := steps.(githubRelease := true);
      github := github.(release := true);
    }
    config := loaded.(steps := steps, github := github);
  }

  /** `runRelease`. */
  method RunRelease(o: CliOptions, ws: Config.Workspace, io: Terminal) returns (outcome: Outcome)
    modifies io
    ensures (io.log, outcome) == ReleaseRun(o, ws, io.env, old(io.log))
  {
    var loaded := Config.LoadConfig(o.config, ws);
    if loaded.Failure? {
      return Exit(1);
    }
    var config := Override(loaded.value, o);
    var ctx := new ReleaseContext(config, o);
    outcome := RunSteps(ctx, io);
  }

  /** The eight steps of `runRelease`, in order, each returning early when it ends the process. */
  method RunSteps(ctx: ReleaseContext, io: Terminal) returns (outcome: Outcome)
    modifies ctx, io
    ensures var r := PipelineFrom(0, old(ctx.Value()), io.env, old(io.log));
      io.log == r.log && outcome == r.outcome && ctx.Value() == r.ctx
  {
    ghost var env := io.env;
    ghost var whole := PipelineFrom(0, ctx.Value(), env, io.log);

    outcome := BranchCheck.CheckBranch(ctx, io);
    if outcome.Exit? {
      return;
    }
    assert whole == PipelineFrom(1, ctx.Value(), env, io.log);
    outcome := RemoteSync.SyncRemote(ctx, io);
    if outcome.Exit? {
      return;
    }
    assert whole == PipelineFrom(2, ctx.Value(), env, io.log);
    outcome := ChecksRunner.RunChecks(ctx, io);
    if outcome.Exit? {
      return;
    }
    assert whole == PipelineFrom(3, ctx.Value(), env, io.log);
    outcome := GitStatus.CheckAndCommit(ctx, io);
    if outcome.Exit? {
      return;
    }
    assert whole == PipelineFrom(4, ctx.Value(), env, io.log);
    outcome := VersionBump.BumpVersion(ctx, io);
    if outcome.Exit? {
      return;
    }
    assert whole == PipelineFrom(5, ctx.Value(), env, io.log);
    outcome := Push.PushToRemote(ctx, io);
    if outcome.Exit? {
      return;
    }
    assert whole == PipelineFrom(6, ctx.Value(), env, io.log);
    outcome := Deploy.Deploy(ctx, io);
    if outcome.Exit? {
      return;
    }
    assert whole == PipelineFrom(7, ctx.Value(), env, io.log);
    outcome := GithubRelease.CreateGithubRelease(ctx, io);
    assert whole == PipelineFrom(8, ctx.Value(), env, io.log);
  }
}
