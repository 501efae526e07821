/**
 * Configuration resolution (src/core/config.ts): the built-in defaults, the
 * key-by-key merge of a user config over them, and the order in which a
 * config is looked for. The file system is a `Workspace` value.
 */
module Config {
  import opened Wrappers
  import opened Types

  /** Candidate config file names, in priority order. */
  const ConfigFiles: seq<string> := ["release.config.ts", "release.config.js", "release.config.mjs"]

  const Defaults := ResolvedConfig(
    ["main", "master"],
    Commands(
      test := Some("npm run test"),
      install := Some("npm install"),
      build := None,
      changelog := None,
      typecheck := None,
      lint := None,
      deploy := None),
    GitConfig(pullStrategy := Rebase, requireCleanWorkingDir := true),
    GithubConfig(release := false, draft := true, generateNotes := true),
    StepsConfig(
      checkBranch := true,
      syncRemote := true,
      runChecks := true,
      runTests := true,
      commitChanges := true,
      versionBump := true,
      push := true,
      deploy := false,
      githubRelease := false))

  /** A user config with no key at all. */
  const EmptyConfig := ReleaseConfig(
    None,
    UserCommands(None, None, None, None, None, None, None),
    UserGit(None, None),
    UserGithub(None, None, None),
    UserSteps(None, None, None, None, None, None, None, None, None))

  /** One key of `{...defaults, ...user}`: the user's value when the key is present. */
  function Pick<T>(user: Option<T>, default: T): T {
    if user.Some? then user.value else default
  }

  function MergeCommands(d: Commands, u: UserCommands): Commands {
    Commands(
      Pick(u.test, d.test), Pick(u.install, d.install), Pick(u.build, d.build),
      Pick(u.changelog, d.changelog), Pick(u.typecheck, d.typecheck), Pick(u.lint, d.lint),
      Pick(u.deploy, d.deploy))
  }

  function MergeGit(d: GitConfig, u: UserGit): GitConfig {
    GitConfig(Pick(u.pullStrategy, d.pullStrategy), Pick(u.requireCleanWorkingDir, d.requireCleanWorkingDir))
  }

  function MergeGithub(d: GithubConfig, u: UserGithub): GithubConfig {
    GithubConfig(Pick(u.release, d.release), Pick(u.draft, d.draft), Pick(u.generateNotes, d.generateNotes))
  }

  /**
   * The steps section: a key-by-key spread, except that `runChecks` takes the
   * `runTests` value when the user gives `runTests` and not `runChecks`.
   */
  function MergeSteps(d: StepsConfig, u: UserSteps): StepsConfig {
    var runChecks := if u.runTests.Some? && u.runChecks.None? then u.runTests.value else Pick(u.runChecks, d.runChecks);
    StepsConfig(
      Pick(u.checkBranch, d.checkBranch), Pick(u.syncRemote, d.syncRemote),
      runChecks, Pick(u.runTests, d.runTests),
      Pick(u.commitChanges, d.commitChanges), Pick(u.versionBump, d.versionBump),
      Pick(u.push, d.push), Pick(u.deploy, d.deploy), Pick(u.githubRelease, d.githubRelease))
  }

  /**
   * The user config laid over the default object `d`, section by section.
   * The sections are spread from whatever `d` holds at the time of the call.
   */
  function MergeOver(d: ResolvedConfig, u: ReleaseConfig): ResolvedConfig {
    ResolvedConfig(
      Pick(u.releaseBranches, d.releaseBranches),
      MergeCommands(d.commands, u.commands), MergeGit(d.git, u.git),
      MergeGithub(d.github, u.github), MergeSteps(d.steps, u.steps))
  }

  /** `mergeConfig`: the user config laid over the built-in defaults. */
  function MergeConfig(u: ReleaseConfig): ResolvedConfig {
    MergeOver(Defaults, u)
  }

  /**
   * Precedence, key by key: every key the user gives wins, and every key the
   * user leaves out keeps its default (`runChecks` falls back to `runTests`
   * first).
   */
  lemma MergePrecedence(u: ReleaseConfig)
    ensures var r := MergeConfig(u);
      && r.releaseBranches == (if u.releaseBranches.Some? then u.releaseBranches.value else ["main", "master"])
      && r.commands.test == (if u.commands.test.Some? then u.commands.test.value else Some("npm run test"))
      && r.commands.install == (if u.commands.install.Some? then u.commands.install.value else Some("npm install"))
      && r.commands.build == (if u.commands.build.Some? then u.commands.build.value else None)
      && r.commands.changelog == (if u.commands.changelog.Some? then u.commands.changelog.value else None)
      && r.commands.typecheck == (if u.commands.typecheck.Some? then u.commands.typecheck.value else None)
      && r.commands.lint == (if u.commands.lint.Some? then u.commands.lint.value else None)
      && r.commands.deploy == (if u.commands.deploy.Some? then u.commands.deploy.value else None)
      && r.git.pullStrategy == (if u.git.pullStrategy.Some? then u.git.pullStrategy.value else Rebase)
      && r.git.requireCleanWorkingDir == (if u.git.requireCleanWorkingDir.Some? then u.git.requireCleanWorkingDir.value else true)
      && r.github.release == (if u.github.release.Some? then u.github.release.value else false)
      && r.github.draft == (if u.github.draft.Some? then u.github.draft.value else true)
      && r.github.generateNotes == (if u.github.generateNotes.Some? then u.github.generateNotes.value else true)
      && r.steps.checkBranch == (if u.steps.checkBranch.Some? then u.steps.checkBranch.value else true)
      && r.steps.syncRemote == (if u.steps.syncRemote.Some? then u.steps.syncRemote.value else true)
      && r.steps.runChecks == (if u.steps.runChecks.Some? then u.steps.runChecks.value
                               else if u.steps.runTests.Some? then u.steps.runTests.value else true)
      && r.steps.runTests == (if u.steps.runTests.Some? then u.steps.runTests.value else true)
      && r.steps.commitChanges == (if u.steps.commitChanges.Some? then u.steps.commitChanges.value else true)
      && r.steps.versionBump == (if u.steps.versionBump.Some? then u.steps.versionBump.value else true)
      && r.steps.push == (if u.steps.push.Some? then u.steps.push.value else true)
      && r.steps.deploy == (if u.steps.deploy.Some? then u.steps.deploy.value else false)
      && r.steps.githubRelease == (if u.steps.githubRelease.Some? then u.steps.githubRelease.value else false)
  {
  }

  /** The deprecated alias: `runTests` given and `runChecks` not ⇒ `runChecks` takes the `runTests` value. */
  lemma MergeRunTestsAlias(u: ReleaseConfig)
    requires u.steps.runTests.Some? && u.steps.runChecks.None?
    ensures MergeConfig(u).steps.runChecks == u.steps.runTests.value
    ensures MergeConfig(u).steps.runTests == u.steps.runTests.value
  {
  }

  /** An explicit `runChecks` is kept whatever `runTests` says. */
  lemma MergeRunChecksExplicit(u: ReleaseConfig)
    requires u.steps.runChecks.Some?
    ensures MergeConfig(u).steps.runChecks == u.steps.runChecks.value
  {
  }

  /** The user config that spells out every key of `r`. */
  function Spelled(r: ResolvedConfig): ReleaseConfig {
    var c := r.commands;
    var s := r.steps;
    ReleaseConfig(
      Some(r.releaseBranches),
      UserCommands(Some(c.test), Some(c.install), Some(c.build), Some(c.changelog),
                   Some(c.typecheck), Some(c.lint), Some(c.deploy)),
      UserGit(Some(r.git.pullStrategy), Some(r.git.requireCleanWorkingDir)),
      UserGithub(Some(r.github.release), Some(r.github.draft), Some(r.github.generateNotes)),
      UserSteps(Some(s.checkBranch), Some(s.syncRemote), Some(s.runChecks), Some(s.runTests),
                Some(s.commitChanges), Some(s.versionBump), Some(s.push), Some(s.deploy),
                Some(s.githubRelease)))
  }

  /** Nothing given: the merge is the defaults; everything given: the merge is exactly what was given. */
  lemma MergeExtremes(r: ResolvedConfig)
    ensures MergeConfig(EmptyConfig) == Defaults
    ensures MergeConfig(Spelled(r)) == r
  {
  }

  /** Key-locality of the command section. */
  lemma CommandsKeyLocal(d: Commands, u: UserCommands, v: UserCommands)
    ensures var ru := MergeCommands(d, u); var rv := MergeCommands(d, v);
      && (u.test == v.test ==> ru.test == rv.test)
      && (u.install == v.install ==> ru.install == rv.install)
      && (u.build == v.build ==> ru.build == rv.build)
      && (u.changelog == v.changelog ==> ru.changelog == rv.changelog)
      && (u.typecheck == v.typecheck ==> ru.typecheck == rv.typecheck)
      && (u.lint == v.lint ==> ru.lint == rv.lint)
      && (u.deploy == v.deploy ==> ru.deploy == rv.deploy)
  {
  }

  /** Key-locality of the steps section: `runChecks` depends on `runChecks` and `runTests`. */
  lemma StepsKeyLocal(d: StepsConfig, u: UserSteps, v: UserSteps)
    ensures var ru := MergeSteps(d, u); var rv := MergeSteps(d, v);
      && (u.checkBranch == v.checkBranch ==> ru.checkBranch == rv.checkBranch)
      && (u.syncRemote == v.syncRemote ==> ru.syncRemote == rv.syncRemote)
      && (u.runChecks == v.runChecks && u.runTests == v.runTests ==> ru.runChecks == rv.runChecks)
      && (u.runTests == v.runTests ==> ru.runTests == rv.runTests)
      && (u.commitChanges == v.commitChanges ==> ru.commitChanges == rv.commitChanges)
      && (u.versionBump == v.versionBump ==> ru.versionBump == rv.versionBump)
      && (u.push == v.push ==> ru.push == rv.push)
      && (u.deploy == v.deploy ==> ru.deploy == rv.deploy)
      && (u.githubRelease == v.githubRelease ==> ru.githubRelease == rv.githubRelease)
  {
  }

  /**
   * Key-locality: each resolved key depends on the matching user key alone
   * (and `runChecks` on `runChecks` and `runTests`), so two user configs that
   * agree on a key resolve to the same value for it whatever else differs.
   */
  lemma MergeIsKeyLocal(d: ResolvedConfig, u: ReleaseConfig, v: ReleaseConfig)
    ensures var ru := MergeOver(d, u); var rv := MergeOver(d, v);
      && (u.releaseBranches == v.releaseBranches ==> ru.releaseBranches == rv.releaseBranches)
      && (u.commands.test == v.commands.test ==> ru.commands.test == rv.commands.test)
      && (u.commands.install == v.commands.install ==> ru.commands.install == rv.commands.install)
      && (u.commands.build == v.commands.build ==> ru.commands.build == rv.commands.build)
      && (u.commands.changelog == v.commands.changelog ==> ru.commands.changelog == rv.commands.changelog)
      && (u.commands.typecheck == v.commands.typecheck ==> ru.commands.typecheck == rv.commands.typecheck)
      && (u.commands.lint == v.commands.lint ==> ru.commands.lint == rv.commands.lint)
      && (u.commands.deploy == v.commands.deploy ==> ru.commands.deploy == rv.commands.deploy)
      && (u.git.pullStrategy == v.git.pullStrategy ==> ru.git.pullStrategy == rv.git.pullStrategy)
      && (u.git.requireCleanWorkingDir == v.git.requireCleanWorkingDir ==>
            ru.git.requireCleanWorkingDir == rv.git.requireCleanWorkingDir)
      && (u.github.release == v.github.release ==> ru.github.release == rv.github.release)
      && (u.github.draft == v.github.draft ==> ru.github.draft == rv.github.draft)
      && (u.github.generateNotes == v.github.generateNotes ==> ru.github.generateNotes == rv.github.generateNotes)
      && (u.steps.checkBranch == v.steps.checkBranch ==> ru.steps.checkBranch == rv.steps.checkBranch)
      && (u.steps.syncRemote == v.steps.syncRemote ==> ru.steps.syncRemote == rv.steps.syncRemote)
      && (u.steps.runChecks == v.steps.runChecks && u.steps.runTests == v.steps.runTests ==>
            ru.steps.runChecks == rv.steps.runChecks)
      && (u.steps.runTests == v.steps.runTests ==> ru.steps.runTests == rv.steps.runTests)
      && (u.steps.commitChanges == v.steps.commitChanges ==> ru.steps.commitChanges == rv.steps.commitChanges)
      && (u.steps.versionBump == v.steps.versionBump ==> ru.steps.versionBump == rv.steps.versionBump)
      && (u.steps.push == v.steps.push ==> ru.steps.push == rv.steps.push)
      && (u.steps.deploy == v.steps.deploy ==> ru.steps.deploy == rv.steps.deploy)
      && (u.steps.githubRelease == v.steps.githubRelease ==> ru.steps.githubRelease == rv.steps.githubRelease)
  {
    CommandsKeyLocal(d.commands, u.commands, v.commands);
    StepsKeyLocal(d.steps, u.steps, v.steps);
  }

  /** The `releasePolice` field of a package.json: `releaseBranches: ['develop']` and a test command only. */
  lemma DevelopBranchExample()
    ensures var u := EmptyConfig.(releaseBranches := Some(["develop"]),
                                  commands := EmptyConfig.commands.(test := Some(Some("npm test"))));
      var r := MergeConfig(u);
      r.releaseBranches == ["develop"] && r.commands.test == Some("npm test") &&
      r.commands.install == Some("npm install")
  {
  }

  /** `defineConfig`: the identity, for type checking in a user's config file. */
  function DefineConfig(config: ReleaseConfig): (r: ReleaseConfig)
    ensures r == config
  {
    config
  }

  // ---------------------------------------------------------------------------
  // Where the user config comes from.

  /** Loading a config module: its exported config, or the error it threw. */
  datatype LoadResult = Loaded(config: ReleaseConfig) | LoadFailed(cause: string)

  /**
   * The project's package.json: missing, not valid JSON, or parsed with its
   * `releasePolice` field (`None` when absent or falsy).
   */
  datatype Manifest = NoManifest | Unparsable | ManifestJson(releasePolice: Option<ReleaseConfig>)

  /** The working directory: which files exist, what loading each gives, and the package.json. */
  datatype Workspace = Workspace(hasFile: string -> bool, load: string -> LoadResult, manifest: Manifest)

  datatype ConfigError = NotFound(path: string) | LoadError(path: string, cause: string)

  /** The message of the error `loadConfig` throws. */
  function ErrorMessage(e: ConfigError): string {
    match e
    case NotFound(path) => "Config file not found: " + path
    case LoadError(path, cause) => "Failed to load config from " + path + ": " + cause
  }

  /** The first of `candidates` that exists. */
  function FirstExisting(candidates: seq<string>, hasFile: string -> bool): (r: Option<nat>)
    ensures r.Some? ==> r.value < |candidates| && hasFile(candidates[r.value])
    ensures r.Some? ==> forall k :: 0 <= k < r.value ==> !hasFile(candidates[k])
    ensures r.None? ==> forall k :: 0 <= k < |candidates| ==> !hasFile(candidates[k])
  {
    if candidates == [] then None
    else if hasFile(candidates[0]) then Some(0)
    else match FirstExisting(candidates[1..], hasFile)
      case None => None
      case Some(k) => Some(k + 1)
  }

  /** Load the config file at `path` and merge it over the default object `d`. */
  function FromFileOver(d: ResolvedConfig, path: string, ws: Workspace): Result<ResolvedConfig, ConfigError> {
    match ws.load(path)
    case Loaded(u) => Success(MergeOver(d, u))
    case LoadFailed(cause) => Failure(LoadError(path, cause))
  }

  /** Load the config file at `path` and merge it over the built-in defaults. */
  function FromFile(path: string, ws: Workspace): Result<ResolvedConfig, ConfigError> {
    FromFileOver(Defaults, path, ws)
  }

  /**
   * `loadConfig` as a function of the default object `d` it merges over and
   * falls back to: an explicit (non-empty) path, else the first existing
   * candidate file, else package.json's `releasePolice`, else `d` itself.
   */
  function ResolveOver(d: ResolvedConfig, configPath: Option<string>, ws: Workspace): Result<ResolvedConfig, ConfigError> {
    if configPath.Some? && configPath.value != "" then
      if ws.hasFile(configPath.value) then FromFileOver(d, configPath.value, ws)
      else Failure(NotFound(configPath.value))
    else
      match FirstExisting(ConfigFiles, ws.hasFile)
      case Some(k) => FromFileOver(d, ConfigFiles[k], ws)
      case None =>
        match ws.manifest
        case ManifestJson(Some(u)) => Success(MergeOver(d, u))
        case _ => Success(d)
  }

  /** `loadConfig` while the default object still holds the built-in defaults. */
  function Resolve(configPath: Option<string>, ws: Workspace): Result<ResolvedConfig, ConfigError> {
    ResolveOver(Defaults, configPath, ws)
  }

  /** `loadConfig`: the explicit path first, then the candidate files in order, then package.json. */
  method LoadConfig(configPath: Option<string>, ws: Workspace) returns (r: Result<ResolvedConfig, ConfigError>)
    ensures r == Resolve(configPath, ws)
  {
    if configPath.Some? && configPath.value != "" {
      if !ws.hasFile(configPath.value) {
        return Failure(NotFound(configPath.value));
      }
      return FromFile(configPath.value, ws);
    }
    var i := 0;
    while i < |ConfigFiles|
      invariant 0 <= i <= |ConfigFiles|
      invariant forall k :: 0 <= k < i ==> !ws.hasFile(ConfigFiles[k])
    {
      if ws.hasFile(ConfigFiles[i]) {
        return FromFile(ConfigFiles[i], ws);
      }
      i := i + 1;
    }
    match ws.manifest {
      case ManifestJson(Some(u)) => return Success(MergeConfig(u));
      case _ => return Success(Defaults);
    }
  }

  /** An explicit path that does not exist is an error naming that path; no other source is consulted. */
  lemma ExplicitPathMissing(path: string, ws: Workspace)
    requires path != "" && !ws.hasFile(path)
    ensures Resolve(Some(path), ws) == Failure(NotFound(path))
    ensures ErrorMessage(NotFound(path)) == "Config file not found: " + path
  {
  }

  /** An explicit path that exists wins over every candidate file and over package.json. */
  lemma ExplicitPathWins(path: string, ws: Workspace)
    requires path != "" && ws.hasFile(path)
    ensures Resolve(Some(path), ws) == FromFile(path, ws)
  {
  }

  /** Without an explicit path, the first existing candidate file is the one loaded. */
  lemma FirstCandidateWins(ws: Workspace, k: nat)
    requires k < |ConfigFiles| && ws.hasFile(ConfigFiles[k])
    requires forall j :: 0 <= j < k ==> !ws.hasFile(ConfigFiles[j])
    ensures Resolve(None, ws) == FromFile(ConfigFiles[k], ws)
  {
  }

  /**
   * No explicit path, no candidate file and no usable `releasePolice` field
   * (no package.json, one that does not parse, or one without the field):
   * the result is the defaults, never an error.
   */
  lemma NothingFoundGivesDefaults(configPath: Option<string>, ws: Workspace)
    requires configPath.None? || configPath == Some("")
    requires forall k :: 0 <= k < |ConfigFiles| ==> !ws.hasFile(ConfigFiles[k])
    requires !ws.manifest.ManifestJson? || ws.manifest.releasePolice.None?
    ensures Resolve(configPath, ws) == Success(Defaults)
    ensures var d := Defaults;
      && d.releaseBranches == ["main", "master"]
      && d.commands == Commands(Some("npm run test"), Some("npm install"), None, None, None, None, None)
      && d.git == GitConfig(Rebase, true)
      && d.github == GithubConfig(release := false, draft := true, generateNotes := true)
      && d.steps.checkBranch && d.steps.syncRemote && d.steps.runChecks && d.steps.runTests
      && d.steps.commitChanges && d.steps.versionBump && d.steps.push
      && !d.steps.deploy && !d.steps.githubRelease
  {
  }

  /** Without a config file, a package.json `releasePolice` field is merged over the defaults. */
  lemma ManifestFieldUsed(ws: Workspace, u: ReleaseConfig)
    requires forall k :: 0 <= k < |ConfigFiles| ==> !ws.hasFile(ConfigFiles[k])
    requires ws.manifest == ManifestJson(Some(u))
    ensures Resolve(None, ws) == Success(MergeConfig(u))
  {
  }

  /** Resolution fails only on an explicit path: without one, it always yields a config or a load error of a candidate file. */
  lemma OnlyFilesFail(ws: Workspace)
    ensures Resolve(None, ws).Failure? ==>
      Resolve(None, ws).error.LoadError? && Resolve(None, ws).error.path in ConfigFiles
  {
  }
}
