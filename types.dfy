/**
 * The configuration records, CLI options and the release context
 * (src/core/types.ts). Every optional key of a user-written config is an
 * `Option`; a resolved config has no optional key left.
 */
module Types {
  import opened Wrappers

  /** How `git pull` integrates remote commits. */
  datatype PullStrategy = Rebase | Merge | FfOnly

  /** Which component of the semantic version `npm version` bumps. */
  datatype VersionType = Patch | Minor | Major

  /** A command slot of the config: `None` is the source's `null` ("not configured"). */
  type CommandSlot = Option<string>

  datatype Commands = Commands(
    test: CommandSlot,
    install: CommandSlot,
    build: CommandSlot,
    changelog: CommandSlot,
    typecheck: CommandSlot,
    lint: CommandSlot,
    deploy: CommandSlot)

  datatype GitConfig = GitConfig(pullStrategy: PullStrategy, requireCleanWorkingDir: bool)

  datatype GithubConfig = GithubConfig(release: bool, draft: bool, generateNotes: bool)

  /** Which steps run; `runTests` is the deprecated alias of `runChecks`. */
  datatype StepsConfig = StepsConfig(
    checkBranch: bool,
    syncRemote: bool,
    runChecks: bool,
    runTests: bool,
    commitChanges: bool,
    versionBump: bool,
    push: bool,
    deploy: bool,
    githubRelease: bool)

  /** The fully resolved configuration: every section and every key present. */
  datatype ResolvedConfig = ResolvedConfig(
    releaseBranches: seq<string>,
    commands: Commands,
    git: GitConfig,
    github: GithubConfig,
    steps: StepsConfig)

  /**
   * A user-written command section. `None` is an absent key; `Some(None)` is
   * a key explicitly set to `null`.
   */
  datatype UserCommands = UserCommands(
    test: Option<CommandSlot>,
    install: Option<CommandSlot>,
    build: Option<CommandSlot>,
    changelog: Option<CommandSlot>,
    typecheck: Option<CommandSlot>,
    lint: Option<CommandSlot>,
    deploy: Option<CommandSlot>)

  datatype UserGit = UserGit(pullStrategy: Option<PullStrategy>, requireCleanWorkingDir: Option<bool>)

  datatype UserGithub = UserGithub(release: Option<bool>, draft: Option<bool>, generateNotes: Option<bool>)

  datatype UserSteps = UserSteps(
    checkBranch: Option<bool>,
    syncRemote: Option<bool>,
    runChecks: Option<bool>,
    runTests: Option<bool>,
    commitChanges: Option<bool>,
    versionBump: Option<bool>,
    push: Option<bool>,
    deploy: Option<bool>,
    githubRelease: Option<bool>)

  /**
   * A user-written `ReleaseConfig`. An absent section is the section with
   * every key absent: spreading `undefined` adds no key.
   */
  datatype ReleaseConfig = ReleaseConfig(
    releaseBranches: Option<seq<string>>,
    commands: UserCommands,
    git: UserGit,
    github: UserGithub,
    steps: UserSteps)

  /** Options of one invocation; an absent boolean option is `false`. */
  datatype CliOptions = CliOptions(
    dryRun: bool,
    skipTests: bool,
    skipChecks: bool,
    skipSync: bool,
    skipPush: bool,
    skipDeploy: bool,
    githubRelease: bool,
    versionType: Option<VersionType>,
    config: Option<string>)

  /** The literal the source uses for each version type. */
  function VersionTypeName(v: VersionType): string {
    match v
    case Patch => "patch"
    case Minor => "minor"
    case Major => "major"
  }

  /** `validTypes.includes(s)`, returning the version type that `s` names. */
  function ParseVersionType(s: string): (r: Option<VersionType>)
    ensures r.Some? <==> s in {"patch", "minor", "major"}
    ensures r.Some? ==> VersionTypeName(r.value) == s
  {
    if s == "patch" then Some(Patch)
    else if s == "minor" then Some(Minor)
    else if s == "major" then Some(Major)
    else None
  }

  /** Parsing the name of a version type gives that version type back. */
  lemma ParseVersionTypeName(v: VersionType)
    ensures ParseVersionType(VersionTypeName(v)) == Some(v)
  {
  }

  /** The value of a release context at one moment. */
  datatype Context = Context(
    config: ResolvedConfig,
    cliOptions: CliOptions,
    dryRun: bool,
    currentBranch: Option<string>,
    currentVersion: Option<string>,
    newVersion: Option<string>)

  /**
   * The mutable record threaded through the steps. `config`, `cliOptions`
   * and `dryRun` are fixed when it is created; the steps fill in the other three.
   */
  class ReleaseContext {
    const config: ResolvedConfig
    const cliOptions: CliOptions
    const dryRun: bool
    var currentBranch: Option<string>
    var currentVersion: Option<string>
    var newVersion: Option<string>

    /** The context as `runRelease` creates it: `dryRun` from the options, nothing found yet. */
    constructor (config: ResolvedConfig, cliOptions: CliOptions)
      ensures Value() == Context(config, cliOptions, cliOptions.dryRun, None, None, None)
    {
      this.config := config;
      this.cliOptions := cliOptions;
      this.dryRun := cliOptions.dryRun;
      currentBranch, currentVersion, newVersion := None, None, None;
    }

    function Value(): Context
      reads this
    {
      Context(config, cliOptions, dryRun, currentBranch, currentVersion, newVersion)
    }
  }
}
