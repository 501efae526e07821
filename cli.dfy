/**
 * The command line (src/cli.ts): the choice between `init` and the release
 * command, and the release command's handler, which turns the parsed
 * arguments into options, validates the version type and starts the release.
 */
module Cli {
  import opened Wrappers
  import opened JsString
  import opened Types
  import opened Effects
  import Config
  import Runner

  /** The arguments of the release command as the argument parser hands them over. */
  datatype ParsedArgs = ParsedArgs(
    dryRun: bool,
    skipTests: bool,
    skipChecks: bool,
    skipSync: bool,
    skipPush: bool,
    skipDeploy: bool,
    githubRelease: bool,
    versionType: Option<string>,
    config: Option<string>)

  /** No argument given: every boolean flag at its default, `false`, and no string option. */
  function NoArgs(): ParsedArgs {
    ParsedArgs(false, false, false, false, false, false, false, None, None)
  }

  /**
   * The options the handler builds from the arguments: each flag copied to
   * its option, `--config` passed through, and the version type stored only
   * when given and valid. A given but invalid version type is an error with
   * exit code 1; an empty one counts as not given.
   */
  function MapArgs(a: ParsedArgs): (r: Result<CliOptions, int>)
    ensures r.Failure? <==> Truthy(a.versionType) && a.versionType.value !in {"patch", "minor", "major"}
    ensures r.Failure? ==> r.error == 1
    ensures r.Success? ==>
      var o := r.value;
      && o.dryRun == a.dryRun && o.skipTests == a.skipTests && o.skipChecks == a.skipChecks
      && o.skipSync == a.skipSync && o.skipPush == a.skipPush && o.skipDeploy == a.skipDeploy
      && o.githubRelease == a.githubRelease && o.config == a.config
      && (o.versionType.Some? <==> Truthy(a.versionType))
      && (o.versionType.Some? ==> VersionTypeName(o.versionType.value) == a.versionType.value)
  {
    if Truthy(a.versionType) && ParseVersionType(a.versionType.value).None? then Failure(1)
    else
      var v := if Truthy(a.versionType) then ParseVersionType(a.versionType.value) else None;
      Success(CliOptions(a.dryRun, a.skipTests, a.skipChecks, a.skipSync, a.skipPush,
                         a.skipDeploy, a.githubRelease, v, a.config))
  }

  /** With no arguments the release runs with every option off: a plain, interactive, full release. */
  lemma NoArgsNoOptions()
    ensures MapArgs(NoArgs()) == Success(Runner.NoOptions())
  {
  }

  /** Every valid version type given on the command line reaches the options unchanged. */
  lemma ValidVersionTypeKept(a: ParsedArgs, v: VersionType)
    requires a.versionType == Some(VersionTypeName(v))
    ensures MapArgs(a).Success? && MapArgs(a).value.versionType == Some(v)
  {
    ParseVersionTypeName(v);
  }

  /** What the command line does, by its arguments after the program name. */
  datatype Command =
    | InitHelp              // `init --help` or `init -h`: print the help of `init`
    | Init(rawArgs: seq<string>)   // `init ...`: create the config file
    | Main                  // anything else: the release command

  /** The dispatch on the first argument. */
  function Dispatch(args: seq<string>): (cmd: Command)
    // `init` first never reaches the release command.
    ensures |args| > 0 && args[0] == "init" <==> cmd != Main
    ensures cmd == InitHelp <==> |args| > 0 && args[0] == "init" && ("--help" in args || "-h" in args)
    ensures cmd.Init? ==> cmd.rawArgs == args[1..]
  {
    if |args| > 0 && args[0] == "init" then
      if "--help" in args || "-h" in args then InitHelp else Init(args[1..])
    else Main
  }

  /**
   * The release command's handler on values: an invalid version type ends
   * the process with code 1 before the release starts; otherwise the release runs.
   */
  function HandlerRun(a: ParsedArgs, ws: Config.Workspace, env: Env, h: seq<Event>): (r: (seq<Event>, Outcome))
    ensures MapArgs(a).Failure? ==> r == (h, Exit(1))
    ensures MapArgs(a).Success? ==> r == Runner.ReleaseRun(MapArgs(a).value, ws, env, h)
  {
    match MapArgs(a)
    case Failure(code) => (h, Exit(code))
    case Success(o) => Runner.ReleaseRun(o, ws, env, h)
  }

  /** The release command's handler. */
  method RunHandler(a: ParsedArgs, ws: Config.Workspace, io: Terminal) returns (outcome: Outcome)
    modifies io
    ensures (io.log, outcome) == HandlerRun(a, ws, io.env, old(io.log))
  {
    var options := CliOptions(a.dryRun, a.skipTests, a.skipChecks, a.skipSync, a.skipPush,
                              a.skipDeploy, a.githubRelease, None, a.config);
    if Truthy(a.versionType) {
      var v := ParseVersionType(a.versionType.value);
      if v.None? {
        return Exit(1);
      }
      options := options.(versionType := v);
    }
    outcome := Runner.RunRelease(options, ws, io);
  }
}
