/**
 * Step 5, `versionBump` (src/steps/version-bump.ts): choose the bump type,
 * read the current version, build, generate and commit the changelog, and
 * bump with `npm version`, recording both versions in the context.
 */
module VersionBump {
  import opened Wrappers
  import opened JsString
  import opened Types
  import opened Effects

  const ChangelogCommit := "git commit -m \"docs: update changelog\""

  /** The bump command for a type. */
  function BumpCommand(v: VersionType): (cmd: string)
    ensures |cmd| > 12 && cmd[..12] == "npm version " && ParseVersionType(cmd[12..]) == Some(v)
  {
    ParseVersionTypeName(v);
    "npm version " + VersionTypeName(v)
  }

  /** The current version from the output of `npm pkg get version`: trimmed, with its JSON quotes removed. */
  function CleanVersion(out: string): (v: string)
    ensures '"' !in v && |v| <= |Trim(out)|
    ensures '"' !in Trim(out) ==> v == Trim(out)
  {
    RemoveAll(Trim(out), '"')
  }

  /** A quoted version on a line of its own reads back as the bare version. */
  lemma CleanVersionExample()
    ensures CleanVersion("\"1.2.3\"\n") == "1.2.3"
  {
    assert Trim("\"1.2.3\"\n") == "\"1.2.3\"" by {
      assert LeadingSpace("\"1.2.3\"\n") == 0;
      assert TrailingSpace("\"1.2.3\"\n") == 1;
    }
    assert "\"1.2.3\"" == "\"" + "1.2.3" + "\"";
    Unquote("1.2.3");
  }

  /** A version printed as a JSON string, with no quote inside, reads back without its quotes. */
  lemma Unquote(v: string)
    requires '"' !in v
    ensures RemoveAll("\"" + v + "\"", '"') == v
  {
    RemoveAllAppend("\"" + v, "\"", '"');
    RemoveAllAppend("\"", v, '"');
    RemoveAllChar('"', '"');
  }

  /** The new version from the output of `npm version`: trimmed, with its first `v` removed. */
  function BumpedVersion(out: string): (v: string)
    ensures 'v' !in Trim(out) ==> v == Trim(out)
    ensures 'v' in Trim(out) ==> |v| == |Trim(out)| - 1
  {
    RemoveFirst(Trim(out), 'v')
  }

  /** A typical `npm version` output. */
  lemma BumpedVersionExample()
    ensures BumpedVersion("v1.2.4\n") == "1.2.4"
  {
    assert Trim("v1.2.4\n") == "v1.2.4" by {
      assert LeadingSpace("v1.2.4\n") == 0;
      assert TrailingSpace("v1.2.4\n") == 1;
    }
    assert IndexOf("v1.2.4", 'v') == 0;
  }

  /**
   * How the bump type is chosen: the command-line type; else `patch` in a
   * dry run without prompting; else the select prompt, where a cancel is `None`.
   * Returns the choice and the log after it.
   */
  function ChooseType(c: Context, env: Env, h: seq<Event>): (r: (Option<VersionType>, seq<Event>))
    ensures c.cliOptions.versionType.Some? ==> r == (c.cliOptions.versionType, h)
    ensures c.cliOptions.versionType.None? && c.dryRun ==> r == (Some(Patch), h)
    ensures c.cliOptions.versionType.None? && !c.dryRun ==>
      r == (env.select(h), h + [Asked(VersionSelect)])
    ensures r.0.None? ==> r.1 == h + [Asked(VersionSelect)]
  {
    if c.cliOptions.versionType.Some? then (c.cliOptions.versionType, h)
    else if c.dryRun then (Some(Patch), h)
    else (env.select(h), h + [Asked(VersionSelect)])
  }

  /**
   * The changelog part: run the command and, when it leaves changes behind,
   * commit them. Any failure here is only a warning, so this only yields a log.
   */
  function ChangelogLog(env: Env, h: seq<Event>, changelog: string): (log: seq<Event>)
    ensures var full := h + [Ran(changelog), Ran(StatusPorcelain), Ran(AddAll), Ran(ChangelogCommit)];
      |h| + 1 <= |log| <= |full| && log == full[..|log|]
    // Committing happens only when the command succeeded and the tree is dirty afterwards.
    ensures |log| > |h| + 2 <==>
      var h1 := h + [Ran(changelog)];
      var status := env.shell(h1, StatusPorcelain);
      env.shell(h, changelog).Some? && status.Some? && Trim(status.value) != ""
  {
    var h1 := h + [Ran(changelog)];
    if env.shell(h, changelog).None? then h1
    else
      var h2 := h1 + [Ran(StatusPorcelain)];
      var status := env.shell(h1, StatusPorcelain);
      if status.None? || Trim(status.value) == "" then h2
      else
        var h3 := h2 + [Ran(AddAll)];
        if env.shell(h2, AddAll).None? then h3
        else h3 + [Ran(ChangelogCommit)]
  }

  /** The build (when configured) and the changelog (when configured), up to the bump itself. */
  function PrepareRun(c: Context, env: Env, h: seq<Event>): (r: (seq<Event>, Outcome))
    ensures Extends(h, r.0)
    ensures r.1 in {Continue, Exit(1)}
    // Only a failed build stops the release.
    ensures r.1 == Exit(1) <==>
      Truthy(c.config.commands.build) && env.shell(h, c.config.commands.build.value).None?
    ensures r.1 == Exit(1) ==> r.0 == h + [Ran(c.config.commands.build.value)]
  {
    var commands := c.config.commands;
    var h1 := if Truthy(commands.build) then h + [Ran(commands.build.value)] else h;
    if Truthy(commands.build) && env.shell(h, commands.build.value).None? then (h1, Exit(1))
    else if Truthy(commands.changelog) then
      var log := ChangelogLog(env, h1, commands.changelog.value);
      ExtendsTrans(h, h1, log);
      (log, Continue)
    else (h1, Continue)
  }

  /**
   * The build runs first when configured; when the release goes on, the
   * changelog is generated after it when configured, and nothing else runs.
   */
  lemma PrepareSteps(c: Context, env: Env, h: seq<Event>)
    ensures var r := PrepareRun(c, env, h);
      var commands := c.config.commands;
      var h1 := if Truthy(commands.build) then h + [Ran(commands.build.value)] else h;
      && (Truthy(commands.build) ==> |r.0| > |h| && r.0[|h|] == Ran(commands.build.value))
      && (!Truthy(commands.build) && Truthy(commands.changelog) ==>
            |r.0| > |h| && r.0[|h|] == Ran(commands.changelog.value))
      && (r.1 == Continue && Truthy(commands.changelog) ==> r.0 == ChangelogLog(env, h1, commands.changelog.value))
      && (r.1 == Continue && !Truthy(commands.changelog) ==> r.0 == h1)
  {
    var commands := c.config.commands;
    var h1 := if Truthy(commands.build) then h + [Ran(commands.build.value)] else h;
    if Truthy(commands.changelog) {
      var log := ChangelogLog(env, h1, commands.changelog.value);
      assert log[|h1|] == (h1 + [Ran(commands.changelog.value)])[|h1|];
      if Truthy(commands.build) {
        assert log[|h|] == h1[|h|];
      }
    }
  }

  /**
   * The part of a real (not dry) run after the current version is known:
   * build and changelog, then `npm version`, whose output becomes the new version.
   */
  function BumpRun(c: Context, env: Env, h: seq<Event>, t: VersionType): (r: Run)
    ensures Extends(h, r.log)
    ensures r.outcome in {Continue, Exit(1)}
    ensures r.ctx == c.(newVersion := r.ctx.newVersion)
    // Going on means `npm version` ran last, with the chosen type, and its output is the new version.
    ensures r.outcome == Continue ==>
      var bump := BumpCommand(t);
      && |r.log| > |h| && r.log[|r.log| - 1] == Ran(bump)
      && var bumped := env.shell(r.log[..|r.log| - 1], bump);
      && bumped.Some? && r.ctx.newVersion == Some(BumpedVersion(bumped.value))
    // A failure records no new version.
    ensures r.outcome != Continue ==> r.ctx == c
  {
    var prepared := PrepareRun(c, env, h);
    var h1 := prepared.0;
    if prepared.1.Exit? then Run(h1, prepared.1, c)
    else
      var bump := BumpCommand(t);
      var bumped := env.shell(h1, bump);
      var h2 := h1 + [Ran(bump)];
      assert h2[..|h2| - 1] == h1;
      ExtendsTrans(h, h1, h2);
      if bumped.None? then Run(h2, Exit(1), c)
      else Run(h2, Continue, c.(newVersion := Some(BumpedVersion(bumped.value))))
  }

  /**
   * The part of `bumpVersion` after the bump type is chosen: read the current
   * version, record it, and (unless this is a dry run) build, generate the
   * changelog and bump.
   */
  function ReadAndBumpRun(c: Context, env: Env, h: seq<Event>, t: VersionType): (r: Run)
    ensures Extends(h, r.log)
    ensures r.outcome in {Continue, Exit(1)}
    // Only the two versions in the context may change.
    ensures r.ctx == c.(currentVersion := r.ctx.currentVersion, newVersion := r.ctx.newVersion)
    // The new version is only ever recorded by a real, successful bump.
    ensures r.ctx.newVersion != c.newVersion ==> !c.dryRun && r.outcome == Continue
  {
    var out := env.shell(h, VersionQuery);
    var h1 := h + [Ran(VersionQuery)];
    if out.None? then Run(h1, Exit(1), c)
    else
      var c1 := c.(currentVersion := Some(CleanVersion(out.value)));
      if c.dryRun then Run(h1, Continue, c1)
      else
        var r := BumpRun(c1, env, h1, t);
        ExtendsTrans(h, h1, r.log);
        r
  }

  /**
   * The version is read first and, when it can be read, recorded without
   * quotes before anything else happens; a dry run stops there.
   */
  lemma ReadAndBumpSteps(c: Context, env: Env, h: seq<Event>, t: VersionType)
    ensures var r := ReadAndBumpRun(c, env, h, t);
      var out := env.shell(h, VersionQuery);
      var h1 := h + [Ran(VersionQuery)];
      // Without the current version the release stops.
      && (out.None? ==> r == Run(h1, Exit(1), c))
      && (out.Some? ==> Extends(h1, r.log) && r.ctx.currentVersion == Some(CleanVersion(out.value)))
      && (out.Some? && c.dryRun ==> r.log == h1 && r.outcome == Continue && r.ctx.newVersion == c.newVersion)
      // Otherwise the rest is the build, the changelog and the bump with the chosen type.
      && (out.Some? && !c.dryRun ==> r == BumpRun(c.(currentVersion := Some(CleanVersion(out.value))), env, h1, t))
  {
  }

  /** `bumpVersion` on a context value. */
  function BumpVersionRun(c: Context, env: Env, h: seq<Event>): (r: Run)
    ensures Extends(h, r.log)
    ensures r.outcome in {Continue, Exit(0), Exit(1)}
    // Only the two versions in the context may change.
    ensures r.ctx == c.(currentVersion := r.ctx.currentVersion, newVersion := r.ctx.newVersion)
    // A disabled step is a no-op.
    ensures !c.config.steps.versionBump ==> r == Run(h, Continue, c)
    // Exiting with 0 means the selection was cancelled, which a dry run never does.
    ensures r.outcome == Exit(0) ==> !c.dryRun && c.cliOptions.versionType.None?
    // The new version is only ever recorded by a real, successful bump.
    ensures r.ctx.newVersion != c.newVersion ==> !c.dryRun && r.outcome == Continue
  {
    if !c.config.steps.versionBump then Run(h, Continue, c)
    else
      var choice := ChooseType(c, env, h);
      if choice.0.None? then Run(choice.1, Exit(0), c)
      else
        var r := ReadAndBumpRun(c, env, choice.1, choice.0.value);
        ExtendsTrans(h, choice.1, r.log);
        r
  }

  /** The enabled step: choose the type; a cancelled selection ends the release gracefully, else the version is read and bumped. */
  lemma BumpVersionSteps(c: Context, env: Env, h: seq<Event>)
    requires c.config.steps.versionBump
    ensures var r := BumpVersionRun(c, env, h);
      var choice := ChooseType(c, env, h);
      && (choice.0.None? ==> r == Run(choice.1, Exit(0), c))
      && (choice.0.Some? ==> r == ReadAndBumpRun(c, env, choice.1, choice.0.value))
  {
  }

  /** In a dry run the step prompts for nothing, only reads the version, and records no new version. */
  lemma BumpVersionDryRun(c: Context, env: Env, h: seq<Event>)
    requires c.dryRun
    ensures var r := BumpVersionRun(c, env, h);
      DryRunSafe(Added(h, r.log)) && r.outcome in {Continue, Exit(1)} && r.ctx.newVersion == c.newVersion
  {
    var r := BumpVersionRun(c, env, h);
    if c.config.steps.versionBump {
      assert Added(h, r.log) == [Ran(VersionQuery)];
    }
  }

  /** The changelog part of `bumpVersion`. */
  method GenerateChangelog(io: Terminal, changelog: string)
    modifies io
    ensures io.log == ChangelogLog(io.env, old(io.log), changelog)
  {
    var generated := io.Exec(changelog);
    if generated.None? {
      return;
    }
    var status := io.Exec(StatusPorcelain);
    if status.None? || Trim(status.value) == "" {
      return;
    }
    var added := io.Exec(AddAll);
    if added.None? {
      return;
    }
    var _ := io.Exec(ChangelogCommit);
  }

  /** `bumpVersion`. */
  method BumpVersion(ctx: ReleaseContext, io: Terminal) returns (o: Outcome)
    modifies ctx, io
    ensures var r := BumpVersionRun(old(ctx.Value()), io.env, old(io.log));
      io.log == r.log && o == r.outcome && ctx.Value() == r.ctx
  {
    if !ctx.config.steps.versionBump {
      return Continue;
    }
    var versionType: VersionType;
    if ctx.cliOptions.versionType.Some? {
      versionType := ctx.cliOptions.versionType.value;
    } else if ctx.dryRun {
      versionType := Patch;
    } else {
      var selected := io.SelectVersion();
      if selected.None? {
        return Exit(0);
      }
      versionType := selected.value;
    }
    var out := io.Exec(VersionQuery);
    if out.None? {
      return Exit(1);
    }
    ctx.currentVersion := Some(CleanVersion(out.value));
    if ctx.dryRun {
      return Continue;
    }
    o := Bump(ctx, io, versionType);
  }

  /** The build and changelog part of `bumpVersion`. */
  method Prepare(ctx: ReleaseContext, io: Terminal) returns (o: Outcome)
    modifies io
    ensures (io.log, o) == PrepareRun(ctx.Value(), io.env, old(io.log))
  {
    var build := ctx.config.commands.build;
    if Truthy(build) {
      var built := io.Exec(build.value);
      if built.None? {
        return Exit(1);
      }
    }
    var changelog := ctx.config.commands.changelog;
    if Truthy(changelog) {
      GenerateChangelog(io, changelog.value);
    }
    return Continue;
  }

  /** The build, changelog and `npm version` part of `bumpVersion`. */
  method Bump(ctx: ReleaseContext, io: Terminal, versionType: VersionType) returns (o: Outcome)
    modifies ctx, io
    ensures var r := BumpRun(old(ctx.Value()), io.env, old(io.log), versionType);
      io.log == r.log && o == r.outcome && ctx.Value() == r.ctx
  {
    var prepared := Prepare(ctx, io);
    if prepared.Exit? {
      return prepared;
    }
    var bumped := io.Exec(BumpCommand(versionType));
    if bumped.None? {
      return Exit(1);
    }
    ctx.newVersion := Some(BumpedVersion(bumped.value));
    return Continue;
  }
}
