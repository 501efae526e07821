/**
 * Step 8, `githubRelease` (src/steps/github-release.ts): create a GitHub
 * release for the new version with the `gh` command-line tool. Every failure
 * here is only a warning: the step never ends the release.
 */
module GithubRelease {
  import opened Wrappers
  import opened JsString
  import opened Types
  import opened Effects

  const GhVersion := "gh --version"
  const GhAuthStatus := "gh auth status"

  /** Whether the step is on: either the step switch or the `github.release` option. */
  predicate Enabled(config: ResolvedConfig) {
    config.steps.githubRelease || config.github.release
  }

  /** The release tag for a version. */
  function Tag(version: string): (tag: string)
    ensures |tag| == |version| + 1 && tag[0] == 'v' && tag[1..] == version
  {
    "v" + version
  }

  /** The tag a dry run announces: the real tag once a new version is known, a placeholder otherwise. */
  function AnnouncedTag(newVersion: Option<string>): (tag: string)
    ensures Truthy(newVersion) ==> tag == Tag(newVersion.value)
    ensures !Truthy(newVersion) ==> tag == "v<new-version>"
  {
    if Truthy(newVersion) then Tag(newVersion.value) else "v<new-version>"
  }

  /** The `gh release create` command: the tag, its title, and the optional flags, joined by spaces. */
  function CreateCommand(tag: string, draft: bool, generateNotes: bool): string {
    Join(NonEmpty(["gh release create", tag, "--title \"" + tag + "\"",
                   if draft then "--draft" else "", if generateNotes then "--generate-notes" else ""]), " ")
  }

  /** Joining three parts. */
  lemma JoinThree(a: string, b: string, c: string, sep: string)
    ensures Join([a, b, c], sep) == a + sep + b + sep + c
  {
    assert [a, b, c][1..] == [b, c];
    assert [b, c][1..] == [c];
    assert Join([b, c], sep) == b + sep + c;
  }

  /** The optional flags switched on, in the order the command lists them. */
  function Flags(draft: bool, generateNotes: bool): seq<string> {
    (if draft then ["--draft"] else []) + (if generateNotes then ["--generate-notes"] else [])
  }

  /** The parts of the create command that survive the filter: the fixed three and the flags switched on. */
  lemma CreateCommandParts(tag: string, draft: bool, generateNotes: bool)
    requires tag != ""
    ensures var title := "--title \"" + tag + "\"";
      NonEmpty(["gh release create", tag, title, if draft then "--draft" else "", if generateNotes then "--generate-notes" else ""])
        == ["gh release create", tag, title] + Flags(draft, generateNotes)
  {
    var title := "--title \"" + tag + "\"";
    var d := if draft then "--draft" else "";
    var g := if generateNotes then "--generate-notes" else "";
    var fixed := ["gh release create", tag, title];
    assert ["gh release create", tag, title, d, g] == fixed + [d] + [g];
    NonEmptyAppend(fixed + [d], [g]);
    NonEmptyAppend(fixed, [d]);
    assert NonEmpty(fixed) == fixed;
    assert NonEmpty([d]) == (if draft then ["--draft"] else []);
    assert NonEmpty([g]) == (if generateNotes then ["--generate-notes"] else []);
  }

  /**
   * The create command spelled out: the fixed part, then each flag switched
   * on preceded by one space, so an absent flag leaves no stray space behind.
   */
  lemma CreateCommandShape(tag: string, draft: bool, generateNotes: bool)
    requires tag != ""
    ensures CreateCommand(tag, draft, generateNotes) ==
      "gh release create" + " " + tag + " " + ("--title \"" + tag + "\"") + Prefixed(Flags(draft, generateNotes), " ")
  {
    var title := "--title \"" + tag + "\"";
    var fixed := ["gh release create", tag, title];
    var flags := Flags(draft, generateNotes);
    CreateCommandParts(tag, draft, generateNotes);
    JoinThree("gh release create", tag, title, " ");
    if flags == [] {
      assert fixed + flags == fixed;
    } else {
      JoinAppend(fixed, flags, " ");
      PrefixedJoin(flags, " ");
    }
  }

  /** `createGithubRelease` on a context value. */
  function GithubReleaseRun(c: Context, env: Env, h: seq<Event>): (r: Run)
    // The release never stops here and the context is left alone.
    ensures r.ctx == c && r.outcome == Continue
    // Off, a dry run, or no new version recorded: nothing runs.
    ensures !Enabled(c.config) || c.dryRun || !Truthy(c.newVersion) ==> r.log == h
    ensures Enabled(c.config) && !c.dryRun && Truthy(c.newVersion) ==>
      var create := CreateCommand(Tag(c.newVersion.value), c.config.github.draft, c.config.github.generateNotes);
      var full := h + [Ran(GhVersion), Ran(GhAuthStatus), Ran(create)];
      var h1 := h + [Ran(GhVersion)];
      && |h| < |r.log| <= |full| && r.log == full[..|r.log|]
      // The release is created only when `gh` is installed and logged in, each reporting something.
      && (|r.log| == |full| <==> Truthy(env.shell(h, GhVersion)) && Truthy(env.shell(h1, GhAuthStatus)))
  {
    if !Enabled(c.config) || c.dryRun || !Truthy(c.newVersion) then Run(h, Continue, c)
    else
      var h1 := h + [Ran(GhVersion)];
      if !Truthy(env.shell(h, GhVersion)) then Run(h1, Continue, c)
      else
        var h2 := h1 + [Ran(GhAuthStatus)];
        if !Truthy(env.shell(h1, GhAuthStatus)) then Run(h2, Continue, c)
        else
          var create := CreateCommand(Tag(c.newVersion.value), c.config.github.draft, c.config.github.generateNotes);
          Run(h2 + [Ran(create)], Continue, c)
  }

  /** `createGithubRelease`. */
  method CreateGithubRelease(ctx: ReleaseContext, io: Terminal) returns (o: Outcome)
    modifies io
    ensures var r := GithubReleaseRun(ctx.Value(), io.env, old(io.log));
      io.log == r.log && o == r.outcome
  {
    o := Continue;
    if !Enabled(ctx.config) {
      return;
    }
    if ctx.dryRun {
      return;
    }
    if !Truthy(ctx.newVersion) {
      return;
    }
    var tag := Tag(ctx.newVersion.value);
    var ghVersion := io.Exec(GhVersion);
    if !Truthy(ghVersion) {
      return;
    }
    var authStatus := io.Exec(GhAuthStatus);
    if !Truthy(authStatus) {
      return;
    }
    var _ := io.Exec(CreateCommand(tag, ctx.config.github.draft, ctx.config.github.generateNotes));
  }
}
