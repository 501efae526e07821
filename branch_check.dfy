/**
 * Step 1, `checkBranch` (src/steps/branch-check.ts): read the current branch
 * and, when it matches no release-branch pattern, ask whether to go on.
 */
module BranchCheck {
  import opened Wrappers
  import opened JsString
  import opened Types
  import opened Effects

  /**
   * the anchored regular expression the source builds from a pattern by
   * rewriting every `*` to `.*`: each `*`
   * matches any run of characters other than line terminators, `.` matches one
   * such character, and every other character matches itself.
   */
  predicate Matches(pattern: string, s: string)
    decreases |pattern| + |s|
  {
    if pattern == [] then s == []
    else if pattern[0] == '*' then
      Matches(pattern[1..], s) || (s != [] && !IsLineTerminator(s[0]) && Matches(pattern, s[1..]))
    else
      s != [] && (if pattern[0] == '.' then !IsLineTerminator(s[0]) else s[0] == pattern[0])
      && Matches(pattern[1..], s[1..])
  }

  /** One pattern of `releaseBranches`: a wildcard match when it holds a `*`, string equality otherwise. */
  predicate PatternAllows(pattern: string, branch: string) {
    if '*' in pattern then Matches(pattern, branch) else pattern == branch
  }

  /** `releaseBranches.some(...)`: the branch is allowed iff some pattern allows it. */
  function BranchAllowed(patterns: seq<string>, branch: string): (r: bool)
    ensures r <==> exists i :: 0 <= i < |patterns| && PatternAllows(patterns[i], branch)
  {
    if patterns == [] then false
    else if PatternAllows(patterns[0], branch) then true
    else
      var r := BranchAllowed(patterns[1..], branch);
      assert forall i :: 1 <= i < |patterns| ==> patterns[i] == patterns[1..][i - 1];
      r
  }

  predicate NoLineTerminator(s: string) {
    forall i :: 0 <= i < |s| ==> !IsLineTerminator(s[i])
  }

  /** A lone `*` matches exactly the strings without a line terminator. */
  lemma {:induction false} StarMatches(s: string)
    ensures Matches("*", s) <==> NoLineTerminator(s)
    decreases |s|
  {
    assert "*"[1..] == [];
    if s != [] {
      StarMatches(s[1..]);
      assert NoLineTerminator(s) <==> !IsLineTerminator(s[0]) && NoLineTerminator(s[1..]) by {
        assert forall i :: 1 <= i < |s| ==> s[i] == s[1..][i - 1];
      }
    }
  }

  /** Without `*` and `.`, the regular expression matches only the pattern itself. */
  lemma {:induction false} LiteralMatches(pattern: string, s: string)
    requires '*' !in pattern && '.' !in pattern
    ensures Matches(pattern, s) <==> pattern == s
    decreases |pattern|
  {
    if pattern != [] && s != [] {
      assert pattern[0] != '*' && pattern[0] != '.';
      LiteralMatches(pattern[1..], s[1..]);
      assert pattern == [pattern[0]] + pattern[1..] && s == [s[0]] + s[1..];
    }
  }

  /**
   * `prefix*`, with a literal prefix, matches exactly the strings that start
   * with the prefix and continue without a line terminator.
   */
  lemma {:induction false} PrefixStarMatches(prefix: string, s: string)
    requires '*' !in prefix && '.' !in prefix
    ensures Matches(prefix + "*", s) <==>
      |prefix| <= |s| && s[..|prefix|] == prefix && NoLineTerminator(s[|prefix|..])
    decreases |prefix|
  {
    if prefix == [] {
      assert prefix + "*" == "*";
      StarMatches(s);
    } else {
      var p := prefix + "*";
      assert p[0] == prefix[0] && p[0] != '*' && p[0] != '.';
      assert p[1..] == prefix[1..] + "*";
      if s != [] {
        PrefixStarMatches(prefix[1..], s[1..]);
        if |prefix| <= |s| {
          assert s[1..][|prefix| - 1..] == s[|prefix|..];
          assert s[..|prefix|] == [s[0]] + s[1..][..|prefix| - 1];
          assert prefix == [prefix[0]] + prefix[1..];
        }
      }
    }
  }

  /** The pattern `"release/" + "*"` allows `release/1.0` and `release/`, but not `release` or `releasefoo`. */
  lemma ReleaseSlashStar()
    ensures PatternAllows("release/*", "release/1.0")
    ensures PatternAllows("release/*", "release/")
    ensures !PatternAllows("release/*", "release")
    ensures !PatternAllows("release/*", "releasefoo")
  {
    var prefix := "release/";
    assert "release/*" == prefix + "*";
    assert '*' !in prefix && '.' !in prefix;
    PrefixStarMatches(prefix, "release/1.0");
    assert "release/1.0"[..|prefix|] == prefix;
    assert NoLineTerminator("release/1.0"[|prefix|..]);
    PrefixStarMatches(prefix, "release/");
    assert "release/"[..|prefix|] == prefix;
    PrefixStarMatches(prefix, "release");
    PrefixStarMatches(prefix, "releasefoo");
    assert "releasefoo"[..|prefix|] != prefix by {
      assert "releasefoo"[7] != prefix[7];
    }
  }

  /** A pattern without `*` (`main`) allows only the branch of exactly that name. */
  lemma ExactPattern(pattern: string, branch: string)
    requires '*' !in pattern
    ensures PatternAllows(pattern, branch) <==> branch == pattern
  {
  }

  /** `checkBranch` on a context value. */
  function CheckBranchRun(c: Context, env: Env, h: seq<Event>): (r: Run)
    // A disabled step is a no-op.
    ensures !c.config.steps.checkBranch ==> r == Run(h, Continue, c)
    // Only `currentBranch` may change.
    ensures r.ctx == c.(currentBranch := r.ctx.currentBranch)
    ensures c.config.steps.checkBranch ==>
      var out := env.shell(h, BranchQuery);
      var h1 := h + [Ran(BranchQuery)];
      Extends(h1, r.log) &&
      // Failing to read the branch is fatal and records nothing.
      (out.None? ==> r.outcome == Exit(1) && r.ctx == c && r.log == h1) &&
      (out.Some? ==> r.ctx.currentBranch == Some(Trim(out.value))) &&
      // An allowed branch, or a dry run, never prompts and always continues.
      (out.Some? && (c.dryRun || BranchAllowed(c.config.releaseBranches, Trim(out.value))) ==>
        r.log == h1 && r.outcome == Continue) &&
      // Otherwise the user is asked, and anything but "yes" ends the release gracefully.
      (out.Some? && !c.dryRun && !BranchAllowed(c.config.releaseBranches, Trim(out.value)) ==>
        r.log == h1 + [Asked(Confirmation)] &&
        r.outcome == (if env.confirm(h1) == Yes then Continue else Exit(0)))
  {
    if !c.config.steps.checkBranch then Run(h, Continue, c)
    else
      var h1 := h + [Ran(BranchQuery)];
      match env.shell(h, BranchQuery)
      case None => Run(h1, Exit(1), c)
      case Some(out) =>
        var branch := Trim(out);
        var c1 := c.(currentBranch := Some(branch));
        if BranchAllowed(c.config.releaseBranches, branch) || c.dryRun then Run(h1, Continue, c1)
        else
          var answer := env.confirm(h1);
          Run(h1 + [Asked(Confirmation)], if answer == Yes then Continue else Exit(0), c1)
  }

  /** In a dry run the step only reads the branch name. */
  lemma CheckBranchDryRun(c: Context, env: Env, h: seq<Event>)
    requires c.dryRun
    ensures var r := CheckBranchRun(c, env, h);
      Extends(h, r.log) && DryRunSafe(Added(h, r.log)) && r.outcome != Exit(0)
  {
    var r := CheckBranchRun(c, env, h);
    if c.config.steps.checkBranch {
      assert Added(h, r.log) == [Ran(BranchQuery)];
    }
  }

  /** `checkBranch`. */
  method CheckBranch(ctx: ReleaseContext, io: Terminal) returns (o: Outcome)
    modifies ctx, io
    ensures var r := CheckBranchRun(old(ctx.Value()), io.env, old(io.log));
      io.log == r.log && o == r.outcome && ctx.Value() == r.ctx
  {
    if !ctx.config.steps.checkBranch {
      return Continue;
    }
    var out := io.Exec(BranchQuery);
    if out.None? {
      return Exit(1);
    }
    var branch := Trim(out.value);
    ctx.currentBranch := Some(branch);
    if !BranchAllowed(ctx.config.releaseBranches, branch) {
      if ctx.dryRun {
        return Continue;
      }
      var answer := io.Confirm();
      if answer == Cancel {
        return Exit(0);
      }
      if answer == No {
        return Exit(0);
      }
    }
    return Continue;
  }
}
