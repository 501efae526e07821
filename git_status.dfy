/**
 * Step 4, `commitChanges` (src/steps/git-status.ts): look at the work tree
 * and, when it is dirty, commit everything under a message the user types.
 */
module GitStatus {
  import opened Wrappers
  import opened JsString
  import opened Types
  import opened Effects

  /** `message.replace(/"/g, '\\"')`: a backslash before every double quote. */
  function EscapeQuotes(m: string): (r: string)
    ensures |r| == |m| + multiset(m)['"']
    ensures m == [] <==> r == []
  {
    if m == [] then []
    else
      assert m == [m[0]] + m[1..];
      (if m[0] == '"' then "\\\"" else [m[0]]) + EscapeQuotes(m[1..])
  }

  /** Reading an escaped message back: every backslash-quote pair stands for a quote. */
  function UnescapeQuotes(s: string): string
    decreases |s|
  {
    if s == [] then []
    else if |s| >= 2 && s[0] == '\\' && s[1] == '"' then "\"" + UnescapeQuotes(s[2..])
    else [s[0]] + UnescapeQuotes(s[1..])
  }

  /** Escaping never produces a string that starts with a bare quote. */
  lemma EscapeHead(m: string)
    ensures EscapeQuotes(m) != [] ==> EscapeQuotes(m)[0] != '"'
  {
  }

  /** Every quote in an escaped message is preceded by a backslash. */
  lemma {:induction false} EscapedQuotesGuarded(m: string, i: nat)
    requires i < |EscapeQuotes(m)| && EscapeQuotes(m)[i] == '"'
    ensures i > 0 && EscapeQuotes(m)[i - 1] == '\\'
    decreases |m|
  {
    var head := if m[0] == '"' then "\\\"" else [m[0]];
    assert EscapeQuotes(m) == head + EscapeQuotes(m[1..]);
    if i >= |head| {
      EscapedQuotesGuarded(m[1..], i - |head|);
    }
  }

  /** Escaping loses nothing: the message reads back exactly. */
  lemma {:induction false} EscapeRoundTrip(m: string)
    ensures UnescapeQuotes(EscapeQuotes(m)) == m
    decreases |m|
  {
    if m != [] {
      var rest := EscapeQuotes(m[1..]);
      EscapeRoundTrip(m[1..]);
      if m[0] == '"' {
        assert EscapeQuotes(m) == "\\\"" + rest;
        assert ("\\\"" + rest)[2..] == rest;
      } else {
        assert EscapeQuotes(m) == [m[0]] + rest;
        EscapeHead(m[1..]);
        assert ([m[0]] + rest)[1..] == rest;
      }
    }
  }

  /** The commit command for a message: the escaped message inside double quotes. */
  function CommitCommand(m: string): (cmd: string)
    ensures |cmd| == 15 + |EscapeQuotes(m)| + 1
  {
    "git commit -m \"" + EscapeQuotes(m) + "\""
  }

  /** The commit command quotes the message so that it reads back exactly. */
  lemma CommitCommandReadsBack(m: string)
    ensures var cmd := CommitCommand(m);
      && cmd[..15] == "git commit -m \"" && cmd[|cmd| - 1] == '"'
      && UnescapeQuotes(cmd[15..|cmd| - 1]) == m
  {
    var cmd := CommitCommand(m);
    assert cmd[15..|cmd| - 1] == EscapeQuotes(m);
    EscapeRoundTrip(m);
  }

  /**
   * `checkAndCommit` on a context value. A missing status (not a git
   * repository) is fatal; a clean tree asks whether to go on anyway; a
   * dirty tree is shown and, after a confirmation and a message, committed.
   */
  function CheckAndCommitRun(c: Context, env: Env, h: seq<Event>): (r: Run)
    ensures r.ctx == c
    ensures Extends(h, r.log)
    ensures r.outcome in {Continue, Exit(0), Exit(1)}
    // A disabled step is a no-op.
    ensures !c.config.steps.commitChanges ==> r == Run(h, Continue, c)
  {
    if !c.config.steps.commitChanges then Run(h, Continue, c)
    else
      var h1 := h + [Ran(StatusPorcelain)];
      var status := env.shell(h, StatusPorcelain);
      if status.None? then Run(h1, Exit(1), c)
      else if Trim(status.value) == "" then
        if c.dryRun then Run(h1, Continue, c)
        else Run(h1 + [Asked(Confirmation)], if env.confirm(h1) == Yes then Continue else Exit(0), c)
      else
        var h2 := h1 + [Ran(StatusShort)];
        if c.dryRun then Run(h2, Continue, c)
        else
          var h3 := h2 + [Asked(Confirmation)];
          if env.confirm(h2) != Yes then Run(h3, Exit(0), c)
          else
            var h4 := h3 + [Asked(MessageInput)];
            var m := env.text(h3);
            if m.None? then Run(h4, Exit(0), c)
            else
              var h5 := h4 + [Ran(AddAll)];
              if env.shell(h4, AddAll).None? then Run(h5, Exit(1), c)
              else
                var commit := CommitCommand(m.value);
                Run(h5 + [Ran(commit)], if env.shell(h5, commit).None? then Exit(1) else Continue, c)
  }

  /**
   * The status is read first; failing to read it ends the release with an
   * error, and a clean tree needs the user's word to go on (except in a dry run).
   */
  lemma CleanTreeSteps(c: Context, env: Env, h: seq<Event>)
    requires c.config.steps.commitChanges
    ensures var r := CheckAndCommitRun(c, env, h);
      var h1 := h + [Ran(StatusPorcelain)];
      var status := env.shell(h, StatusPorcelain);
      var clean := status.Some? && Trim(status.value) == "";
      && Extends(h1, r.log)
      && (status.None? ==> r == Run(h1, Exit(1), c))
      && (clean && c.dryRun ==> r == Run(h1, Continue, c))
      && (clean && !c.dryRun ==>
            r.log == h1 + [Asked(Confirmation)] &&
            r.outcome == (if env.confirm(h1) == Yes then Continue else Exit(0)))
  {
  }

  /**
   * A dirty tree is shown; a dry run stops there, and declining the commit
   * or cancelling the message ends the release gracefully.
   */
  lemma DirtyTreeSteps(c: Context, env: Env, h: seq<Event>)
    requires c.config.steps.commitChanges
    requires var status := env.shell(h, StatusPorcelain); status.Some? && Trim(status.value) != ""
    ensures var r := CheckAndCommitRun(c, env, h);
      var h2 := h + [Ran(StatusPorcelain), Ran(StatusShort)];
      var h3 := h2 + [Asked(Confirmation)];
      && (c.dryRun ==> r == Run(h2, Continue, c))
      && (!c.dryRun && env.confirm(h2) != Yes ==> r == Run(h3, Exit(0), c))
      && (!c.dryRun && env.confirm(h2) == Yes && env.text(h3).None? ==>
            r == Run(h3 + [Asked(MessageInput)], Exit(0), c))
  {
    assert h + [Ran(StatusPorcelain)] + [Ran(StatusShort)] == h + [Ran(StatusPorcelain), Ran(StatusShort)];
  }

  /** Going on past a dirty tree means everything was staged and committed under the typed message. */
  lemma DirtyTreeCommitted(c: Context, env: Env, h: seq<Event>)
    requires c.config.steps.commitChanges && !c.dryRun
    requires var status := env.shell(h, StatusPorcelain); status.Some? && Trim(status.value) != ""
    ensures var r := CheckAndCommitRun(c, env, h);
      var h3 := h + [Ran(StatusPorcelain), Ran(StatusShort), Asked(Confirmation)];
      var m := env.text(h3);
      r.outcome == Continue ==>
        && m.Some? && r.log == h3 + [Asked(MessageInput), Ran(AddAll), Ran(CommitCommand(m.value))]
        && env.shell(h3 + [Asked(MessageInput)], AddAll).Some?
        && env.shell(h3 + [Asked(MessageInput), Ran(AddAll)], CommitCommand(m.value)).Some?
  {
    var h3 := h + [Ran(StatusPorcelain), Ran(StatusShort), Asked(Confirmation)];
    assert h + [Ran(StatusPorcelain)] + [Ran(StatusShort)] + [Asked(Confirmation)] == h3;
    var m := env.text(h3);
    if m.Some? {
      var commit := CommitCommand(m.value);
      assert h3 + [Asked(MessageInput)] + [Ran(AddAll)] + [Ran(commit)] ==
        h3 + [Asked(MessageInput), Ran(AddAll), Ran(commit)];
      assert h3 + [Asked(MessageInput)] + [Ran(AddAll)] == h3 + [Asked(MessageInput), Ran(AddAll)];
    }
  }

  /**
   * With the commit accepted and a message typed, `git add .` runs, then the
   * commit only when the add succeeded; either failing is fatal.
   */
  lemma DirtyTreeApproved(c: Context, env: Env, h: seq<Event>)
    requires c.config.steps.commitChanges && !c.dryRun
    requires var status := env.shell(h, StatusPorcelain); status.Some? && Trim(status.value) != ""
    requires env.confirm(h + [Ran(StatusPorcelain), Ran(StatusShort)]) == Yes
    requires env.text(h + [Ran(StatusPorcelain), Ran(StatusShort), Asked(Confirmation)]).Some?
    ensures var r := CheckAndCommitRun(c, env, h);
      var h4 := h + [Ran(StatusPorcelain), Ran(StatusShort), Asked(Confirmation), Asked(MessageInput)];
      var commit := CommitCommand(env.text(h + [Ran(StatusPorcelain), Ran(StatusShort), Asked(Confirmation)]).value);
      var added := env.shell(h4, AddAll).Some?;
      && (!added ==> r == Run(h4 + [Ran(AddAll)], Exit(1), c))
      && (added && env.shell(h4 + [Ran(AddAll)], commit).None? ==> r.outcome == Exit(1))
      && (r.outcome == Continue <==> added && env.shell(h4 + [Ran(AddAll)], commit).Some?)
  {
    var h2 := h + [Ran(StatusPorcelain)] + [Ran(StatusShort)];
    assert h2 == h + [Ran(StatusPorcelain), Ran(StatusShort)];
    var h3 := h + [Ran(StatusPorcelain), Ran(StatusShort), Asked(Confirmation)];
    assert h2 + [Asked(Confirmation)] == h3;
    var h4 := h3 + [Asked(MessageInput)];
    assert h4 == h + [Ran(StatusPorcelain), Ran(StatusShort), Asked(Confirmation), Asked(MessageInput)];
    var commit := CommitCommand(env.text(h3).value);
    var r := CheckAndCommitRun(c, env, h);
    if env.shell(h4, AddAll).Some? {
      assert r == Run(h4 + [Ran(AddAll)] + [Ran(commit)],
                      if env.shell(h4 + [Ran(AddAll)], commit).None? then Exit(1) else Continue, c);
    } else {
      assert r == Run(h4 + [Ran(AddAll)], Exit(1), c);
    }
  }

  /** In a dry run the step only reads the status and never ends the release, except for a failed status. */
  lemma CheckAndCommitDryRun(c: Context, env: Env, h: seq<Event>)
    requires c.dryRun
    ensures var r := CheckAndCommitRun(c, env, h);
      DryRunSafe(Added(h, r.log)) && (r.outcome == Continue || r.outcome == Exit(1))
  {
    var r := CheckAndCommitRun(c, env, h);
    if c.config.steps.commitChanges {
      var status := env.shell(h, StatusPorcelain);
      if status.None? || Trim(status.value) == "" {
        assert Added(h, r.log) == [Ran(StatusPorcelain)];
      } else {
        assert Added(h, r.log) == [Ran(StatusPorcelain), Ran(StatusShort)];
      }
    }
  }

  /** `checkAndCommit`. */
  method CheckAndCommit(ctx: ReleaseContext, io: Terminal) returns (o: Outcome)
    modifies io
    ensures var r := CheckAndCommitRun(ctx.Value(), io.env, old(io.log));
      io.log == r.log && o == r.outcome
  {
    if !ctx.config.steps.commitChanges {
      return Continue;
    }
    var status := io.Exec(StatusPorcelain);
    if status.None? {
      return Exit(1);
    }
    if Trim(status.value) == "" {
      if ctx.dryRun {
        return Continue;
      }
      var goOn := io.Confirm();
      if goOn != Yes {
        return Exit(0);
      }
      return Continue;
    }
    var _ := io.Exec(StatusShort);
    if ctx.dryRun {
      return Continue;
    }
    var shouldCommit := io.Confirm();
    if shouldCommit != Yes {
      return Exit(0);
    }
    var message := io.AskMessage();
    if message.None? {
      return Exit(0);
    }
    var added := io.Exec(AddAll);
    if added.None? {
      return Exit(1);
    }
    var committed := io.Exec(CommitCommand(message.value));
    if committed.None? {
      return Exit(1);
    }
    return Continue;
  }
}
