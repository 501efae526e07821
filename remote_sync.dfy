/**
 * Step 2, `syncRemote` (src/steps/remote-sync.ts): fetch, find out whether
 * the upstream has commits the local branch lacks, and if so pull them,
 * committing uncommitted work first.
 */
module RemoteSync {
  import opened Wrappers
  import opened JsString
  import opened Types
  import opened Effects

  const WipCommit := "git commit -m \"WIP: save changes before pulling remote updates\""

  /** The pull command for each strategy. */
  function PullCommand(strategy: PullStrategy): (cmd: string)
    ensures |cmd| >= 8 && cmd[..8] == "git pull"
    ensures strategy == Rebase <==> cmd == "git pull --rebase"
    ensures strategy == FfOnly <==> cmd == "git pull --ff-only"
    ensures strategy == Merge <==> cmd == "git pull"
  {
    match strategy
    case Rebase => "git pull --rebase"
    case FfOnly => "git pull --ff-only"
    case Merge => "git pull"
  }

  /**
   * Whether `git rev-list --count HEAD..@{u}` says the remote is ahead: its
   * trimmed output is neither "0" nor empty; a failed query reads as "0".
   */
  predicate RemoteAhead(behind: Option<string>) {
    var count := if behind.Some? then Trim(behind.value) else "0";
    count != "0" && count != ""
  }

  /** `pullChanges` on a context value: pull, then the install command when one is configured. */
  function PullRun(c: Context, env: Env, h: seq<Event>): (r: Run)
    ensures r.ctx == c
    ensures Extends(h, r.log)
    ensures r.outcome in {Continue, Exit(1)}
  {
    var pull := PullCommand(c.config.git.pullStrategy);
    var h1 := h + [Ran(pull)];
    if env.shell(h, pull).None? then Run(h1, Exit(1), c)
    else if !Truthy(c.config.commands.install) then Run(h1, Continue, c)
    else
      var install := c.config.commands.install.value;
      Run(h1 + [Ran(install)], if env.shell(h1, install).None? then Exit(1) else Continue, c)
  }

  /** The pull runs first; install runs only after a successful pull, and only when configured. */
  lemma PullSteps(c: Context, env: Env, h: seq<Event>)
    ensures var r := PullRun(c, env, h);
      var pull := PullCommand(c.config.git.pullStrategy);
      var pulled := env.shell(h, pull).Some?;
      && Extends(h + [Ran(pull)], r.log)
      // A failed pull is fatal and nothing runs after it.
      && (!pulled ==> r.log == h + [Ran(pull)] && r.outcome == Exit(1))
      && (|r.log| > |h| + 1 <==> pulled && Truthy(c.config.commands.install))
      && (|r.log| > |h| + 1 ==> r.log == h + [Ran(pull), Ran(c.config.commands.install.value)])
      && (pulled && !Truthy(c.config.commands.install) ==> r.outcome == Continue)
      // A failed install is fatal too; going on means every command that ran succeeded.
      && (pulled && Truthy(c.config.commands.install) ==>
            (r.outcome == Exit(1) <==> env.shell(h + [Ran(pull)], c.config.commands.install.value).None?))
      && (r.outcome == Continue <==>
            pulled && (!Truthy(c.config.commands.install) ||
                       env.shell(h + [Ran(pull)], c.config.commands.install.value).Some?))
  {
  }

  /**
   * `handleUncommittedChanges` on a context value: with a dirty tree, ask and
   * then commit everything under a fixed WIP message.
   */
  function UncommittedRun(c: Context, env: Env, h: seq<Event>): (r: Run)
    ensures r.ctx == c
    ensures Extends(h, r.log)
    ensures r.outcome in {Continue, Exit(0), Exit(1)}
  {
    var h1 := h + [Ran(StatusPorcelain)];
    var status := env.shell(h, StatusPorcelain);
    if status.None? || Trim(status.value) == "" then Run(h1, Continue, c)
    else
      var h2 := h1 + [Ran(StatusShort)];
      if c.dryRun then Run(h2, Continue, c)
      else
        var h3 := h2 + [Asked(Confirmation)];
        if env.confirm(h2) != Yes then Run(h3, Exit(0), c)
        else
          var h4 := h3 + [Ran(AddAll)];
          if env.shell(h3, AddAll).None? then Run(h4, Exit(1), c)
          else Run(h4 + [Ran(WipCommit)], if env.shell(h4, WipCommit).None? then Exit(1) else Continue, c)
  }

  /**
   * A clean (or unreadable) tree is left alone, a dry run only shows the
   * changes, and going on past a dirty tree means the WIP commit was made.
   */
  lemma UncommittedSteps(c: Context, env: Env, h: seq<Event>)
    ensures var r := UncommittedRun(c, env, h);
      var status := env.shell(h, StatusPorcelain);
      var dirty := status.Some? && Trim(status.value) != "";
      && Extends(h + [Ran(StatusPorcelain)], r.log)
      && (!dirty ==> r == Run(h + [Ran(StatusPorcelain)], Continue, c))
      && (dirty && c.dryRun ==> r == Run(h + [Ran(StatusPorcelain), Ran(StatusShort)], Continue, c))
      // Declining the WIP commit ends the release gracefully.
      && (dirty && !c.dryRun && env.confirm(h + [Ran(StatusPorcelain), Ran(StatusShort)]) != Yes ==>
          r.outcome == Exit(0))
      && (dirty && !c.dryRun && r.outcome == Continue ==>
          r.log == h + [Ran(StatusPorcelain), Ran(StatusShort), Asked(Confirmation), Ran(AddAll), Ran(WipCommit)])
  {
    assert h + [Ran(StatusPorcelain)] + [Ran(StatusShort)] == h + [Ran(StatusPorcelain), Ran(StatusShort)];
  }

  /**
   * Once the WIP commit is accepted, `git add .` runs, then the commit only
   * when the add succeeded; either failing is fatal, and the release goes on
   * exactly when both succeeded.
   */
  lemma UncommittedApproved(c: Context, env: Env, h: seq<Event>)
    requires var status := env.shell(h, StatusPorcelain); status.Some? && Trim(status.value) != ""
    requires !c.dryRun && env.confirm(h + [Ran(StatusPorcelain), Ran(StatusShort)]) == Yes
    ensures var r := UncommittedRun(c, env, h);
      var h3 := h + [Ran(StatusPorcelain), Ran(StatusShort), Asked(Confirmation)];
      var added := env.shell(h3, AddAll).Some?;
      && (!added ==> r == Run(h3 + [Ran(AddAll)], Exit(1), c))
      && (added ==> r.log == h3 + [Ran(AddAll), Ran(WipCommit)])
      && (added && env.shell(h3 + [Ran(AddAll)], WipCommit).None? ==> r.outcome == Exit(1))
      && (r.outcome == Continue <==> added && env.shell(h3 + [Ran(AddAll)], WipCommit).Some?)
  {
    var h2 := h + [Ran(StatusPorcelain)] + [Ran(StatusShort)];
    assert h2 == h + [Ran(StatusPorcelain), Ran(StatusShort)];
    var h3 := h + [Ran(StatusPorcelain), Ran(StatusShort), Asked(Confirmation)];
    assert h2 + [Asked(Confirmation)] == h3;
    assert h3 + [Ran(AddAll)] + [Ran(WipCommit)] == h3 + [Ran(AddAll), Ran(WipCommit)];
    var r := UncommittedRun(c, env, h);
    if env.shell(h3, AddAll).Some? {
      assert r == Run(h3 + [Ran(AddAll)] + [Ran(WipCommit)],
                      if env.shell(h3 + [Ran(AddAll)], WipCommit).None? then Exit(1) else Continue, c);
    } else {
      assert r == Run(h3 + [Ran(AddAll)], Exit(1), c);
    }
  }

  /** `syncRemote` on a context value. */
  function SyncRemoteRun(c: Context, env: Env, h: seq<Event>): (r: Run)
    ensures r.ctx == c
    ensures Extends(h, r.log)
    ensures r.outcome in {Continue, Exit(0), Exit(1)}
    // A disabled step is a no-op.
    ensures !c.config.steps.syncRemote ==> r == Run(h, Continue, c)
  {
    if !c.config.steps.syncRemote then Run(h, Continue, c)
    else
      var h1 := h + [Ran(Fetch)];
      if env.shell(h, Fetch).None? then Run(h1, Continue, c)
      else
        var h2 := h1 + [Ran(BehindQuery)];
        if !RemoteAhead(env.shell(h1, BehindQuery)) then Run(h2, Continue, c)
        else if c.dryRun then Run(h2, Continue, c)
        else
          var h3 := h2 + [Asked(Confirmation)];
          if env.confirm(h2) != Yes then Run(h3, Exit(0), c)
          else
            var u := UncommittedRun(c, env, h3);
            ExtendsTrans(h, h3, u.log);
            if u.outcome.Exit? then u
            else
              var p := PullRun(c, env, u.log);
              ExtendsTrans(h, u.log, p.log);
              p
  }

  /**
   * The enabled step: fetch, then count what the upstream has; nothing more
   * happens when the fetch fails, the branch is up to date or this is a dry
   * run, and declining the pull ends the release gracefully.
   */
  lemma SyncRemoteSteps(c: Context, env: Env, h: seq<Event>)
    requires c.config.steps.syncRemote
    ensures var r := SyncRemoteRun(c, env, h);
      var h1 := h + [Ran(Fetch)];
      var h2 := h1 + [Ran(BehindQuery)];
      var fetched := env.shell(h, Fetch).Some?;
      var ahead := RemoteAhead(env.shell(h1, BehindQuery));
      && Extends(h1, r.log)
      // A failing fetch is only a warning: the step ends there and the release goes on.
      && (!fetched ==> r.log == h1 && r.outcome == Continue)
      // Up to date (or the count failed): nothing more happens.
      && (fetched && !ahead ==> r.log == h2 && r.outcome == Continue)
      // A dry run never prompts, commits or pulls.
      && (fetched && c.dryRun ==> r.log == h2 && r.outcome == Continue)
      // Declining (or cancelling) the pull ends the release gracefully.
      && (fetched && ahead && !c.dryRun && env.confirm(h2) != Yes ==>
            r.log == h2 + [Asked(Confirmation)] && r.outcome == Exit(0))
  {
    var r := SyncRemoteRun(c, env, h);
    var h1 := h + [Ran(Fetch)];
    var h2 := h1 + [Ran(BehindQuery)];
    if env.shell(h, Fetch).Some? && RemoteAhead(env.shell(h1, BehindQuery)) && !c.dryRun && env.confirm(h2) == Yes {
      var h3 := h2 + [Asked(Confirmation)];
      var u := UncommittedRun(c, env, h3);
      ExtendsTrans(h1, h3, u.log);
      if u.outcome == Continue {
        ExtendsTrans(h1, u.log, r.log);
      }
    }
  }

  /** Accepting the pull: uncommitted work is handled first, and the pull runs only when that went through. */
  lemma SyncRemoteApproved(c: Context, env: Env, h: seq<Event>)
    requires c.config.steps.syncRemote && !c.dryRun
    requires env.shell(h, Fetch).Some? && RemoteAhead(env.shell(h + [Ran(Fetch)], BehindQuery))
    requires env.confirm(h + [Ran(Fetch), Ran(BehindQuery)]) == Yes
    ensures var r := SyncRemoteRun(c, env, h);
      var u := UncommittedRun(c, env, h + [Ran(Fetch), Ran(BehindQuery), Asked(Confirmation)]);
      && (u.outcome.Exit? ==> r == u)
      && (u.outcome == Continue ==> r == PullRun(c, env, u.log))
  {
    assert h + [Ran(Fetch)] + [Ran(BehindQuery)] == h + [Ran(Fetch), Ran(BehindQuery)];
    assert h + [Ran(Fetch)] + [Ran(BehindQuery)] + [Asked(Confirmation)] ==
      h + [Ran(Fetch), Ran(BehindQuery), Asked(Confirmation)];
  }

  /** In a dry run the step only fetches and counts. */
  lemma SyncRemoteDryRun(c: Context, env: Env, h: seq<Event>)
    requires c.dryRun
    ensures var r := SyncRemoteRun(c, env, h);
      DryRunSafe(Added(h, r.log)) && r.outcome == Continue
  {
    var r := SyncRemoteRun(c, env, h);
    if c.config.steps.syncRemote {
      var h1 := h + [Ran(Fetch)];
      if env.shell(h, Fetch).None? {
        assert Added(h, r.log) == [Ran(Fetch)];
      } else {
        assert Added(h, r.log) == [Ran(Fetch), Ran(BehindQuery)];
      }
    }
  }

  /** `handleUncommittedChanges`. */
  method HandleUncommittedChanges(ctx: ReleaseContext, io: Terminal) returns (o: Outcome)
    modifies io
    ensures var r := UncommittedRun(ctx.Value(), io.env, old(io.log));
      io.log == r.log && o == r.outcome
  {
    var status := io.Exec(StatusPorcelain);
    if status.None? || Trim(status.value) == "" {
      return Continue;
    }
    var _ := io.Exec(StatusShort);
    if ctx.dryRun {
      return Continue;
    }
    var answer := io.Confirm();
    if answer != Yes {
      return Exit(0);
    }
    var added := io.Exec(AddAll);
    if added.None? {
      return Exit(1);
    }
    var committed := io.Exec(WipCommit);
    if committed.None? {
      return Exit(1);
    }
    return Continue;
  }

  /** `pullChanges`. */
  method PullChanges(ctx: ReleaseContext, io: Terminal) returns (o: Outcome)
    modifies io
    ensures var r := PullRun(ctx.Value(), io.env, old(io.log));
      io.log == r.log && o == r.outcome
  {
    var pulled := io.Exec(PullCommand(ctx.config.git.pullStrategy));
    if pulled.None? {
      return Exit(1);
    }
    var install := ctx.config.commands.install;
    if Truthy(install) {
      var installed := io.Exec(install.value);
      if installed.None? {
        return Exit(1);
      }
    }
    return Continue;
  }

  /** `syncRemote`. */
  method SyncRemote(ctx: ReleaseContext, io: Terminal) returns (o: Outcome)
    modifies io
    ensures var r := SyncRemoteRun(ctx.Value(), io.env, old(io.log));
      io.log == r.log && o == r.outcome
  {
    if !ctx.config.steps.syncRemote {
      return Continue;
    }
    var fetched := io.Exec(Fetch);
    if fetched.None? {
      return Continue;
    }
    var behind := io.Exec(BehindQuery);
    if !RemoteAhead(behind) {
      return Continue;
    }
    if ctx.dryRun {
      return Continue;
    }
    var answer := io.Confirm();
    if answer != Yes {
      return Exit(0);
    }
    o := HandleUncommittedChanges(ctx, io);
    if o.Exit? {
      return;
    }
    o := PullChanges(ctx, io);
  }
}
