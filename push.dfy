/**
 * Step 6, `push` (src/steps/push.ts): after a confirmation, push the
 * commits and then the tags in one shell command.
 */
module Push {
  import opened Types
  import opened Effects

  const PushCommand := "git push && git push --tags"

  /** `pushToRemote` on a context value. */
  function PushRun(c: Context, env: Env, h: seq<Event>): (r: Run)
    ensures r.ctx == c
    ensures Extends(h, r.log)
    ensures r.outcome in {Continue, Exit(0), Exit(1)}
    // Disabled, or a dry run: nothing is asked and nothing is pushed.
    ensures !c.config.steps.push || c.dryRun ==> r == Run(h, Continue, c)
    ensures c.config.steps.push && !c.dryRun ==>
      var h1 := h + [Asked(Confirmation)];
      // Declining or cancelling leaves the release prepared locally and ends the process gracefully.
      && (env.confirm(h) != Yes ==> r == Run(h1, Exit(0), c))
      // Accepting pushes exactly once; a failed push is fatal.
      && (env.confirm(h) == Yes ==>
            r.log == h1 + [Ran(PushCommand)] &&
            r.outcome == (if env.shell(h1, PushCommand).None? then Exit(1) else Continue))
    // The only way past this step, when it is enabled for real, is a push the user approved that succeeded.
    ensures c.config.steps.push && !c.dryRun && r.outcome == Continue ==>
      env.confirm(h) == Yes && Ran(PushCommand) in r.log[|h|..]
  {
    if !c.config.steps.push || c.dryRun then Run(h, Continue, c)
    else
      var h1 := h + [Asked(Confirmation)];
      if env.confirm(h) != Yes then Run(h1, Exit(0), c)
      else
        var h2 := h1 + [Ran(PushCommand)];
        assert h2[|h|..] == [Asked(Confirmation), Ran(PushCommand)];
        Run(h2, if env.shell(h1, PushCommand).None? then Exit(1) else Continue, c)
  }

  /** `pushToRemote`. */
  method PushToRemote(ctx: ReleaseContext, io: Terminal) returns (o: Outcome)
    modifies io
    ensures var r := PushRun(ctx.Value(), io.env, old(io.log));
      io.log == r.log && o == r.outcome
  {
    if !ctx.config.steps.push {
      return Continue;
    }
    if ctx.dryRun {
      return Continue;
    }
    var shouldPush := io.Confirm();
    if shouldPush != Yes {
      return Exit(0);
    }
    var pushed := io.Exec(PushCommand);
    if pushed.None? {
      return Exit(1);
    }
    return Continue;
  }
}
