/**
 * Step 7, `deploy` (src/steps/deploy.ts): run the configured deploy command.
 */
module Deploy {
  import opened JsString
  import opened Types
  import opened Effects

  /** `deploy` on a context value. */
  function DeployRun(c: Context, env: Env, h: seq<Event>): (r: Run)
    ensures r.ctx == c
    ensures r.outcome in {Continue, Exit(1)}
    // Disabled, unconfigured (unset or empty), or a dry run: nothing runs.
    ensures !c.config.steps.deploy || !Truthy(c.config.commands.deploy) || c.dryRun ==> r == Run(h, Continue, c)
    // Otherwise the deploy command runs once, and its failure is fatal.
    ensures c.config.steps.deploy && Truthy(c.config.commands.deploy) && !c.dryRun ==>
      var command := c.config.commands.deploy.value;
      r.log == h + [Ran(command)] &&
      (r.outcome == Exit(1) <==> env.shell(h, command).None?)
  {
    var command := c.config.commands.deploy;
    if !c.config.steps.deploy || !Truthy(command) || c.dryRun then Run(h, Continue, c)
    else Run(h + [Ran(command.value)], if env.shell(h, command.value).None? then Exit(1) else Continue, c)
  }

  /** `deploy`. */
  method Deploy(ctx: ReleaseContext, io: Terminal) returns (o: Outcome)
    modifies io
    ensures var r := DeployRun(ctx.Value(), io.env, old(io.log));
      io.log == r.log && o == r.outcome
  {
    if !ctx.config.steps.deploy {
      return Continue;
    }
    var command := ctx.config.commands.deploy;
    if !Truthy(command) {
      return Continue;
    }
    if ctx.dryRun {
      return Continue;
    }
    var deployed := io.Exec(command.value);
    if deployed.None? {
      return Exit(1);
    }
    return Continue;
  }
}
