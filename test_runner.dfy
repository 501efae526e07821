/**
 * The deprecated `runTests` step (src/steps/test-runner.ts): run the test
 * command alone. The release workflow itself runs tests through `runChecks`.
 */
module TestRunner {
  import opened JsString
  import opened Types
  import opened Effects
  import ChecksRunner

  /** `runTests` on a context value. */
  function RunTestsRun(c: Context, env: Env, h: seq<Event>): (r: Run)
    ensures r.ctx == c
    ensures r.outcome in {Continue, Exit(1)}
    // Disabled, unconfigured (unset or empty), or a dry run: nothing runs.
    ensures !c.config.steps.runTests || !Truthy(c.config.commands.test) || c.dryRun ==> r == Run(h, Continue, c)
    // Otherwise the test command runs once, and its failure is fatal.
    ensures c.config.steps.runTests && Truthy(c.config.commands.test) && !c.dryRun ==>
      var command := c.config.commands.test.value;
      r.log == h + [Ran(command)] &&
      (r.outcome == Exit(1) <==> env.shell(h, command).None?)
  {
    var command := c.config.commands.test;
    if !c.config.steps.runTests || !Truthy(command) || c.dryRun then Run(h, Continue, c)
    else Run(h + [Ran(command.value)], if env.shell(h, command.value).None? then Exit(1) else Continue, c)
  }

  /**
   * With only a test command configured, `runTests` does what `runChecks`
   * does when both are enabled: the older step is subsumed by the newer one.
   */
  lemma RunTestsIsRunChecks(c: Context, env: Env, h: seq<Event>)
    requires c.config.steps.runTests && c.config.steps.runChecks
    requires !Truthy(c.config.commands.typecheck) && !Truthy(c.config.commands.lint)
    ensures RunTestsRun(c, env, h) == ChecksRunner.RunChecksRun(c, env, h)
  {
  }

  /** `runTests`. */
  method RunTests(ctx: ReleaseContext, io: Terminal) returns (o: Outcome)
    modifies io
    ensures var r := RunTestsRun(ctx.Value(), io.env, old(io.log));
      io.log == r.log && o == r.outcome
  {
    if !ctx.config.steps.runTests {
      return Continue;
    }
    var command := ctx.config.commands.test;
    if !Truthy(command) {
      return Continue;
    }
    if ctx.dryRun {
      return Continue;
    }
    var tested := io.Exec(command.value);
    if tested.None? {
      return Exit(1);
    }
    return Continue;
  }
}
