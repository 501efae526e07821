/**
 * Step 3, `runChecks` (src/steps/checks-runner.ts): the typecheck, lint and
 * test commands, in that order, stopping at the first failure.
 */
module ChecksRunner {
  import opened Wrappers
  import opened JsString
  import opened Types
  import opened Effects

  /** `toUpperCase` of one character, for the ASCII letters. */
  function UpperCase(ch: char): char {
    if 'a' <= ch <= 'z' then (ch as int - 32) as char else ch
  }

  /** `capitalize`: the first character upper-cased, the rest kept. */
  function Capitalize(s: string): (r: string)
    ensures |r| == |s|
    ensures s != [] ==> r[1..] == s[1..] && r[0] == UpperCase(s[0])
  {
    if s == [] then [] else [UpperCase(s[0])] + s[1..]
  }

  /** Capitalizing is idempotent, and leaves a string with an upper-case or non-letter head alone. */
  lemma CapitalizeIdempotent(s: string)
    ensures Capitalize(Capitalize(s)) == Capitalize(s)
    ensures s != [] && !('a' <= s[0] <= 'z') ==> Capitalize(s) == s
  {
  }

  /** The check commands that are configured, in the order they run. */
  function CheckCommands(commands: Commands): (r: seq<string>)
    ensures |r| <= 3
    ensures forall i :: 0 <= i < |r| ==> r[i] != ""
  {
    (if Truthy(commands.typecheck) then [commands.typecheck.value] else []) +
    (if Truthy(commands.lint) then [commands.lint.value] else []) +
    (if Truthy(commands.test) then [commands.test.value] else [])
  }

  /** The events of running each of `commands`. */
  function RanAll(commands: seq<string>): (r: seq<Event>)
    ensures |r| == |commands|
  {
    if commands == [] then [] else [Ran(commands[0])] + RanAll(commands[1..])
  }

  lemma {:induction false} RanAllAppend(a: seq<string>, b: seq<string>)
    ensures RanAll(a + b) == RanAll(a) + RanAll(b)
    decreases |a|
  {
    if a == [] {
      assert a + b == b;
    } else {
      assert (a + b)[1..] == a[1..] + b;
      RanAllAppend(a[1..], b);
    }
  }

  /** `runCommand` on a context value: skip an unset or empty command, and in a dry run. */
  function RunCommandRun(c: Context, env: Env, h: seq<Event>, command: CommandSlot): (r: Run)
    ensures r.ctx == c
    ensures !Truthy(command) || c.dryRun ==> r == Run(h, Continue, c)
    ensures Truthy(command) && !c.dryRun ==>
      r.log == h + [Ran(command.value)] &&
      r.outcome == (if env.shell(h, command.value).None? then Exit(1) else Continue)
  {
    if !Truthy(command) || c.dryRun then Run(h, Continue, c)
    else Run(h + [Ran(command.value)], if env.shell(h, command.value).None? then Exit(1) else Continue, c)
  }

  /** `runChecks` on a context value. */
  function RunChecksRun(c: Context, env: Env, h: seq<Event>): (r: Run)
    ensures r.ctx == c
    // Disabled, or a dry run: nothing is executed.
    ensures !c.config.steps.runChecks || c.dryRun ==> r == Run(h, Continue, c)
    ensures r.outcome in {Continue, Exit(1)}
  {
    if !c.config.steps.runChecks then Run(h, Continue, c)
    else
      var commands := c.config.commands;
      var r1 := RunCommandRun(c, env, h, commands.typecheck);
      if r1.outcome.Exit? then r1
      else
        var r2 := RunCommandRun(c, env, r1.log, commands.lint);
        if r2.outcome.Exit? then r2
        else RunCommandRun(c, env, r2.log, commands.test)
  }

  /** The configured command of one slot, as a list of zero or one command. */
  function Slot(command: CommandSlot): seq<string> {
    if Truthy(command) then [command.value] else []
  }

  /**
   * Reference semantics of a fail-fast command list: run the commands in
   * order, each once, and stop at the first that fails.
   */
  function Attempt(env: Env, h: seq<Event>, commands: seq<string>): (seq<Event>, Outcome)
    decreases |commands|
  {
    if commands == [] then (h, Continue)
    else if env.shell(h, commands[0]).None? then (h + [Ran(commands[0])], Exit(1))
    else Attempt(env, h + [Ran(commands[0])], commands[1..])
  }

  /** How many commands a fail-fast attempt runs. */
  function Attempted(env: Env, h: seq<Event>, commands: seq<string>): int {
    |Attempt(env, h, commands).0| - |h|
  }

  /**
   * A fail-fast attempt runs a prefix of the commands, in order; it
   * continues only when all of them ran, and otherwise exits with code 1
   * after running at least one.
   */
  lemma {:induction false} AttemptRunsPrefix(env: Env, h: seq<Event>, commands: seq<string>)
    ensures var r := Attempt(env, h, commands);
      && |h| <= |r.0| <= |h| + |commands|
      && r.0 == h + RanAll(commands[..|r.0| - |h|])
      && (r.1 == Continue ==> |r.0| == |h| + |commands|)
      && (r.1 != Continue ==> r.1 == Exit(1) && |r.0| > |h|)
    decreases |commands|
  {
    if commands == [] {
      assert commands[..0] == [];
    } else if env.shell(h, commands[0]).None? {
      assert commands[..1] == [commands[0]];
    } else {
      var h1 := h + [Ran(commands[0])];
      AttemptRunsPrefix(env, h1, commands[1..]);
      var k := Attempted(env, h1, commands[1..]);
      assert commands[..k + 1] == [commands[0]] + commands[1..][..k];
      RanAllAppend([commands[0]], commands[1..][..k]);
    }
  }

  /** Every command a fail-fast attempt ran succeeded, except a last one that failed. */
  lemma {:induction false} AttemptSucceeded(env: Env, h: seq<Event>, commands: seq<string>, j: nat)
    requires j < |commands|
    requires j + 1 < Attempted(env, h, commands) || Attempt(env, h, commands).1 == Continue
    ensures env.shell(h + RanAll(commands[..j]), commands[j]).Some?
    decreases |commands|
  {
    assert commands != [];
    var h1 := h + [Ran(commands[0])];
    if j == 0 {
      assert h + RanAll(commands[..0]) == h;
    } else {
      assert env.shell(h, commands[0]).Some?;
      AttemptSucceeded(env, h1, commands[1..], j - 1);
      assert commands[..j] == [commands[0]] + commands[1..][..j - 1];
      RanAllAppend([commands[0]], commands[1..][..j - 1]);
      assert h + RanAll(commands[..j]) == h1 + RanAll(commands[1..][..j - 1]);
    }
  }

  /** The last command of a fail-fast attempt that exits is the one that failed. */
  lemma {:induction false} AttemptFailed(env: Env, h: seq<Event>, commands: seq<string>)
    requires Attempt(env, h, commands).1 != Continue
    ensures var k := Attempted(env, h, commands);
      0 < k <= |commands| && env.shell(h + RanAll(commands[..k - 1]), commands[k - 1]).None?
    decreases |commands|
  {
    AttemptRunsPrefix(env, h, commands);
    if env.shell(h, commands[0]).None? {
      assert h + RanAll(commands[..0]) == h;
    } else {
      var h1 := h + [Ran(commands[0])];
      AttemptFailed(env, h1, commands[1..]);
      var k := Attempted(env, h1, commands[1..]);
      assert commands[..k] == [commands[0]] + commands[1..][..k - 1];
      RanAllAppend([commands[0]], commands[1..][..k - 1]);
      assert h + RanAll(commands[..k]) == h1 + RanAll(commands[1..][..k - 1]);
    }
  }

  /** Attempting one slot and then `rest` is attempting the slot's command (if any) followed by `rest`. */
  lemma AttemptSlot(c: Context, env: Env, h: seq<Event>, slot: CommandSlot, rest: seq<string>)
    requires !c.dryRun
    ensures var r := RunCommandRun(c, env, h, slot);
      Attempt(env, h, Slot(slot) + rest) ==
        if r.outcome.Exit? then (r.log, r.outcome) else Attempt(env, r.log, rest)
  {
    if Truthy(slot) {
      assert (Slot(slot) + rest)[1..] == rest;
    } else {
      assert Slot(slot) + rest == rest;
    }
  }

  /**
   * Enabled and not a dry run, the step is exactly the fail-fast attempt of
   * the configured commands in the order typecheck, lint, test.
   */
  lemma RunChecksIsAttempt(c: Context, env: Env, h: seq<Event>)
    requires c.config.steps.runChecks && !c.dryRun
    ensures var r := RunChecksRun(c, env, h);
      (r.log, r.outcome) == Attempt(env, h, CheckCommands(c.config.commands))
  {
    var commands := c.config.commands;
    var t, l, s := Slot(commands.typecheck), Slot(commands.lint), Slot(commands.test);
    assert CheckCommands(commands) == t + (l + s);
    AttemptSlot(c, env, h, commands.typecheck, l + s);
    var r1 := RunCommandRun(c, env, h, commands.typecheck);
    if r1.outcome.Continue? {
      AttemptSlot(c, env, r1.log, commands.lint, s);
      var r2 := RunCommandRun(c, env, r1.log, commands.lint);
      if r2.outcome.Continue? {
        AttemptSlot(c, env, r2.log, commands.test, []);
        assert s + [] == s;
      }
    }
  }

  /** `runCommand`. */
  method RunCommand(ctx: ReleaseContext, io: Terminal, command: CommandSlot) returns (o: Outcome)
    modifies io
    ensures var r := RunCommandRun(ctx.Value(), io.env, old(io.log), command);
      io.log == r.log && o == r.outcome
  {
    if !Truthy(command) {
      return Continue;
    }
    if ctx.dryRun {
      return Continue;
    }
    var out := io.Exec(command.value);
    if out.None? {
      return Exit(1);
    }
    return Continue;
  }

  /** `runChecks`. */
  method RunChecks(ctx: ReleaseContext, io: Terminal) returns (o: Outcome)
    modifies io
    ensures var r := RunChecksRun(ctx.Value(), io.env, old(io.log));
      io.log == r.log && o == r.outcome
  {
    if !ctx.config.steps.runChecks {
      return Continue;
    }
    var commands := ctx.config.commands;
    o := RunCommand(ctx, io, commands.typecheck);
    if o.Exit? {
      return;
    }
    o := RunCommand(ctx, io, commands.lint);
    if o.Exit? {
      return;
    }
    o := RunCommand(ctx, io, commands.test);
  }
}
