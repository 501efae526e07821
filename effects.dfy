/**
 * The outside world of the release workflow: shell commands (src/utils/exec.ts)
 * and terminal prompts (src/utils/prompts.ts), both replaced by oracles.
 *
 * Everything the workflow does to the world is recorded, in order, in an event
 * log. Each oracle answers as a function of the log so far, so the world may
 * react to earlier commands (a second `git status` after a commit may differ).
 */
module Effects {
  import opened Wrappers
  import opened Types

  /** The kinds of prompt the workflow shows. */
  datatype Prompt = Confirmation | VersionSelect | MessageInput

  datatype Event = Ran(command: string) | Asked(prompt: Prompt)

  /** The user's answer to a yes/no confirmation; `Cancel` is Ctrl+C / Escape. */
  datatype Answer = Yes | No | Cancel

  /**
   * A commit message as the text prompt hands it back: its `validate`
   * callback rejects the empty string, so the prompt only returns non-empty text.
   */
  type CommitMessage = s: string | s != [] witness "m"

  /**
   * The oracles. `shell(log, cmd)` is the output of `cmd` when it exits with
   * status 0 and `None` when it fails; `select` and `text` give `None` on cancel.
   */
  datatype Env = Env(
    shell: (seq<Event>, string) -> Option<string>,
    confirm: seq<Event> -> Answer,
    select: seq<Event> -> Option<VersionType>,
    text: seq<Event> -> Option<CommitMessage>)

  /** What a step tells its caller: go on, or end the process with an exit code. */
  datatype Outcome = Continue | Exit(code: int)

  /** The effect of running (part of) the workflow: the new log, the outcome, the new context. */
  datatype Run = Run(log: seq<Event>, outcome: Outcome, ctx: Context)

  // The read-only queries of the workflow.
  const BranchQuery := "git branch --show-current"
  const Fetch := "git fetch"
  const BehindQuery := "git rev-list --count HEAD..@{u}"
  const StatusPorcelain := "git status --porcelain"
  const StatusShort := "git status --short"
  const VersionQuery := "npm pkg get version"

  /** Stages every change in the work tree. */
  const AddAll := "git add ."

  /** The only commands a dry run may issue: queries that change neither the work tree nor a remote. */
  const ReadOnlyQueries: set<string> := {BranchQuery, Fetch, BehindQuery, StatusPorcelain, StatusShort, VersionQuery}

  /** `log` starts with `h`: the world's history is only ever appended to. */
  predicate Extends(h: seq<Event>, log: seq<Event>) {
    |h| <= |log| && log[..|h|] == h
  }

  /** Events allowed in a dry run: read-only queries, and no prompt. */
  predicate DryRunSafe(events: seq<Event>) {
    forall i :: 0 <= i < |events| ==> events[i].Ran? && events[i].command in ReadOnlyQueries
  }

  /** The events added to `h` to make `log`. */
  function Added(h: seq<Event>, log: seq<Event>): seq<Event>
    requires Extends(h, log)
  {
    log[|h|..]
  }

  /** Extending is transitive. */
  lemma ExtendsTrans(h: seq<Event>, mid: seq<Event>, log: seq<Event>)
    requires Extends(h, mid) && Extends(mid, log)
    ensures Extends(h, log)
  {
    assert log[..|h|] == mid[..|mid|][..|h|];
  }

  /** Two stretches of history, one after the other: what both add is what each adds, in order. */
  lemma AddedChain(h: seq<Event>, mid: seq<Event>, log: seq<Event>)
    requires Extends(h, mid) && Extends(mid, log)
    ensures Extends(h, log)
    ensures Added(h, log) == Added(h, mid) + Added(mid, log)
    ensures DryRunSafe(Added(h, mid)) && DryRunSafe(Added(mid, log)) ==> DryRunSafe(Added(h, log))
  {
    assert log[..|h|] == mid[..|mid|][..|h|];
    assert log[|h|..] == log[|h|..|mid|] + log[|mid|..];
  }

  /** The terminal the workflow runs in: the oracles and the log of what happened so far. */
  class Terminal {
    const env: Env
    var log: seq<Event>

    constructor (env: Env, log: seq<Event>)
      ensures this.env == env && this.log == log
    {
      this.env := env;
      this.log := log;
    }

    /** `exec` / `execSafe`: run `command`; `None` when it exits non-zero. */
    method Exec(command: string) returns (out: Option<string>)
      modifies this
      ensures log == old(log) + [Ran(command)]
      ensures out == env.shell(old(log), command)
    {
      out := env.shell(log, command);
      log := log + [Ran(command)];
    }

    /** `clack.confirm`. */
    method Confirm() returns (a: Answer)
      modifies this
      ensures log == old(log) + [Asked(Confirmation)]
      ensures a == env.confirm(old(log))
    {
      a := env.confirm(log);
      log := log + [Asked(Confirmation)];
    }

    /** `clack.select` over patch, minor and major; `None` when cancelled. */
    method SelectVersion() returns (v: Option<VersionType>)
      modifies this
      ensures log == old(log) + [Asked(VersionSelect)]
      ensures v == env.select(old(log))
    {
      v := env.select(log);
      log := log + [Asked(VersionSelect)];
    }

    /** `clack.text` with the non-empty `validate` callback; `None` when cancelled. */
    method AskMessage() returns (m: Option<CommitMessage>)
      modifies this
      ensures log == old(log) + [Asked(MessageInput)]
      ensures m == env.text(old(log))
    {
      m := env.text(log);
      log := log + [Asked(MessageInput)];
    }
  }
}
