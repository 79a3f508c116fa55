/** The executor of src/executor.rs: runs the phases of one plan against a
    target, locally through `sh` and the filesystem or remotely through the
    `ssh` client, and stores each phase's output under the run root.

    Every process spawn and filesystem call is an `Event` recorded on a
    `Host`; what the outside world answers to it (a spawn or I/O error, or
    the exit status and the captured output) comes from a `World` oracle
    that sees everything done so far. */
module Executor {
  import opened Config
  import opened Text
  import opened Planner

  type Bytes = seq<bv8>

  datatype Event =
    | MakeDirs(path: string)                              // fs::create_dir_all
    | Shell(command: string)                              // sh -c <command>, output captured
    | WriteFile(path: string, data: Bytes)                // fs::write
    | SshStatus(host: string, command: string)            // ssh <host> <command>, waited for
    | SshOutput(host: string, command: string)            // ssh <host> <command>, output captured
    | SshPipe(host: string, command: string, data: Bytes) // ssh <host> <command>, data on stdin
  {
    predicate IsRemote() {
      SshStatus? || SshOutput? || SshPipe?
    }

    predicate IsExec() {
      Shell? || SshOutput?
    }
  }

  datatype Response =
    | Refused                                               // the call failed: spawn or I/O error
    | Completed(success: bool, stdout: Bytes, stderr: Bytes)

  /** How the outside world answers an event, given all earlier events. */
  type World = (seq<Event>, Event) -> Response

  datatype Failure = IoError(event: Event) | PhaseFailed(phase: string)

  datatype Outcome = Ok | Err(failure: Failure)

  /** The events a step performs and how it ends. */
  datatype Run = Run(events: seq<Event>, outcome: Outcome)

  // ----- pure formatting -----

  /** `build_shell_string`: with no arguments the command keeps its
      trailing space. */
  function ShellString(program: string, args: seq<string>, cwd: string): string {
    "cd " + cwd + " && " + program + " " + Join(args, " ")
  }

  function CommandOf(phase: ConcretePhase): string {
    ShellString(phase.program, phase.args, phase.cwd)
  }

  /** The directories made before any phase runs. */
  function ProvisionedDirs(runRoot: string): seq<string> {
    [runRoot + "/logs", runRoot + "/run", runRoot + "/analysis"]
  }

  /** Where a phase's output goes; `ext` is ".stdout" or ".stderr". */
  function LogPath(runRoot: string, phaseName: string, ext: string): string {
    runRoot + "/logs" + "/" + phaseName + ext
  }

  /** The shell string starts `cd <cwd> && <program> ` (trailing space
      included, also when there are no arguments), and what follows splits
      back, at the spaces, into the arguments, provided none of them holds
      a space. */
  lemma ShellStringArgs(program: string, args: seq<string>, cwd: string)
    ensures var prefix := "cd " + cwd + " && " + program + " ";
      && prefix <= ShellString(program, args, cwd)
      && (|args| == 0 ==> ShellString(program, args, cwd) == prefix)
      && (|args| > 0 && (forall i :: 0 <= i < |args| ==> ' ' !in args[i]) ==>
            Split(ShellString(program, args, cwd)[|prefix|..], " ") == args)
  {
    var prefix := "cd " + cwd + " && " + program + " ";
    assert ShellString(program, args, cwd) == prefix + Join(args, " ");
    assert (prefix + Join(args, " "))[|prefix|..] == Join(args, " ");
    if |args| > 0 && forall i :: 0 <= i < |args| ==> ' ' !in args[i] {
      JoinSplitSingle(args, ' ');
    }
  }

  // ----- the effects, as the target decides them -----

  function EnsureDirectoryEvent(path: string, target: Target): Event {
    match target.ssh
    case Some(ssh) => SshStatus(ssh, "mkdir -p " + path)
    case None => MakeDirs(path)
  }

  function ExecEvent(shell: string, target: Target): Event {
    match target.ssh
    case Some(ssh) => SshOutput(ssh, shell)
    case None => Shell(shell)
  }

  function WriteLogEvent(path: string, data: Bytes, target: Target): Event {
    match target.ssh
    case Some(ssh) => SshPipe(ssh, "cat > " + path, data)
    case None => WriteFile(path, data)
  }

  function CreateDirectoriesEvents(runRoot: string, target: Target): seq<Event> {
    var dirs := ProvisionedDirs(runRoot);
    match target.ssh
    case Some(ssh) => [SshStatus(ssh, "mkdir -p " + dirs[0] + " " + dirs[1] + " " + dirs[2])]
    case None => [MakeDirs(dirs[0]), MakeDirs(dirs[1]), MakeDirs(dirs[2])]
  }

  /** An event whose failure is propagated with `?`. Only a refusal is an
      error: the exit status of `ssh` is ignored. */
  function Attempt(w: World, hist: seq<Event>, e: Event): Run {
    Run([e], if w(hist, e).Refused? then Err(IoError(e)) else Ok)
  }

  function Append(a: Run, b: Run): Run {
    Run(a.events + b.events, b.outcome)
  }

  /** A step: what it does and how it ends, given everything done before. */
  type Step<!T> = (seq<Event>, T) -> Run

  /** Steps taken in turn, each seeing the events of those before it, stopping
      at the first that fails: the shape of a run of `?`-propagating calls. */
  function Chain<T>(step: Step<T>, hist: seq<Event>, items: seq<T>): Run
    decreases |items|
  {
    if |items| == 0 then Run([], Ok)
    else
      var first := step(hist, items[0]);
      if first.outcome.Err? then first
      else Append(first, Chain(step, hist + first.events, items[1..]))
  }

  /** One step of a chain: the first item, then the rest after it. */
  lemma ChainCons<T>(step: Step<T>, hist: seq<Event>, x: T, rest: seq<T>)
    ensures var first := step(hist, x);
      Chain(step, hist, [x] + rest)
        == if first.outcome.Err? then first else Append(first, Chain(step, hist + first.events, rest))
  {
    assert ([x] + rest)[0] == x && ([x] + rest)[1..] == rest;
  }

  /** Chaining two lists back to back is chaining the first, and the second
      only if the first succeeded. */
  lemma {:induction false} ChainAppend<T>(step: Step<T>, hist: seq<Event>, a: seq<T>, b: seq<T>)
    ensures var ra := Chain(step, hist, a);
      Chain(step, hist, a + b)
        == if ra.outcome.Err? then ra else Append(ra, Chain(step, hist + ra.events, b))
    decreases |a|
  {
    if |a| == 0 {
      assert a + b == b && hist + [] == hist;
    } else {
      var first := step(hist, a[0]);
      assert (a + b)[0] == a[0] && (a + b)[1..] == a[1..] + b;
      if first.outcome.Ok? {
        var h := hist + first.events;
        var rest := Chain(step, h, a[1..]);
        ChainAppend(step, h, a[1..], b);
        assert h + rest.events == hist + (first.events + rest.events);
      }
    }
  }

  function AttemptStep(w: World): Step<Event> {
    (h: seq<Event>, e: Event) => Attempt(w, h, e)
  }

  /** Events attempted in turn, stopping at the first refusal. */
  function AttemptAll(w: World, hist: seq<Event>, es: seq<Event>): Run {
    Chain(AttemptStep(w), hist, es)
  }

  /** One event of `AttemptAll`, then the rest after it. */
  lemma AttemptAllCons(w: World, hist: seq<Event>, e: Event, rest: seq<Event>)
    ensures var r := AttemptAll(w, hist, [e] + rest);
      var tail := AttemptAll(w, hist + [e], rest);
      if w(hist, e).Refused? then r == Run([e], Err(IoError(e)))
      else r == Run([e] + tail.events, tail.outcome)
  {
    ChainCons(AttemptStep(w), hist, e, rest);
  }

  // ----- specification of the operations -----

  /** `ensure_directory`. */
  function EnsureDirectoryRun(w: World, hist: seq<Event>, path: string, target: Target): Run {
    Attempt(w, hist, EnsureDirectoryEvent(path, target))
  }

  /** `create_directories`. */
  function CreateDirectoriesRun(w: World, hist: seq<Event>, runRoot: string, target: Target): Run {
    AttemptAll(w, hist, CreateDirectoriesEvents(runRoot, target))
  }

  /** The two log writes of a phase, standard output first. */
  function LogWrites(runRoot: string, name: string, stdout: Bytes, stderr: Bytes, target: Target): seq<Event> {
    [WriteLogEvent(LogPath(runRoot, name, ".stdout"), stdout, target),
     WriteLogEvent(LogPath(runRoot, name, ".stderr"), stderr, target)]
  }

  /** The part of `execute_phase` after its working directory exists: run
      the command, write both logs, and only then look at the exit status. */
  function ExecAndLog(w: World, hist: seq<Event>, name: string, phase: ConcretePhase, runRoot: string, target: Target): Run {
    var exec := ExecEvent(CommandOf(phase), target);
    var output := w(hist, exec);
    if output.Refused? then Run([exec], Err(IoError(exec)))
    else
      var writes := AttemptAll(w, hist + [exec], LogWrites(runRoot, name, output.stdout, output.stderr, target));
      Run([exec] + writes.events,
          if writes.outcome.Err? then writes.outcome
          else if !output.success then Err(PhaseFailed(name))
          else Ok)
  }

  /** `execute_phase`. */
  function PhaseRun(w: World, hist: seq<Event>, name: string, phase: ConcretePhase, runRoot: string, target: Target): Run {
    var ensure := EnsureDirectoryRun(w, hist, phase.cwd, target);
    if ensure.outcome.Err? then ensure
    else Append(ensure, ExecAndLog(w, hist + ensure.events, name, phase, runRoot, target))
  }

  /** A phase the plan may or may not declare, as a list of at most one. */
  function OptionalPhase(name: string, phase: Option<ConcretePhase>): seq<(string, ConcretePhase)> {
    match phase
    case Some(p) => [(name, p)]
    case None => []
  }

  /** The phases a plan declares, in the order they run. */
  function DeclaredPhases(plan: RunPlan): seq<(string, ConcretePhase)> {
    OptionalPhase("build", plan.build) + [("run", plan.run)] + OptionalPhase("analyze", plan.analyze)
  }

  /** The commands a phase list would run, in order. */
  function PhaseCommands(phases: seq<(string, ConcretePhase)>): (cmds: seq<string>)
    ensures |cmds| == |phases|
  {
    seq(|phases|, i requires 0 <= i < |phases| => CommandOf(phases[i].1))
  }

  /** The commands of a plan's declared phases, in the order they run. */
  function PlannedCommands(plan: RunPlan): seq<string> {
    PhaseCommands(DeclaredPhases(plan))
  }

  function PhaseStep(w: World, runRoot: string, target: Target): Step<(string, ConcretePhase)> {
    (h: seq<Event>, p: (string, ConcretePhase)) => PhaseRun(w, h, p.0, p.1, runRoot, target)
  }

  /** Phases run in turn, stopping at the first that fails. */
  function RunPhases(w: World, hist: seq<Event>, phases: seq<(string, ConcretePhase)>, runRoot: string, target: Target): Run {
    Chain(PhaseStep(w, runRoot, target), hist, phases)
  }

  /** `execute_run`. */
  function ExecuteRunSpec(w: World, hist: seq<Event>, plan: RunPlan, target: Target, dryRun: bool): Run {
    if dryRun then Run([], Ok)
    else
      var dirs := CreateDirectoriesRun(w, hist, plan.runRoot, target);
      if dirs.outcome.Err? then dirs
      else Append(dirs, RunPhases(w, hist + dirs.events, DeclaredPhases(plan), plan.runRoot, target))
  }

  // ----- what a dry run prints -----

  /** `print_phase`: a blank line, the header, and the command. */
  function PrintPhase(problem: string, target: string, run: string, phaseName: string, phase: ConcretePhase): seq<string> {
    ["", "[" + problem + " | " + target + " | " + run + " | " + phaseName + "]", "> " + CommandOf(phase)]
  }

  /** `if let Some(phase) = ... { print_phase(...) }` */
  function PrintOptional(problem: string, target: string, run: string, phaseName: string, phase: Option<ConcretePhase>): seq<string> {
    match phase
    case Some(p) => PrintPhase(problem, target, run, phaseName, p)
    case None => []
  }

  /** `print_plan`. */
  function PrintPlan(problem: string, target: string, plan: RunPlan): seq<string> {
    ["(dry-run)"]
    + PrintOptional(problem, target, plan.name, "build", plan.build)
    + PrintPhase(problem, target, plan.name, "run", plan.run)
    + PrintOptional(problem, target, plan.name, "analyze", plan.analyze)
  }

  /** The commands among printed lines: those shown after "> ". */
  function ShownCommands(lines: seq<string>): seq<string> {
    if |lines| == 0 then []
    else (if "> " <= lines[0] then [lines[0][2..]] else []) + ShownCommands(lines[1..])
  }

  /** The commands a sequence of events runs. */
  function Commands(events: seq<Event>): seq<string> {
    if |events| == 0 then []
    else (if events[0].IsExec() then [events[0].command] else []) + Commands(events[1..])
  }

  // ----- the host the effects happen on -----

  /** The execution surface: everything done so far, and how the outside
      world answers. */
  class Host {
    var trace: seq<Event>
    const world: World

    constructor (world: World)
      ensures this.world == world && trace == []
    {
      this.world := world;
      trace := [];
    }

    method Perform(e: Event) returns (r: Response)
      modifies this
      ensures trace == old(trace) + [e] && r == world(old(trace), e)
    {
      r := world(trace, e);
      trace := trace + [e];
    }
  }

  method EnsureDirectory(host: Host, path: string, target: Target) returns (outcome: Outcome)
    modifies host
    ensures var r := EnsureDirectoryRun(host.world, old(host.trace), path, target);
      host.trace == old(host.trace) + r.events && outcome == r.outcome
  {
    match target.ssh {
      case Some(ssh) =>
        var e := SshStatus(ssh, "mkdir -p " + path);
        var response := host.Perform(e);
        outcome := if response.Refused? then Err(IoError(e)) else Ok;
      case None =>
        var e := MakeDirs(path);
        var response := host.Perform(e);
        outcome := if response.Refused? then Err(IoError(e)) else Ok;
    }
  }

  method CreateDirectories(host: Host, plan: RunPlan, target: Target) returns (outcome: Outcome)
    modifies host
    ensures var r := CreateDirectoriesRun(host.world, old(host.trace), plan.runRoot, target);
      host.trace == old(host.trace) + r.events && outcome == r.outcome
  {
    var logsDir := plan.runRoot + "/logs";
    var runDir := plan.runRoot + "/run";
    var analysisDir := plan.runRoot + "/analysis";
    ghost var h0 := host.trace;
    match target.ssh {
      case Some(ssh) =>
        var e := SshStatus(ssh, "mkdir -p " + logsDir + " " + runDir + " " + analysisDir);
        assert CreateDirectoriesEvents(plan.runRoot, target) == [e] + [];
        AttemptAllCons(host.world, h0, e, []);
        var response := host.Perform(e);
        outcome := if response.Refused? then Err(IoError(e)) else Ok;
      case None =>
        var e1, e2, e3 := MakeDirs(logsDir), MakeDirs(runDir), MakeDirs(analysisDir);
        assert CreateDirectoriesEvents(plan.runRoot, target) == [e1] + ([e2] + ([e3] + []));
        AttemptAllCons(host.world, h0, e1, [e2] + ([e3] + []));
        AttemptAllCons(host.world, h0 + [e1], e2, [e3] + []);
        AttemptAllCons(host.world, h0 + [e1] + [e2], e3, []);
        var response := host.Perform(MakeDirs(logsDir));
        if response.Refused? {
          outcome := Err(IoError(MakeDirs(logsDir)));
          return;
        }
        response := host.Perform(MakeDirs(runDir));
        if response.Refused? {
          outcome := Err(IoError(MakeDirs(runDir)));
          return;
        }
        response := host.Perform(MakeDirs(analysisDir));
        outcome := if response.Refused? then Err(IoError(MakeDirs(analysisDir))) else Ok;
    }
  }

  /** `write_remote_log`: only a failure to start `ssh`, to feed it, or to
      wait for it is an error; its exit status is not looked at. */
  method WriteRemoteLog(host: Host, ssh: string, path: string, content: Bytes) returns (outcome: Outcome)
    modifies host
    ensures var r := Attempt(host.world, old(host.trace), SshPipe(ssh, "cat > " + path, content));
      host.trace == old(host.trace) + r.events && outcome == r.outcome
  {
    var e := SshPipe(ssh, "cat > " + path, content);
    var response := host.Perform(e);
    outcome := if response.Refused? then Err(IoError(e)) else Ok;
  }

  method ExecutePhase(host: Host, phaseName: string, phase: ConcretePhase, runRoot: string, target: Target)
    returns (outcome: Outcome)
    modifies host
    ensures var r := PhaseRun(host.world, old(host.trace), phaseName, phase, runRoot, target);
      host.trace == old(host.trace) + r.events && outcome == r.outcome
  {
    outcome := EnsureDirectory(host, phase.cwd, target);
    if outcome.Err? {
      return;
    }
    ghost var afterEnsure := host.trace;
    var shell := ShellString(phase.program, phase.args, phase.cwd);
    var exec := match target.ssh case Some(ssh) => SshOutput(ssh, shell) case None => Shell(shell);
    var output := host.Perform(exec);
    if output.Refused? {
      outcome := Err(IoError(exec));
      return;
    }
    ghost var afterExec := host.trace;
    var logsDir := runRoot + "/logs";
    var stdoutPath := logsDir + "/" + phaseName + ".stdout";
    var stderrPath := logsDir + "/" + phaseName + ".stderr";
    ghost var w1, w2 := WriteLogEvent(stdoutPath, output.stdout, target), WriteLogEvent(stderrPath, output.stderr, target);
    assert LogWrites(runRoot, phaseName, output.stdout, output.stderr, target) == [w1] + ([w2] + []);
    AttemptAllCons(host.world, afterExec, w1, [w2] + []);
    AttemptAllCons(host.world, afterExec + [w1], w2, []);
    match target.ssh {
      case Some(ssh) =>
        outcome := WriteRemoteLog(host, ssh, stdoutPath, output.stdout);
        if outcome.Err? {
          return;
        }
        outcome := WriteRemoteLog(host, ssh, stderrPath, output.stderr);
        if outcome.Err? {
          return;
        }
      case None =>
        var response := host.Perform(WriteFile(stdoutPath, output.stdout));
        if response.Refused? {
          outcome := Err(IoError(WriteFile(stdoutPath, output.stdout)));
          return;
        }
        response := host.Perform(WriteFile(stderrPath, output.stderr));
        if response.Refused? {
          outcome := Err(IoError(WriteFile(stderrPath, output.stderr)));
          return;
        }
    }
    if !output.success {
      outcome := Err(PhaseFailed(phaseName));
      return;
    }
    outcome := Ok;
  }

  /** `if let Some(phase) = ... { execute_phase(...)?; }` */
  method ExecuteOptionalPhase(host: Host, phaseName: string, phase: Option<ConcretePhase>, runRoot: string, target: Target)
    returns (outcome: Outcome)
    modifies host
    ensures var r := RunPhases(host.world, old(host.trace), OptionalPhase(phaseName, phase), runRoot, target);
      host.trace == old(host.trace) + r.events && outcome == r.outcome
  {
    match phase {
      case Some(p) =>
        ghost var first := PhaseRun(host.world, host.trace, phaseName, p, runRoot, target);
        ChainCons(PhaseStep(host.world, runRoot, target), host.trace, (phaseName, p), []);
        assert OptionalPhase(phaseName, phase) == [(phaseName, p)] + [];
        assert PhaseStep(host.world, runRoot, target)(host.trace, (phaseName, p)) == first;
        assert first.events + [] == first.events;
        outcome := ExecutePhase(host, phaseName, p, runRoot, target);
      case None =>
        assert host.trace + [] == host.trace;
        outcome := Ok;
    }
  }

  lemma ConcatAssociates(a: seq<Event>, b: seq<Event>, c: seq<Event>, d: seq<Event>, e: seq<Event>)
    ensures a + b + c + d + e == a + (b + (c + (d + e)))
    ensures a + b + c + d == a + (b + (c + d))
  {
  }

  method ExecuteRun(host: Host, problemName: string, targetName: string, plan: RunPlan, target: Target, dryRun: bool)
    returns (outcome: Outcome)
    modifies host
    ensures var r := ExecuteRunSpec(host.world, old(host.trace), plan, target, dryRun);
      host.trace == old(host.trace) + r.events && outcome == r.outcome
  {
    if dryRun {
      outcome := Ok;
      return;
    }
    ghost var w, h0 := host.world, host.trace;
    ghost var step := PhaseStep(w, plan.runRoot, target);
    ghost var dirs := CreateDirectoriesRun(w, h0, plan.runRoot, target);
    outcome := CreateDirectories(host, plan, target);
    if outcome.Err? {
      return;
    }
    ghost var h1 := host.trace;
    assert h1 == h0 + dirs.events;
    ghost var builds, analyses := OptionalPhase("build", plan.build), OptionalPhase("analyze", plan.analyze);
    assert DeclaredPhases(plan) == builds + ([("run", plan.run)] + analyses);
    ChainAppend(step, h1, builds, [("run", plan.run)] + analyses);
    ghost var built := Chain(step, h1, builds);
    outcome := ExecuteOptionalPhase(host, "build", plan.build, plan.runRoot, target);
    if outcome.Err? {
      return;
    }
    ghost var h2 := host.trace;
    assert h2 == h1 + built.events;
    ChainCons(step, h2, ("run", plan.run), analyses);
    ghost var ran := PhaseRun(w, h2, "run", plan.run, plan.runRoot, target);
    assert step(h2, ("run", plan.run)) == ran;
    outcome := ExecutePhase(host, "run", plan.run, plan.runRoot, target);
    if outcome.Err? {
      ConcatAssociates(h0, dirs.events, built.events, ran.events, []);
      return;
    }
    ghost var h3 := host.trace;
    assert h3 == h2 + ran.events;
    ghost var analysed := Chain(step, h3, analyses);
    outcome := ExecuteOptionalPhase(host, "analyze", plan.analyze, plan.runRoot, target);
    assert host.trace == h3 + analysed.events;
    ConcatAssociates(h0, dirs.events, built.events, ran.events, analysed.events);
  }

  // ----- properties of a run -----

  /** Why a run failed, read off its events: an I/O error names the last
      event, which the world refused; a failed phase ends with the command,
      answered with an unsuccessful exit status, and then the writes of its
      standard output and standard error to the phase's two log files. */
  predicate Explained(w: World, hist: seq<Event>, r: Run, runRoot: string, target: Target) {
    match r.outcome
    case Ok => true
    case Err(IoError(e)) =>
      && |r.events| > 0
      && r.events[|r.events| - 1] == e
      && w(hist + r.events[..|r.events| - 1], e).Refused?
    case Err(PhaseFailed(n)) =>
      && |r.events| >= 3
      && var k := |r.events| - 3;
         var out := w(hist + r.events[..k], r.events[k]);
         && r.events[k].IsExec()
         && out.Completed? && !out.success
         && r.events[k + 1] == WriteLogEvent(LogPath(runRoot, n, ".stdout"), out.stdout, target)
         && r.events[k + 2] == WriteLogEvent(LogPath(runRoot, n, ".stderr"), out.stderr, target)
  }

  lemma ExplainedAppend(w: World, hist: seq<Event>, a: Run, b: Run, runRoot: string, target: Target)
    requires a.outcome.Ok? && Explained(w, hist + a.events, b, runRoot, target)
    ensures Explained(w, hist, Append(a, b), runRoot, target)
  {
    var events := a.events + b.events;
    match b.outcome
    case Ok =>
    case Err(IoError(e)) =>
      var n := |b.events|;
      assert events[|events| - 1] == b.events[n - 1];
      assert events[..|events| - 1] == a.events + b.events[..n - 1];
      assert hist + events[..|events| - 1] == hist + a.events + b.events[..n - 1];
    case Err(PhaseFailed(p)) =>
      var k := |b.events| - 3;
      var K := |a.events| + k;
      assert events[..K] == a.events + b.events[..k];
      assert hist + events[..K] == hist + a.events + b.events[..k];
      assert events[K] == b.events[k] && events[K + 1] == b.events[k + 1] && events[K + 2] == b.events[k + 2];
  }

  /** A chain of explained steps is explained. */
  lemma {:induction false} ChainExplained<T>(w: World, step: Step<T>, hist: seq<Event>, items: seq<T>, runRoot: string, target: Target)
    requires forall h, x :: x in items ==> Explained(w, h, step(h, x), runRoot, target)
    ensures Explained(w, hist, Chain(step, hist, items), runRoot, target)
    decreases |items|
  {
    if |items| > 0 {
      var first := step(hist, items[0]);
      if first.outcome.Ok? {
        assert forall x :: x in items[1..] ==> x in items;
        ChainExplained(w, step, hist + first.events, items[1..], runRoot, target);
        ExplainedAppend(w, hist, first, Chain(step, hist + first.events, items[1..]), runRoot, target);
      }
    }
  }

  /** A refused event ends the run, and the run fails with `IoError` of that
      event: the converse of `Explained`'s `IoError` case. */
  predicate StopsAtRefusal(w: World, hist: seq<Event>, r: Run) {
    forall k :: 0 <= k < |r.events| ==>
      w(hist + r.events[..k], r.events[k]).Refused? ==>
        k == |r.events| - 1 && r.outcome == Err(IoError(r.events[k]))
  }

  lemma AppendStops(w: World, hist: seq<Event>, a: Run, b: Run)
    requires StopsAtRefusal(w, hist, a) && a.outcome.Ok?
    requires StopsAtRefusal(w, hist + a.events, b)
    ensures StopsAtRefusal(w, hist, Append(a, b))
  {
    var ab := Append(a, b);
    forall k | 0 <= k < |ab.events|
      ensures w(hist + ab.events[..k], ab.events[k]).Refused? ==>
        k == |ab.events| - 1 && ab.outcome == Err(IoError(ab.events[k]))
    {
      if k < |a.events| {
        assert ab.events[..k] == a.events[..k] && ab.events[k] == a.events[k];
      } else {
        var j := k - |a.events|;
        assert ab.events[..k] == a.events + b.events[..j] && ab.events[k] == b.events[j];
        assert hist + ab.events[..k] == (hist + a.events) + b.events[..j];
      }
    }
  }

  /** A chain of steps that each stop at a refusal stops at a refusal. */
  lemma {:induction false} ChainStops<T>(w: World, step: Step<T>, hist: seq<Event>, items: seq<T>)
    requires forall h, x :: x in items ==> StopsAtRefusal(w, h, step(h, x))
    ensures StopsAtRefusal(w, hist, Chain(step, hist, items))
    decreases |items|
  {
    if |items| > 0 {
      var first := step(hist, items[0]);
      if first.outcome.Ok? {
        assert forall x :: x in items[1..] ==> x in items;
        ChainStops(w, step, hist + first.events, items[1..]);
        AppendStops(w, hist, first, Chain(step, hist + first.events, items[1..]));
      }
    }
  }

  lemma AttemptStops(w: World, hist: seq<Event>, e: Event)
    ensures StopsAtRefusal(w, hist, Attempt(w, hist, e))
  {
    assert hist + [e][..0] == hist;
  }

  lemma AttemptAllStops(w: World, hist: seq<Event>, es: seq<Event>)
    ensures StopsAtRefusal(w, hist, AttemptAll(w, hist, es))
  {
    forall h, x | x in es ensures StopsAtRefusal(w, h, AttemptStep(w)(h, x)) {
      AttemptStops(w, h, x);
    }
    ChainStops(w, AttemptStep(w), hist, es);
  }

  lemma ExecAndLogStops(w: World, hist: seq<Event>, name: string, phase: ConcretePhase, runRoot: string, target: Target)
    ensures StopsAtRefusal(w, hist, ExecAndLog(w, hist, name, phase, runRoot, target))
  {
    var exec := ExecEvent(CommandOf(phase), target);
    var output := w(hist, exec);
    var r := ExecAndLog(w, hist, name, phase, runRoot, target);
    assert r.events[..0] == [] && hist + [] == hist;
    if output.Completed? {
      var writes := AttemptAll(w, hist + [exec], LogWrites(runRoot, name, output.stdout, output.stderr, target));
      AttemptAllStops(w, hist + [exec], LogWrites(runRoot, name, output.stdout, output.stderr, target));
      forall k | 0 < k < |r.events|
        ensures w(hist + r.events[..k], r.events[k]).Refused? ==>
          k == |r.events| - 1 && r.outcome == Err(IoError(r.events[k]))
      {
        var j := k - 1;
        assert r.events[..k] == [exec] + writes.events[..j] && r.events[k] == writes.events[j];
        assert hist + r.events[..k] == (hist + [exec]) + writes.events[..j];
      }
    }
  }

  /** `execute_phase` stops at the first refused call (making the working
      directory, running the command, writing either log) and fails with
      `IoError` of that call. */
  lemma PhaseRefusalStops(w: World, hist: seq<Event>, name: string, phase: ConcretePhase, runRoot: string, target: Target)
    ensures var r := PhaseRun(w, hist, name, phase, runRoot, target);
      forall k :: 0 <= k < |r.events| ==>
        w(hist + r.events[..k], r.events[k]).Refused? ==>
          k == |r.events| - 1 && r.outcome == Err(IoError(r.events[k]))
  {
    var ensure := EnsureDirectoryRun(w, hist, phase.cwd, target);
    AttemptStops(w, hist, EnsureDirectoryEvent(phase.cwd, target));
    if ensure.outcome.Ok? {
      ExecAndLogStops(w, hist + ensure.events, name, phase, runRoot, target);
      AppendStops(w, hist, ensure, ExecAndLog(w, hist + ensure.events, name, phase, runRoot, target));
    }
  }

  /** `execute_run` stops at the first refused call, whether it is one of
      the directory creations or a call of a phase, and fails with `IoError`
      of that call. */
  lemma RunRefusalStops(w: World, hist: seq<Event>, plan: RunPlan, target: Target, dryRun: bool)
    ensures var r := ExecuteRunSpec(w, hist, plan, target, dryRun);
      forall k :: 0 <= k < |r.events| ==>
        w(hist + r.events[..k], r.events[k]).Refused? ==>
          k == |r.events| - 1 && r.outcome == Err(IoError(r.events[k]))
  {
    if !dryRun {
      var dirs := CreateDirectoriesRun(w, hist, plan.runRoot, target);
      AttemptAllStops(w, hist, CreateDirectoriesEvents(plan.runRoot, target));
      if dirs.outcome.Ok? {
        var step := PhaseStep(w, plan.runRoot, target);
        forall h, x | x in DeclaredPhases(plan) ensures StopsAtRefusal(w, h, step(h, x)) {
          PhaseRefusalStops(w, h, x.0, x.1, plan.runRoot, target);
        }
        ChainStops(w, step, hist + dirs.events, DeclaredPhases(plan));
        AppendStops(w, hist, dirs, RunPhases(w, hist + dirs.events, DeclaredPhases(plan), plan.runRoot, target));
      }
    }
  }

  /** Every event goes through `ssh` exactly when the target is remote. */
  predicate Located(events: seq<Event>, target: Target) {
    forall i :: 0 <= i < |events| ==> (events[i].IsRemote() <==> target.ssh.Some?)
  }

  lemma LocatedAppend(a: seq<Event>, b: seq<Event>, target: Target)
    requires Located(a, target) && Located(b, target)
    ensures Located(a + b, target)
  {
    forall i | 0 <= i < |a + b| ensures ((a + b)[i].IsRemote() <==> target.ssh.Some?) {
      if i >= |a| {
        assert (a + b)[i] == b[i - |a|];
      }
    }
  }

  /** A chain of located steps is located. */
  lemma {:induction false} ChainLocated<T>(step: Step<T>, hist: seq<Event>, items: seq<T>, target: Target)
    requires forall h, x :: x in items ==> Located(step(h, x).events, target)
    ensures Located(Chain(step, hist, items).events, target)
    decreases |items|
  {
    if |items| > 0 {
      var first := step(hist, items[0]);
      assert items[0] in items;
      if first.outcome.Ok? {
        assert forall x :: x in items[1..] ==> x in items;
        ChainLocated(step, hist + first.events, items[1..], target);
        LocatedAppend(first.events, Chain(step, hist + first.events, items[1..]).events, target);
      }
    }
  }

  /** A chain whose steps all succeed succeeds. */
  lemma {:induction false} ChainSucceeds<T>(step: Step<T>, hist: seq<Event>, items: seq<T>)
    requires forall h, x :: x in items ==> step(h, x).outcome.Ok?
    ensures Chain(step, hist, items).outcome.Ok?
    decreases |items|
  {
    if |items| > 0 {
      assert forall x :: x in items[1..] ==> x in items;
      ChainSucceeds(step, hist + step(hist, items[0]).events, items[1..]);
    }
  }

  /** The events attempted are a prefix of those listed, all of them when
      none was refused. */
  lemma {:induction false} AttemptAllPrefix(w: World, hist: seq<Event>, es: seq<Event>)
    ensures var r := AttemptAll(w, hist, es);
      && r.events <= es && (r.outcome.Ok? ==> r.events == es)
      && (r.outcome.Err? ==> |r.events| > 0 && r.outcome.failure.IoError?)
    decreases |es|
  {
    if |es| > 0 {
      AttemptAllCons(w, hist, es[0], es[1..]);
      assert [es[0]] + es[1..] == es;
      AttemptAllPrefix(w, hist + [es[0]], es[1..]);
    }
  }

  lemma {:induction false} CommandsAppend(a: seq<Event>, b: seq<Event>)
    ensures Commands(a + b) == Commands(a) + Commands(b)
    decreases |a|
  {
    if |a| == 0 {
      assert a + b == b;
    } else {
      assert (a + b)[0] == a[0] && (a + b)[1..] == a[1..] + b;
      CommandsAppend(a[1..], b);
    }
  }


  lemma AttemptExplained(w: World, hist: seq<Event>, e: Event, runRoot: string, target: Target)
    ensures Explained(w, hist, Attempt(w, hist, e), runRoot, target)
  {
    assert hist + [e][..0] == hist;
  }

  /** The log writes of a phase: a prefix of the two, both when neither was
      refused; no command among them; explained. */
  lemma LogWritesFacts(w: World, hist: seq<Event>, runRoot: string, name: string, stdout: Bytes, stderr: Bytes, target: Target)
    ensures var es := LogWrites(runRoot, name, stdout, stderr, target);
      var r := AttemptAll(w, hist, es);
      && r.events <= es && (r.outcome.Ok? ==> r.events == es)
      && Commands(r.events) == []
      && Explained(w, hist, r, runRoot, target)
      && Located(r.events, target)
  {
    var es := LogWrites(runRoot, name, stdout, stderr, target);
    var r := AttemptAll(w, hist, es);
    AttemptAllPrefix(w, hist, es);
    forall h, x | x in es ensures Explained(w, h, AttemptStep(w)(h, x), runRoot, target) {
      AttemptExplained(w, h, x, runRoot, target);
    }
    ChainExplained(w, AttemptStep(w), hist, es, runRoot, target);
    if |r.events| == 2 {
      assert r.events == [es[0]] + [es[1]];
      CommandsAppend([es[0]], [es[1]]);
    } else if |r.events| == 1 {
      assert r.events == [es[0]];
    }
  }

  /** Running a command and logging it runs exactly that command; when it
      fails by exit status, both logs were written first. */
  lemma ExecAndLogFacts(w: World, hist: seq<Event>, name: string, phase: ConcretePhase, runRoot: string, target: Target)
    ensures var r := ExecAndLog(w, hist, name, phase, runRoot, target);
      && Commands(r.events) == [CommandOf(phase)]
      && (r.outcome.Err? && r.outcome.failure.PhaseFailed? ==> r.outcome.failure.phase == name)
      && Explained(w, hist, r, runRoot, target)
      && Located(r.events, target)
  {
    var r := ExecAndLog(w, hist, name, phase, runRoot, target);
    var exec := ExecEvent(CommandOf(phase), target);
    var output := w(hist, exec);
    assert Commands([exec]) == [CommandOf(phase)];
    if output.Refused? {
      assert hist + [exec][..0] == hist;
    } else {
      var es := LogWrites(runRoot, name, output.stdout, output.stderr, target);
      var writes := AttemptAll(w, hist + [exec], es);
      LogWritesFacts(w, hist + [exec], runRoot, name, output.stdout, output.stderr, target);
      CommandsAppend([exec], writes.events);
      LocatedAppend([exec], writes.events, target);
      if writes.outcome.Err? {
        ExplainedAppend(w, hist, Run([exec], Ok), writes, runRoot, target);
      } else if !output.success {
        assert r.events == [exec] + es && hist + r.events[..0] == hist;
        assert r.events[0] == exec && r.events[1] == es[0] && r.events[2] == es[1];
      }
    }
  }

  /** One phase runs at most its own command, all of it when it succeeds or
      fails by exit status; its events are explained, and all of them go
      through `ssh` exactly when the target is remote. */
  lemma PhaseRunFacts(w: World, hist: seq<Event>, name: string, phase: ConcretePhase, runRoot: string, target: Target)
    ensures var r := PhaseRun(w, hist, name, phase, runRoot, target);
      && (Commands(r.events) == [] || Commands(r.events) == [CommandOf(phase)])
      && (r.outcome.Ok? ==> Commands(r.events) == [CommandOf(phase)])
      && (r.outcome.Err? && r.outcome.failure.PhaseFailed? ==>
            r.outcome.failure.phase == name && Commands(r.events) == [CommandOf(phase)])
      && Explained(w, hist, r, runRoot, target)
      && Located(r.events, target)
  {
    var ensure := EnsureDirectoryRun(w, hist, phase.cwd, target);
    AttemptExplained(w, hist, EnsureDirectoryEvent(phase.cwd, target), runRoot, target);
    assert Commands(ensure.events) == [];
    if ensure.outcome.Ok? {
      var rest := ExecAndLog(w, hist + ensure.events, name, phase, runRoot, target);
      ExecAndLogFacts(w, hist + ensure.events, name, phase, runRoot, target);
      CommandsAppend(ensure.events, rest.events);
      ExplainedAppend(w, hist, ensure, rest, runRoot, target);
      LocatedAppend(ensure.events, rest.events, target);
    }
  }

  /** The events of a phase after its working directory exists: the
      command, then the standard-output log, then the standard-error log,
      stopping early only at a refusal. */
  lemma ExecAndLogOrder(w: World, hist: seq<Event>, name: string, phase: ConcretePhase, runRoot: string, target: Target)
    ensures var exec := ExecEvent(CommandOf(phase), target);
      var out := w(hist, exec);
      var all := [exec] + (if out.Completed? then LogWrites(runRoot, name, out.stdout, out.stderr, target) else []);
      var r := ExecAndLog(w, hist, name, phase, runRoot, target);
      && r.events <= all
      && (r.outcome.Ok? || r.outcome == Err(PhaseFailed(name)) ==> out.Completed? && r.events == all)
  {
    var exec := ExecEvent(CommandOf(phase), target);
    var out := w(hist, exec);
    if out.Completed? {
      AttemptAllPrefix(w, hist + [exec], LogWrites(runRoot, name, out.stdout, out.stderr, target));
    }
  }

  /** The events of one phase, in the order they happen: make the working
      directory, run the command, write standard output and then standard
      error to the phase's logs. A phase performs a prefix of these, and all
      of them when it succeeds or fails by exit status, so the logs are
      written before the status is looked at. */
  lemma PhaseEventOrder(w: World, hist: seq<Event>, name: string, phase: ConcretePhase, runRoot: string, target: Target)
    ensures var ensureDir := EnsureDirectoryEvent(phase.cwd, target);
      var exec := ExecEvent(CommandOf(phase), target);
      var out := w(hist + [ensureDir], exec);
      var all := [ensureDir, exec] + (if out.Completed? then LogWrites(runRoot, name, out.stdout, out.stderr, target) else []);
      var r := PhaseRun(w, hist, name, phase, runRoot, target);
      && r.events <= all
      && (r.outcome.Ok? || r.outcome == Err(PhaseFailed(name)) ==> out.Completed? && r.events == all)
  {
    var ensureDir := EnsureDirectoryEvent(phase.cwd, target);
    if !w(hist, ensureDir).Refused? {
      var exec := ExecEvent(CommandOf(phase), target);
      var out := w(hist + [ensureDir], exec);
      var rest := [exec] + (if out.Completed? then LogWrites(runRoot, name, out.stdout, out.stderr, target) else []);
      ExecAndLogOrder(w, hist + [ensureDir], name, phase, runRoot, target);
      assert [ensureDir, exec] + (if out.Completed? then LogWrites(runRoot, name, out.stdout, out.stderr, target) else [])
        == [ensureDir] + rest;
    }
  }

  /** The exit-status rule of a phase after its working directory exists. */
  lemma ExecAndLogStatus(w: World, hist: seq<Event>, name: string, phase: ConcretePhase, runRoot: string, target: Target)
    ensures var exec := ExecEvent(CommandOf(phase), target);
      var out := w(hist, exec);
      var r := ExecAndLog(w, hist, name, phase, runRoot, target);
      && (r.outcome.Ok? ==> out.Completed? && out.success)
      && (out.Completed? && !out.success ==> r.outcome.Err?)
      && (out.Completed? ==>
            var logs := LogWrites(runRoot, name, out.stdout, out.stderr, target);
            w(hist + [exec], logs[0]).Completed? && w(hist + [exec] + [logs[0]], logs[1]).Completed? ==>
              (r.outcome.Ok? <==> out.success) && (r.outcome == Err(PhaseFailed(name)) <==> !out.success))
  {
    var exec := ExecEvent(CommandOf(phase), target);
    var out := w(hist, exec);
    if out.Completed? {
      var logs := LogWrites(runRoot, name, out.stdout, out.stderr, target);
      assert logs == [logs[0]] + ([logs[1]] + []);
      AttemptAllCons(w, hist + [exec], logs[0], [logs[1]] + []);
      AttemptAllCons(w, hist + [exec] + [logs[0]], logs[1], []);
    }
  }

  /** The exit-status rule of `execute_phase`: a phase whose command exits
      unsuccessfully never succeeds, and a phase that succeeds ran its
      command successfully. When neither the working directory nor a log
      write is refused, the phase succeeds exactly when its command does and
      fails with `PhaseFailed` naming it exactly when its command does not. */
  lemma PhaseStatusRule(w: World, hist: seq<Event>, name: string, phase: ConcretePhase, runRoot: string, target: Target)
    ensures var ensureDir := EnsureDirectoryEvent(phase.cwd, target);
      var exec := ExecEvent(CommandOf(phase), target);
      var h := hist + [ensureDir];
      var out := w(h, exec);
      var r := PhaseRun(w, hist, name, phase, runRoot, target);
      && (r.outcome.Ok? ==> out.Completed? && out.success)
      && (w(hist, ensureDir).Completed? && out.Completed? && !out.success ==> r.outcome.Err?)
      && (w(hist, ensureDir).Completed? && out.Completed? ==>
            var logs := LogWrites(runRoot, name, out.stdout, out.stderr, target);
            w(h + [exec], logs[0]).Completed? && w(h + [exec] + [logs[0]], logs[1]).Completed? ==>
              (r.outcome.Ok? <==> out.success) && (r.outcome == Err(PhaseFailed(name)) <==> !out.success))
  {
    var ensureDir := EnsureDirectoryEvent(phase.cwd, target);
    if !w(hist, ensureDir).Refused? {
      ExecAndLogStatus(w, hist + [ensureDir], name, phase, runRoot, target);
    }
  }

  /** Phases run in the order given, each with its own command: the commands
      run are a prefix of the phases' commands, all of them when the run
      succeeds; when a phase fails by exit status it is the last phase whose
      command ran, and no later phase's command runs. */
  lemma {:induction false} RunPhasesOrder(w: World, hist: seq<Event>, phases: seq<(string, ConcretePhase)>,
                                          runRoot: string, target: Target)
    ensures var r := RunPhases(w, hist, phases, runRoot, target);
      var cmds := Commands(r.events);
      && cmds <= PhaseCommands(phases)
      && (r.outcome.Ok? ==> cmds == PhaseCommands(phases))
      && (r.outcome.Err? && r.outcome.failure.PhaseFailed? ==>
            |cmds| > 0 && phases[|cmds| - 1].0 == r.outcome.failure.phase)
    decreases |phases|
  {
    var step := PhaseStep(w, runRoot, target);
    if |phases| > 0 {
      var first := PhaseRun(w, hist, phases[0].0, phases[0].1, runRoot, target);
      assert step(hist, phases[0]) == first;
      PhaseRunFacts(w, hist, phases[0].0, phases[0].1, runRoot, target);
      var all := PhaseCommands(phases);
      assert all == [CommandOf(phases[0].1)] + PhaseCommands(phases[1..]);
      if first.outcome.Ok? {
        var rest := RunPhases(w, hist + first.events, phases[1..], runRoot, target);
        RunPhasesOrder(w, hist + first.events, phases[1..], runRoot, target);
        CommandsAppend(first.events, rest.events);
        if rest.outcome.Err? && rest.outcome.failure.PhaseFailed? {
          var k := |Commands(rest.events)|;
          assert phases[1..][k - 1] == phases[k];
        }
      }
    }
  }

  /** The commands a real run executes are a prefix of the plan's commands in
      declared order, all of them when it succeeds; a failing phase is the
      last one whose command ran. */
  lemma ExecutionFollowsPlan(w: World, hist: seq<Event>, plan: RunPlan, target: Target)
    ensures var r := ExecuteRunSpec(w, hist, plan, target, false);
      var cmds := Commands(r.events);
      && cmds <= PlannedCommands(plan)
      && (r.outcome.Ok? ==> cmds == PlannedCommands(plan))
      && (r.outcome.Err? && r.outcome.failure.PhaseFailed? ==>
            |cmds| > 0 && DeclaredPhases(plan)[|cmds| - 1].0 == r.outcome.failure.phase)
  {
    var dirs := CreateDirectoriesRun(w, hist, plan.runRoot, target);
    var es := CreateDirectoriesEvents(plan.runRoot, target);
    AttemptAllPrefix(w, hist, es);
    assert Commands(dirs.events) == [] by {
      assert forall i :: 0 <= i < |dirs.events| ==> dirs.events[i] == es[i];
      if target.ssh.Some? {
        assert |dirs.events| <= 1;
        if |dirs.events| == 1 {
          assert dirs.events == [es[0]];
        }
      } else {
        NoCommandsAmongDirs(dirs.events, es);
      }
    }
    if dirs.outcome.Ok? {
      var rest := RunPhases(w, hist + dirs.events, DeclaredPhases(plan), plan.runRoot, target);
      RunPhasesOrder(w, hist + dirs.events, DeclaredPhases(plan), plan.runRoot, target);
      CommandsAppend(dirs.events, rest.events);
      assert Commands(dirs.events + rest.events) == Commands(rest.events);
      assert ExecuteRunSpec(w, hist, plan, target, false) == Append(dirs, rest);
    }
  }

  lemma {:induction false} NoCommandsAmongDirs(events: seq<Event>, es: seq<Event>)
    requires events <= es && forall i :: 0 <= i < |es| ==> es[i].MakeDirs?
    ensures Commands(events) == []
    decreases |events|
  {
    if |events| > 0 {
      assert events[0] == es[0] && events[1..] <= es[1..];
      NoCommandsAmongDirs(events[1..], es[1..]);
    }
  }

  /** Only the first declared phase can be the build. */
  lemma BuildComesFirst(plan: RunPlan, i: nat)
    requires i < |DeclaredPhases(plan)| && DeclaredPhases(plan)[i].0 == "build"
    ensures i == 0 && plan.build.Some?
  {
  }

  /** A build phase that fails is the only phase whose command ran: run and
      analyze were never started. */
  lemma BuildFailureRanOnlyBuild(w: World, hist: seq<Event>, plan: RunPlan, target: Target)
    requires ExecuteRunSpec(w, hist, plan, target, false).outcome == Err(PhaseFailed("build"))
    ensures plan.build.Some?
    ensures Commands(ExecuteRunSpec(w, hist, plan, target, false).events) == [CommandOf(plan.build.value)]
  {
    ExecutionFollowsPlan(w, hist, plan, target);
    var cmds := Commands(ExecuteRunSpec(w, hist, plan, target, false).events);
    BuildComesFirst(plan, |cmds| - 1);
    assert PlannedCommands(plan)[0] == CommandOf(plan.build.value);
  }

  /** When no call is refused, the phases before phase `k` exit successfully
      and phase `k` does not, the run of the phases fails with `PhaseFailed`
      naming phase `k`, having run exactly the commands up to and including
      its own: no later phase starts. Each status is that of the command at
      its place in the run: phase `i`'s command is answered after `i` more
      commands than `hist` holds, so two phases with the same command text
      may still exit differently. */
  lemma {:induction false} FailedPhaseStopsPhases(w: World, hist: seq<Event>, phases: seq<(string, ConcretePhase)>,
                                                  runRoot: string, target: Target, k: nat)
    requires k < |phases|
    requires forall h, e :: w(h, e).Completed?
    requires StatusesInTurn(w, hist, phases, target, k)
    ensures var r := RunPhases(w, hist, phases, runRoot, target);
      && r.outcome == Err(PhaseFailed(phases[k].0))
      && Commands(r.events) == PhaseCommands(phases[..k + 1])
    decreases k
  {
    var first := PhaseRun(w, hist, phases[0].0, phases[0].1, runRoot, target);
    FirstPhaseStatus(w, hist, phases, target, k);
    PhaseOutcomeByStatus(w, hist, phases[0].0, phases[0].1, runRoot, target);
    if k > 0 {
      var next := hist + first.events;
      CommandsAppend(hist, first.events);
      ShiftStatuses(w, hist, next, phases, target, k);
      FailedPhaseStopsPhases(w, next, phases[1..], runRoot, target, k - 1);
      assert phases[1..][k - 1] == phases[k];
    }
    FailedPhaseStep(w, hist, phases, runRoot, target, k);
  }

  /** One step of `FailedPhaseStopsPhases`: the first phase either fails by
      status (`k == 0`) or succeeds and hands over to the later phases. */
  lemma FailedPhaseStep(w: World, hist: seq<Event>, phases: seq<(string, ConcretePhase)>,
                        runRoot: string, target: Target, k: nat)
    requires k < |phases|
    requires var first := PhaseRun(w, hist, phases[0].0, phases[0].1, runRoot, target);
      && (k == 0 ==> first.outcome == Err(PhaseFailed(phases[0].0)))
      && (k > 0 ==> first.outcome.Ok?)
      && Commands(first.events) == [CommandOf(phases[0].1)]
    requires k > 0 ==>
      var first := PhaseRun(w, hist, phases[0].0, phases[0].1, runRoot, target);
      var rest := RunPhases(w, hist + first.events, phases[1..], runRoot, target);
      && rest.outcome == Err(PhaseFailed(phases[k].0))
      && Commands(rest.events) == PhaseCommands(phases[1..][..k])
    ensures var r := RunPhases(w, hist, phases, runRoot, target);
      && r.outcome == Err(PhaseFailed(phases[k].0))
      && Commands(r.events) == PhaseCommands(phases[..k + 1])
  {
    var step := PhaseStep(w, runRoot, target);
    var first := PhaseRun(w, hist, phases[0].0, phases[0].1, runRoot, target);
    assert step(hist, phases[0]) == first;
    ChainCons(step, hist, phases[0], phases[1..]);
    assert [phases[0]] + phases[1..] == phases;
    if k == 0 {
      assert PhaseCommands(phases[..1]) == [CommandOf(phases[0].1)];
    } else {
      var rest := RunPhases(w, hist + first.events, phases[1..], runRoot, target);
      CommandsAppend(first.events, rest.events);
      assert PhaseCommands(phases[..k + 1]) == [CommandOf(phases[0].1)] + PhaseCommands(phases[1..][..k]);
    }
  }

  /** The phases before phase `k` exit successfully and phase `k` does not.
      Each status is that of the command at its place in the run: phase
      `i`'s command is answered in a history holding `i` more commands than
      `hist`. */
  ghost predicate StatusesInTurn(w: World, hist: seq<Event>, phases: seq<(string, ConcretePhase)>, target: Target, k: nat)
    requires k < |phases|
  {
    && (forall i, h :: 0 <= i < k && |Commands(h)| == |Commands(hist)| + i ==>
          var out := w(h, ExecEvent(CommandOf(phases[i].1), target)); out.Completed? && out.success)
    && (forall h :: |Commands(h)| == |Commands(hist)| + k ==>
          var out := w(h, ExecEvent(CommandOf(phases[k].1), target)); out.Completed? && !out.success)
  }

  /** The first phase's command is answered in the history its working
      directory was made in, which holds as many commands as `hist`. */
  lemma FirstPhaseStatus(w: World, hist: seq<Event>, phases: seq<(string, ConcretePhase)>, target: Target, k: nat)
    requires k < |phases|
    requires forall h, e :: w(h, e).Completed?
    requires StatusesInTurn(w, hist, phases, target, k)
    ensures w(hist + [EnsureDirectoryEvent(phases[0].1.cwd, target)], ExecEvent(CommandOf(phases[0].1), target)).success
      <==> k > 0
  {
    var h := hist + [EnsureDirectoryEvent(phases[0].1.cwd, target)];
    EnsureDirectoryRunsNoCommand(hist, phases[0].1.cwd, target);
    assert |Commands(h)| == |Commands(hist)| + 0;
  }

  /** The status premises about `phases` from `hist` are the premises about
      the later phases from a history holding one more command. */
  lemma ShiftStatuses(w: World, hist: seq<Event>, next: seq<Event>, phases: seq<(string, ConcretePhase)>, target: Target, k: nat)
    requires 0 < k < |phases|
    requires forall h, e :: w(h, e).Completed?
    requires |Commands(next)| == |Commands(hist)| + 1
    requires StatusesInTurn(w, hist, phases, target, k)
    ensures StatusesInTurn(w, next, phases[1..], target, k - 1)
  {
    forall i, h | 0 <= i < k - 1 && |Commands(h)| == |Commands(next)| + i
      ensures w(h, ExecEvent(CommandOf(phases[1..][i].1), target)).success
    {
      assert phases[1..][i] == phases[i + 1];
      assert |Commands(h)| == |Commands(hist)| + (i + 1);
    }
    assert phases[1..][k - 1] == phases[k];
  }

  /** Making a working directory runs no command. */
  lemma EnsureDirectoryRunsNoCommand(hist: seq<Event>, path: string, target: Target)
    ensures Commands(hist + [EnsureDirectoryEvent(path, target)]) == Commands(hist)
  {
    var e := EnsureDirectoryEvent(path, target);
    CommandsAppend(hist, [e]);
    assert !e.IsExec();
    assert [e][1..] == [];
  }

  /** When no call is refused, a phase runs its command and its outcome
      follows that command's exit status. */
  lemma PhaseOutcomeByStatus(w: World, hist: seq<Event>, name: string, phase: ConcretePhase, runRoot: string, target: Target)
    requires forall h, e :: w(h, e).Completed?
    ensures var out := w(hist + [EnsureDirectoryEvent(phase.cwd, target)], ExecEvent(CommandOf(phase), target));
      var r := PhaseRun(w, hist, name, phase, runRoot, target);
      && (r.outcome.Ok? <==> out.success)
      && (r.outcome == Err(PhaseFailed(name)) <==> !out.success)
      && Commands(r.events) == [CommandOf(phase)]
  {
    var ensureDir := EnsureDirectoryEvent(phase.cwd, target);
    var exec := ExecEvent(CommandOf(phase), target);
    var h := hist + [ensureDir];
    var out := w(h, exec);
    var logs := LogWrites(runRoot, name, out.stdout, out.stderr, target);
    assert w(hist, ensureDir).Completed? && out.Completed?;
    assert w(h + [exec], logs[0]).Completed? && w(h + [exec] + [logs[0]], logs[1]).Completed?;
    PhaseStatusRule(w, hist, name, phase, runRoot, target);
    PhaseRunFacts(w, hist, name, phase, runRoot, target);
  }

  /** When no call is refused and the build command, answered as the run's
      first command, exits unsuccessfully, the run fails with `PhaseFailed("build")` and the build command is the
      only one run: run and analyze never start. */
  lemma BuildFailureSkipsLaterPhases(w: World, hist: seq<Event>, plan: RunPlan, target: Target)
    requires plan.build.Some?
    requires forall h, e :: w(h, e).Completed?
    requires forall h :: |Commands(h)| == |Commands(hist)| ==> !w(h, ExecEvent(CommandOf(plan.build.value), target)).success
    ensures ExecuteRunSpec(w, hist, plan, target, false).outcome == Err(PhaseFailed("build"))
    ensures Commands(ExecuteRunSpec(w, hist, plan, target, false).events) == [CommandOf(plan.build.value)]
  {
    var phases := DeclaredPhases(plan);
    var dirs := CreateDirectoriesRun(w, hist, plan.runRoot, target);
    assert phases[0] == ("build", plan.build.value);
    DirectoriesSucceedSilently(w, hist, plan, target);
    CommandsAppend(hist, dirs.events);
    assert StatusesInTurn(w, hist + dirs.events, phases, target, 0);
    FailedPhaseStopsPhases(w, hist + dirs.events, phases, plan.runRoot, target, 0);
    assert PhaseCommands(phases[..1]) == [CommandOf(plan.build.value)];
  }

  /** When no call is refused, the build (if any) exits successfully as the
      run's first command and the run command, answered after it, does not,
      the run fails with `PhaseFailed("run")` having
      run the build and run commands only: analyze never starts. */
  lemma RunFailureSkipsAnalyze(w: World, hist: seq<Event>, plan: RunPlan, target: Target)
    requires forall h, e :: w(h, e).Completed?
    requires plan.build.Some? ==> forall h :: |Commands(h)| == |Commands(hist)| ==>
      w(h, ExecEvent(CommandOf(plan.build.value), target)).success
    requires forall h :: |Commands(h)| == |Commands(hist)| + |OptionalPhase("build", plan.build)| ==>
      !w(h, ExecEvent(CommandOf(plan.run), target)).success
    ensures ExecuteRunSpec(w, hist, plan, target, false).outcome == Err(PhaseFailed("run"))
    ensures Commands(ExecuteRunSpec(w, hist, plan, target, false).events)
      == PhaseCommands(OptionalPhase("build", plan.build)) + [CommandOf(plan.run)]
  {
    var phases := DeclaredPhases(plan);
    var builds := OptionalPhase("build", plan.build);
    var k := |builds|;
    var dirs := CreateDirectoriesRun(w, hist, plan.runRoot, target);
    assert phases[k] == ("run", plan.run);
    assert phases[..k + 1] == builds + [("run", plan.run)];
    DirectoriesSucceedSilently(w, hist, plan, target);
    CommandsAppend(hist, dirs.events);
    RunStatusesInTurn(w, hist, hist + dirs.events, plan, target);
    FailedPhaseStopsPhases(w, hist + dirs.events, phases, plan.runRoot, target, k);
    PhaseCommandsAppend(builds, [("run", plan.run)]);
  }

  /** A build and a run with the same command text still run in turn: in a
      world where the first command of the run succeeds and later ones fail,
      the run fails with `PhaseFailed("run")` after running that command
      twice, and analyze never starts. */
  lemma RepeatedCommandRunFails(hist: seq<Event>, plan: RunPlan, target: Target)
    requires plan.build.Some? && CommandOf(plan.build.value) == CommandOf(plan.run)
    ensures var w: World := (h: seq<Event>, e: Event) => Completed(|Commands(h)| <= |Commands(hist)|, [], []);
      var r := ExecuteRunSpec(w, hist, plan, target, false);
      && r.outcome == Err(PhaseFailed("run"))
      && Commands(r.events) == [CommandOf(plan.run), CommandOf(plan.run)]
  {
    var w: World := (h: seq<Event>, e: Event) => Completed(|Commands(h)| <= |Commands(hist)|, [], []);
    RunFailureSkipsAnalyze(w, hist, plan, target);
    assert PhaseCommands(OptionalPhase("build", plan.build)) == [CommandOf(plan.build.value)];
  }

  /** The premises of `RunFailureSkipsAnalyze`, placed after provisioning
      that ran no command. */
  lemma RunStatusesInTurn(w: World, hist: seq<Event>, next: seq<Event>, plan: RunPlan, target: Target)
    requires forall h, e :: w(h, e).Completed?
    requires |Commands(next)| == |Commands(hist)|
    requires plan.build.Some? ==> forall h :: |Commands(h)| == |Commands(hist)| ==>
      w(h, ExecEvent(CommandOf(plan.build.value), target)).success
    requires forall h :: |Commands(h)| == |Commands(hist)| + |OptionalPhase("build", plan.build)| ==>
      !w(h, ExecEvent(CommandOf(plan.run), target)).success
    ensures |OptionalPhase("build", plan.build)| < |DeclaredPhases(plan)|
    ensures StatusesInTurn(w, next, DeclaredPhases(plan), target, |OptionalPhase("build", plan.build)|)
  {
    var phases := DeclaredPhases(plan);
    var k := |OptionalPhase("build", plan.build)|;
    assert phases[k] == ("run", plan.run);
    if plan.build.Some? {
      assert phases[0] == ("build", plan.build.value);
    }
  }

  /** When no call is refused, provisioning succeeds without running a
      command, and the run is the run of the declared phases after it. */
  lemma DirectoriesSucceedSilently(w: World, hist: seq<Event>, plan: RunPlan, target: Target)
    requires forall h, e :: w(h, e).Completed?
    ensures var dirs := CreateDirectoriesRun(w, hist, plan.runRoot, target);
      var rest := RunPhases(w, hist + dirs.events, DeclaredPhases(plan), plan.runRoot, target);
      var r := ExecuteRunSpec(w, hist, plan, target, false);
      && dirs.outcome.Ok?
      && Commands(dirs.events) == []
      && r.outcome == rest.outcome
      && Commands(r.events) == Commands(rest.events)
  {
    var es := CreateDirectoriesEvents(plan.runRoot, target);
    var dirs := CreateDirectoriesRun(w, hist, plan.runRoot, target);
    ChainSucceeds(AttemptStep(w), hist, es);
    AttemptAllPrefix(w, hist, es);
    var rest := RunPhases(w, hist + dirs.events, DeclaredPhases(plan), plan.runRoot, target);
    CommandsAppend(dirs.events, rest.events);
    if target.ssh.Some? {
      assert dirs.events == [es[0]];
    } else {
      NoCommandsAmongDirs(dirs.events, es);
    }
  }

  lemma {:induction false} ShownCommandsAppend(a: seq<string>, b: seq<string>)
    ensures ShownCommands(a + b) == ShownCommands(a) + ShownCommands(b)
    decreases |a|
  {
    if |a| == 0 {
      assert a + b == b;
    } else {
      assert (a + b)[0] == a[0] && (a + b)[1..] == a[1..] + b;
      ShownCommandsAppend(a[1..], b);
    }
  }

  lemma PrintPhaseShows(problem: string, target: string, run: string, phaseName: string, phase: ConcretePhase)
    ensures ShownCommands(PrintPhase(problem, target, run, phaseName, phase)) == [CommandOf(phase)]
  {
    var lines := PrintPhase(problem, target, run, phaseName, phase);
    assert lines[1][0] == '[' && !("> " <= lines[1]);
    assert lines[1..][1..] == [lines[2]] && lines[2][2..] == CommandOf(phase);
    assert ShownCommands([lines[2]]) == [CommandOf(phase)];
  }

  lemma PhaseCommandsAppend(x: seq<(string, ConcretePhase)>, y: seq<(string, ConcretePhase)>)
    ensures PhaseCommands(x + y) == PhaseCommands(x) + PhaseCommands(y)
  {
    assert forall i :: 0 <= i < |x + y| ==> PhaseCommands(x + y)[i] == (PhaseCommands(x) + PhaseCommands(y))[i];
  }

  lemma PrintOptionalShows(problem: string, target: string, run: string, phaseName: string, phase: Option<ConcretePhase>)
    ensures ShownCommands(PrintOptional(problem, target, run, phaseName, phase)) == PhaseCommands(OptionalPhase(phaseName, phase))
  {
    if phase.Some? {
      PrintPhaseShows(problem, target, run, phaseName, phase.value);
    }
  }

  /** What a dry run prints for a plan shows exactly the plan's commands,
      in declared order. */
  lemma PrintPlanShowsPlannedCommands(problem: string, targetName: string, plan: RunPlan)
    ensures ShownCommands(PrintPlan(problem, targetName, plan)) == PlannedCommands(plan)
  {
    var b := PrintOptional(problem, targetName, plan.name, "build", plan.build);
    var m := PrintPhase(problem, targetName, plan.name, "run", plan.run);
    var a := PrintOptional(problem, targetName, plan.name, "analyze", plan.analyze);
    ShownCommandsAppend(["(dry-run)"] + b + m, a);
    ShownCommandsAppend(["(dry-run)"] + b, m);
    ShownCommandsAppend(["(dry-run)"], b);
    assert "(dry-run)"[0] == '(' && ShownCommands(["(dry-run)"][1..]) == [];
    assert ShownCommands(["(dry-run)"]) == [];
    PrintPhaseShows(problem, targetName, plan.name, "run", plan.run);
    PrintOptionalShows(problem, targetName, plan.name, "build", plan.build);
    PrintOptionalShows(problem, targetName, plan.name, "analyze", plan.analyze);
    var builds, analyses := OptionalPhase("build", plan.build), OptionalPhase("analyze", plan.analyze);
    PhaseCommandsAppend(builds + [("run", plan.run)], analyses);
    PhaseCommandsAppend(builds, [("run", plan.run)]);
    assert PhaseCommands([("run", plan.run)]) == [CommandOf(plan.run)];
  }

  /** A dry run performs nothing and succeeds; the commands it prints are the
      plan's commands, and a real run executes a prefix of exactly those,
      all of them when it succeeds. */
  lemma DryRunShowsExecutedCommands(w: World, hist: seq<Event>, problem: string, targetName: string,
                                    plan: RunPlan, target: Target)
    ensures ExecuteRunSpec(w, hist, plan, target, true) == Run([], Ok)
    ensures var shown := ShownCommands(PrintPlan(problem, targetName, plan));
      var r := ExecuteRunSpec(w, hist, plan, target, false);
      && Commands(r.events) <= shown
      && (r.outcome.Ok? ==> Commands(r.events) == shown)
  {
    PrintPlanShowsPlannedCommands(problem, targetName, plan);
    ExecutionFollowsPlan(w, hist, plan, target);
  }

  /** Whatever happens, a run's events go through `ssh` exactly when the
      target is remote (a local target never invokes `ssh`), and a failed
      run is explained by its events. */
  lemma ExecuteRunFacts(w: World, hist: seq<Event>, plan: RunPlan, target: Target, dryRun: bool)
    ensures var r := ExecuteRunSpec(w, hist, plan, target, dryRun);
      Located(r.events, target) && Explained(w, hist, r, plan.runRoot, target)
  {
    if !dryRun {
      var es := CreateDirectoriesEvents(plan.runRoot, target);
      var dirs := CreateDirectoriesRun(w, hist, plan.runRoot, target);
      forall h, x | x in es
        ensures Explained(w, h, AttemptStep(w)(h, x), plan.runRoot, target)
        ensures Located(AttemptStep(w)(h, x).events, target)
      {
        AttemptExplained(w, h, x, plan.runRoot, target);
      }
      ChainExplained(w, AttemptStep(w), hist, es, plan.runRoot, target);
      ChainLocated(AttemptStep(w), hist, es, target);
      if dirs.outcome.Ok? {
        var phases := DeclaredPhases(plan);
        var step := PhaseStep(w, plan.runRoot, target);
        forall h, x | x in phases
          ensures Explained(w, h, step(h, x), plan.runRoot, target)
          ensures Located(step(h, x).events, target)
        {
          PhaseRunFacts(w, h, x.0, x.1, plan.runRoot, target);
        }
        ChainExplained(w, step, hist + dirs.events, phases, plan.runRoot, target);
        ChainLocated(step, hist + dirs.events, phases, target);
        var rest := RunPhases(w, hist + dirs.events, phases, plan.runRoot, target);
        ExplainedAppend(w, hist, dirs, rest, plan.runRoot, target);
        LocatedAppend(dirs.events, rest.events, target);
      }
    }
  }

  /** Directories come first: a real run starts with the provisioning
      events, or stops inside them with an error; locally these make the
      run root's `logs`, `run` and `analysis` one by one, remotely a single
      `mkdir -p` names all three. Logs then go into the provisioned `logs`. */
  lemma ProvisioningFirst(w: World, hist: seq<Event>, plan: RunPlan, target: Target, name: string, ext: string)
    ensures var es := CreateDirectoriesEvents(plan.runRoot, target);
      var r := ExecuteRunSpec(w, hist, plan, target, false);
      && (es <= r.events || (r.events <= es && r.outcome.Err?))
      && (target.ssh.None? ==> es == seq(3, i requires 0 <= i < 3 => MakeDirs(ProvisionedDirs(plan.runRoot)[i])))
      && (target.ssh.Some? ==> es == [SshStatus(target.ssh.value, "mkdir -p " + Join(ProvisionedDirs(plan.runRoot), " "))])
      && ProvisionedDirs(plan.runRoot)[0] + "/" <= LogPath(plan.runRoot, name, ext)
  {
    var es := CreateDirectoriesEvents(plan.runRoot, target);
    var dirs := CreateDirectoriesRun(w, hist, plan.runRoot, target);
    AttemptAllPrefix(w, hist, es);
    if dirs.outcome.Ok? {
      var rest := RunPhases(w, hist + dirs.events, DeclaredPhases(plan), plan.runRoot, target);
      assert ExecuteRunSpec(w, hist, plan, target, false).events == es + rest.events;
    }
    var d := ProvisionedDirs(plan.runRoot);
    assert d[1..] == [d[1], d[2]] && d[1..][1..] == [d[2]];
    assert Join(d[1..][1..], " ") == d[2];
    assert Join(d[1..], " ") == d[1] + " " + d[2];
    assert Join(d, " ") == d[0] + " " + (d[1] + " " + d[2]);
    assert "mkdir -p " + Join(d, " ") == "mkdir -p " + d[0] + " " + d[1] + " " + d[2];
    var path := LogPath(plan.runRoot, name, ext);
    assert path == (d[0] + "/") + (name + ext);
  }

  /** Only a refused call or a phase's own exit status fails a run: when the
      world refuses nothing and every command exits successfully, the run
      succeeds whatever the exit statuses of `mkdir` and of the log writes
      through `ssh`. */
  lemma StatusesOfSideCallsIgnored(w: World, hist: seq<Event>, plan: RunPlan, target: Target)
    requires forall h, e :: w(h, e).Completed? && (e.IsExec() ==> w(h, e).success)
    ensures ExecuteRunSpec(w, hist, plan, target, false).outcome == Ok
  {
    var es := CreateDirectoriesEvents(plan.runRoot, target);
    ChainSucceeds(AttemptStep(w), hist, es);
    var dirs := CreateDirectoriesRun(w, hist, plan.runRoot, target);
    var phases := DeclaredPhases(plan);
    var step := PhaseStep(w, plan.runRoot, target);
    forall h, x | x in phases ensures step(h, x).outcome.Ok? {
      var ensure := EnsureDirectoryRun(w, h, x.1.cwd, target);
      var h' := h + ensure.events;
      var exec := ExecEvent(CommandOf(x.1), target);
      var output := w(h', exec);
      ChainSucceeds(AttemptStep(w), h' + [exec], LogWrites(plan.runRoot, x.0, output.stdout, output.stderr, target));
    }
    ChainSucceeds(step, hist + dirs.events, phases);
  }

  /** The default working directories of the run and analyze phases are
      among the directories provisioned before any phase runs. */
  lemma DefaultCwdsProvisioned(problemName: string, problem: Problem, targetName: string, target: Target, combo: seq<string>)
    ensures var plan := PlanFor(problemName, problem, targetName, target, combo);
      && (problem.phases.run.cwd.None? ==> plan.run.cwd == ProvisionedDirs(plan.runRoot)[1])
      && (problem.phases.analyze.Some? && problem.phases.analyze.value.cwd.None? ==>
            plan.analyze.value.cwd == ProvisionedDirs(plan.runRoot)[2])
  {
    PlanLayout(problemName, problem, targetName, target, combo);
  }
}
