/** The single-flight pipeline driver of the dev loop (src/cli/fns/fns/convex-runner.ts).

    `runOnce` is an async function whose body suspends at four points: resolving the
    command for the next task (`await runCmd(…)` / `await runFileCmd(…)`) and waiting for
    that task's child to settle. Each resumption is an event method here:
    CommandResolved, ChildExited and ChildFailedToStart. `Phase` says where the body is
    suspended; `cancel()` from a watcher callback can arrive in any phase. */
module ConvexRunning {
  import opened Wrappers
  import opened OrderedMap
  import opened ShellRunning

  datatype Task = Task(kind: TaskKind, taskLabel: string, successMessage: string)

  const ConvexTask: Task :=
    Task("convex", "\U{27A1}\U{FE0F}  Uploading functions to Convex...", "\U{2705} Convex functions uploaded")
  const SchemaTask: Task :=
    Task("schema", "\U{27A1}\U{FE0F}  Generating Zod schemas...", "\U{2705}  Zod schemas generated")

  /** The tasks one `runOnce` runs, in order. */
  function Pipeline(skipConvex: bool): (p: seq<Task>)
    ensures |p| == if skipConvex then 1 else 2
    ensures p[|p| - 1] == SchemaTask
    ensures !skipConvex ==> p[0] == ConvexTask
  {
    (if skipConvex then [] else [ConvexTask]) + [SchemaTask]
  }

  /** No two tasks of a pipeline share a kind, so `run` never refuses one as a
      duplicate. */
  lemma PipelineKindsDistinct(skipConvex: bool)
    ensures forall i, j :: 0 <= i < j < |Pipeline(skipConvex)| ==> Pipeline(skipConvex)[i].kind != Pipeline(skipConvex)[j].kind
  {
  }

  function Kinds(p: seq<Task>): (r: seq<TaskKind>)
    ensures |r| == |p| && forall i :: 0 <= i < |p| ==> r[i] == p[i].kind
  {
    seq(|p|, i requires 0 <= i < |p| => p[i].kind)
  }

  lemma KindsPrefixSnoc(p: seq<Task>, step: nat)
    requires step < |p|
    ensures Kinds(p)[..step + 1] == Kinds(p)[..step] + [p[step].kind]
  {
    var k := Kinds(p);
    assert k[step] == p[step].kind;
    assert k[..step + 1] == k[..step] + [k[step]];
  }

  /** The `catch` filter of `runOnce`: an error is reported unless its message is
      "cancelled". */
  predicate IsLoggedFailure(e: RunFailure)
  {
    e.Message() != "cancelled"
  }

  datatype ConvexLog = WatchingLine | RunFailedLine(error: RunFailure)

  /** Where the body of `runOnce` is suspended; `step` indexes Pipeline(skipConvex). */
  datatype Phase = Idle | Resolving(step: nat) | Awaiting(step: nat)

  /** A child that exits after a cancellation is never reported; a child that exits
      with a non-zero code while nothing was cancelled always is. */
  lemma {:induction false} ExitReporting(cancelled: bool, code: Option<int>, signal: Option<SignalName>, t: Task)
    ensures var v := ClassifyExit(cancelled, false, code, signal, t.kind, t.taskLabel);
            v.Rejected? ==> (IsLoggedFailure(v.error) <==> !cancelled)
  {
    ExitCancelledIffMessage(cancelled, false, code, signal, t.kind, t.taskLabel);
  }

  /** Errors thrown before a spawn are reported: in particular a cancellation that
      arrives while the next command is being resolved makes `run` throw "ShellRunner
      is cancelled", which is logged as a failed run. */
  lemma PrecheckFailuresAreLogged(k: TaskKind)
    ensures IsLoggedFailure(AlreadyCancelled(k))
    ensures IsLoggedFailure(AbortedBeforeStart(k))
    ensures IsLoggedFailure(DuplicateKind(k))
  {
    assert AlreadyCancelled(k).Message()[0] == 'S';
    assert AbortedBeforeStart(k).Message()[0] == 'R';
    assert DuplicateKind(k).Message()[0] == 'A';
  }

  class ConvexRunner {
    const tasks: ShellRunner
    const skipConvex: bool
    var isRunning: bool
    var phase: Phase
    /** The run being awaited, while `phase` is Awaiting. */
    var current: ShellRun?
    var log: seq<ConvexLog>
    /** The kinds spawned by the latest `runOnce`, in order. */
    ghost var started: seq<TaskKind>

    ghost predicate Valid()
      reads this, tasks, current
    {
      && tasks.Valid()
      && (isRunning <==> !phase.Idle?)
      && (phase.Idle? ==> current == null && tasks.procs == [])
      && (phase.Resolving? ==>
            && phase.step < |Pipeline(skipConvex)|
            && current == null && tasks.procs == []
            && started == Kinds(Pipeline(skipConvex))[..phase.step])
      && (phase.Awaiting? ==>
            && phase.step < |Pipeline(skipConvex)|
            && current != null && current.runner == tasks && !current.settled
            && current.kind == Pipeline(skipConvex)[phase.step].kind
            && current.taskLabel == Pipeline(skipConvex)[phase.step].taskLabel
            && current.successMessage == Some(Pipeline(skipConvex)[phase.step].successMessage)
            && current.abort == null
            && tasks.procs == [(current.kind, current.child)]
            && started == Kinds(Pipeline(skipConvex))[..phase.step + 1])
    }

    /** `new ConvexRunner({ skipConvex })`; an absent option means false. */
    constructor (skipConvexOption: Option<bool>)
      ensures Valid() && fresh(tasks)
      ensures skipConvex == (skipConvexOption == Some(true))
      ensures !isRunning && phase == Idle && log == []
      ensures tasks.procs == [] && !tasks.cancelled && tasks.kills == []
    {
      tasks := new ShellRunner();
      skipConvex := skipConvexOption == Some(true);
      isRunning, phase, current, log := false, Idle, null, [];
      started := [];
    }

    /** The `running` getter. */
    method Running() returns (r: bool)
      ensures r == isRunning
    {
      r := isRunning;
    }

    /** `cancel()`: nothing while idle; otherwise `cancelAll()` on the runner, which
        signals the awaited child if there is one. */
    method Cancel()
      requires Valid()
      modifies tasks`cancelled, tasks`kills
      ensures Valid()
      ensures !isRunning ==> unchanged(tasks)
      ensures isRunning ==> tasks.cancelled
      ensures phase.Awaiting? ==> tasks.kills == old(tasks.kills) + [Kill(current.child, SIGINT)]
      ensures !phase.Awaiting? ==> tasks.kills == old(tasks.kills)
    {
      if !isRunning {
        return;
      }
      tasks.CancelAll(SIGINT);
      assert tasks.kills == old(tasks.kills) + tasks.kills[|old(tasks.kills)|..];
      if phase.Awaiting? {
        var n := |old(tasks.kills)|;
        assert tasks.procs == [(current.kind, current.child)];
        assert |tasks.kills| == n + 1;
        assert tasks.kills[n + 0] == Kill(tasks.procs[0].1, SIGINT);
        assert tasks.kills[n..] == [Kill(current.child, SIGINT)];
      }
    }

    /** `runOnce()` up to its first suspension. While a run is in progress it is a
        no-op; otherwise it marks the runner busy and clears the cancelled flag. */
    method RunOnce()
      requires Valid()
      modifies this, tasks`cancelled
      ensures Valid()
      ensures old(isRunning) ==> unchanged(this) && tasks.cancelled == old(tasks.cancelled)
      ensures !old(isRunning) ==>
                && isRunning && phase == Resolving(0) && !tasks.cancelled
                && started == [] && log == old(log)
    {
      if isRunning {
        return;
      }
      isRunning := true;
      tasks.ResetCancelled();
      phase := Resolving(0);
      started := [];
    }

    /** The `finally` block, after the `catch` filter for a rejected run. */
    method Finish(outcome: RunOutcome)
      requires tasks.Valid() && tasks.procs == []
      modifies this, tasks`cancelled
      ensures Valid()
      ensures phase == Idle && !isRunning && !tasks.cancelled && started == old(started)
      ensures log == old(log) + (if outcome.Rejected? && IsLoggedFailure(outcome.error)
                                 then [RunFailedLine(outcome.error)] else [])
    {
      if outcome.Rejected? && IsLoggedFailure(outcome.error) {
        log := log + [RunFailedLine(outcome.error)];
      }
      isRunning := false;
      tasks.ResetCancelled();
      phase, current := Idle, null;
    }

    /** The command for the next task is ready and `run` is called. The only check that
        can fail here is the cancelled flag (the table is empty and no abort signal is
        passed): a cancel that arrived during resolution ends the run with a reported
        AlreadyCancelled error and the task is not spawned. */
    method CommandResolved()
      requires Valid() && phase.Resolving?
      modifies this, tasks
      ensures Valid()
      ensures var t := Pipeline(skipConvex)[old(phase).step];
              old(tasks.cancelled) ==>
                && phase == Idle && !isRunning && !tasks.cancelled
                && started == old(started) && tasks.procs == [] && tasks.nextChild == old(tasks.nextChild)
                && tasks.kills == old(tasks.kills) && tasks.log == old(tasks.log)
                && log == old(log) + [RunFailedLine(AlreadyCancelled(t.kind))]
      ensures var t := Pipeline(skipConvex)[old(phase).step];
              !old(tasks.cancelled) ==>
                && phase == Awaiting(old(phase).step) && isRunning && fresh(current)
                && current.child == old(tasks.nextChild) && tasks.nextChild == old(tasks.nextChild) + 1
                && !tasks.cancelled && tasks.kills == old(tasks.kills)
                && tasks.procs == [(t.kind, current.child)]
                && started == old(started) + [t.kind]
                && tasks.log == old(tasks.log) + [LabelLine(t.taskLabel)]
                && log == old(log)
    {
      var step := phase.step;
      var t := Pipeline(skipConvex)[step];
      assert !Has(tasks.procs, t.kind);
      var r := tasks.Run(t.kind, t.taskLabel, Some(t.successMessage), null);
      match r {
        case Err(e) =>
          PrecheckFailuresAreLogged(t.kind);
          Finish(Rejected(e));
        case Ok(run) =>
          Await(step, run);
      }
    }

    /** The task at `step` was spawned as `run`: the body now waits for it to settle. */
    method Await(step: nat, run: ShellRun)
      requires tasks.Valid() && isRunning && step < |Pipeline(skipConvex)|
      requires started == Kinds(Pipeline(skipConvex))[..step]
      requires run.runner == tasks && !run.settled && run.abort == null
      requires run.kind == Pipeline(skipConvex)[step].kind
      requires run.taskLabel == Pipeline(skipConvex)[step].taskLabel
      requires run.successMessage == Some(Pipeline(skipConvex)[step].successMessage)
      requires tasks.procs == [(run.kind, run.child)]
      modifies this`current, this`phase, this`started
      ensures Valid() && phase == Awaiting(step) && current == run && started == old(started) + [run.kind]
    {
      current := run;
      phase := Awaiting(step);
      KindsPrefixSnoc(Pipeline(skipConvex), step);
      started := started + [run.kind];
    }

    /** The state after the task at `step` settled with `verdict`, the log having been
        `logBefore`: the next task is due, or the run is over (with the "watching" line
        after the last task, or with the failure unless it was a cancellation). */
    ghost predicate AfterSettle(step: nat, verdict: RunOutcome, logBefore: seq<ConvexLog>)
      reads this, tasks
    {
      && (verdict.Resolved? && step + 1 < |Pipeline(skipConvex)| ==>
            phase == Resolving(step + 1) && isRunning && log == logBefore)
      && (verdict.Resolved? && step + 1 >= |Pipeline(skipConvex)| ==>
            phase == Idle && !isRunning && !tasks.cancelled && log == logBefore + [WatchingLine])
      && (verdict.Rejected? ==>
            phase == Idle && !isRunning && !tasks.cancelled
            && log == logBefore + (if IsLoggedFailure(verdict.error) then [RunFailedLine(verdict.error)] else []))
    }

    /** The settled task either lets the pipeline continue with the next task, ends it
        with the "watching" line after the last task, or fails it fast. */
    method Continue(step: nat, verdict: RunOutcome)
      requires tasks.Valid() && tasks.procs == [] && step < |Pipeline(skipConvex)|
      requires isRunning && started == Kinds(Pipeline(skipConvex))[..step + 1]
      modifies this, tasks`cancelled
      ensures Valid() && started == old(started)
      ensures AfterSettle(step, verdict, old(log))
      ensures verdict.Resolved? && step + 1 < |Pipeline(skipConvex)| ==> tasks.cancelled == old(tasks.cancelled)
    {
      if verdict.Resolved? && step + 1 < |Pipeline(skipConvex)| {
        phase, current := Resolving(step + 1), null;
      } else if verdict.Resolved? {
        log := log + [WatchingLine];
        Finish(Resolved);
      } else {
        Finish(verdict);
      }
    }

    /** The awaited child's `exit` event. */
    method ChildExited(code: Option<int>, signal: Option<SignalName>)
      requires Valid() && phase.Awaiting?
      modifies this, tasks, current
      ensures Valid() && started == old(started) && tasks.procs == []
      ensures tasks.kills == old(tasks.kills) && tasks.nextChild == old(tasks.nextChild)
      ensures var step := old(phase).step;
              var t := Pipeline(skipConvex)[step];
              var verdict := ClassifyExit(old(tasks.cancelled), false, code, signal, t.kind, t.taskLabel);
              && tasks.log == old(tasks.log) + ExitLines(verdict, t.taskLabel, Some(t.successMessage), code, signal)
              && AfterSettle(step, verdict, old(log))
              && (verdict.Resolved? && step + 1 < |Pipeline(skipConvex)| ==> tasks.cancelled == old(tasks.cancelled))
    {
      var step := phase.step;
      var t := Pipeline(skipConvex)[step];
      var run := current;
      ghost var cancelled := tasks.cancelled;
      RemoveOnly(run.kind, run.child);
      var o := run.OnExit(code, signal);
      assert tasks.procs == [];
      var verdict := o.value;
      assert verdict == ClassifyExit(cancelled, false, code, signal, t.kind, t.taskLabel);
      assert started == Kinds(Pipeline(skipConvex))[..step + 1];
      Continue(step, verdict);
    }

    /** The awaited child's `error` event (the program could not be started): the run
        fails with that error, which is reported unless its message is "cancelled". */
    method ChildFailedToStart(osMessage: string)
      requires Valid() && phase.Awaiting?
      modifies this, tasks, current
      ensures Valid() && started == old(started) && tasks.procs == []
      ensures phase == Idle && !isRunning && !tasks.cancelled
      ensures tasks.kills == old(tasks.kills) && tasks.nextChild == old(tasks.nextChild)
      ensures var t := Pipeline(skipConvex)[old(phase).step];
              tasks.log == old(tasks.log) + [StartFailureLine(t.taskLabel, osMessage)]
      ensures log == old(log) + (if osMessage != "cancelled" then [RunFailedLine(SpawnError(osMessage))] else [])
    {
      ghost var t := Pipeline(skipConvex)[phase.step];
      var run := current;
      RemoveOnly(run.kind, run.child);
      var o := run.OnError(osMessage);
      assert tasks.procs == [];
      assert tasks.log == old(tasks.log) + [StartFailureLine(t.taskLabel, osMessage)];
      assert IsLoggedFailure(SpawnError(osMessage)) <==> osMessage != "cancelled";
      Finish(Rejected(SpawnError(osMessage)));
    }
  }

  /** A `runOnce` that nobody cancels, both children exiting with code 0: the Convex
      task runs first, then the schema task, each logging its label and its success
      message, and the run ends idle with the "watching" line. No child is signalled. */
  method UncancelledRun(r: ConvexRunner)
    requires r.Valid() && !r.isRunning && !r.skipConvex
    modifies r, r.tasks
    ensures r.Valid() && r.phase == Idle && !r.isRunning
    ensures r.started == [ConvexTask.kind, SchemaTask.kind]
    ensures r.log == old(r.log) + [WatchingLine]
    ensures r.tasks.log == old(r.tasks.log) + [LabelLine(ConvexTask.taskLabel), SuccessLine(ConvexTask.successMessage),
                                               LabelLine(SchemaTask.taskLabel), SuccessLine(SchemaTask.successMessage)]
    ensures r.tasks.kills == old(r.tasks.kills)
  {
    r.RunOnce();
    r.CommandResolved();
    r.ChildExited(Some(0), None);
    r.CommandResolved();
    r.ChildExited(Some(0), None);
  }
}
