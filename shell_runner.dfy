/** The process runner of the dev loop (src/cli/lib/shell-runner.ts): spawns one child
    per task kind, tracks it in a kind -> child table and classifies how it ended.

    The operating system is left out. A child is an abstract identity handed out in
    spawn order; its `exit` and `error` events are method calls on the ShellRun that
    started it; `child.kill(signal)` is recorded in the runner's `kills` list and
    console output in its `log`. */
module ShellRunning {
  import opened Wrappers
  import opened OrderedMap

  type TaskKind = string
  type ChildId = nat
  type SignalName = string

  const SIGINT: SignalName := "SIGINT"

  /** Every way a `run` call is rejected. The first three are thrown before anything
      is spawned; `SpawnError` is the child's own `error` event rethrown unchanged. */
  datatype RunFailure =
    | AlreadyCancelled(kind: TaskKind)
    | AbortedBeforeStart(kind: TaskKind)
    | DuplicateKind(kind: TaskKind)
    | Cancelled(kind: TaskKind, code: Option<int>, signal: Option<SignalName>)
    | Failed(kind: TaskKind, taskLabel: string, code: Option<int>, signal: Option<SignalName>)
    | SpawnError(osMessage: string)
  {
    /** The error's `message`, which is what callers test to recognise a cancellation. */
    function Message(): string
    {
      match this
      case AlreadyCancelled(_) => "ShellRunner is cancelled"
      case AbortedBeforeStart(_) => "Run aborted before start"
      case DuplicateKind(k) => "A task of kind \"" + k + "\" is already running"
      case Cancelled(_, _, _) => "cancelled"
      case Failed(_, taskLabel, code, _) => taskLabel + " failed with code " + CodeText(code)
      case SpawnError(m) => m
    }
  }

  /** How the promise returned by `run` settles. */
  datatype RunOutcome = Resolved | Rejected(error: RunFailure)

  /** Lines written to the console by the runner. */
  datatype RunnerLog =
    | LabelLine(taskLabel: string)
    | SuccessLine(message: string)
    | FailureLine(taskLabel: string, code: Option<int>, signal: Option<SignalName>)
    | StartFailureLine(taskLabel: string, osMessage: string)

  /** One `child.kill(signal)` call. */
  datatype Kill = Kill(child: ChildId, signal: SignalName)

  function DigitChar(d: nat): char
    requires d < 10
  {
    "0123456789"[d]
  }

  function NatText(n: nat): (s: string)
    ensures |s| >= 1
  {
    if n < 10 then [DigitChar(n)] else NatText(n / 10) + [DigitChar(n % 10)]
  }

  /** `${code ?? "unknown"}`. */
  function CodeText(code: Option<int>): string
  {
    match code
    case None => "unknown"
    case Some(c) => if c < 0 then "-" + NatText(-c) else NatText(c)
  }

  /** The three fast-fail checks of `run`, in the order the source makes them. */
  function Precheck(cancelled: bool, aborted: bool, kindTaken: bool, kind: TaskKind): (r: Option<RunFailure>)
    ensures r.None? <==> !cancelled && !aborted && !kindTaken
    ensures cancelled ==> r == Some(AlreadyCancelled(kind))
    ensures !cancelled && aborted ==> r == Some(AbortedBeforeStart(kind))
    ensures !cancelled && !aborted && kindTaken ==> r == Some(DuplicateKind(kind))
  {
    if cancelled then Some(AlreadyCancelled(kind))
    else if aborted then Some(AbortedBeforeStart(kind))
    else if kindTaken then Some(DuplicateKind(kind))
    else None
  }

  /** The `exit` handler's verdict, given the runner flag and the abort signal as they
      are when the child exits. */
  function ClassifyExit(cancelled: bool, aborted: bool, code: Option<int>, signal: Option<SignalName>,
                        kind: TaskKind, taskLabel: string): (r: RunOutcome)
    ensures r.Resolved? <==> !cancelled && !aborted && code == Some(0)
    ensures (cancelled || aborted) ==> r == Rejected(Cancelled(kind, code, signal))
    ensures !cancelled && !aborted && code != Some(0) ==> r == Rejected(Failed(kind, taskLabel, code, signal))
  {
    if cancelled || aborted then Rejected(Cancelled(kind, code, signal))
    else if code == Some(0) then Resolved
    else Rejected(Failed(kind, taskLabel, code, signal))
  }

  /** What the `exit` handler writes to the console for a given verdict. */
  function ExitLines(o: RunOutcome, taskLabel: string, successMessage: Option<string>,
                     code: Option<int>, signal: Option<SignalName>): seq<RunnerLog>
  {
    match o
    case Resolved =>
      if successMessage.Some? && successMessage.value != "" then [SuccessLine(successMessage.value)] else []
    case Rejected(e) =>
      if e.Failed? then [FailureLine(taskLabel, code, signal)] else []
  }

  /** A failure produced by an exit carries the message "cancelled" exactly when the
      runner was cancelled or the run's abort signal was set at exit time; a genuine
      failure can never be mistaken for a cancellation. */
  lemma ExitCancelledIffMessage(cancelled: bool, aborted: bool, code: Option<int>, signal: Option<SignalName>,
                                kind: TaskKind, taskLabel: string)
    ensures var r := ClassifyExit(cancelled, aborted, code, signal, kind, taskLabel);
            r.Rejected? ==> (r.error.Message() == "cancelled" <==> cancelled || aborted)
  {
    var r := ClassifyExit(cancelled, aborted, code, signal, kind, taskLabel);
    if r.Rejected? && !cancelled && !aborted {
      var m := r.error.Message();
      assert m == taskLabel + " failed with code " + CodeText(code);
      assert |m| > |"cancelled"|;
    }
  }

  /** At most one child per kind, every tracked child has been spawned, and no child
      is tracked under two kinds. */
  ghost predicate TableInvariant(procs: seq<(TaskKind, ChildId)>, nextChild: ChildId)
  {
    && DistinctKeys(procs)
    && ChildrenSpawned(procs, nextChild)
    && ChildrenDistinct(procs)
  }

  ghost predicate ChildrenSpawned(procs: seq<(TaskKind, ChildId)>, nextChild: ChildId)
  {
    forall i :: 0 <= i < |procs| ==> procs[i].1 < nextChild
  }

  ghost predicate ChildrenDistinct(procs: seq<(TaskKind, ChildId)>)
  {
    forall i, j :: 0 <= i < j < |procs| ==> procs[i].1 != procs[j].1
  }

  /** The child spawned next is new to the table. */
  lemma AppendFreshChild(procs: seq<(TaskKind, ChildId)>, nextChild: ChildId, kind: TaskKind)
    requires ChildrenSpawned(procs, nextChild) && ChildrenDistinct(procs)
    ensures ChildrenSpawned(procs + [(kind, nextChild)], nextChild + 1)
    ensures ChildrenDistinct(procs + [(kind, nextChild)])
  {
    var r := procs + [(kind, nextChild)];
    forall i | 0 <= i < |r| ensures r[i].1 < nextChild + 1 {
      if i < |procs| { assert r[i] == procs[i]; }
    }
    forall i, j | 0 <= i < j < |r| ensures r[i].1 != r[j].1 {
      assert r[i] == procs[i];
      if j < |procs| { assert r[j] == procs[j]; }
    }
  }

  /** Registering a freshly spawned child under an untracked kind appends it to the
      table, maps the kind to it and keeps the invariant. */
  lemma RegisterKeepsInvariant(procs: seq<(TaskKind, ChildId)>, nextChild: ChildId, kind: TaskKind)
    requires TableInvariant(procs, nextChild) && !Has(procs, kind)
    ensures Put(procs, kind, nextChild) == procs + [(kind, nextChild)]
    ensures Get(procs + [(kind, nextChild)], kind) == Some(nextChild)
    ensures TableInvariant(procs + [(kind, nextChild)], nextChild + 1)
  {
    PutAbsent(procs, kind, nextChild);
    AppendAbsent(procs, kind, nextChild);
    AppendFreshChild(procs, nextChild, kind);
  }

  /** Untracking the entry at position p keeps the invariant. */
  lemma UntrackKeepsInvariant(procs: seq<(TaskKind, ChildId)>, nextChild: ChildId, p: nat)
    requires TableInvariant(procs, nextChild) && p < |procs|
    ensures TableInvariant(procs[..p] + procs[p + 1..], nextChild)
  {
    var r := procs[..p] + procs[p + 1..];
    assert forall i :: 0 <= i < |r| ==> r[i] == procs[if i < p then i else i + 1];
  }

  /** The `settle` cleanup keeps the invariant, whether or not it untracks the kind. */
  lemma UntrackChildKeepsInvariant(procs: seq<(TaskKind, ChildId)>, nextChild: ChildId, kind: TaskKind, child: ChildId)
    requires TableInvariant(procs, nextChild)
    ensures Get(procs, kind) == Some(child) ==> TableInvariant(Remove(procs, kind), nextChild)
  {
    if Get(procs, kind) == Some(child) {
      var p :| 0 <= p < |procs| && procs[p] == (kind, child);
      RemoveAt(procs, kind, p);
      UntrackKeepsInvariant(procs, nextChild, p);
    }
  }

  /** An abort signal passed to `run`. */
  class AbortSignal {
    var aborted: bool

    constructor ()
      ensures !aborted
    {
      aborted := false;
    }

    /** `controller.abort()`: the signal becomes aborted, and the "abort" event is
        dispatched only on the first call. Each dispatch reaches every listener still
        registered: ShellRun.OnAbortEvent of each such run. */
    method Abort() returns (dispatched: bool)
      modifies this
      ensures aborted && dispatched == !old(aborted)
    {
      dispatched := !aborted;
      aborted := true;
    }
  }

  class ShellRunner {
    /** `currentProcs`, in insertion order. */
    var procs: seq<(TaskKind, ChildId)>
    var cancelled: bool
    /** The identity the next spawned child gets. */
    var nextChild: ChildId
    var kills: seq<Kill>
    var log: seq<RunnerLog>

    ghost predicate Valid()
      reads this
    {
      TableInvariant(procs, nextChild)
    }

    /** `child.killed`: some signal has been sent to the child. */
    predicate Killed(c: ChildId)
      reads this
    {
      exists i :: 0 <= i < |kills| && kills[i].child == c
    }

    constructor ()
      ensures Valid()
      ensures procs == [] && !cancelled && nextChild == 0 && kills == [] && log == []
    {
      procs, cancelled, nextChild, kills, log := [], false, 0, [], [];
    }

    /** The `isCancelled` getter. */
    method IsCancelled() returns (r: bool)
      ensures r == cancelled
    {
      r := cancelled;
    }

    /** Clears the flag; the table, the children and the log are untouched. */
    method ResetCancelled()
      modifies this`cancelled
      ensures !cancelled
    {
      cancelled := false;
    }

    /** `run(command, options)` up to the point where the child is registered. On a
        failed check nothing changes and nothing is spawned; otherwise the taskLabel is
        logged and the new child is tracked under `kind`. */
    method Run(kind: TaskKind, taskLabel: string, successMessage: Option<string>, abort: AbortSignal?)
      returns (r: Result<ShellRun, RunFailure>)
      requires Valid()
      modifies this
      ensures Valid()
      ensures var failure := Precheck(old(cancelled), abort != null && abort.aborted, Has(old(procs), kind), kind);
              failure.Some? ==> r == Err(failure.value) && unchanged(this)
      ensures var failure := Precheck(old(cancelled), abort != null && abort.aborted, Has(old(procs), kind), kind);
              failure.None? ==>
                && r.Ok? && fresh(r.value)
                && r.value.runner == this && r.value.kind == kind && r.value.taskLabel == taskLabel
                && r.value.successMessage == successMessage && r.value.abort == abort
                && r.value.child == old(nextChild) && !r.value.settled && r.value.listening == (abort != null)
                && procs == old(procs) + [(kind, old(nextChild))]
                && Get(procs, kind) == Some(old(nextChild))
                && nextChild == old(nextChild) + 1
                && cancelled == old(cancelled) && kills == old(kills)
                && log == old(log) + [LabelLine(taskLabel)]
    {
      var failure := Precheck(cancelled, abort != null && abort.aborted, Has(procs, kind), kind);
      if failure.Some? {
        return Err(failure.value);
      }
      var run := Register(kind, taskLabel, successMessage, abort);
      r := Ok(run);
    }

    /** The successful path of `run`: log the label, spawn, track the child under kind. */
    method Register(kind: TaskKind, taskLabel: string, successMessage: Option<string>, abort: AbortSignal?)
      returns (run: ShellRun)
      requires Valid() && !Has(procs, kind)
      modifies this`log, this`procs, this`nextChild
      ensures Valid() && fresh(run)
      ensures run.runner == this && run.kind == kind && run.taskLabel == taskLabel
      ensures run.successMessage == successMessage && run.abort == abort
      ensures run.child == old(nextChild) && !run.settled && run.listening == (abort != null)
      ensures procs == old(procs) + [(kind, old(nextChild))]
      ensures Get(procs, kind) == Some(old(nextChild))
      ensures nextChild == old(nextChild) + 1
      ensures log == old(log) + [LabelLine(taskLabel)]
    {
      var child := nextChild;
      run := new ShellRun(this, kind, taskLabel, successMessage, abort, child);
      RegisterKeepsInvariant(procs, child, kind);
      log := log + [LabelLine(taskLabel)];
      procs := Put(procs, kind, child);
      nextChild := nextChild + 1;
    }

    /** `cancelAll(signal)`: sets the flag and signals every tracked child, in table
        order; the table itself is not changed. */
    method CancelAll(signal: SignalName)
      requires Valid()
      modifies this`cancelled, this`kills
      ensures Valid() && cancelled
      ensures |kills| == |old(kills)| + |procs| && kills[..|old(kills)|] == old(kills)
      ensures forall j :: 0 <= j < |procs| ==> kills[|old(kills)| + j] == Kill(procs[j].1, signal)
    {
      cancelled := true;
      for i := 0 to |procs|
        invariant cancelled
        invariant |kills| == |old(kills)| + i && kills[..|old(kills)|] == old(kills)
        invariant forall j :: 0 <= j < i ==> kills[|old(kills)| + j] == Kill(procs[j].1, signal)
      {
        kills := kills + [Kill(procs[i].1, signal)];
      }
    }

    /** `cancelKind(kind, signal)`: signals the child tracked under `kind`, if any. */
    method CancelKind(kind: TaskKind, signal: SignalName)
      modifies this`kills
      ensures kills == old(kills) + (match Get(procs, kind) case Some(c) => [Kill(c, signal)] case None => [])
    {
      var child := Get(procs, kind);
      if child.Some? {
        kills := kills + [Kill(child.value, signal)];
      }
    }
  }

  /** The state one `run` call keeps for its child: the closure variables of the
      promise executor, with `settled` the flag that makes it settle at most once. */
  class ShellRun {
    const runner: ShellRunner
    const kind: TaskKind
    const taskLabel: string
    const successMessage: Option<string>
    const abort: AbortSignal?
    const child: ChildId
    var settled: bool
    /** The run's `once` abort listener is still registered on `abort`. */
    var listening: bool

    constructor (runner: ShellRunner, kind: TaskKind, taskLabel: string, successMessage: Option<string>,
                 abort: AbortSignal?, child: ChildId)
      ensures this.runner == runner && this.kind == kind && this.taskLabel == taskLabel
      ensures this.successMessage == successMessage && this.abort == abort && this.child == child
      ensures !settled && listening == (abort != null)
    {
      this.runner, this.kind, this.taskLabel := runner, kind, taskLabel;
      this.successMessage, this.abort, this.child := successMessage, abort, child;
      settled := false;
      listening := abort != null;
    }

    /** The `settle` cleanup: marks the run settled, removes its abort listener, and
        untracks `kind` only if the table still maps it to this run's child. */
    method Settle()
      requires runner.Valid() && !settled
      modifies this, runner`procs
      ensures runner.Valid() && settled && !listening
      ensures runner.procs == if Get(old(runner.procs), kind) == Some(child)
                              then Remove(old(runner.procs), kind) else old(runner.procs)
    {
      settled, listening := true, false;
      var m := runner.procs;
      UntrackChildKeepsInvariant(m, runner.nextChild, kind, child);
      if Get(m, kind) == Some(child) {
        runner.procs := Remove(m, kind);
      }
    }

    /** The child's `exit` event. A settled run ignores it; otherwise the run settles
        with the verdict of ClassifyExit, read from the flags as they are now. */
    method OnExit(code: Option<int>, signal: Option<SignalName>) returns (outcome: Option<RunOutcome>)
      requires runner.Valid()
      modifies this, runner`procs, runner`log
      ensures runner.Valid()
      ensures old(settled) ==> outcome.None? && unchanged(this, runner)
      ensures !old(settled) ==>
                && settled && !listening
                && outcome == Some(ClassifyExit(runner.cancelled, abort != null && abort.aborted, code, signal, kind, taskLabel))
                && runner.procs == (if Get(old(runner.procs), kind) == Some(child)
                                    then Remove(old(runner.procs), kind) else old(runner.procs))
                && runner.log == old(runner.log) + ExitLines(outcome.value, taskLabel, successMessage, code, signal)
    {
      if settled {
        return None;
      }
      Settle();
      var verdict := ClassifyExit(runner.cancelled, abort != null && abort.aborted, code, signal, kind, taskLabel);
      runner.log := runner.log + ExitLines(verdict, taskLabel, successMessage, code, signal);
      outcome := Some(verdict);
    }

    /** The child's `error` event (for instance the program could not be started). A
        settled run ignores it; otherwise the run settles rejecting with that error. */
    method OnError(osMessage: string) returns (outcome: Option<RunOutcome>)
      requires runner.Valid()
      modifies this, runner`procs, runner`log
      ensures runner.Valid()
      ensures old(settled) ==> outcome.None? && unchanged(this, runner)
      ensures !old(settled) ==>
                && settled && !listening
                && outcome == Some(Rejected(SpawnError(osMessage)))
                && runner.procs == (if Get(old(runner.procs), kind) == Some(child)
                                    then Remove(old(runner.procs), kind) else old(runner.procs))
                && runner.log == old(runner.log) + [StartFailureLine(taskLabel, osMessage)]
    {
      if settled {
        return None;
      }
      Settle();
      runner.log := runner.log + [StartFailureLine(taskLabel, osMessage)];
      outcome := Some(Rejected(SpawnError(osMessage)));
    }

    /** The "abort" event reaching this run's `once` listener. While the listener is
        registered (the run has not settled and the listener has not fired before) it is
        removed and the child gets SIGINT unless it was signalled already; otherwise
        nothing happens. Every run started with the same signal has a listener of its own. */
    method OnAbortEvent()
      requires abort != null && abort.aborted
      modifies this`listening, runner`kills
      ensures !listening
      ensures !old(listening) ==> runner.kills == old(runner.kills)
      ensures old(listening) ==>
                runner.kills == old(runner.kills) + (if !old(runner.Killed(child)) then [Kill(child, SIGINT)] else [])
    {
      if !listening {
        return;
      }
      listening := false;
      if !runner.Killed(child) {
        runner.kills := runner.kills + [Kill(child, SIGINT)];
      }
    }
  }

  /** One `abort()` on a signal shared by two runs that are still listening: the event
      reaches both listeners and each child gets SIGINT, in registration order. A second
      `abort()` dispatches nothing. */
  method AbortSharedSignal(signal: AbortSignal, first: ShellRun, second: ShellRun)
    requires !signal.aborted && first.abort == signal && second.abort == signal
    requires first != second && first.runner == second.runner && first.child != second.child
    requires first.listening && second.listening
    requires !first.runner.Killed(first.child) && !first.runner.Killed(second.child)
    modifies signal, first`listening, second`listening, first.runner`kills
    ensures signal.aborted && !first.listening && !second.listening
    ensures first.runner.kills == old(first.runner.kills) + [Kill(first.child, SIGINT), Kill(second.child, SIGINT)]
  {
    var dispatched := signal.Abort();
    first.OnAbortEvent();
    second.OnAbortEvent();
    var again := signal.Abort();
    assert dispatched && !again;
  }

  /** An exit settles the run and removes its abort listener, so an `abort()` that comes
      after the child exited signals nothing, even when it is the signal's first. */
  method AbortAfterExit(run: ShellRun, code: Option<int>, signal: Option<SignalName>)
    requires run.runner.Valid() && !run.settled && run.abort != null && !run.abort.aborted
    modifies run, run.runner`procs, run.runner`log, run.runner`kills, run.abort
    ensures run.abort.aborted && !run.listening
    ensures run.runner.kills == old(run.runner.kills)
  {
    var _ := run.OnExit(code, signal);
    var dispatched := run.abort.Abort();
    assert dispatched;
    run.OnAbortEvent();
  }
}
