/**
 The chain task as the object that runs it: its fields are updated in place, and its run is the one Chains describes.
 */
module ChainTasks {
  import opened Queues
  import opened Handles
  import opened Chains
  import ChainTraces

  class ChainTask {
    const plan: Plan
    /** The handle of step pendingStep, until it has been decided. */
    var pending: PendingHandle?
    var pendingStep: nat
    /** The result that the running hook may read. */
    var available: set<nat>
    var retryUnsafe: bool
    ghost var trace: seq<Event>

    ghost function View(): Task
      reads this, pending
    {
      Task(trace, if pending == null then None else Some(Pending(pendingStep, pending.View())), available, retryUnsafe)
    }

    constructor (plan: Plan)
      ensures this.plan == plan && View() == EmptyTask() && pending == null
    {
      this.plan := plan;
      pending, pendingStep, available, retryUnsafe, trace := null, 0, {}, false, [];
    }

    method Hook(i: nat, supplied: bool, r: HookResult) returns (end: End)
      modifies this`trace
      ensures StepRun(View(), end) == RunHook(old(View()), i, supplied, r)
    {
      if !supplied {
        trace := trace + [Misused(i)];
        return Panic;
      }
      trace := trace + [HookRan(i, available)];
      match r
      case Fine => return Next;
      case HookErr(tagged) => return Error(tagged);
      case HookPanic => return Panic;
    }

    /** The pending handle is finalized and forgotten. */
    method FinalizePending(op: HandleOp)
      requires pending != null
      modifies this`trace, this`pending, pending
      ensures pending == null && View() == Finalize(old(View()), old(View()).pending.value, op)
    {
      ghost var before := pending.View();
      pending.Perform(op);
      trace := trace + Calls(pendingStep, pending.log[|before.log|..]);
      pending := null;
    }

    method Decide(i: nat, supplied: bool, w: StepWorld) returns (end: End)
      requires pending != null
      modifies this, pending
      ensures StepRun(View(), end) == Chains.Decide(old(View()), i, supplied, w)
      ensures pending == null || pending == old(pending)
    {
      available := {i};
      end := Hook(i, supplied, w.hook);
      available := {};
      if end.Next? {
        match w.decision
        case CommitDecision => FinalizePending(CommitAndClose);
        case RollbackDecision =>
          FinalizePending(RollbackAndClose);
          end := Ended;
        case InvalidDecision =>
          FinalizePending(RollbackAndClose);
          end := Error(false);
      }
    }

    /** executePreTrade and applyDropCopy. */
    method Operate(i: nat, s: ChainStep, w: StepWorld) returns (end: End)
      requires s.Operate? && pending == null
      modifies this
      ensures StepRun(View(), end) == RunOperate(old(View()), i, plan, s, w)
      ensures pending == null || fresh(pending)
    {
      retryUnsafe := true;
      if !plan.source.OrderSource? {
        trace := trace + [Misused(i)];
        return Panic;
      }
      trace := trace + [EngineCalled(i, OnOrder, true)];
      if w.operate.DriverPanics? {
        return Panic;
      }
      var r := w.operate.result;
      if !r.handle.NoHandle? {
        pending := new PendingHandle.Carrying(r.handle);
        pendingStep := i;
        if r.handle.LiveHandle? {
          trace := trace + [HandleMade(i)];
        }
      }
      if !ShapeAccepted(r) {
        return Error(w.errTagged && r.err);
      }
      if r.err {
        return Error(w.errTagged);
      }
      if r.rejects > 0 {
        end := Hook(i, s.onRejected, w.hook);
        if end.Next? {
          end := Ended;
        }
        return;
      }
      if pending == null {
        return Error(false);
      }
      end := Decide(i, s.onAccepted, w);
    }

    method Verdict(i: nat, s: ChainStep, w: StepWorld) returns (end: End)
      requires s.Check? && w.check.Reports? && pending == null
      modifies this`trace, this`available
      ensures StepRun(View(), end) == RunVerdict(old(View()), i, s, w)
    {
      if !ShapeAccepted(DriverResult(w.check.report, 0, w.check.failed)) {
        return Error(w.errTagged && w.check.failed);
      }
      if w.check.failed || w.verdict.VerdictErr? {
        return Error(w.errTagged);
      }
      if w.verdict.Fails? {
        if w.rejects.RejectsErr? {
          return Error(w.errTagged);
        }
        if w.rejects.NilRejects? {
          return Error(false);
        }
      }
      available := {i};
      end := Hook(i, s.onChecked, w.hook);
      available := {};
    }

    /** checkOrder; the report is closed on every path on which the driver returned a live one. */
    method CheckTheOrder(i: nat, s: ChainStep, w: StepWorld) returns (end: End)
      requires s.Check? && pending == null
      modifies this`trace, this`available
      ensures StepRun(View(), end) == RunCheck(old(View()), i, plan, s, w)
    {
      if !plan.source.OrderSource? {
        trace := trace + [Misused(i)];
        return Panic;
      }
      trace := trace + [EngineCalled(i, OnOrder, false)];
      if w.check.CheckPanics? {
        return Panic;
      }
      end := Verdict(i, s, w);
      if w.check.report.LiveHandle? {
        trace := trace + [ReportClosed(i)];
      }
    }

    method CallEngine(i: nat, s: ChainStep, w: StepWorld) returns (end: End)
      requires s.Call? && pending == null
      modifies this`trace, this`retryUnsafe
      ensures StepRun(View(), end) == RunCall(old(View()), i, plan, s, w)
    {
      if HasInput(s.op) {
        end := Hook(i, s.input, w.input);
        if !end.Next? {
          return;
        }
      }
      if s.op.ExecutionReport? && w.reportAccount != Some(AccountOf(plan.source)) {
        return Error(false);
      }
      retryUnsafe := true;
      if OnGroup(s.op) && !plan.source.GroupSource? {
        trace := trace + [Misused(i)];
        return Panic;
      }
      trace := trace + [EngineCalled(i, TargetOf(s.op, plan.source, w), true)];
      if w.call.CallPanics? {
        return Panic;
      }
      if CanFail(s.op) && w.call.CallErr? {
        return Error(w.errTagged);
      }
      end := Hook(i, s.onDone, w.hook);
    }

    method Step(i: nat, s: ChainStep, w: StepWorld) returns (end: End)
      requires pending == null
      modifies this
      ensures StepRun(View(), end) == RunStep(old(View()), i, plan, s, w)
      ensures pending == null || fresh(pending)
    {
      match s
      case Then(fn) => end := Hook(i, fn, w.hook);
      case Operate(_, _) => end := Operate(i, s, w);
      case Check(_) => end := CheckTheOrder(i, s, w);
      case Call(_, _, _) => end := CallEngine(i, s, w);
    }

    /** The loop over the steps. A step that lets the chain go on has left nothing pending. */
    method Steps(w: World) returns (end: End)
      requires pending == null && Validate(plan).RunsOn?
      requires ChainTraces.Between(View(), 0)
      modifies this
      ensures StepRun(View(), end) == RunSteps(old(View()), 0, plan, w)
      ensures pending == null || fresh(pending)
    {
      var i := 0;
      end := Next;
      while i < |plan.steps| && end.Next?
        invariant 0 <= i <= |plan.steps|
        invariant pending == null || fresh(pending)
        invariant end.Next? ==> ChainTraces.Between(View(), i)
        invariant RunSteps(old(View()), 0, plan, w)
                  == if end.Next? then RunSteps(View(), i, plan, w) else StepRun(View(), end)
        decreases |plan.steps| - i
      {
        ghost var before := View();
        end := Step(i, plan.steps[i], w.steps(i));
        ChainTraces.StepsAreValid(plan.steps, plan.source, i);
        ChainTraces.StepScan(before, i, plan, plan.steps[i], w.steps(i));
        i := i + 1;
      }
    }

    method Begin(w: World) returns (end: End)
      requires View() == EmptyTask()
      modifies this`trace
      ensures StepRun(View(), end) == RunBegin(plan, w)
    {
      if !plan.begin {
        trace := trace + [Misused(0)];
        return Panic;
      }
      trace := trace + [BeginRan];
      match w.begin
      case Fine => return Next;
      case HookErr(tagged) => return Error(tagged);
      case HookPanic => return Panic;
    }

    /** The deferred end of execute: cleanup, the retry-unsafe mark, the terminal hook, the resolution. */
    method Finish(end: End, ready: bool, w: World) returns (outcome: ChainOutcome)
      modifies this, pending
      ensures Run(trace, outcome) == Chains.Finish(StepRun(old(View()), end), ready, plan, w)
    {
      var runErr := ErrorOf(end);
      if pending != null {
        FinalizePending(RollbackAndClose);
      }
      if runErr.Failed? && retryUnsafe {
        runErr := Failed(true);
      }
      outcome := Outcome(end.Ended?, runErr, retryUnsafe);
      if ready && plan.ending.WithFinally? {
        trace := trace + [FinallyRan(outcome, available)];
        var finallyErr := FinallyError(w.finally);
        if runErr.NoError? && finallyErr.Failed? && retryUnsafe {
          finallyErr := Failed(true);
        }
        runErr := Join(runErr, finallyErr);
        outcome := Outcome(end.Ended?, runErr, retryUnsafe);
      }
      trace := trace + [Resolved(outcome)];
    }

    /** chainTask.execute on a validated plan. */
    method Execute(w: World) returns (outcome: ChainOutcome)
      requires View() == EmptyTask() && pending == null && Validate(plan).RunsOn?
      modifies this
      ensures Run(trace, outcome) == RunChain(plan, w)
    {
      ChainTraces.BeginScan(plan, w);
      var end := Begin(w);
      var ready := end.Next?;
      if ready {
        end := Steps(w);
      }
      outcome := Finish(end, ready, w);
    }
  }
}
