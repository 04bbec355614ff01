/** What a chain's outcome tells its caller, and what validation of a plan is worth. */
module ChainOutcomes {
  import opened RoutingKeys
  import opened Queues
  import opened Handles
  import opened Chains
  import opened ChainTraces

  // ----- honest tasks -----

  /** A call that can change engine state was entered. */
  ghost predicate Mutated(trace: seq<Event>) {
    exists k :: 0 <= k < |trace| && trace[k].EngineCalled? && trace[k].mutating
  }

  /** A target belongs to the lane of the plan's routing key. An order carries the account its key was taken from. */
  predicate Addressed(key: Key, target: Target) {
    match target
    case OnOrder => key.kind.Account?
    case OnAccount(id) => key == Key(Account, id)
    case OnAccountGroup(id) => key == Key(AccountGroup, id)
  }

  /** No nil hook, order or group was used, and every engine call acted behind the plan's own key. */
  ghost predicate Proper(trace: seq<Event>, key: Key) {
    forall k :: 0 <= k < |trace| ==> !trace[k].Misused? && (trace[k].EngineCalled? ==> Addressed(key, trace[k].target))
  }

  ghost predicate Honest(t: Task, key: Key) {
    (t.unsafe <==> Mutated(t.trace)) && Proper(t.trace, key)
  }

  lemma MutatedMore(trace: seq<Event>, e: Event)
    ensures Mutated(trace + [e]) <==> Mutated(trace) || (e.EngineCalled? && e.mutating)
  {
    if k :| 0 <= k < |trace| && trace[k].EngineCalled? && trace[k].mutating {
      assert (trace + [e])[k] == trace[k];
    }
    assert (trace + [e])[|trace|] == e;
  }

  lemma HonestEmit(t: Task, e: Event, key: Key)
    requires Honest(t, key) && !e.Misused? && !e.EngineCalled?
    ensures Honest(Emit(t, e), key)
  {
    MutatedMore(t.trace, e);
  }

  lemma HonestCall(t: Task, i: nat, target: Target, mutating: bool, key: Key)
    requires Honest(t, key) && Addressed(key, target)
    ensures Honest(Emit(t.(unsafe := t.unsafe || mutating), EngineCalled(i, target, mutating)), key)
  {
    MutatedMore(t.trace, EngineCalled(i, target, mutating));
  }

  lemma {:induction false} HonestNatives(t: Task, i: nat, calls: seq<NativeCall>, key: Key)
    requires Honest(t, key)
    ensures Honest(t.(trace := t.trace + Calls(i, calls)), key)
  {
    if calls == [] {
      assert t.trace + Calls(i, calls) == t.trace;
    } else {
      var n := |calls| - 1;
      HonestNatives(t, i, calls[..n], key);
      assert Calls(i, calls) == Calls(i, calls[..n]) + [Native(i, calls[n])];
      assert t.trace + Calls(i, calls) == (t.trace + Calls(i, calls[..n])) + [Native(i, calls[n])];
      HonestEmit(t.(trace := t.trace + Calls(i, calls[..n])), Native(i, calls[n]), key);
    }
  }

  /** The fields that honesty does not look at. */
  lemma HonestSame(t: Task, u: Task, key: Key)
    requires Honest(t, key) && u.trace == t.trace && u.unsafe == t.unsafe
    ensures Honest(u, key)
  {
  }

  lemma HonestHook(t: Task, i: nat, r: HookResult, key: Key)
    requires Honest(t, key)
    ensures Honest(RunHook(t, i, true, r).task, key)
  {
    HonestEmit(t, HookRan(i, t.available), key);
  }

  lemma HonestFinalize(t: Task, h: Pending, op: HandleOp, key: Key)
    requires Honest(t, key)
    ensures Honest(Finalize(t, h, op), key)
  {
    var calls := Apply(h.handle, op).log[|h.handle.log|..];
    HonestNatives(t, h.step, calls, key);
    HonestSame(t.(trace := t.trace + Calls(h.step, calls)), Finalize(t, h, op), key);
  }

  lemma HonestEntered(t: Task, i: nat, w: StepWorld, key: Key)
    requires Honest(t, key) && key.kind.Account?
    ensures Honest(Entered(t, i, w), key)
  {
    HonestCall(t, i, OnOrder, true, key);
    var called := Emit(t.(unsafe := true), EngineCalled(i, OnOrder, true));
    if w.operate.Replies? && !w.operate.result.handle.NoHandle? {
      var held := called.(pending := Some(Pending(i, HandleOf(w.operate.result.handle))));
      HonestSame(called, held, key);
      HonestEmit(held, HandleMade(i), key);
    }
  }

  lemma HonestDecide(t: Task, i: nat, w: StepWorld, key: Key)
    requires Honest(t, key) && t.pending.Some?
    ensures Honest(Decide(t, i, true, w).task, key)
  {
    var u := t.(available := {i});
    HonestSame(t, u, key);
    HonestHook(u, i, w.hook, key);
    var after := RunHook(u, i, true, w.hook).task.(available := {});
    HonestSame(RunHook(u, i, true, w.hook).task, after, key);
    HonestFinalize(after, t.pending.value, DecisionOp(w.decision), key);
  }

  lemma HonestEngineOp(t: Task, i: nat, p: Plan, s: ChainStep, w: StepWorld, key: Key)
    requires Honest(t, key) && s.Call? && CheckStep(s, p.source).None? && SourceKey(p.source) == RunsOn(key)
    requires s.op.ExecutionReport? ==> w.reportAccount == Some(AccountOf(p.source))
    ensures Honest(RunEngineOp(t, i, p, s, w).task, key)
  {
    var target := TargetOf(s.op, p.source, w);
    HonestCall(t, i, target, true, key);
    HonestHook(Emit(t.(unsafe := true), EngineCalled(i, target, true)), i, w.hook, key);
  }

  lemma {:induction false} HonestSteps(t: Task, i: nat, p: Plan, w: World, key: Key)
    requires Honest(t, key) && CheckSteps(p.steps, p.source).None? && SourceKey(p.source) == RunsOn(key)
    ensures Honest(RunSteps(t, i, p, w).task, key)
    decreases |p.steps| - i
  {
    if i < |p.steps| {
      StepsAreValid(p.steps, p.source, i);
      assert Honest(RunStep(t, i, p, p.steps[i], w.steps(i)).task, key) by {
        match p.steps[i]
        case Then(_) => HonestHook(t, i, w.steps(i).hook, key);
        case Operate(_, _) =>
          assert Honest(RunOperate(t, i, p, p.steps[i], w.steps(i)).task, key) by {
            HonestEntered(t, i, w.steps(i), key);
            var e := Entered(t, i, w.steps(i));
            HonestHook(e, i, w.steps(i).hook, key);
            if e.pending.Some? {
              HonestDecide(e, i, w.steps(i), key);
            }
          }
        case Check(_) =>
          assert Honest(RunCheck(t, i, p, p.steps[i], w.steps(i)).task, key) by {
            HonestCall(t, i, OnOrder, false, key);
            var e := Emit(t, EngineCalled(i, OnOrder, false));
            if w.steps(i).check.Reports? {
              var u := e.(available := {i});
              HonestSame(e, u, key);
              HonestHook(u, i, w.steps(i).hook, key);
              var after := RunHook(u, i, true, w.steps(i).hook).task;
              HonestSame(after, after.(available := {}), key);
              HonestEmit(RunVerdict(e, i, p.steps[i], w.steps(i)).task, ReportClosed(i), key);
            }
          }
        case Call(_, _, _) =>
          HonestHook(t, i, w.steps(i).input, key);
          if p.steps[i].op.ExecutionReport? ==> w.steps(i).reportAccount == Some(AccountOf(p.source)) {
            HonestEngineOp(t, i, p, p.steps[i], w.steps(i), key);
            HonestEngineOp(RunHook(t, i, true, w.steps(i).input).task, i, p, p.steps[i], w.steps(i), key);
          }
      }
      var r := RunStep(t, i, p, p.steps[i], w.steps(i));
      if r.end.Next? {
        HonestSteps(r.task, i + 1, p, w, key);
      }
    }
  }

  /** The run up to the deferred end. */
  function Body(p: Plan, w: World): StepRun {
    var b := RunBegin(p, w);
    if b.end.Next? then RunSteps(b.task, 0, p, w) else b
  }

  lemma RunIsFinishedBody(p: Plan, w: World)
    ensures RunChain(p, w) == Finish(Body(p, w), RunBegin(p, w).end.Next?, p, w)
  {
  }

  lemma HonestBody(p: Plan, w: World, key: Key)
    requires Validate(p) == RunsOn(key)
    ensures Honest(Body(p, w).task, key)
  {
    assert !Mutated([]) && Proper([], key);
    HonestEmit(EmptyTask(), BeginRan, key);
    HonestSteps(RunBegin(p, w).task, 0, p, w, key);
  }

  lemma HonestFinish(r: StepRun, ready: bool, p: Plan, w: World, key: Key)
    requires Honest(r.task, key)
    ensures var run := Finish(r, ready, p, w);
            (run.outcome.retryUnsafe <==> Mutated(run.trace)) && Proper(run.trace, key)
  {
    var t := CleanUp(r.task);
    if r.task.pending.Some? {
      HonestFinalize(r.task, r.task.pending.value, RollbackAndClose, key);
    }
    var run := Finish(r, ready, p, w);
    var outcome := Outcome(r.end.Ended?, Tag(ErrorOf(r.end), t.unsafe), t.unsafe);
    HonestEmit(t, FinallyRan(outcome, t.available), key);
    HonestEmit(Emit(t, FinallyRan(outcome, t.available)), Resolved(run.outcome), key);
    HonestEmit(t, Resolved(run.outcome), key);
  }

  // ----- the outcome -----

  /**
   RetryUnsafe is set exactly when a call that can change state was entered; a failed chain that is retry unsafe
   says so in its error; and there is an error exactly when the status is Failed.
   */
  lemma OutcomeIsSound(p: Plan, w: World)
    requires Validate(p).RunsOn?
    ensures var run := RunChain(p, w);
            && (run.outcome.retryUnsafe <==> Mutated(run.trace))
            && (run.outcome.err.Failed? <==> run.outcome.status.StatusFailed?)
            && (run.outcome.err.Failed? && run.outcome.retryUnsafe ==> run.outcome.err.tagged)
  {
    RunIsFinishedBody(p, w);
    HonestBody(p, w, Validate(p).key);
    HonestFinish(Body(p, w), RunBegin(p, w).end.Next?, p, w, Validate(p).key);
  }

  function Terminal(e: Event): nat {
    if e.FinallyRan? then 1 else 0
  }

  function Terminals(trace: seq<Event>): nat {
    if trace == [] then 0 else Terminals(trace[..|trace| - 1]) + Terminal(trace[|trace| - 1])
  }

  lemma TerminalsMore(trace: seq<Event>, e: Event)
    ensures Terminals(trace + [e]) == Terminals(trace) + Terminal(e)
  {
  }

  /** An accepted trace that has not come to its end holds no terminal hook. */
  lemma {:induction false} NoTerminalYet(trace: seq<Event>)
    requires var q := Scan(trace); q.NotBegun? || q.Idle? || q.Holding? || q.Decided?
    ensures Terminals(trace) == 0
  {
    if trace != [] {
      NoTerminalYet(trace[..|trace| - 1]);
    }
  }

  lemma SettledBody(p: Plan, w: World) returns (n: nat)
    requires Validate(p).RunsOn?
    ensures Settled(Body(p, w).task, n) && n <= |p.steps|
    ensures w.begin.Fine? && Body(p, w).end.Next? ==> n == |p.steps|
  {
    BeginScan(p, w);
    n := 0;
    if RunBegin(p, w).end.Next? {
      n := StepsScan(RunBegin(p, w).task, 0, p, w);
    }
  }

  /** The terminal hook runs once, exactly when one was supplied and begin succeeded; the outcome is resolved last. */
  lemma FinallyRunsOnce(p: Plan, w: World)
    requires Validate(p).RunsOn?
    ensures var run := RunChain(p, w);
            && Terminals(run.trace) == (if w.begin.Fine? && p.ending.WithFinally? then 1 else 0)
            && run.trace != [] && run.trace[|run.trace| - 1] == Resolved(run.outcome)
  {
    RunIsFinishedBody(p, w);
    var n := SettledBody(p, w);
    var r := Body(p, w);
    CleanUpScan(r.task, n);
    var t := CleanUp(r.task);
    NoTerminalYet(t.trace);
    var run := RunChain(p, w);
    var outcome := Outcome(r.end.Ended?, Tag(ErrorOf(r.end), t.unsafe), t.unsafe);
    TerminalsMore(t.trace, FinallyRan(outcome, t.available));
    TerminalsMore(t.trace + [FinallyRan(outcome, t.available)], Resolved(run.outcome));
    TerminalsMore(t.trace, Resolved(run.outcome));
  }

  lemma CompletedMeansNext(r: StepRun, ready: bool, p: Plan, w: World)
    requires Finish(r, ready, p, w).outcome.status.StatusCompleted?
    ensures r.end.Next?
  {
  }

  /** Finishing a run appends to its trace. */
  lemma FinishExtends(r: StepRun, ready: bool, p: Plan, w: World)
    ensures CleanUp(r.task).trace <= Finish(r, ready, p, w).trace
  {
  }

  lemma BegunStays(a: seq<Event>, b: seq<Event>, i: nat)
    requires Begun(a, i) && a <= b
    ensures Begun(b, i)
  {
  }

  /** A completed chain has begun every step of its plan. */
  lemma CompletedRunsEveryStep(p: Plan, w: World, i: nat)
    requires Validate(p).RunsOn? && RunChain(p, w).outcome.status.StatusCompleted? && i < |p.steps|
    ensures Begun(RunChain(p, w).trace, i)
  {
    var ready := RunBegin(p, w).end.Next?;
    RunIsFinishedBody(p, w);
    var n := SettledBody(p, w);
    var r := Body(p, w);
    CompletedMeansNext(r, ready, p, w);
    CleanUpScan(r.task, n);
    ReachedSteps(CleanUp(r.task).trace, i);
    FinishExtends(r, ready, p, w);
    BegunStays(CleanUp(r.task).trace, RunChain(p, w).trace, i);
  }

  // ----- validation -----

  lemma ValidPlansAreProper(p: Plan, w: World)
    requires Validate(p).RunsOn?
    ensures Proper(RunChain(p, w).trace, Validate(p).key)
  {
    RunIsFinishedBody(p, w);
    HonestBody(p, w, Validate(p).key);
    HonestFinish(Body(p, w), RunBegin(p, w).end.Next?, p, w, Validate(p).key);
  }

  /** A world in which everything succeeds, except that a step without a reject hook is answered with a reject. */
  function Probe(p: Plan): World {
    World(Fine,
          (i: nat) =>
            StepWorld(Fine, Some(AccountOf(p.source)),
                      Replies(if i < |p.steps| && p.steps[i].Operate? && !p.steps[i].onRejected
                              then DriverResult(NoHandle, 1, false) else DriverResult(LiveHandle, 0, false)),
                      Reports(LiveHandle, false), Passes, SomeRejects, CallOk, false, Fine, CommitDecision),
          Fine)
  }

  /** Something improper is in the trace. */
  ghost predicate Improper(trace: seq<Event>, key: Key) {
    exists k :: 0 <= k < |trace| && (trace[k].Misused? || (trace[k].EngineCalled? && !Addressed(key, trace[k].target)))
  }

  ghost predicate Extends(a: seq<Event>, b: seq<Event>) {
    a <= b
  }

  lemma ImproperStays(a: seq<Event>, b: seq<Event>, key: Key)
    requires Improper(a, key) && Extends(a, b)
    ensures Improper(b, key)
  {
  }

  lemma ImproperLast(t: Task, e: Event, key: Key)
    requires e.Misused? || (e.EngineCalled? && !Addressed(key, e.target))
    ensures Improper(Emit(t, e).trace, key)
  {
    assert Emit(t, e).trace[|t.trace|] == e;
  }

  /** The probe takes every valid step through. */
  lemma ProbePasses(t: Task, i: nat, p: Plan)
    requires i < |p.steps| && CheckStep(p.steps[i], p.source).None?
    ensures RunStep(t, i, p, p.steps[i], Probe(p).steps(i)).end.Next?
  {
  }

  lemma ProbeCatchesCall(t: Task, i: nat, p: Plan, key: Key)
    requires i < |p.steps| && p.steps[i].Call? && CheckStep(p.steps[i], p.source).Some?
    requires SourceKey(p.source) == RunsOn(key)
    ensures Improper(RunCall(t, i, p, p.steps[i], Probe(p).steps(i)).task.trace, key)
  {
    var s, w := p.steps[i], Probe(p).steps(i);
    if HasInput(s.op) && !s.input {
      ImproperLast(t, Misused(i), key);
    } else {
      var u := if HasInput(s.op) then RunHook(t, i, s.input, w.input).task else t;
      var called := EngineCalled(i, TargetOf(s.op, p.source, w), true);
      var e := Emit(u.(unsafe := true), called);
      ImproperLast(u.(unsafe := true), Misused(i), key);
      ImproperLast(e, Misused(i), key);
      if !OnGroup(s.op) && p.source.GroupSource? {
        ImproperLast(u.(unsafe := true), called, key);
        ImproperStays(e.trace, RunHook(e, i, s.onDone, w.hook).task.trace, key);
      }
    }
  }

  lemma ProbeCatchesStep(t: Task, i: nat, p: Plan, key: Key)
    requires i < |p.steps| && CheckStep(p.steps[i], p.source).Some? && SourceKey(p.source) == RunsOn(key)
    ensures Improper(RunStep(t, i, p, p.steps[i], Probe(p).steps(i)).task.trace, key)
  {
    var s, w := p.steps[i], Probe(p).steps(i);
    match s
    case Then(_) => ImproperLast(t, Misused(i), key);
    case Operate(_, _) => ProbeCatchesOperate(t, i, p, key);
    case Check(_) => ProbeCatchesCheck(t, i, p, key);
    case Call(_, _, _) => ProbeCatchesCall(t, i, p, key);
  }

  lemma ProbeCatchesOperate(t: Task, i: nat, p: Plan, key: Key)
    requires i < |p.steps| && p.steps[i].Operate? && CheckStep(p.steps[i], p.source).Some?
    ensures Improper(RunOperate(t, i, p, p.steps[i], Probe(p).steps(i)).task.trace, key)
  {
    var s, w := p.steps[i], Probe(p).steps(i);
    if !p.source.OrderSource? {
      ImproperLast(t.(unsafe := true), Misused(i), key);
    } else {
      var e := Entered(t, i, w);
      ImproperLast(e, Misused(i), key);
      ImproperLast(e.(available := {i}), Misused(i), key);
    }
  }

  lemma ProbeCatchesCheck(t: Task, i: nat, p: Plan, key: Key)
    requires i < |p.steps| && p.steps[i].Check? && CheckStep(p.steps[i], p.source).Some?
    ensures Improper(RunCheck(t, i, p, p.steps[i], Probe(p).steps(i)).task.trace, key)
  {
    var s, w := p.steps[i], Probe(p).steps(i);
    if !p.source.OrderSource? {
      ImproperLast(t, Misused(i), key);
    } else {
      var e := Emit(t, EngineCalled(i, OnOrder, false));
      ImproperLast(e.(available := {i}), Misused(i), key);
      ImproperStays(RunVerdict(e, i, s, w).task.trace, RunCheck(t, i, p, s, w).task.trace, key);
    }
  }

  lemma {:induction false} FirstBadStep(steps: seq<ChainStep>, source: Source) returns (i: nat)
    requires CheckSteps(steps, source).Some?
    ensures i < |steps| && CheckStep(steps[i], source) == CheckSteps(steps, source)
    ensures forall j :: 0 <= j < i ==> CheckStep(steps[j], source).None?
  {
    if CheckStep(steps[0], source).Some? {
      i := 0;
    } else {
      i := FirstBadStep(steps[1..], source);
      assert forall j :: 0 < j < i + 1 ==> steps[j] == steps[1..][j - 1];
      i := i + 1;
    }
  }

  lemma {:induction false} ProbeReaches(t: Task, i: nat, bad: nat, p: Plan, key: Key)
    requires i <= bad < |p.steps| && CheckStep(p.steps[bad], p.source).Some? && SourceKey(p.source) == RunsOn(key)
    requires forall j :: 0 <= j < bad ==> CheckStep(p.steps[j], p.source).None?
    ensures Improper(RunSteps(t, i, p, Probe(p)).task.trace, key)
    decreases bad - i
  {
    if i < bad {
      ProbePasses(t, i, p);
      ProbeReaches(RunStep(t, i, p, p.steps[i], Probe(p).steps(i)).task, i + 1, bad, p, key);
    } else {
      ProbeCatchesStep(t, i, p, key);
      ImproperEnds(t, i, p, key);
    }
  }

  /** Whatever the improper step returned, the trace keeps what it did. */
  lemma {:induction false} ImproperEnds(t: Task, i: nat, p: Plan, key: Key)
    requires i < |p.steps| && Improper(RunStep(t, i, p, p.steps[i], Probe(p).steps(i)).task.trace, key)
    ensures Improper(RunSteps(t, i, p, Probe(p)).task.trace, key)
    decreases |p.steps| - i
  {
    var r := RunStep(t, i, p, p.steps[i], Probe(p).steps(i));
    if r.end.Next? {
      StepsExtend(r.task, i + 1, p, Probe(p));
      ImproperStays(r.task.trace, RunSteps(r.task, i + 1, p, Probe(p)).task.trace, key);
    }
  }

  lemma OperateExtends(t: Task, i: nat, p: Plan, s: ChainStep, w: StepWorld)
    requires s.Operate?
    ensures Extends(t.trace, RunOperate(t, i, p, s, w).task.trace)
  {
  }

  lemma StepExtends(t: Task, i: nat, p: Plan, s: ChainStep, w: StepWorld)
    ensures Extends(t.trace, RunStep(t, i, p, s, w).task.trace)
  {
    match s
    case Then(_) =>
    case Operate(_, _) => OperateExtends(t, i, p, s, w);
    case Check(_) =>
    case Call(_, _, _) =>
  }

  lemma {:induction false} StepsExtend(t: Task, i: nat, p: Plan, w: World)
    ensures Extends(t.trace, RunSteps(t, i, p, w).task.trace)
    decreases |p.steps| - i
  {
    if i < |p.steps| {
      StepExtends(t, i, p, p.steps[i], w.steps(i));
      var r := RunStep(t, i, p, p.steps[i], w.steps(i));
      if r.end.Next? {
        StepsExtend(r.task, i + 1, p, w);
      }
    }
  }

  predicate EndingRuns(e: Ending) {
    e.NoFinally? || e.WithFinally?
  }

  /**
   A plan is accepted exactly when its ending can run, its source has a routing key, and no world can make it use a
   missing hook, order or group, or act outside that key.
   */
  lemma ValidationIsExact(p: Plan)
    ensures Validate(p).RunsOn? <==>
              && EndingRuns(p.ending) && SourceKey(p.source).RunsOn?
              && forall w :: Proper(RunChain(p, w).trace, SourceKey(p.source).key)
  {
    if Validate(p).RunsOn? {
      forall w ensures Proper(RunChain(p, w).trace, SourceKey(p.source).key) {
        ValidPlansAreProper(p, w);
      }
    } else if EndingRuns(p.ending) && SourceKey(p.source).RunsOn? {
      ProbeIsImproper(p, SourceKey(p.source).key);
      assert !Proper(RunChain(p, Probe(p)).trace, SourceKey(p.source).key);
    }
  }

  lemma ProbeIsImproper(p: Plan, key: Key)
    requires SourceKey(p.source) == RunsOn(key) && EndingRuns(p.ending) && Validate(p).Refused?
    ensures Improper(RunChain(p, Probe(p)).trace, key)
  {
    var w := Probe(p);
    var r := Body(p, w);
    if !p.begin {
      ImproperLast(EmptyTask(), Misused(0), key);
    } else {
      var bad := FirstBadStep(p.steps, p.source);
      ProbeReaches(RunBegin(p, w).task, 0, bad, p, key);
    }
    RunIsFinishedBody(p, w);
    assert Extends(r.task.trace, RunChain(p, w).trace);
    ImproperStays(r.task.trace, RunChain(p, w).trace, key);
  }

  // ----- what a refusal names -----

  /** The source that a step works on, or the error that asks for it. */
  function Lacks(s: ChainStep, source: Source): Option<PlanError> {
    if (s.Operate? || s.Check?) && !source.OrderSource? then Some(OrderRequired)
    else if s.Call? && OnGroup(s.op) && !source.GroupSource? then Some(GroupRequired)
    else if s.Call? && !OnGroup(s.op) && source.GroupSource? then Some(AccountRequired)
    else None
  }

  predicate Supplied(s: ChainStep) {
    match s
    case Then(fn) => fn
    case Operate(onRejected, onAccepted) => onRejected && onAccepted
    case Check(onChecked) => onChecked
    case Call(op, input, onDone) => onDone && (HasInput(op) ==> input)
  }

  predicate Sound(s: ChainStep, source: Source) {
    Lacks(s, source).None? && Supplied(s)
  }

  ghost predicate FirstUnsound(p: Plan, i: nat) {
    i < |p.steps| && !Sound(p.steps[i], p.source) && forall j :: 0 <= j < i ==> Sound(p.steps[j], p.source)
  }

  /**
   A refusal names the first fault: the ending, the begin hook, the source, and then the first step that lacks its
   source or a hook, the source before the hook. What has no fault is accepted.
   */
  lemma RefusalNamesFirstFault(p: Plan)
    ensures !EndingRuns(p.ending) || !p.begin ==> Validate(p) == Refused(Incomplete)
    ensures EndingRuns(p.ending) && p.begin ==>
              && (p.source == OrderSource(None) ==> Validate(p) == Refused(MissingAccount))
              && (p.source.GroupSource? && !p.source.initialized ==> Validate(p) == Refused(UninitializedGroup))
    ensures EndingRuns(p.ending) && p.begin && SourceKey(p.source).RunsOn? ==>
              && ((forall i :: 0 <= i < |p.steps| ==> Sound(p.steps[i], p.source)) ==>
                    Validate(p) == SourceKey(p.source))
              && (forall i: nat :: FirstUnsound(p, i) ==>
                    var lack := Lacks(p.steps[i], p.source);
                    Validate(p) == Refused(if lack.Some? then lack.value else Incomplete))
  {
    if CheckSteps(p.steps, p.source).Some? {
      var bad := FirstBadStep(p.steps, p.source);
      assert !Sound(p.steps[bad], p.source);
      forall i: nat | FirstUnsound(p, i) ensures i == bad {
        assert CheckStep(p.steps[i], p.source).Some?;
      }
    } else {
      forall i | 0 <= i < |p.steps| ensures Sound(p.steps[i], p.source) {
        StepsAreValid(p.steps, p.source, i);
      }
    }
  }
}
