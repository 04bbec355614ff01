/**
 What a chain may do, as an automaton over its events, and the proof that every run of a validated plan is
 accepted by it: one handle at a time, each decided once and then destroyed, no engine call while one is open, operation
 results readable only inside their own hook, steps in order, and the terminal hook and the outcome last.
 */
module ChainTraces {
  import opened Queues
  import opened Handles
  import opened Chains

  /** Idle(n, spent): n steps have begun, and the latest has had its handle if `spent`. */
  datatype Phase = NotBegun | Idle(n: nat, spent: bool) | Holding(step: nat) | Decided(step: nat) | Closing | Over | Bad

  /** An event of step i either continues the latest step or begins the next one. */
  function At(n: nat, spent: bool, i: nat): Phase {
    if i == n then Idle(n + 1, false) else if i + 1 == n then Idle(n, spent) else Bad
  }

  function Advance(p: Phase, e: Event): Phase {
    match p
    case NotBegun => if e.BeginRan? then Idle(0, false) else Bad
    case Idle(n, spent) => (
      match e
      case HookRan(i, readable) => if readable <= {i} then At(n, spent, i) else Bad
      case EngineCalled(i, _, _) => At(n, spent, i)
      case HandleMade(i) => if i + 1 == n && !spent then Holding(i) else Bad
      case ReportClosed(i) => if i + 1 == n then p else Bad
      case FinallyRan(_, readable) => if readable == {} then Closing else Bad
      case Resolved(_) => Over
      case _ => Bad
    )
    case Holding(i) => (
      match e
      case HookRan(j, readable) => if j == i && readable <= {i} then p else Bad
      case Native(j, call) => if j == i && (call.NativeCommit? || call.NativeRollback?) then Decided(i) else Bad
      case _ => Bad
    )
    case Decided(i) => if e == Native(i, NativeDestroy) then Idle(i + 1, true) else Bad
    case Closing => if e.Resolved? then Over else Bad
    case Over => Bad
    case Bad => Bad
  }

  function Scan(trace: seq<Event>): Phase {
    if trace == [] then NotBegun else Advance(Scan(trace[..|trace| - 1]), trace[|trace| - 1])
  }

  lemma ScanMore(trace: seq<Event>, e: Event)
    ensures Scan(trace + [e]) == Advance(Scan(trace), e)
  {
  }

  // ----- the task between events -----

  function DeadPending(): Handle {
    Handle(false, true, [])
  }

  /** A task n of whose steps have begun, with no result readable. */
  ghost predicate Settled(t: Task, n: nat) {
    && t.available == {}
    && match t.pending
       case None => Scan(t.trace).Idle? && Scan(t.trace).n == n
       case Some(h) =>
         && n > 0 && h.step == n - 1
         && if h.handle == FreshHandle() then Scan(t.trace) == Holding(n - 1)
            else h.handle == DeadPending() && Scan(t.trace).Idle? && Scan(t.trace).n == n
  }

  /** Between two steps nothing is pending. */
  ghost predicate Between(t: Task, n: nat) {
    Settled(t, n) && t.pending.None?
  }

  lemma HookScan(t: Task, i: nat, r: HookResult)
    requires Scan(t.trace).Idle? && (Scan(t.trace).n == i || Scan(t.trace).n == i + 1) && t.available <= {i}
    ensures var h := RunHook(t, i, true, r).task;
            && Scan(h.trace).Idle? && Scan(h.trace).n == i + 1
            && h == t.(trace := h.trace)
  {
  }

  lemma HookWhileHolding(t: Task, i: nat, r: HookResult)
    requires Scan(t.trace) == Holding(i) && t.available <= {i}
    ensures var h := RunHook(t, i, true, r).task; Scan(h.trace) == Holding(i) && h == t.(trace := h.trace)
  {
  }

  /** Either closing operation takes a live pending handle through its decision to its destruction. */
  lemma FinalizeScan(t: Task, i: nat, op: HandleOp)
    requires Scan(t.trace) == Holding(i) && (op.CommitAndClose? || op.RollbackAndClose?)
    ensures var f := Finalize(t, Pending(i, FreshHandle()), op);
            Scan(f.trace) == Idle(i + 1, true) && f.pending.None? && f.available == t.available
  {
    var c := if op.CommitAndClose? then NativeCommit else NativeRollback;
    hide Scan;
    var log := Apply(FreshHandle(), op).log;
    assert log == [c, NativeDestroy] && log[0..] == log;
    assert Calls(i, log) == [Native(i, c)] + [Native(i, NativeDestroy)];
    assert t.trace + Calls(i, log) == (t.trace + [Native(i, c)]) + [Native(i, NativeDestroy)];
    ScanMore(t.trace, Native(i, c));
    ScanMore(t.trace + [Native(i, c)], Native(i, NativeDestroy));
  }

  lemma FinalizeDead(t: Task, i: nat, op: HandleOp)
    ensures Finalize(t, Pending(i, DeadPending()), op).trace == t.trace
  {
  }

  lemma CleanUpScan(t: Task, n: nat)
    requires Settled(t, n)
    ensures Scan(CleanUp(t).trace).Idle? && Scan(CleanUp(t).trace).n == n && CleanUp(t).available == {}
    ensures CleanUp(t).unsafe == t.unsafe
  {
    if t.pending.Some? {
      if t.pending.value.handle == FreshHandle() {
        FinalizeScan(t, n - 1, RollbackAndClose);
      } else {
        FinalizeDead(t, n - 1, RollbackAndClose);
      }
    }
  }

  // ----- steps -----

  lemma EnteredScan(t: Task, i: nat, w: StepWorld)
    requires Between(t, i)
    ensures Settled(Entered(t, i, w), i + 1)
    ensures Entered(t, i, w).pending ==
            if w.operate.DriverPanics? || w.operate.result.handle.NoHandle? then None
            else Some(Pending(i, HandleOf(w.operate.result.handle)))
  {
  }

  lemma DecideScan(t: Task, i: nat, w: StepWorld)
    requires Settled(t, i + 1) && t.pending == Some(Pending(i, FreshHandle()))
    ensures var r := Decide(t, i, true, w); Settled(r.task, i + 1) && (r.end.Next? ==> r.task.pending.None?)
  {
    HookWhileHolding(t.(available := {i}), i, w.hook);
    var after := RunHook(t.(available := {i}), i, true, w.hook).task.(available := {});
    FinalizeScan(after, i, DecisionOp(w.decision));
  }

  lemma OperateScan(t: Task, i: nat, p: Plan, s: ChainStep, w: StepWorld)
    requires Between(t, i) && s.Operate? && CheckStep(s, p.source).None?
    ensures var r := RunOperate(t, i, p, s, w); Settled(r.task, i + 1) && (r.end.Next? ==> r.task.pending.None?)
  {
    EnteredScan(t, i, w);
    var e := Entered(t, i, w);
    if w.operate.Replies? && ShapeAccepted(w.operate.result) && !w.operate.result.err {
      if w.operate.result.rejects > 0 {
        HookScan(e, i, w.hook);
      } else {
        DecideScan(e, i, w);
      }
    }
  }

  /** Step i is the next one, or has begun. */
  ghost predicate BetweenIn(t: Task, i: nat) {
    Between(t, i) || Between(t, i + 1)
  }

  lemma CalledScan(t: Task, i: nat, target: Target, mutating: bool)
    requires BetweenIn(t, i)
    ensures Between(Emit(t, EngineCalled(i, target, mutating)), i + 1)
  {
  }

  lemma PlainHookScan(t: Task, i: nat, r: HookResult)
    requires BetweenIn(t, i)
    ensures Between(RunHook(t, i, true, r).task, i + 1)
  {
  }

  lemma VerdictScan(t: Task, i: nat, s: ChainStep, w: StepWorld)
    requires Between(t, i + 1) && s.Check? && s.onChecked && w.check.Reports?
    ensures Between(RunVerdict(t, i, s, w).task, i + 1)
  {
  }

  lemma CheckScan(t: Task, i: nat, p: Plan, s: ChainStep, w: StepWorld)
    requires Between(t, i) && s.Check? && CheckStep(s, p.source).None?
    ensures Between(RunCheck(t, i, p, s, w).task, i + 1)
  {
    CalledScan(t, i, OnOrder, false);
    var e := Emit(t, EngineCalled(i, OnOrder, false));
    if w.check.Reports? {
      VerdictScan(e, i, s, w);
      ScanMore(RunVerdict(e, i, s, w).task.trace, ReportClosed(i));
    }
  }

  lemma EngineOpScan(t: Task, i: nat, p: Plan, s: ChainStep, w: StepWorld)
    requires BetweenIn(t, i) && s.Call? && CheckStep(s, p.source).None?
    ensures Between(RunEngineOp(t, i, p, s, w).task, i + 1)
  {
  }

  lemma CallScan(t: Task, i: nat, p: Plan, s: ChainStep, w: StepWorld)
    requires Between(t, i) && s.Call? && CheckStep(s, p.source).None?
    ensures Between(RunCall(t, i, p, s, w).task, i + 1)
  {
    if HasInput(s.op) {
      PlainHookScan(t, i, w.input);
      EngineOpScan(RunHook(t, i, true, w.input).task, i, p, s, w);
    } else {
      EngineOpScan(t, i, p, s, w);
    }
  }

  lemma StepScan(t: Task, i: nat, p: Plan, s: ChainStep, w: StepWorld)
    requires Between(t, i) && CheckStep(s, p.source).None?
    ensures var r := RunStep(t, i, p, s, w); Settled(r.task, i + 1) && (r.end.Next? ==> r.task.pending.None?)
  {
    match s
    case Then(_) => HookScan(t, i, w.hook);
    case Operate(_, _) => OperateScan(t, i, p, s, w);
    case Check(_) => CheckScan(t, i, p, s, w);
    case Call(_, _, _) => CallScan(t, i, p, s, w);
  }

  lemma {:induction false} StepsAreValid(steps: seq<ChainStep>, source: Source, i: nat)
    requires CheckSteps(steps, source).None? && i < |steps|
    ensures CheckStep(steps[i], source).None?
  {
    if i > 0 {
      StepsAreValid(steps[1..], source, i - 1);
    }
  }

  lemma {:induction false} StepsScan(t: Task, i: nat, p: Plan, w: World) returns (n: nat)
    requires Between(t, i) && CheckSteps(p.steps, p.source).None? && i <= |p.steps|
    ensures i <= n <= |p.steps| && Settled(RunSteps(t, i, p, w).task, n)
    ensures RunSteps(t, i, p, w).end.Next? ==> n == |p.steps|
    decreases |p.steps| - i
  {
    n := i;
    if i < |p.steps| {
      StepsAreValid(p.steps, p.source, i);
      StepScan(t, i, p, p.steps[i], w.steps(i));
      var r := RunStep(t, i, p, p.steps[i], w.steps(i));
      if r.end.Next? {
        n := StepsScan(r.task, i + 1, p, w);
      } else {
        n := i + 1;
      }
    }
  }

  lemma FinishScan(r: StepRun, ready: bool, p: Plan, w: World, n: nat)
    requires Settled(r.task, n)
    ensures Scan(Finish(r, ready, p, w).trace) == Over
  {
    CleanUpScan(r.task, n);
    var t := CleanUp(r.task);
    var outcome := Outcome(r.end.Ended?, Tag(ErrorOf(r.end), t.unsafe), t.unsafe);
    ScanMore(t.trace, FinallyRan(outcome, t.available));
    var run := Finish(r, ready, p, w);
    ScanMore(t.trace + [FinallyRan(outcome, t.available)], Resolved(run.outcome));
    ScanMore(t.trace, Resolved(run.outcome));
  }

  lemma BeginScan(p: Plan, w: World)
    requires p.begin
    ensures Between(RunBegin(p, w).task, 0)
  {
  }

  /** Every run of a validated plan is accepted, whatever its hooks and its driver do. */
  lemma ChainIsAccepted(p: Plan, w: World)
    requires Validate(p).RunsOn?
    ensures Scan(RunChain(p, w).trace) == Over
  {
    BeginScan(p, w);
    var b := RunBegin(p, w);
    if b.end.Next? {
      var n := StepsScan(b.task, 0, p, w);
      FinishScan(RunSteps(b.task, 0, p, w), true, p, w, n);
    } else {
      FinishScan(b, false, p, w, 0);
    }
  }

  // ----- what acceptance means, counted -----

  function Made(trace: seq<Event>, i: nat): nat {
    multiset(trace)[HandleMade(i)]
  }

  function Decisions(trace: seq<Event>, i: nat): nat {
    multiset(trace)[Native(i, NativeCommit)] + multiset(trace)[Native(i, NativeRollback)]
  }

  function Destroyed(trace: seq<Event>, i: nat): nat {
    multiset(trace)[Native(i, NativeDestroy)]
  }

  /** How the three counts of handle i stand in a phase. */
  predicate CountsIn(p: Phase, i: nat, made: nat, decided: nat, destroyed: nat) {
    match p
    case NotBegun => made == decided == destroyed == 0
    case Idle(n, spent) => made == decided == destroyed <= 1 && (i >= n || (i + 1 == n && !spent) ==> made == 0)
    case Holding(j) =>
      destroyed == decided <= made <= 1 && made == decided + (if i == j then 1 else 0) && (i > j ==> made == 0)
    case Decided(j) =>
      destroyed <= decided == made <= 1 && decided == destroyed + (if i == j then 1 else 0) && (i > j ==> made == 0)
    case Closing => made == decided == destroyed <= 1
    case Over => made == decided == destroyed <= 1
    case Bad => true
  }

  lemma {:induction false} ScanCounts(trace: seq<Event>, i: nat)
    ensures CountsIn(Scan(trace), i, Made(trace, i), Decisions(trace, i), Destroyed(trace, i))
  {
    if trace != [] {
      var n := |trace| - 1;
      ScanCounts(trace[..n], i);
      assert trace == trace[..n] + [trace[n]];
      assert multiset(trace) == multiset(trace[..n]) + multiset{trace[n]};
      StepCounts(Scan(trace[..n]), trace[n], i, Made(trace[..n], i), Decisions(trace[..n], i),
                 Destroyed(trace[..n], i));
    }
  }

  lemma StepCounts(p: Phase, e: Event, i: nat, made: nat, decided: nat, destroyed: nat)
    requires CountsIn(p, i, made, decided, destroyed)
    ensures CountsIn(Advance(p, e), i,
                     made + (if e == HandleMade(i) then 1 else 0),
                     decided + (if e == Native(i, NativeCommit) || e == Native(i, NativeRollback) then 1 else 0),
                     destroyed + (if e == Native(i, NativeDestroy) then 1 else 0))
  {
  }

  /**
   Each handle that a step accepts is committed or rolled back once, and destroyed once; no other handle is touched.
   */
  lemma HandlesFinalizedOnce(p: Plan, w: World, i: nat)
    requires Validate(p).RunsOn?
    ensures var trace := RunChain(p, w).trace;
            Made(trace, i) == Decisions(trace, i) == Destroyed(trace, i) <= 1
  {
    ChainIsAccepted(p, w);
    ScanCounts(RunChain(p, w).trace, i);
  }

  /** The steps that emit events are a prefix of the plan, in order. */
  function StepOf(e: Event): Option<nat> {
    match e
    case HookRan(i, _) => Some(i)
    case EngineCalled(i, _, _) => Some(i)
    case HandleMade(i) => Some(i)
    case Native(i, _) => Some(i)
    case ReportClosed(i) => Some(i)
    case Misused(i) => Some(i)
    case _ => None
  }

  ghost predicate Begun(trace: seq<Event>, i: nat) {
    exists k :: 0 <= k < |trace| && StepOf(trace[k]) == Some(i)
  }

  /** How many steps a phase knows to have begun. */
  function Reached(p: Phase): nat {
    match p
    case Idle(n, _) => n
    case Holding(i) => i + 1
    case Decided(i) => i + 1
    case _ => 0
  }

  lemma BegunMore(trace: seq<Event>, e: Event, i: nat)
    ensures Begun(trace + [e], i) <==> Begun(trace, i) || StepOf(e) == Some(i)
  {
    if k :| 0 <= k < |trace| && StepOf(trace[k]) == Some(i) {
      assert StepOf((trace + [e])[k]) == Some(i);
    }
    assert (trace + [e])[|trace|] == e;
  }

  lemma {:induction false} ReachedSteps(trace: seq<Event>, i: nat)
    requires var p := Scan(trace); p.NotBegun? || p.Idle? || p.Holding? || p.Decided?
    ensures Begun(trace, i) <==> i < Reached(Scan(trace))
  {
    if trace != [] {
      var n := |trace| - 1;
      assert trace == trace[..n] + [trace[n]];
      BegunMore(trace[..n], trace[n], i);
      ReachedSteps(trace[..n], i);
    }
  }

  /** A step begins only after every earlier step has begun, and never after the terminal hook. */
  lemma {:induction false} StepsArePrefix(trace: seq<Event>, k: nat, i: nat)
    requires Scan(trace) == Over && k < |trace| && StepOf(trace[k]).Some? && i < StepOf(trace[k]).value
    ensures Begun(trace[..k], i)
  {
    ScanPrefix(trace, k);
    ScanPrefix(trace, k + 1);
    assert trace[..k + 1] == trace[..k] + [trace[k]];
    ScanMore(trace[..k], trace[k]);
    ReachedSteps(trace[..k], i);
  }

  lemma {:induction false} ScanPrefix(trace: seq<Event>, k: nat)
    requires k <= |trace| && !Scan(trace).Bad?
    ensures !Scan(trace[..k]).Bad?
  {
    if k < |trace| {
      assert trace[..|trace| - 1][..k] == trace[..k];
      ScanPrefix(trace[..|trace| - 1], k);
    } else {
      assert trace[..k] == trace;
    }
  }
}
