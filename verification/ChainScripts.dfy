/**
 What a chain does, read off its plan and its world alone: the events of each step as a fixed script, how far the
 chain goes, and how it ends. The interpreter with its pending handle, its deferred cleanup and its marks follows it.
 */
module ChainScripts {
  import opened Queues
  import opened Handles
  import opened Chains
  import opened ChainTraces
  import opened ChainOutcomes
  import opened ChainDecisions

  // ----- what a step is answered -----

  /** An administrative step reaches its engine call: its input is there, and a report is on the chain's account. */
  predicate Enters(op: EngineOp, source: Source, w: StepWorld) {
    && (HasInput(op) ==> w.input.Fine?)
    && (op.ExecutionReport? ==> w.reportAccount == Some(AccountOf(source)))
  }

  /** The engine call came back without an error, where it can report one. */
  predicate Served(op: EngineOp, w: StepWorld) {
    !w.call.CallPanics? && (CanFail(op) ==> !w.call.CallErr?)
  }

  /** The driver answered with rejects and nothing else. */
  predicate Declines(w: StepWorld) {
    w.operate.Replies? && w.operate.result == DriverResult(NoHandle, w.operate.result.rejects, false)
    && w.operate.result.rejects > 0
  }

  predicate Grants(w: StepWorld) {
    w.operate == Replies(DriverResult(LiveHandle, 0, false))
  }

  /** The check report can be read: its verdict, and its rejects if it failed. */
  predicate Readable(w: StepWorld) {
    && w.check == Reports(LiveHandle, false)
    && !w.verdict.VerdictErr? && (w.verdict.Fails? ==> w.rejects.SomeRejects?)
  }

  /** The step lets the chain go on: no error, panic or reject, and a commit for an accepted operation. */
  predicate GoesOn(s: ChainStep, source: Source, w: StepWorld) {
    && w.hook.Fine?
    && match s
       case Then(_) => true
       case Operate(_, _) => Grants(w) && w.decision.CommitDecision?
       case Check(_) => Readable(w)
       case Call(op, _, _) => Enters(op, source, w) && Served(op, w)
  }

  /** The operation was rejected, or its hook decided to roll it back. */
  predicate TurnsDown(s: ChainStep, w: StepWorld) {
    s.Operate? && w.hook.Fine? && (Declines(w) || (Grants(w) && w.decision.RollbackDecision?))
  }

  /** The step enters a call that can change engine state. */
  predicate Changes(s: ChainStep, source: Source, w: StepWorld) {
    s.Operate? || (s.Call? && Enters(s.op, source, w))
  }

  /** The check returned an error of its own, or its verdict or rejects could not be read. */
  predicate CheckErrs(w: StepWorld) {
    w.check.Reports? && (w.check.failed
      || (w.check.report.LiveHandle? && (w.verdict.VerdictErr? || (w.verdict.Fails? && w.rejects.RejectsErr?))))
  }

  /** The error that ends the step, if one does, says already that the chain is retry unsafe. */
  predicate FailsTagged(s: ChainStep, source: Source, w: StepWorld) {
    match s
    case Then(_) => w.hook == HookErr(true)
    case Operate(_, _) =>
      if Grants(w) || Declines(w) then w.hook == HookErr(true)
      else w.operate.Replies? && w.operate.result.err && w.errTagged
    case Check(_) => if Readable(w) then w.hook == HookErr(true) else CheckErrs(w) && w.errTagged
    case Call(op, _, _) =>
      if !Enters(op, source, w) then HasInput(op) && w.input == HookErr(true)
      else if Served(op, w) then w.hook == HookErr(true)
      else w.call.CallErr? && w.errTagged
  }

  // ----- the script of a step -----

  function HookEvent(i: nat, ran: bool, readable: set<nat>): seq<Event> {
    if ran then [HookRan(i, readable)] else []
  }

  /** The driver was given a live handle to carry, alone or not. */
  predicate MakesHandle(w: StepWorld) {
    w.operate.Replies? && w.operate.result.handle.LiveHandle?
  }

  /** A live handle is decided once and destroyed, whatever happened to its step. */
  function HandleEnd(i: nat, w: StepWorld): seq<Event> {
    if MakesHandle(w) then
      [Native(i, if Commits(w) then NativeCommit else NativeRollback), Native(i, NativeDestroy)]
    else []
  }

  /** Everything step i does to hooks, engine and handle, in order. */
  function Script(i: nat, s: ChainStep, source: Source, w: StepWorld): seq<Event> {
    match s
    case Then(_) => HookEvent(i, true, {})
    case Operate(_, _) =>
      [EngineCalled(i, OnOrder, true)]
      + (if MakesHandle(w) then [HandleMade(i)] else [])
      + HookEvent(i, Grants(w) || Declines(w), if Grants(w) then {i} else {})
      + HandleEnd(i, w)
    case Check(_) =>
      [EngineCalled(i, OnOrder, false)]
      + HookEvent(i, Readable(w), {i})
      + (if w.check.Reports? && w.check.report.LiveHandle? then [ReportClosed(i)] else [])
    case Call(op, _, _) =>
      HookEvent(i, HasInput(op), {})
      + (if Enters(op, source, w) then [EngineCalled(i, TargetOf(op, source, w), true)] else [])
      + HookEvent(i, Enters(op, source, w) && Served(op, w), {})
  }

  /** The scripts of steps i to n, one after the other. */
  function Scripts(p: Plan, w: World, i: nat, n: nat): seq<Event>
    requires i <= n <= |p.steps|
  {
    if i == n then [] else Scripts(p, w, i, n - 1) + Script(n - 1, p.steps[n - 1], p.source, w.steps(n - 1))
  }

  // ----- the interpreter follows it -----

  /** Nothing is pending and no result is readable. */
  ghost predicate Clear(t: Task) {
    t.pending.None? && t.available == {}
  }

  /** Step i has run its script once a handle left pending has been cleaned up, and ended as the world asks. */
  ghost predicate Follows(t: Task, i: nat, p: Plan, s: ChainStep, w: StepWorld, r: StepRun) {
    && CleanUp(r.task).trace == t.trace + Script(i, s, p.source, w)
    && (r.end.Next? <==> GoesOn(s, p.source, w))
    && (r.end.Ended? <==> TurnsDown(s, w))
    && (r.end.Next? ==> Clear(r.task))
    && CleanUp(r.task).available == {}
    && (r.task.unsafe <==> t.unsafe || Changes(s, p.source, w))
    && (r.end.Error? || r.end.Panic? ==> (ErrorOf(r.end).tagged <==> FailsTagged(s, p.source, w)))
  }

  lemma FinalizeFresh(t: Task, i: nat, op: HandleOp)
    requires op.CommitAndClose? || op.RollbackAndClose?
    ensures Finalize(t, Pending(i, FreshHandle()), op)
            == t.(trace := t.trace + [Native(i, if op.CommitAndClose? then NativeCommit else NativeRollback),
                                      Native(i, NativeDestroy)],
                  pending := None)
  {
    var c := if op.CommitAndClose? then NativeCommit else NativeRollback;
    var log := Apply(FreshHandle(), op).log;
    assert log == [c, NativeDestroy] && log[0..] == log;
    assert Calls(i, log) == [Native(i, c), Native(i, NativeDestroy)];
  }

  lemma FinalizeReleased(t: Task, i: nat, op: HandleOp)
    ensures Finalize(t, Pending(i, DeadPending()), op) == t.(pending := None)
  {
    assert t.trace + Calls(i, []) == t.trace;
  }

  lemma CleanUpIs(t: Task, i: nat, w: StepWorld)
    requires t.pending == if w.operate.Replies? && !w.operate.result.handle.NoHandle?
                          then Some(Pending(i, HandleOf(w.operate.result.handle))) else None
    requires !Commits(w)
    ensures CleanUp(t).trace == t.trace + HandleEnd(i, w)
  {
    if MakesHandle(w) {
      FinalizeFresh(t, i, RollbackAndClose);
    } else if t.pending.Some? {
      FinalizeReleased(t, i, RollbackAndClose);
    }
  }

  lemma EnteredIs(t: Task, i: nat, w: StepWorld)
    requires Clear(t)
    ensures var e := Entered(t, i, w);
            && e.trace == t.trace + [EngineCalled(i, OnOrder, true)] + (if MakesHandle(w) then [HandleMade(i)] else [])
            && e.unsafe && e.available == {}
            && e.pending == if w.operate.Replies? && !w.operate.result.handle.NoHandle?
                            then Some(Pending(i, HandleOf(w.operate.result.handle))) else None
  {
  }

  lemma GrantFollows(t: Task, i: nat, p: Plan, s: ChainStep, w: StepWorld)
    requires Clear(t) && s.Operate? && CheckStep(s, p.source).None? && Grants(w)
    ensures Follows(t, i, p, s, w, RunOperate(t, i, p, s, w))
  {
    hide Entered;
    EnteredIs(t, i, w);
    var e := Entered(t, i, w);
    var hooked := e.(trace := e.trace + [HookRan(i, {i})]);
    if w.hook.Fine? {
      FinalizeFresh(hooked, i, DecisionOp(w.decision));
    } else {
      CleanUpIs(hooked, i, w);
    }
  }

  lemma OperateFollows(t: Task, i: nat, p: Plan, s: ChainStep, w: StepWorld)
    requires Clear(t) && s.Operate? && CheckStep(s, p.source).None?
    ensures Follows(t, i, p, s, w, RunOperate(t, i, p, s, w))
  {
    hide Entered, Decide;
    EnteredIs(t, i, w);
    if Grants(w) {
      GrantFollows(t, i, p, s, w);
    } else {
      CleanUpIs(RunOperate(t, i, p, s, w).task, i, w);
    }
  }

  lemma CheckFollows(t: Task, i: nat, p: Plan, s: ChainStep, w: StepWorld)
    requires Clear(t) && s.Check? && CheckStep(s, p.source).None?
    ensures Follows(t, i, p, s, w, RunCheck(t, i, p, s, w))
  {
  }

  lemma CallFollows(t: Task, i: nat, p: Plan, s: ChainStep, w: StepWorld)
    requires Clear(t) && s.Call? && CheckStep(s, p.source).None?
    ensures Follows(t, i, p, s, w, RunCall(t, i, p, s, w))
  {
  }

  lemma StepFollows(t: Task, i: nat, p: Plan, s: ChainStep, w: StepWorld)
    requires Clear(t) && CheckStep(s, p.source).None?
    ensures Follows(t, i, p, s, w, RunStep(t, i, p, s, w))
  {
    match s
    case Then(_) =>
    case Operate(_, _) => OperateFollows(t, i, p, s, w);
    case Check(_) => CheckFollows(t, i, p, s, w);
    case Call(_, _, _) => CallFollows(t, i, p, s, w);
  }

  /** Steps from i on run up to step n: all before the last one let the chain go on, and the last one ends it. */
  ghost predicate StopsAfter(p: Plan, w: World, i: nat, n: nat, end: End) {
    && i <= n <= |p.steps|
    && (forall j :: i <= j < n - 1 ==> GoesOn(p.steps[j], p.source, w.steps(j)))
    && (end.Next? ==> n == |p.steps| && (n > i ==> GoesOn(p.steps[n - 1], p.source, w.steps(n - 1))))
    && (!end.Next? ==> n > i && !GoesOn(p.steps[n - 1], p.source, w.steps(n - 1)))
    && (end.Ended? <==> n > i && TurnsDown(p.steps[n - 1], w.steps(n - 1)))
    && (ErrorOf(end).Failed? ==>
          (ErrorOf(end).tagged <==> FailsTagged(p.steps[n - 1], p.source, w.steps(n - 1))))
  }

  ghost predicate ChangesIn(p: Plan, w: World, i: nat, n: nat) {
    exists j :: i <= j < n && j < |p.steps| && Changes(p.steps[j], p.source, w.steps(j))
  }

  lemma {:induction false} ScriptsFront(p: Plan, w: World, i: nat, n: nat)
    requires i < n <= |p.steps|
    ensures Scripts(p, w, i, n) == Script(i, p.steps[i], p.source, w.steps(i)) + Scripts(p, w, i + 1, n)
  {
    if i + 1 < n {
      ScriptsFront(p, w, i, n - 1);
    }
  }

  lemma {:induction false} StepsFollow(t: Task, i: nat, p: Plan, w: World) returns (n: nat)
    requires Clear(t) && CheckSteps(p.steps, p.source).None? && i <= |p.steps|
    ensures StopsAfter(p, w, i, n, RunSteps(t, i, p, w).end)
    ensures var r := RunSteps(t, i, p, w);
            && CleanUp(r.task).trace == t.trace + Scripts(p, w, i, n) && CleanUp(r.task).available == {}
            && (r.task.unsafe <==> t.unsafe || ChangesIn(p, w, i, n))
    decreases |p.steps| - i
  {
    hide Script, GoesOn, TurnsDown, RunStep, Changes, FailsTagged;
    n := i;
    if i < |p.steps| {
      StepsAreValid(p.steps, p.source, i);
      StepFollows(t, i, p, p.steps[i], w.steps(i));
      var r := RunStep(t, i, p, p.steps[i], w.steps(i));
      if r.end.Next? {
        n := StepsFollow(r.task, i + 1, p, w);
        ScriptsFront(p, w, i, n);
      } else {
        n := i + 1;
        ScriptsFront(p, w, i, n);
      }
    }
  }

  // ----- the whole chain -----

  /** Step i is reached: begin succeeded, and every step before it let the chain go on. */
  ghost predicate Reaches(p: Plan, w: World, i: nat) {
    w.begin.Fine? && i < |p.steps| && forall j :: 0 <= j < i ==> GoesOn(p.steps[j], p.source, w.steps(j))
  }

  ghost predicate AllGoOn(p: Plan, w: World) {
    w.begin.Fine? && forall j :: 0 <= j < |p.steps| ==> GoesOn(p.steps[j], p.source, w.steps(j))
  }

  ghost predicate IsTurnedDown(p: Plan, w: World) {
    exists i: nat :: Reaches(p, w, i) && TurnsDown(p.steps[i], w.steps(i))
  }

  /** How the steps end, before the terminal hook. */
  ghost function StepsStatus(p: Plan, w: World): ChainStatus {
    if AllGoOn(p, w) then StatusCompleted else if IsTurnedDown(p, w) then StatusRejected else StatusFailed
  }

  predicate FinallyRuns(p: Plan, w: World) {
    w.begin.Fine? && p.ending.WithFinally?
  }

  /** The terminal hook can only turn the outcome into a failure. */
  ghost function ChainStatusOf(p: Plan, w: World): ChainStatus {
    if FinallyRuns(p, w) && !w.finally.Fine? then StatusFailed else StepsStatus(p, w)
  }

  /** A state-changing call is entered by some step that is reached. */
  ghost predicate ChangesState(p: Plan, w: World) {
    exists i: nat :: Reaches(p, w, i) && Changes(p.steps[i], p.source, w.steps(i))
  }

  /** The error of the steps, with the mark that a state-changing call or the error itself puts on it. */
  ghost function StepsError(p: Plan, w: World): ChainError {
    if !StepsStatus(p, w).StatusFailed? then NoError
    else
      Failed(ChangesState(p, w) || w.begin == HookErr(true)
             || exists i: nat :: Reaches(p, w, i) && FailsAt(p, w, i))
  }

  ghost predicate FailsAt(p: Plan, w: World, i: nat)
    requires i < |p.steps|
  {
    var s, x := p.steps[i], w.steps(i);
    !GoesOn(s, p.source, x) && !TurnsDown(s, x) && FailsTagged(s, p.source, x)
  }

  /** The error of the whole chain: that of the steps, joined with that of the terminal hook. */
  ghost function ChainErrorOf(p: Plan, w: World): ChainError {
    var steps := StepsError(p, w);
    if !FinallyRuns(p, w) || w.finally.Fine? then steps
    else Failed(ChangesState(p, w) || w.finally == HookErr(true) || (steps.Failed? && steps.tagged))
  }

  lemma TurnsDownStops(s: ChainStep, source: Source, w: StepWorld)
    ensures TurnsDown(s, w) ==> !GoesOn(s, source, w)
  {
  }

  /** How far the steps go, and how they end, follows from plan and world. */
  lemma StepsAreExact(p: Plan, w: World, n: nat, end: End)
    requires w.begin.Fine? && StopsAfter(p, w, 0, n, end)
    ensures forall i: nat :: Reaches(p, w, i) <==> i < n
    ensures end.Next? <==> AllGoOn(p, w)
    ensures end.Ended? <==> IsTurnedDown(p, w)
  {
    hide TurnsDown, GoesOn;
    if n > 0 {
      TurnsDownStops(p.steps[n - 1], p.source, w.steps(n - 1));
      assert Reaches(p, w, n - 1);
    }
    if IsTurnedDown(p, w) {
      var i: nat :| Reaches(p, w, i) && TurnsDown(p.steps[i], w.steps(i));
      TurnsDownStops(p.steps[i], p.source, w.steps(i));
      assert i == n - 1;
    }
  }

  /** The begin hook, the scripts of the first n steps, the terminal hook if it runs, and the resolution. */
  ghost function WholeScript(p: Plan, w: World, n: nat): seq<Event>
    requires n <= |p.steps|
  {
    [BeginRan] + Scripts(p, w, 0, n)
    + (if FinallyRuns(p, w) then [FinallyRan(ToldOutcome(p, w), {})] else [])
    + [Resolved(OutcomeOf(p, w))]
  }

  ghost predicate Reads(p: Plan, w: World, n: nat, run: Run) {
    && n <= |p.steps| && (forall i: nat :: Reaches(p, w, i) <==> i < n)
    && run.trace == WholeScript(p, w, n) && run.outcome == OutcomeOf(p, w)
  }

  /** What the terminal hook is told: the outcome of the steps. */
  ghost function ToldOutcome(p: Plan, w: World): ChainOutcome {
    ChainOutcome(StepsStatus(p, w), StepsError(p, w), ChangesState(p, w))
  }

  /** The outcome, read off plan and world. */
  ghost function OutcomeOf(p: Plan, w: World): ChainOutcome {
    ChainOutcome(ChainStatusOf(p, w), ChainErrorOf(p, w), ChangesState(p, w))
  }

  /** The error of the steps as the last of them left it, marked. */
  lemma StepsErrorIs(p: Plan, w: World, n: nat, end: End)
    requires w.begin.Fine? && StopsAfter(p, w, 0, n, end)
    ensures StepsError(p, w) == Tag(ErrorOf(end), ChangesState(p, w))
  {
    hide GoesOn, TurnsDown, FailsTagged, ChangesState;
    StepsAreExact(p, w, n, end);
    if n > 0 {
      TurnsDownStops(p.steps[n - 1], p.source, w.steps(n - 1));
      assert FailsAt(p, w, n - 1) || !FailsTagged(p.steps[n - 1], p.source, w.steps(n - 1)) || end.Next? || end.Ended?;
      forall i: nat | Reaches(p, w, i) && FailsAt(p, w, i) ensures i == n - 1 {
      }
    }
  }

  lemma FinishFollows(p: Plan, w: World, n: nat, r: StepRun)
    requires w.begin.Fine? && StopsAfter(p, w, 0, n, r.end) && !p.ending.NilFinally? && !p.ending.DiscardedFinally?
    requires CleanUp(r.task).trace == [BeginRan] + Scripts(p, w, 0, n) && CleanUp(r.task).available == {}
    requires r.task.unsafe <==> ChangesIn(p, w, 0, n)
    ensures Reads(p, w, n, Finish(r, true, p, w))
  {
    hide GoesOn, TurnsDown, Script, Scripts, Changes, FailsTagged, StepsError;
    StepsAreExact(p, w, n, r.end);
    var t := CleanUp(r.task);
    assert t.unsafe == r.task.unsafe;
    assert ChangesIn(p, w, 0, n) <==> ChangesState(p, w);
    StepsErrorIs(p, w, n, r.end);
  }

  /**
   Every run of a validated plan is the script of its plan and world: each step that is reached, exactly those, does
   what its script says, and the outcome is the one that the answers of the world ask for.
   */
  lemma ChainFollowsScript(p: Plan, w: World) returns (n: nat)
    requires Validate(p).RunsOn?
    ensures Reads(p, w, n, RunChain(p, w))
  {
    var b := RunBegin(p, w);
    if w.begin.Fine? {
      n := StepsFollow(b.task, 0, p, w);
      FinishFollows(p, w, n, RunSteps(b.task, 0, p, w));
    } else {
      n := 0;
      assert [BeginRan] + Scripts(p, w, 0, 0) == [BeginRan];
      assert !ChangesState(p, w) && !AllGoOn(p, w) && !IsTurnedDown(p, w);
    }
  }

  // ----- what that means -----

  lemma ScriptIsOfItsStep(i: nat, s: ChainStep, source: Source, w: StepWorld)
    ensures Script(i, s, source, w) != []
    ensures forall e :: e in Script(i, s, source, w) ==> StepOf(e) == Some(i)
  {
  }

  lemma BegunBoth(a: seq<Event>, b: seq<Event>, i: nat)
    ensures Begun(a + b, i) <==> Begun(a, i) || Begun(b, i)
  {
    if k :| 0 <= k < |a| && StepOf(a[k]) == Some(i) {
      assert StepOf((a + b)[k]) == Some(i);
    }
    if k :| 0 <= k < |b| && StepOf(b[k]) == Some(i) {
      assert StepOf((a + b)[|a| + k]) == Some(i);
    }
  }

  lemma {:induction false} ScriptsBegin(p: Plan, w: World, n: nat, i: nat)
    requires n <= |p.steps|
    ensures Begun(Scripts(p, w, 0, n), i) <==> i < n
  {
    if n > 0 {
      var last := Script(n - 1, p.steps[n - 1], p.source, w.steps(n - 1));
      ScriptIsOfItsStep(n - 1, p.steps[n - 1], p.source, w.steps(n - 1));
      ScriptsBegin(p, w, n - 1, i);
      BegunBoth(Scripts(p, w, 0, n - 1), last, i);
      assert last[0] in last;
    }
  }

  /**
   A step begins exactly if begin succeeded and every step before it let the chain go on; and the chain is completed
   exactly if all did and the terminal hook does not fail, rejected exactly if a step that was reached was turned
   down and the terminal hook does not fail.
   */
  lemma ChainGoesExactly(p: Plan, w: World, i: nat)
    requires Validate(p).RunsOn?
    ensures Begun(RunChain(p, w).trace, i) <==> Reaches(p, w, i)
    ensures RunChain(p, w).outcome.status == ChainStatusOf(p, w)
  {
    hide RunChain, Scripts, Reaches, ToldOutcome, ChainStatusOf, ChainErrorOf, ChangesState, Validate;
    var n := ChainFollowsScript(p, w);
    var trace := RunChain(p, w).trace;
    var steps := [BeginRan] + Scripts(p, w, 0, n);
    BegunBoth([BeginRan], Scripts(p, w, 0, n), i);
    BegunBoth(steps, trace[|steps|..], i);
    assert trace == steps + trace[|steps|..];
    ScriptsBegin(p, w, n, i);
  }
}
