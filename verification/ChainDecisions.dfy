/** A handle is committed exactly when its hook said so, and rolled back in every other case. */
module ChainDecisions {
  import opened Handles
  import opened Chains
  import opened ChainTraces
  import opened ChainOutcomes

  /** The driver returned nothing but a live handle, and the hook returned without error and asked to commit. */
  predicate Commits(w: StepWorld) {
    && w.operate.Replies? && w.operate.result == DriverResult(LiveHandle, 0, false)
    && w.hook.Fine? && w.decision.CommitDecision?
  }

  predicate Follows(e: Event, w: World) {
    e.Native? ==>
      && (e.call.NativeCommit? ==> Commits(w.steps(e.step)))
      && (e.call.NativeRollback? ==> !Commits(w.steps(e.step)))
  }

  /** The decisions so far follow the hooks, and a handle still pending was not to be committed. */
  ghost predicate Faithful(t: Task, w: World) {
    && (forall k :: 0 <= k < |t.trace| ==> Follows(t.trace[k], w))
    && (t.pending.Some? && t.pending.value.handle == FreshHandle() ==> !Commits(w.steps(t.pending.value.step)))
  }

  /** A task to which other events were added, and nothing pending. */
  lemma FaithfulMore(t: Task, u: Task, w: World)
    requires Faithful(t, w) && t.pending.None? && u.pending.None? && t.trace <= u.trace
    requires forall k :: |t.trace| <= k < |u.trace| ==> !u.trace[k].Native?
    ensures Faithful(u, w)
  {
  }

  /** The added events are none of the handle's. */
  ghost predicate AddsNoNative(t: Task, u: Task) {
    t.trace <= u.trace && (forall k :: |t.trace| <= k < |u.trace| ==> !u.trace[k].Native?) && u.pending == t.pending
  }

  lemma CheckAdds(t: Task, i: nat, p: Plan, s: ChainStep, w: StepWorld)
    requires s.Check?
    ensures AddsNoNative(t, RunCheck(t, i, p, s, w).task)
  {
  }

  lemma CallAdds(t: Task, i: nat, p: Plan, s: ChainStep, w: StepWorld)
    requires s.Call?
    ensures AddsNoNative(t, RunCall(t, i, p, s, w).task)
  {
  }

  lemma FaithfulOperate(t: Task, i: nat, p: Plan, s: ChainStep, w: World)
    requires Faithful(t, w) && t.pending.None? && s.Operate? && CheckStep(s, p.source).None?
    ensures Faithful(RunOperate(t, i, p, s, w.steps(i)).task, w)
  {
  }

  lemma FaithfulStep(t: Task, i: nat, p: Plan, w: World)
    requires Faithful(t, w) && t.pending.None? && i < |p.steps| && CheckStep(p.steps[i], p.source).None?
    ensures Faithful(RunStep(t, i, p, p.steps[i], w.steps(i)).task, w)
  {
    var s, sw := p.steps[i], w.steps(i);
    match s
    case Then(_) => FaithfulMore(t, RunHook(t, i, true, sw.hook).task, w);
    case Check(_) =>
      CheckAdds(t, i, p, s, sw);
      FaithfulMore(t, RunCheck(t, i, p, s, sw).task, w);
    case Call(_, _, _) =>
      CallAdds(t, i, p, s, sw);
      FaithfulMore(t, RunCall(t, i, p, s, sw).task, w);
    case Operate(_, _) => FaithfulOperate(t, i, p, s, w);
  }

  lemma {:induction false} FaithfulSteps(t: Task, i: nat, p: Plan, w: World)
    requires Faithful(t, w) && Between(t, i) && CheckSteps(p.steps, p.source).None? && i <= |p.steps|
    ensures Faithful(RunSteps(t, i, p, w).task, w)
    decreases |p.steps| - i
  {
    if i < |p.steps| {
      StepsAreValid(p.steps, p.source, i);
      FaithfulStep(t, i, p, w);
      StepScan(t, i, p, p.steps[i], w.steps(i));
      var r := RunStep(t, i, p, p.steps[i], w.steps(i));
      if r.end.Next? {
        FaithfulSteps(r.task, i + 1, p, w);
      }
    }
  }

  lemma FaithfulRun(p: Plan, w: World)
    requires Validate(p).RunsOn?
    ensures forall k :: 0 <= k < |RunChain(p, w).trace| ==> Follows(RunChain(p, w).trace[k], w)
  {
    RunIsFinishedBody(p, w);
    BeginScan(p, w);
    var n := SettledBody(p, w);
    if RunBegin(p, w).end.Next? {
      FaithfulSteps(RunBegin(p, w).task, 0, p, w);
    }
    var t := Body(p, w).task;
    if t.pending.Some? {
      assert Faithful(Finalize(t, t.pending.value, RollbackAndClose), w);
    }
  }

  lemma Occurs(trace: seq<Event>, e: Event)
    ensures multiset(trace)[e] > 0 <==> e in trace
  {
  }

  /**
   Of the handles that a run was given, exactly those whose hooks asked for it are committed; the rest are rolled
   back.
   */
  lemma CommittedExactlyWhenDecided(p: Plan, w: World, i: nat)
    requires Validate(p).RunsOn? && Made(RunChain(p, w).trace, i) > 0
    ensures var trace := RunChain(p, w).trace;
            && (Native(i, NativeCommit) in trace <==> Commits(w.steps(i)))
            && (Native(i, NativeRollback) in trace <==> !Commits(w.steps(i)))
            && Native(i, NativeDestroy) in trace
  {
    var trace := RunChain(p, w).trace;
    FaithfulRun(p, w);
    HandlesFinalizedOnce(p, w, i);
    Occurs(trace, Native(i, NativeCommit));
    Occurs(trace, Native(i, NativeRollback));
    Occurs(trace, Native(i, NativeDestroy));
    if Native(i, NativeCommit) in trace {
      var k :| 0 <= k < |trace| && trace[k] == Native(i, NativeCommit);
    }
    if Native(i, NativeRollback) in trace {
      var k :| 0 <= k < |trace| && trace[k] == Native(i, NativeRollback);
    }
  }
}
