/** The wait for the submit fence is finite: what the callers have left to do shrinks with each of their moves. */
module DispatcherFenceBound {
  import opened RoutingKeys
  import opened Queues
  import opened Lanes
  import opened LaneFrame
  import opened LaneInvariant
  import opened Dispatcher
  import opened DispatcherFrame
  import opened DispatcherFence
  import opened DispatcherRegistry
  import opened DispatcherTheorems
  import opened DispatcherRuns
  import opened DispatcherFenceWait

  // ----- what a caller has left -----

  /** Releases that hold a guard, or may still take one: each may make a caller wait and look once more. */
  predicate MayHold(pc: CleanPc) {
    pc.RegLimit? || pc.Guarding?
  }

  function Holders(g: Sys): nat {
    CleansAt(g.cleans, MayHold)
  }

  /** One round less while the guard is held; one move more to leave it when it is lifted. */
  function GuardLeft(g: Sys, r: nat): int {
    if CleanAt(g, r, Guarding) then -1 else 1
  }

  function CleanLeft(g: Sys, c: Cleaner): int {
    var n := 2 * Holders(g);
    match c.pc
    case RegLimit => 36 + n
    case Guarding => 35 + n
    case RegLane(_) => 34 + n
    case EndingReg(_) => 33 + n
    case TestedReg(_, _) => 32 + n
    case Looking => 20 + n
    case AwaitGuard(r) => 20 + n + GuardLeft(g, r)
    case GotLane(_) => 10
    case AtLimit => 10
    case AfterStop => 7
    case FenceLane(_) => 6
    case OffLane => 5
    case Tracked => 4
    case Untracked => 4
    case Returned => 0
  }

  /** From its failure on: the handoff, if it is still to come, and the end of the call. */
  function TailLeft(g: Sys, s: Submit): int {
    if s.closing && s.handed.None? then 24 + 2 * Holders(g) else 2
  }

  function StageLeft(stage: Stage): int {
    match stage
    case AtFence => 4
    case Passed => 3
    case Sending(_, tried) => if tried then 1 else 2
  }

  function InsideLeft(lanes: seq<Lane>, i: nat, p: nat): int {
    if i < |lanes| && p in lanes[i].inside then StageLeft(lanes[i].inside[p].stage) else 0
  }

  /** A call that found a lane enters it, unless the lane had been retired meanwhile. */
  function FoundLeft(g: Sys, i: nat): int {
    if i < |g.lanes| && g.lanes[i].q.closed then 11 + 2 * Holders(g) else 5
  }

  function SubmitLeft(g: Sys, p: nat, s: Submit): int {
    match s.pc
    case Begun => TailLeft(g, s) + 10 + 2 * Holders(g)
    case AtGuard(r) => TailLeft(g, s) + 10 + 2 * Holders(g) + GuardLeft(g, r)
    case Found(i) => TailLeft(g, s) + FoundLeft(g, i)
    case InLane(i) => TailLeft(g, s) + InsideLeft(g.lanes, i, p)
    case Ending(ok) => if ok then 2 else TailLeft(g, s)
    case Refused => TailLeft(g, s)
    case Tested(_, _) => 1
    case Done(_) => 0
  }

  function SubmitsLeft(g: Sys): seq<int> {
    seq(|g.subs|, p requires 0 <= p < |g.subs| => SubmitLeft(g, p, g.subs[p]))
  }

  function CleansLeft(g: Sys): seq<int> {
    seq(|g.cleans|, c requires 0 <= c < |g.cleans| => CleanLeft(g, g.cleans[c]))
  }

  /** All that the callers have left to do, if the fence stays open and no new call comes. */
  function CallersLeft(g: Sys): int {
    Sum(SubmitsLeft(g)) + Sum(CleansLeft(g))
  }

  function Sum(s: seq<int>): int {
    if s == [] then 0 else Sum(s[..|s| - 1]) + s[|s| - 1]
  }

  ghost predicate NoMore(a: seq<int>, b: seq<int>) {
    |b| == |a| && forall i :: 0 <= i < |a| ==> b[i] <= a[i]
  }

  lemma {:induction false} SumNoMore(a: seq<int>, b: seq<int>)
    requires NoMore(a, b)
    ensures Sum(b) <= Sum(a)
    ensures (exists i :: 0 <= i < |a| && b[i] < a[i]) ==> Sum(b) < Sum(a)
  {
    if a != [] {
      var n := |a| - 1;
      SumNoMore(a[..n], b[..n]);
      if i :| 0 <= i < |a| && b[i] < a[i] {
        assert i < n ==> b[..n][i] < a[..n][i];
      }
    }
  }

  lemma SumMore(a: seq<int>, x: int)
    ensures Sum(a + [x]) == Sum(a) + x
  {
    assert (a + [x])[..|a|] == a;
  }

  lemma {:induction false} SumNonNegative(a: seq<int>)
    requires forall i :: 0 <= i < |a| ==> a[i] >= 0
    ensures Sum(a) >= 0
  {
    if a != [] {
      SumNonNegative(a[..|a| - 1]);
    }
  }

  lemma LeftIsNonNegative(g: Sys)
    ensures CallersLeft(g) >= 0
  {
    SumNonNegative(SubmitsLeft(g));
    SumNonNegative(CleansLeft(g));
  }

  // ----- what a move does to the others -----

  /** The lanes keep their flags, and every producer but `mover` its stage. */
  ghost predicate LanesCalm(before: seq<Lane>, after: seq<Lane>, mover: Option<nat>) {
    && |before| <= |after|
    && (forall i :: 0 <= i < |before| ==> after[i].q.closed == before[i].q.closed)
    && (forall i, p :: 0 <= i < |before| && p in before[i].inside && mover != Some(p) ==>
          p in after[i].inside && after[i].inside[p].stage == before[i].inside[p].stage)
  }

  /** No guard is taken or promised, and a guard is lifted only as its holder goes. */
  ghost predicate GuardsCalm(g: Sys, h: Sys) {
    && Holders(h) <= Holders(g)
    && (forall r: nat :: CleanAt(g, r, Guarding) && !CleanAt(h, r, Guarding) ==> Holders(h) < Holders(g))
  }

  lemma OtherCalls(g: Sys, h: Sys, p: nat, s: Submit, mover: Option<nat>)
    requires LanesCalm(g.lanes, h.lanes, mover) && GuardsCalm(g, h) && mover != Some(p)
    requires s.pc.InLane? ==> s.pc.lane < |g.lanes| && p in g.lanes[s.pc.lane].inside
    requires s.pc.Found? ==> s.pc.lane < |g.lanes|
    ensures SubmitLeft(h, p, s) <= SubmitLeft(g, p, s)
  {
    hide Holders;
  }

  lemma OtherReleases(g: Sys, h: Sys, c: Cleaner)
    requires GuardsCalm(g, h)
    ensures CleanLeft(h, c) <= CleanLeft(g, c)
  {
    hide Holders;
  }

  // ----- while a stop waits for the fence -----

  /** Before the fence is closed, a lane that a call finds or is inside is not shut. */
  ghost predicate WayIsOpen(g: Sys, p: nat) {
    p < |g.subs| ==>
      && (CanFind(g, g.subs[p].key) ==>
            Target(g, g.subs[p].key) < |g.lanes| && !g.lanes[Target(g, g.subs[p].key)].q.closed)
      && (g.subs[p].pc.InLane? ==>
            && g.subs[p].pc.lane < |g.lanes| && p in g.lanes[g.subs[p].pc.lane].inside
            && !g.lanes[g.subs[p].pc.lane].q.quit && !g.lanes[g.subs[p].pc.lane].q.chClosed)
      && (g.subs[p].key in g.reg.guards ==> CleanAt(g, g.reg.guards[g.subs[p].key], Guarding))
  }

  ghost predicate GuardIsHeld(g: Sys, c: nat) {
    c < |g.cleans| && g.cleans[c].key in g.reg.guards ==> CleanAt(g, g.reg.guards[g.cleans[c].key], Guarding)
  }

  /** Retirement is over, and no lane is closed before the fence is. */
  ghost predicate Steady(g: Sys) {
    MuFree(g) && (g.cfg.dynamic ==> g.reg.retirerOff) && forall s :: 0 <= s < |g.stops| ==> !g.stops[s].Closing?
  }

  /** A stop waits for the submit fence. */
  ghost predicate Waiting(g: Sys) {
    && g.ctl.stopped && !g.ctl.fence && Steady(g)
    && SubsOk(g.lanes, g.subs) && (forall p: nat :: WayIsOpen(g, p)) && (forall c: nat :: GuardIsHeld(g, c))
  }

  lemma LaneIsOpen(l: Lane)
    requires LaneInv(l)
    ensures l.q.closed <==> l.q.retired || l.q.chClosed
    ensures l.q.retired ==> l.inside == map[] && l.gated
    ensures l.q.quit <==> l.q.retired
  {
  }

  // ----- every move leaves the others calm -----

  function MoverOf(m: Move): Option<nat> {
    if m.SubmitMove? then Some(m.p)
    else if m.WorkerMove? && m.worker.Quiet? && m.worker.step.ByProducer? then Some(m.worker.step.p)
    else None
  }

  /** The call whose producer takes the step is the one that moves. */
  predicate StepsFor(lm: LaneMove, mover: Option<nat>) {
    lm.OneLane? && lm.s.ByProducer? ==> mover == Some(lm.s.p)
  }

  lemma MoverSteps(g: Sys, m: Move)
    ensures StepsFor(LaneOf(g, m), MoverOf(m))
  {
  }

  predicate LeavesGates(lm: LaneMove) {
    lm.OneLane? ==> !lm.s.ByGate?
  }

  lemma StepIsCalm(l: Lane, sig: Signals, s: LaneStep)
    requires CanStep(l, sig, s) && !s.ByGate?
    ensures Step(l, sig, s).q.closed == l.q.closed
    ensures forall p :: p in l.inside && !(s.ByProducer? && s.p == p) ==>
              p in Step(l, sig, s).inside && Step(l, sig, s).inside[p] == l.inside[p]
  {
    hide CanStep, Step, SameConfig, SameInside, CanProduce, Produce;
    StepFixed(l, sig, s);
    if s.ByProducer? {
      StepIs(l, sig, s);
      ProduceStands(l, sig, s.p, s.act);
    } else {
      StepKeepsStages(l, sig, s);
    }
  }

  lemma LanesStayCalm(g: Sys, m: Move, h: Sys)
    requires Steps(g, m, h) && Steady(g)
    ensures LanesCalm(g.lanes, h.lanes, MoverOf(m))
  {
    hide CanStep, Do, Step;
    LanesAfter(g, m, h);
    assert LeavesGates(LaneOf(g, m)) by {
      hide Alive, CanClean, CanSection, CanSubmit;
    }
    MoverSteps(g, m);
    if LaneOf(g, m).OneLane? && !Creates(m) {
      StepIsCalm(g.lanes[LaneOf(g, m).i], Sig(g.ctl), LaneOf(g, m).s);
    }
  }

  ghost predicate HoldsNoMore(g: Sys, h: Sys, c: nat) {
    c < |g.cleans| && c < |h.cleans| && (MayHold(h.cleans[c].pc) ==> MayHold(g.cleans[c].pc))
    && (g.cleans[c].pc.Guarding? ==> !MayHold(h.cleans[c].pc) || h.cleans[c].pc.Guarding?)
  }

  lemma CleanIsCalm(g: Sys, c: nat, a: CleanAct, h: Sys)
    requires CleanStep(g, c, a, h) && g.ctl.stopped
    ensures GuardsCalm(g, h)
  {
    CleanKeys(g, c, a, h);
    assert HoldsNoMore(g, h, c) by {
      hide CanEnqueue, CanFind, Enqueue, FreshLane, GuardRefused, HasLiveQueue, TakesCleanup, Target, TestFence;
    }
    CleansAtUpdate(g.cleans, c, h.cleans[c], MayHold);
  }

  lemma NewReleaseIsCalm(g: Sys, p: nat)
    requires CanNewCleanup(g, p)
    ensures GuardsCalm(g, NewCleanup(g, p)) && Holders(NewCleanup(g, p)) == Holders(g)
  {
    var h := NewCleanup(g, p);
    assert h.cleans[..|h.cleans| - 1] == g.cleans;
  }

  lemma PlacesAreCalm(g: Sys, m: Move, h: Sys)
    requires MoveKeeps(g, m, h) && !m.CleanMove? && !m.CleanCall?
    ensures GuardsCalm(g, h) && Holders(h) == Holders(g)
  {
    hide SameStop, SameStage, OthersStay;
    CleansAtSame(g.cleans, h.cleans, MayHold);
  }

  // ----- the mover has less left -----

  ghost predicate CallShrinks(g: Sys, h: Sys, p: nat) {
    p < |g.subs| && p < |h.subs| && SubmitLeft(h, p, h.subs[p]) < SubmitLeft(g, p, g.subs[p])
  }

  lemma OutsideShrinks(g: Sys, p: nat, a: SubmitAct, h: Sys)
    requires SubmitStep(g, p, a, h) && WayIsOpen(g, p) && Holders(h) == Holders(g)
    requires !a.EnterLane? && !a.LeaveLane? && !a.AbandonLane? && !a.SendLane?
    ensures CallShrinks(g, h, p)
  {
  }

  ghost predicate ReleaseShrinks(g: Sys, h: Sys, c: nat) {
    c < |g.cleans| && c < |h.cleans| && CleanLeft(h, h.cleans[c]) < CleanLeft(g, g.cleans[c])
  }

  lemma PlaceShrinks(g: Sys, c: nat, a: CleanAct, h: Sys)
    requires CleanStep(g, c, a, h) && g.ctl.stopped && GuardIsHeld(g, c) && Holders(h) <= Holders(g)
    requires !a.HaltClean? && !a.FindClean? && !a.CreateClean? && !a.LimitClean? && !a.ParkClean? && !a.ResumeClean?
    requires !a.BeginClean?
    ensures ReleaseShrinks(g, h, c)
  {
    hide Holders, Enqueue, CanEnqueue, TakesCleanup, GuardRefused, TestFence, GuardIsHeld, AddGuard, LiftGuard;
    hide NeedsQueue, MeetsGuard;
  }

  // ----- the sums -----

  ghost predicate KeepPositions(a: seq<Cleaner>, b: seq<Cleaner>) {
    |a| <= |b| && forall c :: 0 <= c < |a| ==> b[c].pc == a[c].pc
  }

  lemma ReleasesNoMore(g: Sys, h: Sys)
    requires GuardsCalm(g, h) && |h.cleans| == |g.cleans| && KeepPositions(g.cleans, h.cleans)
    ensures Sum(CleansLeft(h)) <= Sum(CleansLeft(g))
  {
    forall c | 0 <= c < |g.cleans| ensures CleansLeft(h)[c] <= CleansLeft(g)[c] {
      OtherReleases(g, h, g.cleans[c]);
    }
    SumNoMore(CleansLeft(g), CleansLeft(h));
  }

  /** Every call but p stands where it stood. */
  ghost predicate OthersRemain(g: Sys, h: Sys, mover: Option<nat>) {
    |h.subs| == |g.subs| && forall q :: 0 <= q < |g.subs| && mover != Some(q) ==> h.subs[q] == g.subs[q]
  }

  lemma CallsNoMore(g: Sys, h: Sys, mover: Option<nat>)
    requires LanesCalm(g.lanes, h.lanes, mover) && GuardsCalm(g, h) && SubsOk(g.lanes, g.subs)
    requires OthersRemain(g, h, mover)
    requires mover.Some? ==> CallShrinks(g, h, mover.value)
    ensures Sum(SubmitsLeft(h)) <= Sum(SubmitsLeft(g)) && (mover.Some? ==> Sum(SubmitsLeft(h)) < Sum(SubmitsLeft(g)))
  {
    hide Holders, SubmitLeft, Sum, LanesCalm, GuardsCalm, InsideOk;
    forall q | 0 <= q < |g.subs| ensures SubmitsLeft(h)[q] <= SubmitsLeft(g)[q] {
      if mover != Some(q) {
        assert SubOk(g.lanes, q, g.subs[q]);
        OtherCalls(g, h, q, g.subs[q], mover);
      }
    }
    if mover.Some? {
      assert SubmitsLeft(h)[mover.value] < SubmitsLeft(g)[mover.value];
    }
    SumNoMore(SubmitsLeft(g), SubmitsLeft(h));
  }

  /** Moves of a call, of a release, or of a producer inside a lane. */
  predicate CallerMove(m: Move) {
    m.SubmitMove? || m.CleanMove? || m.CleanCall? || (m.WorkerMove? && m.worker.Quiet? && m.worker.step.ByProducer?)
  }

  /** What the others make of a move. */
  ghost predicate Calm(g: Sys, m: Move, h: Sys) {
    Waiting(g) && LanesCalm(g.lanes, h.lanes, MoverOf(m)) && GuardsCalm(g, h) && SubsOk(g.lanes, g.subs)
  }

  lemma MoveIsCalm(g: Sys, m: Move, h: Sys)
    requires Steps(g, m, h) && Waiting(g)
    ensures Calm(g, m, h)
  {
    hide Can, Do, GuardIsHeld, GuardsCalm, LanesCalm, MoverOf, Steps, SubsOk, WayIsOpen;
    LanesStayCalm(g, m, h);
    assert GuardsCalm(g, h) by {
      hide *;
      StepOf(g, m, h);
      MoveKeys(g, m, h);
      match m
      case CleanMove(c, a) => CleanIsCalm(g, c, a, h);
      case CleanCall(p) => NewReleaseIsCalm(g, p);
      case _ => PlacesAreCalm(g, m, h);
    }
  }

  lemma SubmitMoveLeaves(g: Sys, p: nat, a: SubmitAct, h: Sys)
    requires SubmitStep(g, p, a, h) && Calm(g, SubmitMove(p, a), h)
    ensures CallersLeft(h) < CallersLeft(g)
  {
    hide SubmitStep, CanSubmit, DoSubmit, Waiting, Holders, Sum, CleansLeft, SubmitsLeft, LanesCalm, GuardsCalm, SubsOk;
    hide CallShrinks, SameStop, SameStage, SameLog;
    SubmitKeys(g, p, a, h);
    PlacesAreCalm(g, SubmitMove(p, a), h);
    SubmitMoveShrinks(g, p, a, h);
    CallsNoMore(g, h, Some(p));
    ReleasesNoMore(g, h);
  }

  lemma LaneShrinks(g: Sys, p: nat, a: SubmitAct, h: Sys)
    requires SubmitStep(g, p, a, h) && WayIsOpen(g, p) && Holders(h) == Holders(g)
    requires a.EnterLane? || a.LeaveLane? || a.AbandonLane? || a.SendLane?
    ensures CallShrinks(g, h, p)
  {
    hide Holders, CanFind, Target, CanPass, FenceLetsPass, UnmarkSent;
  }

  lemma SubmitMoveShrinks(g: Sys, p: nat, a: SubmitAct, h: Sys)
    requires SubmitStep(g, p, a, h) && Waiting(g) && Holders(h) == Holders(g)
    ensures CallShrinks(g, h, p)
  {
    hide SubmitStep, CanSubmit, DoSubmit, Holders, CallShrinks, SubsOk, GuardIsHeld;
    assert WayIsOpen(g, p);
    if a.EnterLane? || a.LeaveLane? || a.AbandonLane? || a.SendLane? {
      LaneShrinks(g, p, a, h);
    } else {
      OutsideShrinks(g, p, a, h);
    }
  }

  lemma CleanMoveLeaves(g: Sys, c: nat, a: CleanAct, h: Sys)
    requires CleanStep(g, c, a, h) && Calm(g, CleanMove(c, a), h)
    ensures CallersLeft(h) < CallersLeft(g)
  {
    CleanKeys(g, c, a, h);
    assert GuardIsHeld(g, c);
    assert Holders(h) <= Holders(g);
    assert ReleaseShrinks(g, h, c) by {
      hide Holders, BelowLimit, CanFind, FreshLane, HasLiveQueue, Target;
      if !(a.HaltClean? || a.FindClean? || a.CreateClean? || a.LimitClean? || a.ParkClean? || a.ResumeClean?
           || a.BeginClean?) {
        PlaceShrinks(g, c, a, h);
      }
    }
    CallsNoMore(g, h, None);
    assert Sum(CleansLeft(h)) < Sum(CleansLeft(g)) by {
      hide CleanLeft, GuardsCalm, Holders, Sum;
      forall d | 0 <= d < |g.cleans| ensures CleansLeft(h)[d] <= CleansLeft(g)[d] {
        if d != c {
          OtherReleases(g, h, g.cleans[d]);
        }
      }
      assert CleansLeft(h)[c] < CleansLeft(g)[c];
      SumNoMore(CleansLeft(g), CleansLeft(h));
    }
  }

  lemma ProducerMoveLeaves(g: Sys, i: nat, a: WorkerAct, h: Sys)
    requires WorkerStep(g, i, a, h) && CallerMove(WorkerMove(i, a)) && Calm(g, WorkerMove(i, a), h)
    ensures CallersLeft(h) < CallersLeft(g)
  {
    WorkKeys(g, i, a, h);
    PlacesAreCalm(g, WorkerMove(i, a), h);
    assert CallShrinks(g, h, a.step.p) by {
      hide Abandon, AdmitTask, Enqueue, FenceLetsPass, Gate, Holders, PutToken, Send, Take, Turn, Work;
      assert InsideOk(g.lanes[i], i, g.subs);
    }
    CallsNoMore(g, h, Some(a.step.p));
    ReleasesNoMore(g, h);
  }

  lemma HandoffLeaves(g: Sys, p: nat)
    requires CanNewCleanup(g, p) && Calm(g, CleanCall(p), NewCleanup(g, p))
    ensures CallersLeft(NewCleanup(g, p)) < CallersLeft(g)
  {
    var h := NewCleanup(g, p);
    NewReleaseIsCalm(g, p);
    var x := CleanLeft(h, h.cleans[|g.cleans|]);
    assert Sum(SubmitsLeft(NewCleanup(g, p))) + x < Sum(SubmitsLeft(g)) by {
      hide InsideOk;
      var h := NewCleanup(g, p);
      var more := SubmitsLeft(h)[p := SubmitsLeft(h)[p] + x];
      forall q | 0 <= q < |g.subs| ensures more[q] <= SubmitsLeft(g)[q] {
        if q != p {
          assert SubOk(g.lanes, q, g.subs[q]);
          OtherCalls(g, h, q, g.subs[q], Some(p));
        }
      }
      assert more[p] < SubmitsLeft(g)[p];
      SumNoMore(SubmitsLeft(g), more);
      SumUpdate(SubmitsLeft(h), p, SubmitsLeft(h)[p] + x);
    }
    assert var h := NewCleanup(g, p); Sum(CleansLeft(h)) <= Sum(CleansLeft(g)) + CleanLeft(h, h.cleans[|g.cleans|]) by {
      hide CleanLeft, GuardsCalm, Holders, Sum;
      var h := NewCleanup(g, p);
      var former := CleansLeft(h)[..|g.cleans|];
      forall c | 0 <= c < |g.cleans| ensures former[c] <= CleansLeft(g)[c] {
        OtherReleases(g, h, g.cleans[c]);
      }
      SumNoMore(CleansLeft(g), former);
      SumMore(former, CleanLeft(h, h.cleans[|g.cleans|]));
      assert CleansLeft(h) == former + [CleanLeft(h, h.cleans[|g.cleans|])];
    }
  }

  lemma {:induction false} SumUpdate(a: seq<int>, i: nat, x: int)
    requires i < |a|
    ensures Sum(a[i := x]) == Sum(a) - a[i] + x
  {
    var n := |a| - 1;
    if i == n {
      assert a[i := x][..n] == a[..n];
    } else {
      assert a[i := x][..n] == a[..n][i := x];
      SumUpdate(a[..n], i, x);
    }
  }

  /** While a stop waits for the fence, each move of a caller leaves the callers less to do. */
  lemma CallerMoveShrinks(g: Sys, m: Move, h: Sys)
    requires Steps(g, m, h) && Waiting(g) && CallerMove(m)
    ensures CallersLeft(h) < CallersLeft(g)
  {
    hide *;
    StepOf(g, m, h);
    MoveIsCalm(g, m, h);
    match m
    case SubmitMove(p, a) => SubmitMoveLeaves(g, p, a, h);
    case CleanMove(c, a) => CleanMoveLeaves(g, c, a, h);
    case WorkerMove(i, a) => ProducerMoveLeaves(g, i, a, h);
    case CleanCall(p) =>
      HandoffLeaves(g, p);
    case _ => NoCaller(m);
  }

  lemma NoCaller(m: Move)
    requires CallerMove(m)
    ensures m.SubmitMove? || m.CleanMove? || m.CleanCall? || m.WorkerMove?
  {
  }

  // ----- every other move leaves them no more to do -----

  /** A call that comes after stop is refused; a closing one still has its release to hand over. */
  function NewCallLeft(g: Sys): int {
    24 + 2 * Holders(g)
  }

  lemma NewCallLeaves(g: Sys, key: Key, closing: bool)
    requires g.ctl.stopped
    ensures var h := NewSubmit(g, key, closing);
            CallersLeft(h) <= CallersLeft(g) + NewCallLeft(g) && Holders(h) == Holders(g)
  {
    var h := NewSubmit(g, key, closing);
    var x := SubmitLeft(h, |g.subs|, h.subs[|g.subs|]);
    forall p | 0 <= p < |g.subs| ensures SubmitLeft(h, p, h.subs[p]) == SubmitLeft(g, p, g.subs[p]) {
    }
    forall c | 0 <= c < |g.cleans| ensures CleanLeft(h, h.cleans[c]) == CleanLeft(g, g.cleans[c]) {
    }
    assert SubmitsLeft(h) == SubmitsLeft(g) + [x];
    assert CleansLeft(h) == CleansLeft(g);
    SumMore(SubmitsLeft(g), x);
  }

  // ----- over a run -----

  /** How many of the moves from m to n are moves of callers. */
  function CallerMoves(moves: seq<Move>, m: nat, n: nat): nat
    requires m <= n <= |moves|
    decreases n
  {
    if m == n then 0 else CallerMoves(moves, m, n - 1) + (if CallerMove(moves[n - 1]) then 1 else 0)
  }

  /** How many submit calls come between. */
  function NewCalls(moves: seq<Move>, m: nat, n: nat): nat
    requires m <= n <= |moves|
    decreases n
  {
    if m == n then 0 else NewCalls(moves, m, n - 1) + (if moves[n - 1].SubmitCall? then 1 else 0)
  }

  ghost predicate LeavesLess(g: Sys, m: Move, h: Sys) {
    && Holders(h) <= Holders(g)
    && CallersLeft(h) + (if CallerMove(m) then 1 else 0)
       <= CallersLeft(g) + (if m.SubmitCall? then NewCallLeft(g) else 0)
  }

  lemma OneMoveLeaves(g: Sys, m: Move, h: Sys)
    requires Steps(g, m, h) && Waiting(g)
    ensures LeavesLess(g, m, h)
  {
    hide Steps, Can, Do, CanSubmit, DoSubmit, CanClean, DoClean, CanWorker, DoWorker, CanSection, DoSection, CanStop;
    hide DoStop;
    hide WayIsOpen, GuardIsHeld, SubsOk, Holders, NewCallLeft, Sum, CleansLeft, SubmitsLeft, LanesCalm, SameStage;
    MoveIsCalm(g, m, h);
    if m.SubmitCall? {
      StepOf(g, m, h);
      NewCallLeaves(g, m.key, m.closing);
    } else if CallerMove(m) {
      CallerMoveShrinks(g, m, h);
    } else {
      MoveKeys(g, m, h);
      NobodyMoves(m);
      CallsNoMore(g, h, None);
      ReleasesNoMore(g, h);
    }
  }

  lemma NobodyMoves(m: Move)
    requires !CallerMove(m)
    ensures MoverOf(m) == None && !m.SubmitMove? && !m.CleanMove? && !m.CleanCall?
  {
  }

  ghost predicate OpenAt(states: seq<Sys>, n: nat) {
    n < |states| && states[n].ctl.stopped && !states[n].ctl.fence
  }

  ghost predicate FenceOpen(states: seq<Sys>, m: nat, n: nat) {
    m <= n < |states| && forall k: nat :: m <= k < n ==> OpenAt(states, k)
  }

  lemma OpenFenceOfInv(g: Sys)
    requires Inv(g) && g.ctl.stopped && !g.ctl.fence
    ensures Waiting(g)
  {
    forall p: nat | p < |g.subs| ensures WayIsOpen(g, p) {
      assert SubOk(g.lanes, p, g.subs[p]);
      assert SubOk(g.lanes, p, g.subs[p]);
      if CanFind(g, g.subs[p].key) {
        LaneIsOpen(g.lanes[Target(g, g.subs[p].key)]);
      }
      if g.subs[p].pc.InLane? {
        LaneIsOpen(g.lanes[g.subs[p].pc.lane]);
      }
    }
    forall s | 0 <= s < |g.stops| ensures !g.stops[s].Closing? {
      assert StopPcOk(g.cfg, g.ctl, g.reg, g.stops[s]);
    }
  }

  /**
   However calls, releases and everything else interleave while a stop waits for the submit fence, the callers make
   at most as many moves as they had left, plus a fixed number for every call that comes meanwhile.
   */
  lemma {:induction false} CallerRunIsBounded(states: seq<Sys>, moves: seq<Move>, m: nat, n: nat)
    requires IsRun(states, moves) && FenceOpen(states, m, n)
    ensures n <= |moves|
    ensures Holders(states[n]) <= Holders(states[m])
    ensures CallerMoves(moves, m, n) + CallersLeft(states[n])
            <= CallersLeft(states[m]) + NewCallLeft(states[m]) * NewCalls(moves, m, n)
    decreases n
  {
    hide StepAt, Steps, Inv, Holders, CallersLeft, CallerMove, NewCallLeft, Waiting, LeavesLess;
    if m < n {
      CallerRunIsBounded(states, moves, m, n - 1);
      MoveOfRun(states, moves, n - 1);
      assert OpenAt(states, n - 1);
      RunInv(states, moves, n - 1);
      OpenFenceOfInv(states[n - 1]);
      OneMoveLeaves(states[n - 1], moves[n - 1], states[n]);
      AddMove(states[m], states[n - 1], moves[n - 1], states[n], CallerMoves(moves, m, n - 1),
              NewCalls(moves, m, n - 1));
    }
  }

  /** One more move of the run, counted. */
  lemma AddMove(start: Sys, g: Sys, m: Move, h: Sys, moved: nat, called: nat)
    requires LeavesLess(g, m, h) && Holders(g) <= Holders(start)
    requires moved + CallersLeft(g) <= CallersLeft(start) + NewCallLeft(start) * called
    ensures Holders(h) <= Holders(start)
    ensures moved + (if CallerMove(m) then 1 else 0) + CallersLeft(h)
            <= CallersLeft(start) + NewCallLeft(start) * (called + (if m.SubmitCall? then 1 else 0))
  {
    hide CallersLeft, CallerMove, Holders;
    var x, k := NewCallLeft(start), if m.SubmitCall? then 1 else 0;
    assert x * (called + k) == x * called + x * k;
  }

  /** And the wait can always go on until the fence is closed, and closed over nobody. */
  lemma {:induction false} FenceCloses(g: Sys) returns (h: Sys)
    requires Reachable(g) && g.ctl.stopped
    ensures Reachable(h) && Leads(g, h) && h.ctl.fence && h.ctl.loose == g.ctl.loose && h.stops == g.stops
    decreases CallersLeft(g)
  {
    hide Reachable, Leads, Can, Do, Awaited, Inv, Waiting, CallersLeft, CallerMove, Alive, ClosesEarly;
    h := g;
    if g.ctl.fence {
      LeadsSelf(g);
    } else {
      LeftIsNonNegative(g);
      FenceWaitIsNeverStuck(g);
      ReachableInv(g);
      OpenFenceOfInv(g);
      var m :| Awaited(g, m) && Can(g, m) && !ClosesEarly(g, m);
      var next := Do(g, m);
      AwaitedIsCaller(g, m);
      CallerMoveShrinks(g, m, next);
      LeadsStep(g, m, next);
      LeadsReach(g, next);
      LooseStep(g, m, next);
      StopStays(g, m, next);
      h := FenceCloses(next);
      LeadsOn(g, next, h);
    }
  }

  lemma AwaitedIsCaller(g: Sys, m: Move)
    requires Awaited(g, m)
    ensures CallerMove(m)
  {
  }

  lemma StopStays(g: Sys, m: Move, h: Sys)
    requires Steps(g, m, h) && g.ctl.stopped && CallerMove(m)
    ensures h.ctl.stopped && h.stops == g.stops
  {
    hide Steps, Can, Do, SameStage, OthersStay, OtherCleansStay, OnlyPlaces, SameDuty, SameLog, OffLaneShrinks;
    MoveKeys(g, m, h);
  }
}
