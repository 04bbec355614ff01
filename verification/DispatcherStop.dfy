/** Tracked releases, the steps of a stop, and what a successful stop has shut down. */
module DispatcherStop {
  import opened Queues
  import opened Lanes
  import opened LaneFrame
  import opened LaneInvariant
  import opened Dispatcher
  import opened DispatcherFrame
  import opened DispatcherFence
  import opened DispatcherRegistry

  // ----- what only ever goes up -----

  ghost predicate Latches(g: Sys, h: Sys) {
    && (g.ctl.stopped ==> h.ctl.stopped) && (g.ctl.hard ==> h.ctl.hard)
    && (g.ctl.fence ==> h.ctl.fence) && (g.ctl.loose ==> h.ctl.loose)
    && (g.reg.stopping ==> h.reg.stopping) && (g.life.sealed ==> h.life.sealed)
    && |g.cleans| <= |h.cleans| && |g.subs| <= |h.subs|
  }

  lemma LatchesHold(g: Sys, m: Move, h: Sys)
    requires Steps(g, m, h) && RegOk(g)
    ensures Latches(g, h)
  {
    hide Steps, Can, Do, QueueMapOk, GateOk, GuardsOk, ClosedOk, AimsOk, StopsOk, SameStage;
    MoveKeys(g, m, h);
  }

  // ----- tracked releases -----

  predicate IsTracked(pc: CleanPc) {
    pc.Tracked?
  }

  /** Positions past the refusal of beginSubmit exist only after stop; in a Sharded engine so does a refused enqueue. */
  predicate AfterPc(dynamic: bool, pc: CleanPc) {
    || pc.AfterStop? || pc.FenceLane? || pc.OffLane? || pc.Tracked? || pc.Untracked?
    || (!dynamic && (pc == EndingReg(false) || (pc.TestedReg? && !pc.placed)))
  }

  ghost predicate PcsOk(cfg: Config, stopped: bool, sealed: bool, cleans: seq<Cleaner>) {
    forall c :: 0 <= c < |cleans| ==>
      && (AfterPc(cfg.dynamic, cleans[c].pc) ==> stopped)
      && (cleans[c].pc.Untracked? ==> sealed)
  }

  /** The count is exactly the number of tracked releases still running, and it is zero once sealed. */
  ghost predicate LifeOk(g: Sys) {
    && g.life.count == CleansAt(g.cleans, IsTracked)
    && (g.life.sealed ==> g.life.count == 0)
    && PcsOk(g.cfg, g.ctl.stopped, g.life.sealed, g.cleans)
  }

  /** A lane that takes no more releases has been retired or closed by a stop. */
  lemma RefusingLaneIsShut(l: Lane)
    requires LaneInv(l) && !TakesCleanup(l.q)
    ensures l.q.retired || l.q.chClosed
  {
  }

  /** Most moves of a release need no knowledge of the lanes. */
  ghost predicate StaysAfter(g: Sys, h: Sys, c: nat) {
    && c < |g.cleans| && c < |h.cleans|
    && ((AfterPc(g.cfg.dynamic, g.cleans[c].pc) ==> g.ctl.stopped) ==>
          (AfterPc(g.cfg.dynamic, h.cleans[c].pc) ==> g.ctl.stopped))
  }

  lemma EasyPcs(g: Sys, c: nat, a: CleanAct, h: Sys)
    requires CleanStep(g, c, a, h) && !a.EnqueueClean? && !a.Guard?
    requires CtlOk(g.ctl, g.subs, g.cleans) && (g.reg.stopping ==> g.ctl.fence)
    ensures StaysAfter(g, h, c)
  {
    hide BelowLimit, AdmissionOf, TestFence, Enqueue, CanEnqueue, TakesCleanup, CanFind, Target, FreshLane;
    hide HasLiveQueue, SubmitsIn, CleansAt;
  }

  lemma StoppingIsFenced(g: Sys)
    requires RegOk(g)
    ensures g.reg.stopping ==> g.ctl.fence
  {
  }

  lemma GuardPcs(g: Sys, c: nat)
    requires CanCleanGuard(g, c) && RegOk(g)
    ensures StaysAfter(g, CleanGuard(g, c), c)
  {
    assert g.cfg.dynamic;
  }

  ghost predicate CountsTracked(g: Sys, h: Sys, c: nat) {
    && c < |g.cleans| && c < |h.cleans|
    && h.life.count
       == g.life.count + (if IsTracked(h.cleans[c].pc) then 1 else 0) - (if IsTracked(g.cleans[c].pc) then 1 else 0)
    && (h.cleans[c].pc.Untracked? ==> g.life.sealed)
    && (IsTracked(h.cleans[c].pc) ==> !g.life.sealed)
  }

  lemma CleanCounting(g: Sys, c: nat, a: CleanAct, h: Sys)
    requires CleanStep(g, c, a, h)
    ensures CountsTracked(g, h, c)
  {
    hide Enqueue, CanEnqueue, TakesCleanup, CanFind, Target, FreshLane, HasLiveQueue, GuardRefused, TestFence;
  }

  lemma PcsUpdate(cfg: Config, stopped: bool, sealed: bool, cleans: seq<Cleaner>, c: nat, x: Cleaner)
    requires PcsOk(cfg, stopped, sealed, cleans) && c < |cleans|
    requires (AfterPc(cfg.dynamic, x.pc) ==> stopped) && (x.pc.Untracked? ==> sealed)
    ensures PcsOk(cfg, stopped, sealed, cleans[c := x])
  {
  }

  lemma CleanPcs(g: Sys, c: nat, a: CleanAct, h: Sys)
    requires CleanStep(g, c, a, h) && RegOk(g) && CtlOk(g.ctl, g.subs, g.cleans) && LanesOk(g.cfg, g.lanes)
    ensures StaysAfter(g, h, c)
  {
    hide *;
    CleanStepOf(g, c, a, h);
    match a
    case EnqueueClean => EnqueuePcs(g, c);
    case Guard => GuardPcs(g, c);
    case _ =>
      StoppingIsFenced(g);
      EasyPcs(g, c, a, h);
  }

  lemma EnqueuePcs(g: Sys, c: nat)
    requires CanCleanEnqueue(g, c) && RegOk(g) && CtlOk(g.ctl, g.subs, g.cleans) && LanesOk(g.cfg, g.lanes)
    ensures StaysAfter(g, CleanEnqueue(g, c), c)
  {
    var i := g.cleans[c].pc.lane;
    assert LaneInv(g.lanes[i]);
    if !TakesCleanup(g.lanes[i].q) {
      RefusingLaneIsShut(g.lanes[i]);
    }
  }

  lemma CleanLifeOk(g: Sys, c: nat, a: CleanAct, h: Sys)
    requires CleanStep(g, c, a, h) && LifeOk(g) && RegOk(g) && CtlOk(g.ctl, g.subs, g.cleans) && LanesOk(g.cfg, g.lanes)
    ensures LifeOk(h)
  {
    hide CleanStep, CanClean, DoClean, RegOk, CtlOk, LanesOk, AfterPc, IsTracked;
    CleanPcs(g, c, a, h);
    CleanKeys(g, c, a, h);
    CleanCounting(g, c, a, h);
    CleansAtUpdate(g.cleans, c, h.cleans[c], IsTracked);
    PcsUpdate(g.cfg, g.ctl.stopped, g.life.sealed, g.cleans, c, h.cleans[c]);
  }

  lemma LifeCall(g: Sys, p: nat)
    requires CanNewCleanup(g, p) && LifeOk(g)
    ensures LifeOk(NewCleanup(g, p))
  {
  }

  lemma LifeKept(g: Sys, m: Move, h: Sys)
    requires Steps(g, m, h) && LifeOk(g) && RegOk(g) && CtlOk(g.ctl, g.subs, g.cleans) && LanesOk(g.cfg, g.lanes)
    ensures LifeOk(h)
  {
    hide *;
    StepOf(g, m, h);
    match m
    case CleanMove(c, a) => CleanLifeOk(g, c, a, h);
    case CleanCall(p) => LifeCall(g, p);
    case _ => ElsewhereLife(g, m, h);
  }

  lemma ElsewhereLife(g: Sys, m: Move, h: Sys)
    requires Steps(g, m, h) && !m.CleanMove? && !m.CleanCall? && LifeOk(g)
    ensures LifeOk(h)
  {
    MoveKeys(g, m, h);
    assert LifeOk(h) by {
      CleansAtSame(g.cleans, h.cleans, IsTracked);
    }
  }

  // ----- stop -----

  ghost predicate AllShut(lanes: seq<Lane>) {
    forall i :: 0 <= i < |lanes| ==> lanes[i].q.closed
  }

  /** A stop call that is closing lanes has the open ones still on its list; once it waits, none is open. */
  ghost predicate StopReached(g: Sys, pc: StopPc) {
    match pc
    case Closing(todo) =>
      (forall i :: i in todo ==> i < |g.lanes|) && forall i :: 0 <= i < |g.lanes| ==> g.lanes[i].q.closed || i in todo
    case AwaitWorkers => AllShut(g.lanes)
    case AwaitSections => AllShut(g.lanes) && AllExited(g.lanes)
    case AwaitLife => AllShut(g.lanes) && AllExited(g.lanes) && g.sec.pc.NoSection?
    case Won => AllShut(g.lanes) && g.life.sealed
    case Over(released) => released ==> g.releases == 1
    case _ => true
  }

  ghost predicate Shut(g: Sys) {
    g.ctl.stopped && g.ctl.fence && (g.cfg.dynamic ==> g.reg.stopping)
  }

  /** Sealing means that nothing of the engine is left running, and the engine is released at most once, after it. */
  ghost predicate StopOk(g: Sys) {
    && (forall s :: 0 <= s < |g.stops| ==> StopReached(g, g.stops[s]))
    && (g.life.sealed ==> Shut(g) && AllExited(g.lanes) && g.sec.pc.NoSection?)
    && g.releases <= 1 && (g.releases > 0 ==> g.life.sealed)
  }

  /** No lane opens again, and no worker that has exited comes back. */
  ghost predicate Winds(before: seq<Lane>, after: seq<Lane>) {
    && |after| == |before|
    && (forall i :: 0 <= i < |before| && before[i].q.closed ==> after[i].q.closed)
    && (forall i :: 0 <= i < |before| && before[i].q.workerExited ==> after[i].q.workerExited)
  }

  lemma ExitedStays(l: Lane, sig: Signals, s: LaneStep)
    requires CanStep(l, sig, s) && LaneInv(l) && !s.ByGate?
    ensures l.q.closed ==> Step(l, sig, s).q.closed
    ensures l.q.workerExited ==> Step(l, sig, s).q.workerExited
  {
    hide CanStep, Step, LaneInv, CanProduce, Produce, Take, CanTurn, CanWork, CanEnqueue;
    StepIs(l, sig, s);
    StepFixed(l, sig, s);
    if l.q.workerExited {
      ExitedIsIdle(l, sig);
      if s.ByProducer? {
        ProduceFixed(l, sig, s.p, s.act);
      }
    }
  }

  lemma ExitedIsIdle(l: Lane, sig: Signals)
    requires LaneInv(l) && l.q.workerExited
    ensures !CanTake(l) && (forall a :: !CanTurn(l, sig, a)) && (forall a :: !CanWork(l, a))
    ensures (forall key :: !CanEnqueue(l, key))
  {
  }

  lemma LanesWind(g: Sys, m: Move, h: Sys)
    requires Steps(g, m, h) && LanesOk(g.cfg, g.lanes) && !Creates(m)
    ensures Winds(g.lanes, h.lanes)
  {
    hide Steps, Can, Do, CanProduce, Produce, CanTurn, Turn, CanWork, Work, Take, Enqueue, LaneInv, FreshLane, LaneFits;
    LanesAfter(g, m, h);
    if LaneOf(g, m).OneLane? {
      var l, s := g.lanes[LaneOf(g, m).i], LaneOf(g, m).s;
      if !s.ByGate? {
        ExitedStays(l, Sig(g.ctl), s);
      }
    }
  }

  lemma NothingCreated(g: Sys, m: Move, h: Sys)
    requires Steps(g, m, h) && Shut(g)
    ensures !Creates(m)
  {
    hide Do, DoSubmit, DoClean, CanStep, Step, CanWorker, CanSection, CanStop, BelowLimit, HasLiveQueue;
  }

  /** What a stop has shut stays shut. */
  ghost predicate StaysShut(g: Sys, h: Sys) {
    Shut(g) ==> Shut(h) && Winds(g.lanes, h.lanes) && (g.sec.pc.NoSection? ==> h.sec.pc.NoSection?)
  }

  lemma ShutStays(g: Sys, m: Move, h: Sys)
    requires Steps(g, m, h) && RegOk(g) && LanesOk(g.cfg, g.lanes)
    ensures StaysShut(g, h) && Latches(g, h)
  {
    hide Do;
    LatchesHold(g, m, h);
    LanesAfter(g, m, h);
    if Shut(g) {
      NothingCreated(g, m, h);
      LanesWind(g, m, h);
      if g.sec.pc.NoSection? {
        if !m.SectionMove? {
          MoveKeys(g, m, h);
        }
      }
    }
  }

  lemma ReachedKept(g: Sys, h: Sys, pc: StopPc)
    requires StopReached(g, pc) && StopPcOk(g.cfg, g.ctl, g.reg, pc) && StaysShut(g, h) && Latches(g, h)
    requires g.releases == 1 ==> h.releases == 1
    ensures StopReached(h, pc)
  {
  }

  ghost predicate MappedOrShut(g: Sys) {
    forall i :: 0 <= i < |g.lanes| ==> Mapped(g, i) || g.lanes[i].q.closed
  }

  lemma UnmappedIsShut(g: Sys)
    requires RegOk(g) && LanesOk(g.cfg, g.lanes)
    ensures MappedOrShut(g)
  {
    hide GateOk, GuardsOk, ClosedOk, ShardedOk, AimsOk, StopsOk, LaneFits;
    forall i | 0 <= i < |g.lanes| ensures Mapped(g, i) || g.lanes[i].q.closed {
      assert LaneInv(g.lanes[i]);
    }
  }

  /** Stop call s alone has moved, to something it has reached. */
  ghost predicate StopGoes(g: Sys, s: nat, h: Sys) {
    && s < |g.stops| && |h.stops| == |g.stops| && h.stops == g.stops[s := h.stops[s]] && StopReached(h, h.stops[s])
    && h.releases <= 1 && h.releases >= g.releases && (h.releases > g.releases ==> g.life.sealed)
    && (h.life.sealed && !g.life.sealed ==> Shut(g) && AllExited(g.lanes) && g.sec.pc.NoSection?)
  }

  lemma StopMoveOk(g: Sys, s: nat, a: StopAct, h: Sys)
    requires StopStep(g, s, a, h) && StopOk(g) && StopsOk(g.cfg, g.ctl, g.reg, g.stops) && MappedOrShut(g)
    ensures StopGoes(g, s, h)
  {
    hide CanClose, Mapped, SignalStopped;
    assert StopReached(g, g.stops[s]) && StopPcOk(g.cfg, g.ctl, g.reg, g.stops[s]);
  }

  lemma OtherStopMove(g: Sys, m: Move, h: Sys)
    requires MoveKeeps(g, m, h) && !m.StopMove?
    ensures h.releases == g.releases && h.life.sealed == g.life.sealed
    ensures h.stops == g.stops || exists hard :: h.stops == g.stops + [Called(hard)]
  {
    hide SameStage, OthersStay;
  }

  lemma StopKept(g: Sys, m: Move, h: Sys)
    requires Steps(g, m, h) && StopOk(g) && RegOk(g) && LanesOk(g.cfg, g.lanes) && LifeOk(g)
    ensures StopOk(h)
  {
    hide Steps, Can, Do, LanesOk, LifeOk, StopReached, SubmitStep, CleanStep, WorkerStep, SectionStep, StopStep;
    hide QueueMapOk, GateOk, GuardsOk, ClosedOk, ShardedOk, AimsOk, StopPcOk, MoveKeeps, NewSubmit, NewCleanup, NewStop;
    hide MappedOrShut, CanNewSubmit, CanNewCleanup, Alive;
    ShutStays(g, m, h);
    StepOf(g, m, h);
    match m {
      case StopMove(s, a) =>
        UnmappedIsShut(g);
        StopMoveOk(g, s, a, h);
      case _ =>
        MoveKeys(g, m, h);
        OtherStopMove(g, m, h);
    }
    forall t | 0 <= t < |h.stops| ensures StopReached(h, h.stops[t]) {
      if t < |g.stops| && h.stops[t] == g.stops[t] {
        ReachedKept(g, h, g.stops[t]);
      } else if t >= |g.stops| {
        assert StopReached(h, h.stops[t]) by { CalledReached(h, h.stops[t]); }
      }
    }
  }

  lemma CalledReached(g: Sys, pc: StopPc)
    requires pc.Called?
    ensures StopReached(g, pc)
  {
  }
}
