/** The exclusive section: which lanes it has stopped, which releases it holds back, and what can still run. */
module DispatcherSection {
  import opened RoutingKeys
  import opened Queues
  import opened Lanes
  import opened LaneFrame
  import opened LaneInvariant
  import opened Dispatcher
  import opened DispatcherFrame
  import opened DispatcherFence
  import opened DispatcherRegistry
  import opened DispatcherStop
  import opened DispatcherPlaces

  // ----- what one lane owes the section -----

  predicate AtBarrier(l: Lane, id: nat) {
    l.worker.Barrier? && l.worker.section == id
  }

  /** Nothing the worker can take comes before the barrier. */
  predicate BarrierFirst(l: Lane, id: nat) {
    && l.worker == Top(false) && l.q.backlog != []
    && IsBarrierKey(l.q.backlog[0].key) && l.q.backlog[0].id == id
    && l.q.backlog[0].cutoff == 0 && !l.q.backlog[0].fence
  }

  predicate Gathered(pc: SectionPc) {
    pc.Parking? || pc.Checking? || pc.FnRunning?
  }

  predicate IsBarrierOf(e: Entry, id: nat) {
    IsBarrierKey(e.key) && e.id == id
  }

  ghost predicate HoldsBarrier(l: Lane, id: nat) {
    AtBarrier(l, id) || exists j :: 0 <= j < |l.q.backlog| && IsBarrierOf(l.q.backlog[j], id)
  }

  ghost predicate NoFenceEntry(backlog: seq<Entry>) {
    forall j :: 0 <= j < |backlog| ==> !backlog[j].fence
  }

  ghost predicate NoBarrierQueued(backlog: seq<Entry>) {
    forall j :: 0 <= j < |backlog| ==> !IsBarrierKey(backlog[j].key)
  }

  /**
   A lane counted by the section has its barrier queued or in hand; a worker parked at it is counted as parked; a lane
   that is being retired, or has been, is at no barrier; before stop no release waits for the submit fence.
   */
  ghost predicate LaneHolds(l: Lane, i: nat, sec: Section, stopped: bool) {
    && (i in sec.took ==> HoldsBarrier(l, sec.id))
    && (AtBarrier(l, sec.id) && l.worker.at.Parked? ==> i in sec.parked)
    && (l.worker.Barrier? ==> !l.q.retired && !l.gateHeld)
    && (l.gateHeld ==> NoBarrierQueued(l.q.backlog))
    && (!stopped ==> NoFenceEntry(l.q.backlog))
  }

  ghost predicate LaneSec(l: Lane, i: nat, sec: Section, stopped: bool) {
    LaneDuty(l, i, sec, stopped) && LaneHolds(l, i, sec, stopped)
  }

  /** Lanes below `base` existed when the section was installed; the others were born with its barrier queued. */
  ghost predicate LaneDuty(l: Lane, i: nat, sec: Section, stopped: bool) {
    && (forall j :: 0 <= j < |l.q.backlog| && IsBarrierKey(l.q.backlog[j].key) ==>
          l.q.backlog[j].id <= sec.id && (l.q.backlog[j].id == sec.id ==> i in sec.took))
    && (l.worker.Barrier? ==> l.worker.section <= sec.id && (l.worker.section == sec.id ==> i in sec.took))
    && (i in sec.parked ==> AtBarrier(l, sec.id) && l.worker.at.Parked?)
    && (sec.active && i < sec.base && i !in sec.took ==> i in sec.todo || l.q.retired || stopped)
    && (sec.pc.FnRunning? && i < sec.base && i !in sec.took ==> l.q.retired)
    && ((sec.pc.Checking? || sec.pc.FnRunning?) && i < sec.base && i in sec.took ==> i in sec.parked)
    && (sec.active && i >= sec.base ==> i in sec.took && (AtBarrier(l, sec.id) || BarrierFirst(l, sec.id)))
  }

  // ----- the section's bookkeeping -----

  ghost predicate SetsOk(sec: Section, lanes: seq<Lane>) {
    && sec.expected == |sec.took| && sec.parkedCount == |sec.parked|
    && sec.parked <= sec.took && sec.took !! sec.todo
    && (forall i :: i in sec.took ==> i < |lanes|)
    && (forall i :: i in sec.todo ==> i < sec.base)
    && sec.base <= |lanes|
    && (sec.pc.NoSection? || sec.pc.Registered? ==> sec.took == {} && sec.todo == {})
    && (Gathered(sec.pc) ==> sec.todo == {})
  }

  /** No release runs off-lane from the moment the section has waited for those it found. */
  ghost predicate OffLaneOk(cfg: Config, reg: Registry, life: Life, sec: Section) {
    && (sec.active && cfg.dynamic ==> reg.retiring.None?)
    && (sec.pc.AwaitOffLane? ==>
          (forall k :: k in reg.guards ==> reg.guards[k] in sec.pc.guards) && (life.count > 0 ==> sec.pc.tracked))
    && (sec.pc.Enqueuing? || Gathered(sec.pc) ==> reg.guards == map[] && life.count == 0)
  }

  /** Before stop, a key whose release the section holds has no guard and no live lane older than the section. */
  ghost predicate KeyIdle(lanes: seq<Lane>, reg: Registry, base: nat, key: Key) {
    && key !in reg.guards
    && forall i :: 0 <= i < |lanes| && i < base && Serves(lanes[i].route, key) ==> lanes[i].q.retired
  }

  predicate HeldBack(sec: Section, c: nat) {
    c in Deferred(sec) || (sec.pc.RunningPostponed? && sec.pc.release == c)
  }

  ghost predicate IdleOrStopped(g: Sys, c: nat) {
    c < |g.cleans| && (g.ctl.stopped || KeyIdle(g.lanes, g.reg, g.sec.base, g.cleans[c].key))
  }

  ghost predicate DeferredOk(g: Sys) {
    forall c: nat :: HeldBack(g.sec, c) ==> IdleOrStopped(g, c)
  }

  ghost predicate LanesSec(lanes: seq<Lane>, sec: Section, stopped: bool) {
    forall i :: 0 <= i < |lanes| ==> LaneSec(lanes[i], i, sec, stopped)
  }

  ghost predicate SecOk(g: Sys) {
    && SetsOk(g.sec, g.lanes)
    && OffLaneOk(g.cfg, g.reg, g.life, g.sec)
    && DeferredOk(g)
    && LanesSec(g.lanes, g.sec, g.ctl.stopped)
  }

  // ----- one lane, one step -----

  /** Steps after which every entry, and a worker at its place, is where it was. */
  ghost predicate SameBarriers(l: Lane, m: Lane) {
    && |m.q.backlog| == |l.q.backlog| && m.q.retired == l.q.retired && m.gateHeld == l.gateHeld
    && (forall j :: 0 <= j < |l.q.backlog| ==>
          && m.q.backlog[j].id == l.q.backlog[j].id && m.q.backlog[j].key == l.q.backlog[j].key
          && m.q.backlog[j].cutoff == l.q.backlog[j].cutoff && m.q.backlog[j].fence == l.q.backlog[j].fence)
    && (l.worker.Top? ==> m.worker == l.worker)
    && (l.worker.Barrier? ==> m.worker == l.worker)
    && (m.worker.Barrier? ==> l.worker.Barrier?)
  }

  lemma SameBarriersSec(l: Lane, m: Lane, i: nat, sec: Section, stopped: bool)
    requires LaneSec(l, i, sec, stopped) && SameBarriers(l, m)
    ensures LaneSec(m, i, sec, stopped)
  {
    if j :| 0 <= j < |l.q.backlog| && IsBarrierOf(l.q.backlog[j], sec.id) {
      assert IsBarrierOf(m.q.backlog[j], sec.id);
    }
  }

  lemma ProduceBarriers(l: Lane, sig: Signals, p: nat, a: ProducerAct)
    requires CanProduce(l, sig, p, a)
    ensures SameBarriers(l, Produce(l, sig, p, a))
  {
  }

  lemma TurnBarriers(l: Lane, sig: Signals, a: LoopAct)
    requires CanTurn(l, sig, a)
    ensures SameBarriers(l, Turn(l, sig, a))
  {
  }

  lemma GateSec(l: Lane, a: GateAct, i: nat, sec: Section, stopped: bool)
    requires LaneInv(l) && CanGate(l, a) && LaneSec(l, i, sec, stopped)
    ensures LaneSec(Gate(l, a), i, sec, stopped)
  {
    if j :| 0 <= j < |l.q.backlog| && IsBarrierOf(l.q.backlog[j], sec.id) {
      assert Gate(l, a).q.backlog[j] == l.q.backlog[j];
    }
  }

  lemma StillQueued(l: Lane, m: Lane, id: nat)
    requires HoldsBarrier(l, id) && (AtBarrier(l, id) ==> m.worker == l.worker) && |l.q.backlog| <= |m.q.backlog|
    requires forall j :: 0 <= j < |l.q.backlog| ==> m.q.backlog[j] == l.q.backlog[j]
    ensures HoldsBarrier(m, id)
  {
    if j :| 0 <= j < |l.q.backlog| && IsBarrierOf(l.q.backlog[j], id) {
      assert IsBarrierOf(m.q.backlog[j], id);
    }
  }

  lemma EnqueueSec(l: Lane, id: nat, key: Key, fence: bool, i: nat, sec: Section, stopped: bool)
    requires LaneSec(l, i, sec, stopped) && (fence ==> stopped)
    requires IsBarrierKey(key) ==> id == sec.id && i in sec.took && !l.gateHeld
    ensures LaneSec(Enqueue(l, id, key, fence), i, sec, stopped)
  {
    hide IsBarrierKey, HoldsBarrier;
    var m := Enqueue(l, id, key, fence);
    assert forall j :: 0 <= j < |l.q.backlog| ==> m.q.backlog[j] == l.q.backlog[j];
    if i in sec.took {
      StillQueued(l, m, sec.id);
    }
  }

  /** A barrier queued before any task can always be taken. */
  lemma FirstBarrierIsReady(l: Lane, id: nat)
    requires LaneInv(l) && BarrierFirst(l, id)
    ensures HeadReady(l.q)
  {
  }

  /** The barrier moves up by one, or into the worker's hand. */
  lemma PopBarrier(l: Lane, id: nat)
    requires HoldsBarrier(l, id) && CanTake(l) && l.q.backlog != [] && l.marks != []
    ensures HoldsBarrier(Pop(l), id)
  {
    hide IsBarrierKey;
    var j :| 0 <= j < |l.q.backlog| && IsBarrierOf(l.q.backlog[j], id);
    if j > 0 {
      assert Pop(l).q.backlog[j - 1] == l.q.backlog[j];
    }
  }

  lemma ConvertHolds(l: Lane, sig: Signals, i: nat, sec: Section)
    requires CanTake(l) && LaneHolds(l, i, sec, sig.stopped)
    ensures LaneHolds(ConvertHead(l, sig.fence), i, sec, sig.stopped)
    ensures var c := ConvertHead(l, sig.fence);
            c.worker == l.worker && c.q.retired == l.q.retired && |c.q.backlog| == |l.q.backlog|
  {
    if j :| 0 <= j < |l.q.backlog| && IsBarrierOf(l.q.backlog[j], sec.id) {
      assert IsBarrierOf(ConvertHead(l, sig.fence).q.backlog[j], sec.id);
    }
  }

  lemma TakeHolds(l: Lane, sig: Signals, i: nat, sec: Section)
    requires LaneInv(l) && CanTake(l) && LaneHolds(l, i, sec, sig.stopped)
    ensures LaneHolds(Take(l, sig), i, sec, sig.stopped)
  {
    hide ConvertHead, HoldsBarrier, Ordered, Counted, Linked, PendingOk, KeysOk, WakeOk, FinishingOk;
    ConvertHolds(l, sig, i, sec);
    var c := ConvertHead(l, sig.fence);
    if HeadReady(c.q) && c.marks != [] {
      if i in sec.took {
        PopBarrier(c, sec.id);
      }
    } else if i in sec.took {
      StillQueued(c, LookElsewhere(c), sec.id);
    }
  }

  lemma TakeSec(l: Lane, sig: Signals, i: nat, sec: Section)
    requires LaneInv(l) && CanTake(l) && LaneDuty(l, i, sec, sig.stopped)
    ensures LaneDuty(Take(l, sig), i, sec, sig.stopped)
  {
  }

  lemma WorkSec(l: Lane, sig: Signals, a: WorkAct, i: nat, sec: Section)
    requires CanWork(l, a) && LaneSec(l, i, sec, sig.stopped) && a != WPark
    requires a.WLeaveBarrier? ==> l.worker.section < sec.id
    ensures LaneSec(Work(l, sig, a), i, sec, sig.stopped)
  {
    if j :| 0 <= j < |l.q.backlog| && IsBarrierOf(l.q.backlog[j], sec.id) {
      assert Work(l, sig, a).q.backlog[j] == l.q.backlog[j];
    }
  }

  lemma StepSec(l: Lane, sig: Signals, s: LaneStep, i: nat, sec: Section)
    requires LaneInv(l) && CanStep(l, sig, s) && LaneSec(l, i, sec, sig.stopped)
    requires s.SEnqueue? && IsBarrierKey(s.key) ==> s.id == sec.id && i in sec.took && !l.gateHeld
    requires s == ByWork(WLeaveBarrier) ==> l.worker.section < sec.id
    requires s != ByWork(WPark)
    ensures LaneSec(Step(l, sig, s), i, sec, sig.stopped)
  {
    hide CanStep, Step, CanProduce, Produce, CanTurn, Turn, CanWork, Work, CanTake, Take, Enqueue, Gate;
    hide CanGate, LaneInv, LaneDuty, LaneHolds, SameBarriers;
    StepIs(l, sig, s);
    match s
    case SEnqueue(id, key, fence) =>
      assert fence ==> sig.stopped by { OnlyAfterStop(l, sig, s); }
      EnqueueSec(l, id, key, fence, i, sec, sig.stopped);
    case STake =>
      TakeSec(l, sig, i, sec);
      TakeHolds(l, sig, i, sec);
    case ByWork(a) => WorkSec(l, sig, a, i, sec);
    case ByGate(a) => GateSec(l, a, i, sec, sig.stopped);
    case ByProducer(p, a) =>
      ProduceBarriers(l, sig, p, a);
      SameBarriersSec(l, Produce(l, sig, p, a), i, sec, sig.stopped);
    case ByLoop(a) =>
      TurnBarriers(l, sig, a);
      SameBarriersSec(l, Turn(l, sig, a), i, sec, sig.stopped);
    case SPutToken => TokenSec(l, i, sec, sig.stopped);
  }

  lemma TokenSec(l: Lane, i: nat, sec: Section, stopped: bool)
    requires CanPutToken(l) && LaneSec(l, i, sec, stopped)
    ensures LaneSec(PutToken(l), i, sec, stopped)
  {
    SameBarriersSec(l, PutToken(l), i, sec, stopped);
  }

  lemma OnlyAfterStop(l: Lane, sig: Signals, s: LaneStep)
    requires CanStep(l, sig, s)
    ensures s.SEnqueue? && s.fence ==> sig.stopped
  {
  }

  // ----- moves of everybody but the section -----

  lemma SameDutyLane(l: Lane, i: nat, s: Section, t: Section, before: bool, after: bool)
    requires LaneSec(l, i, s, before) && SameDuty(s, t) && (before ==> after)
    ensures LaneSec(l, i, t, after)
  {
  }

  predicate LeavesBarriers(lm: LaneMove) {
    lm.OneLane? && lm.s.SEnqueue? ==> !IsBarrierKey(lm.s.key)
  }

  /** A barrier is queued by the section only, and left only once the section is over. */
  lemma BarrierSteps(g: Sys, m: Move, h: Sys)
    requires Steps(g, m, h)
    ensures !m.SectionMove? && KeysPlain(g.subs, g.cleans) ==> LeavesBarriers(LaneOf(g, m))
    ensures LeavesLater(g, LaneOf(g, m)) && (!IsPark(m) ==> ParksNobody(LaneOf(g, m)))
  {
    hide Do, CanSubmit, CanSection, CanStop, CanStep, Step, IsBarrierKey;
  }

  predicate ParksNobody(lm: LaneMove) {
    lm.OneLane? ==> lm.s != ByWork(WPark)
  }

  predicate LeavesLater(g: Sys, lm: LaneMove) {
    lm.OneLane? && lm.s == ByWork(WLeaveBarrier) ==>
      lm.i < |g.lanes| && g.lanes[lm.i].worker.Barrier? && g.lanes[lm.i].worker.section < g.sec.id
  }

  lemma LanesSecKept(g: Sys, m: Move, h: Sys)
    requires Steps(g, m, h) && LanesSec(g.lanes, g.sec, g.ctl.stopped) && LanesOk(g.cfg, g.lanes)
    requires KeysPlain(g.subs, g.cleans)
    requires SetsOk(g.sec, g.lanes) && !m.SectionMove? && !Creates(m) && !IsPark(m)
    ensures LanesSec(h.lanes, h.sec, h.ctl.stopped) && SetsOk(h.sec, h.lanes)
  {
    hide Steps, Can, Do, CanStep, Step, LaneInv, LaneSec, LaneFits, LaneOf, Creates, IsPark;
    LanesAfter(g, m, h);
    MoveKeys(g, m, h);
    BarrierSteps(g, m, h);
    forall j | 0 <= j < |h.lanes| ensures LaneSec(h.lanes[j], j, h.sec, h.ctl.stopped) {
      if LaneOf(g, m).OneLane? && LaneOf(g, m).i == j {
        StepSec(g.lanes[j], Sig(g.ctl), LaneOf(g, m).s, j, g.sec);
      }
      SameDutyLane(h.lanes[j], j, g.sec, h.sec, g.ctl.stopped, h.ctl.stopped);
    }
  }

  /** Lanes, section and map are those that CreateQueue makes. */
  ghost predicate IsCreation(g: Sys, m: Move, h: Sys) {
    && Named(g, m) && Creates(m) && NeedsQueue(g, CreatedKey(g, m)) && BelowLimit(g)
    && h == CreateQueue(g, CreatedKey(g, m)).(subs := h.subs, cleans := h.cleans)
  }

  /** A lane born during a section is counted by it and starts with its barrier. */
  lemma CreateSec(g: Sys, m: Move, h: Sys)
    requires IsCreation(g, m, h) && LanesSec(g.lanes, g.sec, g.ctl.stopped) && SetsOk(g.sec, g.lanes) && ShapeOk(g.sec)
    ensures LanesSec(h.lanes, h.sec, h.ctl.stopped) && SetsOk(h.sec, h.lanes)
  {
    var n := |g.lanes|;
    forall j | 0 <= j < |h.lanes| ensures LaneSec(h.lanes[j], j, h.sec, g.ctl.stopped) {
      if j < n {
        assert LaneSec(g.lanes[j], j, g.sec, g.ctl.stopped);
      } else if g.sec.active {
        assert BarrierFirst(h.lanes[n], g.sec.id);
      }
    }
  }

  lemma CreateIsCreate(g: Sys, m: Move, h: Sys)
    requires Steps(g, m, h) && Creates(m)
    ensures IsCreation(g, m, h)
  {
    hide *;
    StepOf(g, m, h);
    match m
    case SubmitMove(p, a) => CreateBySubmit(g, p, a, h);
    case CleanMove(c, a) => CreateByClean(g, c, a, h);
    case _ => OnlyCallsCreate(m);
  }

  lemma OnlyCallsCreate(m: Move)
    requires Creates(m)
    ensures m.SubmitMove? || m.CleanMove?
  {
  }

  lemma CreateBySubmit(g: Sys, p: nat, a: SubmitAct, h: Sys)
    requires SubmitStep(g, p, a, h) && Creates(SubmitMove(p, a))
    ensures IsCreation(g, SubmitMove(p, a), h)
  {
    hide FreshLane, NameQueue, Expect, CanFind;
  }

  lemma CreateByClean(g: Sys, c: nat, a: CleanAct, h: Sys)
    requires CleanStep(g, c, a, h) && Creates(CleanMove(c, a))
    ensures IsCreation(g, CleanMove(c, a), h)
  {
    hide FreshLane, NameQueue, Expect, CanFind;
  }

  lemma ParkSec(g: Sys, m: Move, h: Sys)
    requires IsPark(m) && (m.WorkerMove? ==> WorkerStep(g, m.i, m.worker, h))
    requires LanesSec(g.lanes, g.sec, g.ctl.stopped) && SetsOk(g.sec, g.lanes)
    ensures LanesSec(h.lanes, h.sec, h.ctl.stopped) && SetsOk(h.sec, h.lanes)
  {
    hide CanStep, Step, Take;
    assert h == WorkerPark(g, m.i);
  }

  // ----- moves of the section -----

  /** Lanes that need no barrier when the section is installed have been retired, or a stop has begun. */
  lemma InstallSec(g: Sys)
    requires CanSecInstall(g) && LanesSec(g.lanes, g.sec, g.ctl.stopped) && SetsOk(g.sec, g.lanes)
    requires RegOk(g) && LanesOk(g.cfg, g.lanes) && CtlOk(g.ctl, g.subs, g.cleans)
    ensures var h := SecInstall(g); LanesSec(h.lanes, h.sec, h.ctl.stopped) && SetsOk(h.sec, h.lanes)
  {
    var h := SecInstall(g);
    forall j | 0 <= j < |h.lanes| ensures LaneSec(h.lanes[j], j, h.sec, h.ctl.stopped) {
      assert LaneSec(g.lanes[j], j, g.sec, g.ctl.stopped);
      assert LaneInv(g.lanes[j]);
      if !g.lanes[j].q.retired {
        MappedUnlessRetired(g, j);
      }
    }
  }

  lemma MappedUnlessRetired(g: Sys, i: nat)
    requires RegOk(g) && i < |g.lanes| && !g.lanes[i].q.retired
    ensures Mapped(g, i)
  {
  }

  lemma PutBarrierSec(g: Sys, i: nat)
    requires CanSecEnqueue(g, i) && LanesSec(g.lanes, g.sec, g.ctl.stopped) && SetsOk(g.sec, g.lanes)
    requires TakesCleanup(g.lanes[i].q) && !g.lanes[i].gateHeld
    ensures var h := SecEnqueue(g, i); LanesSec(h.lanes, h.sec, g.ctl.stopped) && SetsOk(h.sec, h.lanes)
  {
    hide HoldsBarrier, BarrierFirst, IsBarrierOf, CanEnqueue;
    var h := SecEnqueue(g, i);
    forall j | 0 <= j < |h.lanes| ensures LaneSec(h.lanes[j], j, h.sec, g.ctl.stopped) {
      assert LaneSec(g.lanes[j], j, g.sec, g.ctl.stopped);
      if j == i {
        BarrierIsQueued(g.lanes[i], g.sec.id);
      }
    }
  }

  lemma BarrierIsQueued(l: Lane, id: nat)
    ensures HoldsBarrier(Enqueue(l, id, Key(ExclusiveBarrier, 0), false), id)
  {
    var b := Enqueue(l, id, Key(ExclusiveBarrier, 0), false).q.backlog;
    assert IsBarrierOf(b[|l.q.backlog|], id);
  }

  lemma SkipBarrierSec(g: Sys, i: nat)
    requires CanSecEnqueue(g, i) && LanesSec(g.lanes, g.sec, g.ctl.stopped) && SetsOk(g.sec, g.lanes)
    requires g.lanes[i].q.retired || g.ctl.stopped
    requires !TakesCleanup(g.lanes[i].q)
    ensures var h := SecEnqueue(g, i); LanesSec(h.lanes, h.sec, g.ctl.stopped) && SetsOk(h.sec, h.lanes)
  {
  }

  lemma SubsetOfSameSize(a: set<nat>, b: set<nat>)
    requires a <= b && |a| >= |b|
    ensures a == b
  {
    assert |b - a| == |b| - |a|;
  }

  lemma GatherSec(g: Sys, a: SectionAct, h: Sys)
    requires SectionStep(g, a, h) && LanesSec(g.lanes, g.sec, g.ctl.stopped) && SetsOk(g.sec, g.lanes)
    requires (a.AllParked? || a.Go?) && ShapeOk(g.sec)
    ensures LanesSec(h.lanes, h.sec, h.ctl.stopped) && SetsOk(h.sec, h.lanes)
  {
    if a.AllParked? {
      SubsetOfSameSize(g.sec.parked, g.sec.took);
    }
    forall j | 0 <= j < |h.lanes| ensures LaneSec(h.lanes[j], j, h.sec, h.ctl.stopped) {
      assert LaneSec(g.lanes[j], j, g.sec, g.ctl.stopped);
    }
  }

  /** A new section starts with no lane, and no lane knows it yet. */
  lemma ResetSec(g: Sys, a: SectionAct, h: Sys)
    requires SectionStep(g, a, h) && (a.Begin? || a.End?) && ShapeOk(g.sec)
    requires LanesSec(g.lanes, g.sec, g.ctl.stopped) && SetsOk(g.sec, g.lanes)
    ensures LanesSec(h.lanes, h.sec, h.ctl.stopped) && SetsOk(h.sec, h.lanes)
  {
    forall j | 0 <= j < |h.lanes| ensures LaneSec(h.lanes[j], j, h.sec, h.ctl.stopped) {
      assert LaneSec(g.lanes[j], j, g.sec, g.ctl.stopped);
    }
  }

  /** The other moves leave the lanes' part of the section alone. */
  lemma PlainSame(g: Sys, a: SectionAct, h: Sys)
    requires SectionStep(g, a, h) && !a.Install? && !a.PutBarrier? && !a.AllParked? && !a.Go?
    requires !a.Begin? && !a.End? && ShapeOk(g.sec)
    ensures var s, t := g.sec, h.sec;
            && t.id == s.id && t.base == s.base && t.todo == s.todo && t.took == s.took && t.parked == s.parked
            && t.expected == s.expected && t.parkedCount == s.parkedCount && (t.active ==> s.active)
            && !t.pc.FnRunning? && !t.pc.Checking? && (Gathered(t.pc) ==> t.todo == {}) && !t.pc.NoSection?
            && !t.pc.Registered?
    ensures h.lanes == g.lanes && h.ctl == g.ctl
  {
  }

  lemma PlainSec(g: Sys, a: SectionAct, h: Sys)
    requires SectionStep(g, a, h) && !a.Install? && !a.PutBarrier? && !a.AllParked? && !a.Go?
    requires LanesSec(g.lanes, g.sec, g.ctl.stopped) && SetsOk(g.sec, g.lanes) && ShapeOk(g.sec)
    ensures LanesSec(h.lanes, h.sec, h.ctl.stopped) && SetsOk(h.sec, h.lanes)
  {
    if a.Begin? || a.End? {
      ResetSec(g, a, h);
    } else {
      PlainSame(g, a, h);
    }
  }

  lemma BarrierSec(g: Sys, i: nat)
    requires CanSecEnqueue(g, i) && LanesSec(g.lanes, g.sec, g.ctl.stopped) && SetsOk(g.sec, g.lanes)
    requires RegOk(g) && LanesOk(g.cfg, g.lanes) && OffLaneOk(g.cfg, g.reg, g.life, g.sec) && ShapeOk(g.sec)
    requires CtlOk(g.ctl, g.subs, g.cleans)
    ensures var h := SecEnqueue(g, i); LanesSec(h.lanes, h.sec, h.ctl.stopped) && SetsOk(h.sec, h.lanes)
  {
    hide LanesSec, SetsOk, LaneInv, TakesCleanup, QueueMapOk, GuardsOk, AimsOk, StopsOk;
    if TakesCleanup(g.lanes[i].q) {
      PutBarrierSec(g, i);
    } else {
      RefusingLaneIsShut(g.lanes[i]);
      SkipBarrierSec(g, i);
    }
  }

  lemma SectionSec(g: Sys, a: SectionAct, h: Sys)
    requires SectionStep(g, a, h) && LanesSec(g.lanes, g.sec, g.ctl.stopped) && SetsOk(g.sec, g.lanes)
    requires RegOk(g) && LanesOk(g.cfg, g.lanes) && CtlOk(g.ctl, g.subs, g.cleans) && ShapeOk(g.sec)
    requires OffLaneOk(g.cfg, g.reg, g.life, g.sec)
    ensures LanesSec(h.lanes, h.sec, h.ctl.stopped) && SetsOk(h.sec, h.lanes)
  {
    hide *;
    SectionStepOf(g, a, h);
    match a
    case Install => InstallSec(g);
    case PutBarrier(i) => BarrierSec(g, i);
    case AllParked => GatherSec(g, a, h);
    case Go => GatherSec(g, a, h);
    case _ => PlainSec(g, a, h);
  }

  // ----- off-lane releases -----

  lemma SectionOffLane(g: Sys, a: SectionAct, h: Sys)
    requires SectionStep(g, a, h) && OffLaneOk(g.cfg, g.reg, g.life, g.sec) && ShapeOk(g.sec) && RegOk(g)
    ensures OffLaneOk(h.cfg, h.reg, h.life, h.sec)
  {
    hide QueueMapOk, GateOk, ClosedOk, ShardedOk, AimsOk, StopsOk, GuardsOk, Enqueue, CanEnqueue, NeedsBarrier;
    hide TakesCleanup;
    assert h.cfg == g.cfg && h.reg == g.reg && h.life == g.life;
    if a.OffLaneDone? {
      NoGuardLeft(g);
    }
  }

  lemma NoGuardLeft(g: Sys)
    requires CanSecWaited(g) && OffLaneOk(g.cfg, g.reg, g.life, g.sec) && GuardsOk(g.reg, g.cleans)
    ensures g.reg.guards == map[]
  {
    forall k ensures k !in g.reg.guards {
      if k in g.reg.guards {
        GuardIsHeld(g, k);
        assert false;
      }
    }
  }

  lemma GuardIsHeld(g: Sys, k: Key)
    requires GuardsOk(g.reg, g.cleans) && k in g.reg.guards
    ensures CleanAt(g, g.reg.guards[k], Guarding)
  {
  }

  lemma OtherOffLane(g: Sys, m: Move, h: Sys)
    requires MoveKeeps(g, m, h) && !m.SectionMove? && OffLaneOk(g.cfg, g.reg, g.life, g.sec) && ShapeOk(g.sec)
    ensures OffLaneOk(h.cfg, h.reg, h.life, h.sec)
  {
    hide OffLaneOk, ShapeOk, OthersStay, OtherCleansStay, OnlyPlaces, SameStop;
    OffLaneFrame(g, h);
  }

  lemma OffLaneFrame(g: Sys, h: Sys)
    requires OffLaneOk(g.cfg, g.reg, g.life, g.sec) && ShapeOk(g.sec)
    requires h.cfg == g.cfg && h.sec.pc == g.sec.pc && h.sec.active == g.sec.active
    requires g.sec.active && g.reg.retiring.None? ==> h.reg.retiring.None?
    requires g.sec.active ==>
               && (forall k :: k in h.reg.guards ==> k in g.reg.guards && h.reg.guards[k] == g.reg.guards[k])
               && h.life.count <= g.life.count
    ensures OffLaneOk(h.cfg, h.reg, h.life, h.sec)
  {
  }

  /** What the section knows of its lanes and of the releases off their lanes. */
  lemma DutiesKept(g: Sys, m: Move, h: Sys)
    requires Steps(g, m, h) && LanesSec(g.lanes, g.sec, g.ctl.stopped) && SetsOk(g.sec, g.lanes)
    requires RegOk(g) && LanesOk(g.cfg, g.lanes) && CtlOk(g.ctl, g.subs, g.cleans) && ShapeOk(g.sec)
    requires KeysPlain(g.subs, g.cleans)
    requires OffLaneOk(g.cfg, g.reg, g.life, g.sec)
    ensures LanesSec(h.lanes, h.sec, h.ctl.stopped) && SetsOk(h.sec, h.lanes) && OffLaneOk(h.cfg, h.reg, h.life, h.sec)
  {
    hide *;
    StepOf(g, m, h);
    MoveKeys(g, m, h);
    match m
    case SectionMove(a) =>
      SectionSec(g, a, h);
      SectionOffLane(g, a, h);
    case _ =>
      OtherOffLane(g, m, h);
      if Creates(m) {
        CreateIsCreate(g, m, h);
        CreateSec(g, m, h);
      } else if IsPark(m) {
        ParkSec(g, m, h);
      } else {
        LanesSecKept(g, m, h);
      }
  }

  // ----- releases held back -----

  /** Lanes are only added past the section's base, keep their route, and stay retired. */
  ghost predicate LanesGrow(before: seq<Lane>, after: seq<Lane>) {
    && |before| <= |after|
    && forall i :: 0 <= i < |before| ==>
         after[i].route == before[i].route && (before[i].q.retired ==> after[i].q.retired)
  }

  lemma RetiredStays(l: Lane, sig: Signals, s: LaneStep)
    requires CanStep(l, sig, s) && l.q.retired
    ensures Step(l, sig, s).q.retired
  {
    if !s.ByGate? {
      StepFixed(l, sig, s);
    }
  }

  lemma LanesGrowAlways(g: Sys, m: Move, h: Sys)
    requires Steps(g, m, h)
    ensures LanesGrow(g.lanes, h.lanes)
  {
    hide Steps, Can, Do, CanStep, Step, FreshLane, SameInside, MovesProducer;
    LanesAfter(g, m, h);
    if !Creates(m) && LaneOf(g, m).OneLane? {
      var i, s := LaneOf(g, m).i, LaneOf(g, m).s;
      StepFixed(g.lanes[i], Sig(g.ctl), s);
      if g.lanes[i].q.retired {
        RetiredStays(g.lanes[i], Sig(g.ctl), s);
      }
    }
  }

  lemma IdleGrows(before: seq<Lane>, after: seq<Lane>, r: Registry, s: Registry, base: nat, key: Key)
    requires KeyIdle(before, r, base, key) && LanesGrow(before, after) && base <= |before|
    requires forall k :: k in s.guards ==> k in r.guards
    ensures KeyIdle(after, s, base, key)
  {
  }

  /** Release c had nothing to wait for but the section, which has not changed. */
  ghost predicate WasIdle(g: Sys, h: Sys, c: nat) {
    h.sec.base == g.sec.base && g.sec.active && IdleOrStopped(g, c)
  }

  lemma SectionHolds(g: Sys, a: SectionAct, h: Sys, c: nat)
    requires SectionStep(g, a, h) && ShapeOk(g.sec) && DeferredOk(g) && HeldBack(h.sec, c)
    ensures WasIdle(g, h, c)
  {
    hide Enqueue, CanEnqueue, NeedsBarrier, TakesCleanup, CleanAt, IdleOrStopped;
    assert HeldBack(g.sec, c);
  }

  lemma OthersHold(g: Sys, m: Move, h: Sys, c: nat)
    requires MoveKeeps(g, m, h) && !m.SectionMove? && !m.CleanMove? && ShapeOk(g.sec) && DeferredOk(g)
    requires HeldBack(h.sec, c)
    ensures WasIdle(g, h, c)
  {
    hide OthersStay, OtherCleansStay, OnlyPlaces, SameStop, OffLaneShrinks, IdleOrStopped;
    assert HeldBack(g.sec, c);
  }

  lemma GuardHolds(g: Sys, d: nat, c: nat)
    requires CanCleanGuard(g, d) && RegOk(g) && LanesOk(g.cfg, g.lanes) && ShapeOk(g.sec) && DeferredOk(g)
    requires HeldBack(CleanGuard(g, d).sec, c)
    ensures WasIdle(g, CleanGuard(g, d), c)
  {
    hide GateOk, GuardsOk, AimsOk, StopsOk;
    assert c != d ==> HeldBack(g.sec, c);
  }

  lemma OffLaneHolds(g: Sys, d: nat, c: nat)
    requires CleanAt(g, d, OffLane) && LifeOk(g) && ShapeOk(g.sec) && DeferredOk(g) && HeldBack(CleanLife(g, d).sec, c)
    ensures WasIdle(g, CleanLife(g, d), c)
  {
    assert c != d ==> HeldBack(g.sec, c);
  }

  lemma OtherCleansHold(g: Sys, d: nat, a: CleanAct, h: Sys, c: nat)
    requires CleanStep(g, d, a, h) && !a.Guard? && !a.GoOffLane? && ShapeOk(g.sec) && DeferredOk(g)
    requires HeldBack(h.sec, c)
    ensures WasIdle(g, h, c)
  {
    hide Enqueue, CanEnqueue, TakesCleanup, CanFind, Target, FreshLane, HasLiveQueue, GuardRefused, TestFence;
    hide IdleOrStopped;
    assert HeldBack(g.sec, c);
  }

  /** A release is postponed after stop, or when its key has no guard and no live lane. */
  lemma HeldIsIdle(g: Sys, m: Move, h: Sys, c: nat)
    requires Steps(g, m, h) && DeferredOk(g) && ShapeOk(g.sec) && HeldBack(h.sec, c)
    requires RegOk(g) && LanesOk(g.cfg, g.lanes) && LifeOk(g)
    ensures WasIdle(g, h, c)
  {
    hide *;
    StepOf(g, m, h);
    MoveKeys(g, m, h);
    match m
    case SectionMove(a) => SectionHolds(g, a, h, c);
    case CleanMove(d, a) =>
      CleanStepOf(g, d, a, h);
      if a.Guard? {
        GuardHolds(g, d, c);
      } else if a.GoOffLane? {
        OffLaneHolds(g, d, c);
      } else {
        OtherCleansHold(g, d, a, h, c);
      }
    case _ => OthersHold(g, m, h, c);
  }

  lemma KeysStay(g: Sys, m: Move, h: Sys)
    requires MoveKeeps(g, m, h)
    ensures |g.cleans| <= |h.cleans| && forall c :: 0 <= c < |g.cleans| ==> h.cleans[c].key == g.cleans[c].key
    ensures g.ctl.stopped ==> h.ctl.stopped
    ensures g.sec.active ==> forall k :: k in h.reg.guards ==> k in g.reg.guards
  {
  }

  lemma DeferredKept(g: Sys, m: Move, h: Sys)
    requires Steps(g, m, h) && DeferredOk(g) && ShapeOk(g.sec) && SetsOk(g.sec, g.lanes)
    requires RegOk(g) && LanesOk(g.cfg, g.lanes) && LifeOk(g)
    ensures DeferredOk(h)
  {
    hide Steps, Can, Do, ShapeOk, RegOk, LanesOk, LifeOk, KeyIdle, HeldBack, LanesGrow, MoveKeeps, Creates;
    hide IsPark, SameDuty;
    MoveKeys(g, m, h);
    KeysStay(g, m, h);
    LanesGrowAlways(g, m, h);
    forall c: nat | HeldBack(h.sec, c)
      ensures IdleOrStopped(h, c)
    {
      HeldIsIdle(g, m, h, c);
      if !g.ctl.stopped {
        IdleGrows(g.lanes, h.lanes, g.reg, h.reg, g.sec.base, g.cleans[c].key);
      }
    }
  }

  lemma SecKept(g: Sys, m: Move, h: Sys)
    requires Steps(g, m, h) && SecOk(g) && ShapeOk(g.sec)
    requires RegOk(g) && LanesOk(g.cfg, g.lanes) && CtlOk(g.ctl, g.subs, g.cleans) && LifeOk(g)
    requires KeysPlain(g.subs, g.cleans)
    ensures SecOk(h)
  {
    hide Steps, Can, Do, ShapeOk, RegOk, LanesOk, LifeOk, CtlOk, KeysPlain, SetsOk, OffLaneOk, DeferredOk, LanesSec;
    DutiesKept(g, m, h);
    DeferredKept(g, m, h);
  }
}
