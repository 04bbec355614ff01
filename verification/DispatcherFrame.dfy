/** What each move of the dispatcher does to its lanes, said once so that the invariants can share it. */
module DispatcherFrame {
  import opened RoutingKeys
  import opened Queues
  import opened Lanes
  import opened LaneInvariant
  import opened LaneFrame
  import opened Dispatcher

  datatype LaneMove = NoLane | OneLane(i: nat, s: LaneStep)

  predicate Creates(m: Move) {
    (m.SubmitMove? && m.submit.Create?) || (m.CleanMove? && m.clean.CreateClean?)
  }

  /** The call that moves exists. */
  predicate Named(g: Sys, m: Move) {
    (m.SubmitMove? ==> m.p < |g.subs|) && (m.CleanMove? ==> m.c < |g.cleans|)
  }

  function CreatedKey(g: Sys, m: Move): Key
    requires Creates(m) && Named(g, m)
  {
    if m.SubmitMove? then g.subs[m.p].key else g.cleans[m.c].key
  }

  function SubmitLane(s: Submit, p: nat, a: SubmitAct): LaneMove {
    if s.pc.Found? && a.EnterLane? then OneLane(s.pc.lane, ByProducer(p, PEnter(s.key)))
    else if s.pc.InLane? && a.LeaveLane? then OneLane(s.pc.lane, ByProducer(p, PLeave))
    else if s.pc.InLane? && a.AbandonLane? then OneLane(s.pc.lane, ByProducer(p, PAbandon))
    else if s.pc.InLane? && a.SendLane? then OneLane(s.pc.lane, ByProducer(p, PSend))
    else NoLane
  }

  /** A lane that refuses an entry is left alone. */
  function Entering(lanes: seq<Lane>, i: nat, s: LaneStep): LaneMove {
    if i < |lanes| && TakesCleanup(lanes[i].q) then OneLane(i, s) else NoLane
  }

  function CleanLane(lanes: seq<Lane>, x: Cleaner, c: nat, a: CleanAct): LaneMove {
    if x.pc.RegLane? && a.EnqueueClean? then Entering(lanes, x.pc.lane, SEnqueue(c, x.key, false))
    else if x.pc.FenceLane? && a.EnqueueFence? then Entering(lanes, x.pc.lane, SEnqueue(c, x.key, true))
    else NoLane
  }

  function WorkStep(a: WorkerAct): LaneStep {
    match a
    case Quiet(step) => step
    case TakeNext => STake
    case CompleteTask => ByWork(WFinishTask)
    case CompleteCleanup => ByWork(WFinishCleanup)
    case StartHold => ByWork(WStartBarrier)
    case ParkHere => ByWork(WPark)
    case LeaveHold => ByWork(WLeaveBarrier)
    case LockIdle => ByGate(GLock)
    case SealIdle => ByGate(GSeal)
    case UnlockIdle => ByGate(GUnlock)
  }

  function SectionLane(g: Sys, a: SectionAct): LaneMove {
    if a.PutBarrier? then Entering(g.lanes, a.i, SEnqueue(g.sec.id, Key(ExclusiveBarrier, 0), false)) else NoLane
  }

  /** The one lane a move steps, if any. */
  function LaneOf(g: Sys, m: Move): LaneMove {
    match m
    case SubmitMove(p, a) => if p < |g.subs| then SubmitLane(g.subs[p], p, a) else NoLane
    case CleanMove(c, a) => if c < |g.cleans| then CleanLane(g.lanes, g.cleans[c], c, a) else NoLane
    case WorkerMove(i, a) => OneLane(i, WorkStep(a))
    case SectionMove(a) => SectionLane(g, a)
    case StopMove(_, a) => if a.CloseOne? then OneLane(a.i, ByGate(GClose)) else NoLane
    case _ => NoLane
  }

  /** The lanes after a move that steps at most one of them. */
  ghost predicate Moved(g: Sys, lm: LaneMove, after: seq<Lane>) {
    match lm
    case OneLane(i, s) =>
      i < |g.lanes| && CanStep(g.lanes[i], Sig(g.ctl), s) && after == g.lanes[i := Step(g.lanes[i], Sig(g.ctl), s)]
    case NoLane => after == g.lanes
  }

  /** Only a created lane is new; of the others at most one steps. */
  ghost predicate LanesFollow(g: Sys, m: Move, h: Sys) {
    && Named(g, m) && h.cfg == g.cfg
    && if Creates(m) then g.cfg.dynamic && h.lanes == g.lanes + [FreshLane(g, CreatedKey(g, m))]
       else Moved(g, LaneOf(g, m), h.lanes)
  }

  lemma SubmitLanesAfter(g: Sys, p: nat, a: SubmitAct, h: Sys)
    requires SubmitStep(g, p, a, h)
    ensures LanesFollow(g, SubmitMove(p, a), h)
  {
    hide Enter, Leave, Send, Abandon, CanEnter, CanLeave, CanSend, CanAbandon, CanFind, Target, FreshLane;
    hide CanTurn, Turn, CanWork, Work, CanGate, Gate, Enqueue, PutToken, Take;
  }

  lemma CleanLanesAfter(g: Sys, c: nat, a: CleanAct, h: Sys)
    requires CleanStep(g, c, a, h)
    ensures LanesFollow(g, CleanMove(c, a), h)
  {
    hide Enqueue, CanFind, Target, FreshLane, Defer, AdmissionOf, TestFence;
    hide CanProduce, Produce, CanTurn, Turn, CanWork, Work, CanGate, Gate, PutToken, Take;
  }

  lemma WorkLanesAfter(g: Sys, i: nat, a: WorkerAct, h: Sys)
    requires WorkerStep(g, i, a, h)
    ensures LanesFollow(g, WorkerMove(i, a), h)
  {
    hide Take, FinishTask, FinishCleanup, StartBarrier, Park, LeaveBarrier, LockGate, Seal, UnlockGate;
    hide CanProduce, Produce, CanTurn, Turn, Enqueue, PutToken, IsQuiet;
  }

  lemma StopLanesAfter(g: Sys, s: nat, a: StopAct, h: Sys)
    requires StopStep(g, s, a, h)
    ensures LanesFollow(g, StopMove(s, a), h)
  {
    hide CanProduce, Produce, CanTurn, Turn, CanWork, Work, Enqueue, PutToken, Take, Close, CanClose;
    hide SignalStopped, Mapped;
  }

  lemma LanesAfter(g: Sys, m: Move, h: Sys)
    requires Steps(g, m, h)
    ensures LanesFollow(g, m, h)
  {
    StepOf(g, m, h);
    match m
    case SubmitMove(p, a) => SubmitLanesAfter(g, p, a, h);
    case CleanMove(c, a) => CleanLanesAfter(g, c, a, h);
    case WorkerMove(i, a) => WorkLanesAfter(g, i, a, h);
    case SectionMove(a) =>
      assert LanesFollow(g, SectionMove(a), h);
    case StopMove(s, a) => StopLanesAfter(g, s, a, h);
    case _ =>
      CallKeys(g, m, h);
      assert LanesFollow(g, m, h) by {
        hide CanStep, FreshLane, Step;
      }
  }

  // ----- every lane keeps its own invariant -----

  ghost predicate LaneFits(cfg: Config, l: Lane, i: nat) {
    && l.gated == cfg.dynamic && l.q.cap == cfg.cap
    && l.q.tracksIdle == (cfg.dynamic && cfg.tracksIdle)
    && if cfg.dynamic then l.route.Only? && !IsBarrierKey(l.route.key)
       else l.route.Shard? && l.route.index == i && l.route.shardOf == cfg.shardOf
  }

  ghost predicate LanesOk(cfg: Config, lanes: seq<Lane>) {
    && (forall i :: 0 <= i < |lanes| ==> LaneInv(lanes[i]) && LaneFits(cfg, lanes[i], i))
    && (!cfg.dynamic ==> |lanes| == cfg.shards)
  }

  ghost predicate KeysPlain(subs: seq<Submit>, cleans: seq<Cleaner>) {
    && (forall p :: 0 <= p < |subs| ==> !IsBarrierKey(subs[p].key))
    && (forall c :: 0 <= c < |cleans| ==> !IsBarrierKey(cleans[c].key))
  }

  lemma FreshLaneInv(g: Sys, key: Key)
    ensures LaneInv(FreshLane(g, key))
  {
    var l := NewLane(g.cfg.cap, g.cfg.tracksIdle, Only(key), true);
    NewLaneInv(g.cfg.cap, g.cfg.tracksIdle, Only(key), true);
    EnqueueKeeps(l, g.sec.id, Key(ExclusiveBarrier, 0), false);
  }

  lemma FreshLaneFits(g: Sys, key: Key, i: nat)
    requires g.cfg.dynamic && !IsBarrierKey(key)
    ensures LaneFits(g.cfg, FreshLane(g, key), i)
  {
  }

  // ----- what each kind of move leaves alone -----

  /** The same calls with the same keys, and call p alone has moved. */
  ghost predicate OthersStay(a: seq<Submit>, b: seq<Submit>, p: nat) {
    p < |a| && |b| == |a| && b == a[p := b[p]] && b[p] == a[p].(pc := b[p].pc)
  }

  ghost predicate OtherCleansStay(a: seq<Cleaner>, b: seq<Cleaner>, c: nat) {
    c < |a| && |b| == |a| && b == a[c := b[c]] && b[c].key == a[c].key
  }

  /** Releases that may have changed place, but not position. */
  ghost predicate OnlyPlaces(a: seq<Cleaner>, b: seq<Cleaner>) {
    |b| == |a| && forall d :: 0 <= d < |a| ==> b[d].key == a[d].key && b[d].pc == a[d].pc
  }

  /** Stop is not signalled, and no fence that was closed opens. */
  ghost predicate SameStop(c: Ctl, d: Ctl) {
    d.stopped == c.stopped && d.hard == c.hard && (c.fence ==> d.fence) && (c.loose ==> d.loose)
  }

  /** The section stands where it stood. */
  ghost predicate SameStage(a: Section, b: Section) {
    b.id == a.id && b.pc == a.pc && b.active == a.active && b.base == a.base && b.todo == a.todo
  }

  /** The parts of a section that a lane's duty refers to. */
  ghost predicate SameDuty(a: Section, b: Section) {
    && SameStage(a, b) && b.took == a.took && b.parked == a.parked
    && b.expected == a.expected && b.parkedCount == a.parkedCount
  }

  predicate IsPark(m: Move) {
    m.WorkerMove? && m.worker.ParkHere?
  }

  /** The same map of lanes, and no task accepted or finished. */
  ghost predicate SameLog(g: Sys, h: Sys) {
    h.reg.queues == g.reg.queues && h.accepted == g.accepted && h.finished == g.finished
  }

  /** Moves that may change the map of lanes, or what has been accepted or finished. */
  predicate Visible(m: Move) {
    || Creates(m)
    || (m.SubmitMove? && m.submit.SendLane?)
    || (m.WorkerMove? && (m.worker.SealIdle? || m.worker.CompleteTask?))
  }

  /** No release starts off its lane. */
  ghost predicate OffLaneShrinks(g: Sys, h: Sys) {
    (forall k :: k in h.reg.guards ==> k in g.reg.guards && h.reg.guards[k] == g.reg.guards[k])
    && h.life.count <= g.life.count
  }

  ghost predicate SubmitKeeps(g: Sys, h: Sys, p: nat) {
    && OthersStay(g.subs, h.subs, p) && SameStop(g.ctl, h.ctl) && SameStage(g.sec, h.sec)
    && h.cfg == g.cfg && h.cleans == g.cleans && h.life == g.life && h.stops == g.stops && h.releases == g.releases
    && h.finished == g.finished && h.begun == g.begun && h.sec.postponed == g.sec.postponed
    && h.sec.aborted == g.sec.aborted
    && h.reg.guards == g.reg.guards && h.reg.stopping == g.reg.stopping
    && h.reg.retiring == g.reg.retiring && h.reg.retirerOff == g.reg.retirerOff
  }

  ghost predicate CleanKeeps(g: Sys, h: Sys, c: nat) {
    && OtherCleansStay(g.cleans, h.cleans, c) && SameStop(g.ctl, h.ctl) && SameStage(g.sec, h.sec)
    && h.cfg == g.cfg && h.subs == g.subs && h.stops == g.stops && h.releases == g.releases
    && h.accepted == g.accepted && h.finished == g.finished && h.life.sealed == g.life.sealed
    && (h.sec.postponed == g.sec.postponed || (g.sec.active && h.sec.postponed == g.sec.postponed + [c]))
    && (g.sec.active ==> OffLaneShrinks(g, h)) && g.begun <= h.begun && h.sec.aborted == g.sec.aborted
    && h.reg.stopping == g.reg.stopping && h.reg.retiring == g.reg.retiring && h.reg.retirerOff == g.reg.retirerOff
  }

  ghost predicate WorkKeeps(g: Sys, h: Sys) {
    && OnlyPlaces(g.cleans, h.cleans) && SameStage(g.sec, h.sec)
    && h.cfg == g.cfg && h.ctl == g.ctl && h.subs == g.subs && h.life == g.life && h.stops == g.stops
    && h.releases == g.releases && h.accepted == g.accepted && h.sec.postponed == g.sec.postponed
    && h.reg.guards == g.reg.guards && h.reg.stopping == g.reg.stopping && h.reg.retirerOff == g.reg.retirerOff
    && h.reg.queues.Keys <= g.reg.queues.Keys && (g.sec.active && g.reg.retiring.None? ==> h.reg.retiring.None?)
    && g.begun <= h.begun
    && (g.sec.aborted ==> h.sec.aborted) && (h.sec.aborted ==> g.sec.aborted || g.ctl.hard)
  }

  ghost predicate SectionKeeps(g: Sys, h: Sys) {
    && OnlyPlaces(g.cleans, h.cleans)
    && h.cfg == g.cfg && h.ctl == g.ctl && h.subs == g.subs && h.reg == g.reg && h.life == g.life && h.stops == g.stops
    && h.releases == g.releases && h.accepted == g.accepted && h.finished == g.finished && g.begun <= h.begun
    && if h.sec.id == g.sec.id then h.sec.aborted == g.sec.aborted else h.sec.id > g.sec.id && !h.sec.aborted
  }

  ghost predicate StopKeeps(g: Sys, h: Sys) {
    && h.cfg == g.cfg && h.subs == g.subs && h.cleans == g.cleans && h.sec == g.sec && h.begun == g.begun
    && h.accepted == g.accepted && h.finished == g.finished && h.life.count == g.life.count && |h.stops| == |g.stops|
    && h.reg.queues == g.reg.queues && h.reg.guards == g.reg.guards && h.reg.retiring == g.reg.retiring
    && (h.ctl == SignalStopped(g.ctl) || h.ctl == g.ctl || h.ctl == g.ctl.(hard := true))
    && (g.cfg.dynamic && g.reg.stopping ==> h.reg.stopping)
    && (g.life.sealed ==> h.life.sealed) && (h.life.sealed && !g.life.sealed ==> g.life.count == 0)
  }

  /** A new call joins the others. */
  ghost predicate CallKeeps(g: Sys, m: Move, h: Sys) {
    && (if m.StopCall? then h.stops == g.stops + [Called(m.hard)] && h.subs == g.subs else h.stops == g.stops)
    && (!m.CleanCall? ==> h.cleans == g.cleans) && (!m.SubmitCall? ==> |h.subs| == |g.subs|)
    && SameStop(g.ctl, h.ctl) && h.ctl.fence == g.ctl.fence && h.ctl.loose == g.ctl.loose
    && h.cfg == g.cfg && h.lanes == g.lanes && h.reg == g.reg && h.life == g.life && h.sec == g.sec
    && h.releases == g.releases && h.accepted == g.accepted && h.finished == g.finished && h.begun == g.begun
    && |g.subs| <= |h.subs|
    && (forall p :: 0 <= p < |g.subs| ==> h.subs[p].key == g.subs[p].key && h.subs[p].pc == g.subs[p].pc)
    && (forall p :: |g.subs| <= p < |h.subs| ==> h.subs[p].pc.Begun? || h.subs[p].pc.Refused?)
    && |g.cleans| <= |h.cleans| && (forall c :: 0 <= c < |g.cleans| ==> h.cleans[c] == g.cleans[c])
    && (forall c :: |g.cleans| <= c < |h.cleans| ==> h.cleans[c].pc.Looking? && h.cleans[c].place.Unplaced?)
  }

  lemma SubmitKeys(g: Sys, p: nat, a: SubmitAct, h: Sys)
    requires SubmitStep(g, p, a, h)
    ensures SubmitKeeps(g, h, p)
    ensures !a.Create? ==> h.reg == g.reg && h.sec == g.sec
    ensures !a.Create? && !a.SendLane? ==> SameLog(g, h)
  {
    hide Enter, Leave, Send, Abandon, CanEnter, CanLeave, CanSend, CanAbandon, CanFind, Target, FreshLane, HandedOff;
  }

  lemma LaneKeys(g: Sys, c: nat, a: CleanAct, h: Sys)
    requires CleanStep(g, c, a, h) && (a.CreateClean? || a.EnqueueClean? || a.EnqueueFence?)
    ensures CleanKeeps(g, h, c) && (!a.CreateClean? ==> SameDuty(g.sec, h.sec) && SameLog(g, h))
  {
    hide Enqueue, CanEnqueue, TakesCleanup, FreshLane, NeedsQueue, BelowLimit;
  }

  lemma RegisterKeys(g: Sys, c: nat, a: CleanAct, h: Sys)
    requires CleanStep(g, c, a, h) && (a.BeginClean? || a.EndClean? || a.TestClean?)
    ensures CleanKeeps(g, h, c) && SameDuty(g.sec, h.sec) && SameLog(g, h)
  {
  }

  lemma GuardKeys(g: Sys, c: nat, a: CleanAct, h: Sys)
    requires CleanStep(g, c, a, h) && (a.Guard? || a.GuardDone?)
    ensures CleanKeeps(g, h, c) && SameDuty(g.sec, h.sec) && SameLog(g, h)
  {
    hide HasLiveQueue, GuardRefused;
  }

  lemma OffLaneKeys(g: Sys, c: nat, a: CleanAct, h: Sys)
    requires CleanStep(g, c, a, h) && (a.GoOffLane? || a.RunDone?)
    ensures CleanKeeps(g, h, c) && SameDuty(g.sec, h.sec) && SameLog(g, h)
  {
    hide HasLiveQueue, GuardRefused;
  }

  lemma CleanKeys(g: Sys, c: nat, a: CleanAct, h: Sys)
    requires CleanStep(g, c, a, h)
    ensures CleanKeeps(g, h, c)
    ensures !a.CreateClean? ==> SameDuty(g.sec, h.sec) && SameLog(g, h)
  {
    hide CleanStep, CanClean, DoClean, CleanKeeps, SameDuty, SameLog;
    if a.BeginClean? || a.EndClean? || a.TestClean? {
      RegisterKeys(g, c, a, h);
    } else if a.Guard? || a.GuardDone? {
      GuardKeys(g, c, a, h);
    } else if a.GoOffLane? || a.RunDone? {
      OffLaneKeys(g, c, a, h);
    } else if a.CreateClean? || a.EnqueueClean? || a.EnqueueFence? {
      LaneKeys(g, c, a, h);
    } else {
      StrollKeys(g, c, a, h);
    }
  }

  lemma StrollKeys(g: Sys, c: nat, a: CleanAct, h: Sys)
    requires CleanStep(g, c, a, h)
    requires a.HaltClean? || a.FindClean? || a.LimitClean? || a.ParkClean? || a.ResumeClean? || a.LookAfterStop?
    ensures CleanKeeps(g, h, c) && SameDuty(g.sec, h.sec) && SameLog(g, h)
  {
    hide CanFind, Target, HasLiveQueue;
  }

  lemma WorkKeys(g: Sys, i: nat, a: WorkerAct, h: Sys)
    requires WorkerStep(g, i, a, h)
    ensures WorkKeeps(g, h)
    ensures !a.ParkHere? ==> SameDuty(g.sec, h.sec)
    ensures !a.SealIdle? && !a.CompleteTask? ==> SameLog(g, h)
  {
    hide Take, FinishTask, FinishCleanup, StartBarrier, Park, LeaveBarrier, LockGate, Seal, UnlockGate, CanStep;
    hide Step, IsQuiet;
  }

  lemma SectionKeys(g: Sys, a: SectionAct, h: Sys)
    requires SectionStep(g, a, h)
    ensures SectionKeeps(g, h) && SameLog(g, h)
  {
    hide Enqueue, NeedsBarrier, TakesCleanup, CleanAt;
  }

  lemma StopKeys(g: Sys, s: nat, a: StopAct, h: Sys)
    requires StopStep(g, s, a, h)
    ensures StopKeeps(g, h)
    ensures SameLog(g, h) && SameDuty(g.sec, h.sec)
    ensures !a.CloseOne? ==> h.lanes == g.lanes
  {
    hide Close, CanClose, Mapped, AllExited;
  }

  lemma CallKeys(g: Sys, m: Move, h: Sys)
    requires match m
             case SubmitCall(key, closing) => CanNewSubmit(g, key) && h == NewSubmit(g, key, closing)
             case CleanCall(p) => CanNewCleanup(g, p) && h == NewCleanup(g, p)
             case StopCall(hard) => h == NewStop(g, hard)
             case _ => false
    ensures CallKeeps(g, m, h) && SameLog(g, h) && SameDuty(g.sec, h.sec)
  {
  }

  /** What a move leaves alone, by its kind. */
  ghost predicate MoveKeeps(g: Sys, m: Move, h: Sys) {
    match m
    case SubmitMove(p, a) => SubmitKeeps(g, h, p)
    case CleanMove(c, a) => CleanKeeps(g, h, c)
    case WorkerMove(i, a) => WorkKeeps(g, h)
    case SectionMove(a) => SectionKeeps(g, h)
    case StopMove(s, a) => StopKeeps(g, h)
    case _ => CallKeeps(g, m, h)
  }

  lemma MoveKeys(g: Sys, m: Move, h: Sys)
    requires Steps(g, m, h)
    ensures MoveKeeps(g, m, h)
    ensures !m.SectionMove? && !Creates(m) && !IsPark(m) ==> SameDuty(g.sec, h.sec)
    ensures !Visible(m) ==> SameLog(g, h)
  {
    hide Steps, Can, Do, CanSubmit, DoSubmit, CanClean, DoClean, CanWorker, DoWorker, CanSection, DoSection;
    hide CanStop, DoStop;
    hide SubmitKeeps, CleanKeeps, WorkKeeps, SectionKeeps, StopKeeps, CallKeeps, SameDuty, SameLog;
    StepOf(g, m, h);
    match m
    case SubmitMove(p, a) =>
      SubmitKeys(g, p, a, h);
      if h.sec == g.sec {
        SameDutyItself(g.sec);
      }
    case CleanMove(c, a) => CleanKeys(g, c, a, h);
    case WorkerMove(i, a) => WorkKeys(g, i, a, h);
    case SectionMove(a) => SectionKeys(g, a, h);
    case StopMove(s, a) => StopKeys(g, s, a, h);
    case _ => CallKeys(g, m, h);
  }

  lemma SameDutyItself(sec: Section)
    ensures SameDuty(sec, sec)
  {
  }

  lemma KeysPlainKept(g: Sys, m: Move, h: Sys)
    requires Steps(g, m, h) && KeysPlain(g.subs, g.cleans)
    ensures KeysPlain(h.subs, h.cleans)
  {
    MoveKeys(g, m, h);
    if m.SubmitCall? || m.CleanCall? {
    }
  }

  lemma LanesUpdate(cfg: Config, lanes: seq<Lane>, i: nat, l: Lane)
    requires LanesOk(cfg, lanes) && i < |lanes| && LaneInv(l) && SameConfig(lanes[i], l)
    ensures LanesOk(cfg, lanes[i := l])
  {
    var after := lanes[i := l];
    forall j | 0 <= j < |after| ensures LaneInv(after[j]) && LaneFits(cfg, after[j], j) {
      assert LaneFits(cfg, lanes[j], j);
    }
  }

  lemma LanesKept(g: Sys, m: Move, h: Sys)
    requires Steps(g, m, h) && LanesOk(g.cfg, g.lanes) && KeysPlain(g.subs, g.cleans)
    ensures LanesOk(h.cfg, h.lanes)
  {
    hide Steps, Can, Do, LaneInv, CanStep, Step, SameConfig, SameGate, SameInside, FreshLane;
    LanesAfter(g, m, h);
    if Creates(m) {
      FreshLaneInv(g, CreatedKey(g, m));
      FreshLaneFits(g, CreatedKey(g, m), |g.lanes|);
    } else if LaneOf(g, m).OneLane? {
      var i := LaneOf(g, m).i;
      StepKeeps(g.lanes[i], Sig(g.ctl), LaneOf(g, m).s);
      StepFixed(g.lanes[i], Sig(g.ctl), LaneOf(g, m).s);
      LanesUpdate(g.cfg, g.lanes, i, h.lanes[i]);
    }
  }
}
