/**
 An exclusive section can always get to run its function, and no release that a busy seal left behind holds it back.
 */
module DispatcherExclusive {
  import opened RoutingKeys
  import opened Queues
  import opened Lanes
  import opened LaneFrame
  import opened LaneInvariant
  import LaneTheorems
  import opened Dispatcher
  import opened DispatcherFrame
  import opened DispatcherFence
  import opened DispatcherRegistry
  import opened DispatcherStop
  import opened DispatcherPlaces
  import opened DispatcherSection
  import opened DispatcherFifo
  import opened DispatcherHandoff
  import opened DispatcherTheorems
  import opened DispatcherRuns
  import DispatcherFenceWait
  import opened DispatcherProgress
  import opened DispatcherShutdown
  import opened DispatcherBusySeal

  /**
   A lane counted by the section holds its barrier, and its worker, if it has parked, is counted; only a hard stop holds
   a worker without parking it, and no worker of a retired lane is at a barrier.
   */
  ghost predicate AllHold(lanes: seq<Lane>, sec: Section, ctl: Ctl) {
    forall i :: 0 <= i < |lanes| ==>
      LaneHolds(lanes[i], i, sec, ctl.stopped) && (lanes[i].worker.Barrier? && lanes[i].worker.at.Holding? ==> ctl.hard)
  }

  lemma ReachableHolds(g: Sys)
    requires Reachable(g)
    ensures AllHold(g.lanes, g.sec, g.ctl)
  {
    hide Reachable, LanesOk, KeysPlain, CtlOk, SubsOk, RegOk, LifeOk, StopOk, PlacesOk, LogOk, AcceptedOk, PanicOk;
    hide HandOk;
    hide SetsOk, OffLaneOk, DeferredOk, LaneDuty, LaneHolds;
    ReachableInv(g);
    assert forall i :: 0 <= i < |g.lanes| ==> LaneSec(g.lanes[i], i, g.sec, g.ctl.stopped);
  }

  // ----- where a run may lead before stop -----

  /** No stop has been signalled, and no hard one has begun. */
  ghost predicate Undisturbed(g: Sys) {
    !g.ctl.stopped && !g.ctl.hard
  }

  /**
   A run leads from g to h, no stop comes, retired lanes, with whatever their workers do, are left alone, and no call
   gives up.
   */
  ghost predicate Goes(g: Sys, h: Sys) {
    FromTo(g, h) && Undisturbed(h) && Spares(g.lanes, h.lanes) && h.cfg == g.cfg && CallsGoOn(g, h)
  }

  lemma GoesOn(g: Sys, k: Sys, h: Sys)
    requires Goes(g, k) && Goes(k, h)
    ensures Goes(g, h)
  {
    hide Leads;
    if g != k && k != h {
      LeadsOn(g, k, h);
    }
  }

  ghost predicate Calm(g: Sys) {
    Inv(g) && GoodConfig(g.cfg) && Undisturbed(g)
  }

  lemma StaysCalm(g: Sys, h: Sys)
    requires Calm(g) && Goes(g, h)
    ensures Calm(h)
  {
    hide Inv, Leads, Spares, GoodConfig;
    LeadsInv(g, h);
  }

  /** What the moves of the section itself rest on. */
  ghost predicate Ready(g: Sys) {
    && Alive(g) && Undisturbed(g) && RegOk(g) && LanesOk(g.cfg, g.lanes) && Indexed(g)
  }

  /** What the section lists exists, and the tracked count is exact. */
  ghost predicate Indexed(g: Sys) {
    && (forall c: nat :: HeldBack(g.sec, c) ==> c < |g.cleans|) && (forall i :: i in g.sec.todo ==> i < |g.lanes|)
    && g.life.count == CleansAt(g.cleans, IsTracked)
  }

  lemma CalmIsReady(g: Sys)
    requires Calm(g)
    ensures Ready(g)
  {
    hide LanesOk, KeysPlain, SubsOk, RegOk, StopOk, LogOk, AcceptedOk, AbortOk, HandOk, OffLaneOk, DeferredOk, LanesSec;
    hide LanesPlace, AllPlaced, BegunOk, CleansAt, GoodConfig;
  }

  // ----- a section that is over goes -----

  predicate IsReturning(pc: SectionPc) {
    pc.Releasing? || pc.RunningPostponed? || pc.Withdrawn?
  }

  ghost predicate Returning(g: Sys) {
    && Alive(g) && Undisturbed(g) && MuFree(g) && (IsReturning(g.sec.pc) || g.sec.pc.NoSection?)
    && forall c: nat :: HeldBack(g.sec, c) ==> c < |g.cleans|
  }

  /** The control and the lanes are as they were, and no retirement is in progress. */
  ghost predicate SameEngine(g: Sys, h: Sys) {
    && h.cfg == g.cfg && h.lanes == g.lanes && h.ctl == g.ctl && MuFree(h)
    && h.subs == g.subs && h.reg.queues == g.reg.queues && h.reg.retirerOff == g.reg.retirerOff
  }

  ghost predicate Ebbs(g: Sys, h: Sys) {
    SecLeft(h.sec, 0) < SecLeft(g.sec, 0)
  }

  function ReturnAct(pc: SectionPc): SectionAct {
    match pc
    case Releasing(todo) => if todo == [] then Withdraw else RunOne
    case RunningPostponed(_, _) => RanOne
    case _ => SectionAct.End
  }

  lemma ReturnPossible(g: Sys)
    requires Returning(g) && !g.sec.pc.NoSection?
    ensures CanSection(g, ReturnAct(g.sec.pc))
  {
    assert g.sec.pc.Releasing? && g.sec.pc.todo != [] ==> HeldBack(g.sec, g.sec.pc.todo[0]);
    assert g.sec.pc.RunningPostponed? ==> HeldBack(g.sec, g.sec.pc.release);
  }

  /** The engine as it was, and a section on its way out. */
  lemma ReturnKeeps(g: Sys, h: Sys)
    requires SectionStep(g, ReturnAct(g.sec.pc), h) && IsReturning(g.sec.pc) && MuFree(g)
    ensures SameEngine(g, h) && |h.cleans| == |g.cleans| && (IsReturning(h.sec.pc) || h.sec.pc.NoSection?)
  {
    hide Enqueue, CanEnqueue, TakesCleanup, NeedsBarrier, CleanAt;
  }

  lemma ReturnEbbs(g: Sys, h: Sys)
    requires SectionStep(g, ReturnAct(g.sec.pc), h) && IsReturning(g.sec.pc)
    ensures Ebbs(g, h)
  {
    hide Enqueue, CanEnqueue, TakesCleanup, NeedsBarrier, CleanAt;
  }

  lemma ReturnHolds(g: Sys, h: Sys)
    requires SectionStep(g, ReturnAct(g.sec.pc), h) && IsReturning(g.sec.pc)
    ensures forall c: nat :: HeldBack(h.sec, c) ==> HeldBack(g.sec, c)
  {
    hide Enqueue, CanEnqueue, TakesCleanup, NeedsBarrier, CleanAt;
  }

  lemma ReturnActs(g: Sys) returns (h: Sys)
    requires Returning(g) && !g.sec.pc.NoSection?
    ensures SectionStep(g, ReturnAct(g.sec.pc), h) && Returning(h) && SameEngine(g, h) && Ebbs(g, h)
  {
    hide CanSection, DoSection, HeldBack, SecLeft, Alive;
    ReturnPossible(g);
    h := DoSection(g, ReturnAct(g.sec.pc));
    ReturnKeeps(g, h);
    ReturnEbbs(g, h);
    ReturnHolds(g, h);
    SameLanesLive(g, h);
  }

  /** A section that releases its lanes runs what was postponed, and goes. */
  lemma {:induction false} SectionReturns(g: Sys) returns (h: Sys)
    requires Returning(g)
    ensures Goes(g, h) && Returning(h) && h.sec.pc.NoSection?
    decreases SecLeft(g.sec, 0)
  {
    hide Leads, SecLeft, Alive, SubmitStep, CleanStep, WorkerStep, SectionStep, StopStep, HeldBack;
    h := g;
    if !g.sec.pc.NoSection? {
      var k := ReturnActs(g);
      Then(g, g, SectionMove(ReturnAct(g.sec.pc)), k);
      h := SectionReturns(k);
      GoesOn(g, k, h);
    }
  }

  // ----- from the registration of a section to its barriers -----

  ghost predicate NoneOffLane(g: Sys) {
    g.life.count == 0 && forall c :: 0 <= c < |g.cleans| ==> !g.cleans[c].pc.Guarding?
  }

  predicate IsGuarding(pc: CleanPc) {
    pc.Guarding?
  }

  /** Releases that run off their lanes end. */
  lemma {:induction false} OffLaneEnds(g: Sys) returns (h: Sys)
    requires Alive(g) && Undisturbed(g) && MuFree(g) && g.life.count == CleansAt(g.cleans, IsTracked)
    ensures FromTo(g, h) && SameEngine(g, h) && h.sec == g.sec && NoneOffLane(h)
    decreases g.life.count + CleansAt(g.cleans, IsGuarding)
  {
    hide Leads, SubmitStep, WorkerStep, SectionStep, StopStep, Alive, CleansAt;
    h := g;
    if CleansAt(g.cleans, IsTracked) + CleansAt(g.cleans, IsGuarding) > 0 {
      var c, k;
      if g.life.count > 0 {
        c := DispatcherFenceWait.SomeClean(g.cleans, IsTracked);
        k := CleanRunDone(g, c);
        Then(g, g, CleanMove(c, RunDone), k);
      } else {
        c := DispatcherFenceWait.SomeClean(g.cleans, IsGuarding);
        k := CleanGuardDone(g, c);
        Then(g, g, CleanMove(c, GuardDone), k);
      }
      CleansAtUpdate(g.cleans, c, k.cleans[c], IsTracked);
      CleansAtUpdate(g.cleans, c, k.cleans[c], IsGuarding);
      assert Alive(k) by { SameLanesLive(g, k); }
      h := OffLaneEnds(k);
      if h != k {
        LeadsOn(g, k, h);
      }
    } else {
      CleansAtNone(g.cleans, IsGuarding);
    }
  }

  lemma SameLanesLive(g: Sys, h: Sys)
    requires Alive(g) && h.lanes == g.lanes
    ensures Alive(h)
  {
  }

  ghost predicate Gathering(g: Sys) {
    Alive(g) && Undisturbed(g) && g.sec.pc.Enqueuing? && forall i :: i in g.sec.todo ==> i < |g.lanes|
  }

  lemma PutsOne(g: Sys, i: nat) returns (h: Sys)
    requires Gathering(g) && i in g.sec.todo
    ensures Goes(g, h) && Gathering(h) && h.sec.id == g.sec.id && h.sec.todo == g.sec.todo - {i}
  {
    hide Leads, SubmitStep, CleanStep, WorkerStep, StopStep, HasLiveQueue;
    h := SecEnqueue(g, i);
    Then(g, g, SectionMove(PutBarrier(i)), h);
    SameMapGoesOn(g, h);
  }

  lemma {:induction false} PutsAll(g: Sys) returns (h: Sys)
    requires Gathering(g)
    ensures Goes(g, h) && Gathering(h) && h.sec.todo == {} && h.sec.id == g.sec.id
    decreases |g.sec.todo|
  {
    hide Leads, Alive, Spares;
    h := g;
    if i :| i in g.sec.todo {
      var k := PutsOne(g, i);
      h := PutsAll(k);
      GoesOn(g, k, h);
    } else {
      SparesSelf(g.lanes);
    }
  }

  lemma SparesSelf(lanes: seq<Lane>)
    ensures Spares(lanes, lanes)
  {
  }

  /** A section that is to come, or waits for releases off their lanes, has its barriers to queue. */
  lemma SectionStarts(g: Sys) returns (h: Sys)
    requires Ready(g) && MuFree(g) && (g.sec.pc.NoSection? || g.sec.pc.Registered? || g.sec.pc.AwaitOffLane?)
    ensures Goes(g, h) && Gathering(h) && h.sec.id == g.sec.id
  {
    hide Leads, SubmitStep, CleanStep, WorkerStep, StopStep, RegOk, LanesOk, Alive, CleansAt, NeedsBarrier, Spares;
    var k := g;
    if k.sec.pc.NoSection? {
      var n := SecBegin(k);
      Then(g, k, SectionMove(Begin), n);
      k := n;
    }
    SameLanesLive(g, k);
    if k.sec.pc.Registered? {
      var n := SecInstall(k);
      Then(g, k, SectionMove(Install), n);
      k := n;
    }
    SameLanesLive(g, k);
    var w := OffLaneEnds(k);
    SameLanesLive(g, w);
    if k != w && g != k {
      LeadsOn(g, k, w);
    }
    h := SecWaited(w);
    Then(g, w, SectionMove(OffLaneDone), h);
    SameLanesLive(g, h);
    SparesSelf(g.lanes);
  }

  // ----- a lane that the section waits for -----

  /** What the section and the drive of lane i rely on. */
  ghost predicate LaneFacts(g: Sys, i: nat) {
    && i < |g.lanes| && Driven(g.lanes[i], g.sec.id) && g.lanes[i].q.cap > 0 && Alive(g)
    && InsideOk(g.lanes[i], i, g.subs) && LanePlaces(g.lanes[i], i, g.cleans)
  }

  /** The worker waits, and nothing is queued for it. */
  predicate Idles(l: Lane) {
    l.worker.Select? && l.q.ch == [] && l.q.backlog == []
  }

  /** An open lane whose worker has something to do, and is not held at a barrier. */
  ghost predicate Driven(l: Lane, id: nat) {
    && LaneInv(l) && !l.panicked && !l.q.closed && !l.q.retired && !l.q.chClosed && NoFenceEntry(l.q.backlog)
    && !Idles(l)
    && (l.worker.Barrier? ==> l.worker.section <= id && !l.worker.at.Holding?)
    && (AtBarrier(l, id) ==> !l.worker.at.Parked?)
  }

  /** The section gathers, and lane i is one of those it waits for. */
  ghost predicate WaitedFor(g: Sys, i: nat) {
    Undisturbed(g) && g.sec.pc.Parking? && i in g.sec.took && i !in g.sec.parked && g.sec.parkedCount < g.sec.expected
  }

  lemma HolderIsOpen(l: Lane, i: nat, sec: Section)
    requires LaneInv(l) && LaneHolds(l, i, sec, false) && i in sec.took && i !in sec.parked && !l.q.chClosed
    ensures !l.q.closed && !l.q.retired && !Idles(l) && NoFenceEntry(l.q.backlog)
    ensures AtBarrier(l, sec.id) ==> !l.worker.at.Parked?
  {
  }

  lemma WaitedForFacts(g: Sys, i: nat)
    requires Calm(g) && WaitedFor(g, i)
    ensures LaneFacts(g, i)
  {
    hide KeysPlain, LifeOk, StopOk, LogOk, AcceptedOk, HandOk, QueueMapOk, GateOk, GuardsOk, ShardedOk, AimsOk, StopsOk;
    hide OffLaneOk, DeferredOk, AllPlaced, ListOk, BegunOk, LaneInv, InsideOk, LanePlaces, LaneHolds, FenceOwed;
    assert LaneInv(g.lanes[i]) && LaneFits(g.cfg, g.lanes[i], i) && LaneSec(g.lanes[i], i, g.sec, false);
    HolderIsOpen(g.lanes[i], i, g.sec);
  }

  predicate MayPark(l: Lane, id: nat) {
    AtBarrier(l, id) && l.worker.at.Arriving?
  }

  /** The worker has nothing to receive, and what stands first in the backlog is not ready. */
  predicate Stalled(l: Lane) {
    l.worker.Select? && l.q.ch == [] && l.q.backlog != [] && l.q.settled < l.q.backlog[0].target
  }

  /** Then it waits for a producer in mid-send. */
  lemma StalledBySender(l: Lane, id: nat) returns (p: nat)
    requires Driven(l, id) && Stalled(l)
    ensures InSending(l, p)
  {
    hide LaneInv;
    if forall q :: q in l.inside ==> !l.inside[q].stage.Sending? {
      LaneTheorems.HeadIsRunnable(l, Signals(false, false, false));
      assert false;
    }
    p :| p in l.inside && l.inside[p].stage.Sending?;
  }

  /** In every other state, short of parking, the lane has a step of its own. */
  lemma DrivenMoves(l: Lane, sig: Signals, id: nat) returns (s: LaneStep)
    requires Driven(l, id) && !MayPark(l, id) && !Stalled(l)
    ensures LaneTheorems.OwnStep(s) && CanStep(l, sig, s)
    ensures s == ByWork(WLeaveBarrier) ==> l.worker.Barrier? && l.worker.section < id
  {
    hide Ordered, Counted, Linked, PendingOk, KeysOk, WakeOk, FinishingOk;
    match l.worker
    case Top(_) => s := STake;
    case Select(_) =>
      if l.q.ch != [] {
        s := ByLoop(LReceive);
      } else {
        LaneTheorems.NoLostWakeUp(l, sig);
        s :| LaneTheorems.OwnStep(s) && CanStep(l, sig, s);
      }
    case Task(_, mode) => s := if mode.Fetched? then ByWork(WStartTask) else ByWork(WFinishTask);
    case Settling(_) => s := ByWork(WSettle);
    case Cleanup(_, _) => s := ByWork(WFinishCleanup);
    case Barrier(_, at, _) => s := if at.Reached? then ByWork(WStartBarrier) else ByWork(WLeaveBarrier);
  }

  lemma OpenTakeShrinks(l: Lane, sig: Signals)
    requires LaneInv(l) && CanTake(l) && !l.q.closed && NoFenceEntry(l.q.backlog)
    ensures LaneTheorems.WorkLeft(Take(l, sig)) < LaneTheorems.WorkLeft(l)
  {
    hide Ordered, Counted, Linked, PendingOk, KeysOk, WakeOk, FinishingOk;
    if HeadReady(l.q) && l.marks != [] {
      LaneTheorems.PopShrinks(l);
    }
  }

  /** What the worker has left before it parks, if every producer inside should still send. */
  function DriveLeft(l: Lane): nat {
    LaneTheorems.WorkLeft(l) + 11 * |l.inside|
  }

  lemma OwnStepShrinks(l: Lane, sig: Signals, s: LaneStep, id: nat)
    requires Driven(l, id) && LaneTheorems.OwnStep(s) && CanStep(l, sig, s)
    ensures DriveLeft(Step(l, sig, s)) < DriveLeft(l)
  {
    hide CanStep, Step, LaneInv, CanTurn, Turn, CanWork, Work, Take, LaneTheorems.WorkLeft, PutToken, NoFenceEntry;
    hide HoldsBarrier;
    StepIs(l, sig, s);
    StepKeepsStages(l, sig, s);
    StepFixed(l, sig, s);
    assert |l.inside.Keys| == |Step(l, sig, s).inside.Keys|;
    match s
    case STake => OpenTakeShrinks(l, sig);
    case ByLoop(a) => LaneTheorems.TurnShrinks(l, sig, a);
    case ByWork(a) => LaneTheorems.WorkShrinks(l, sig, a);
    case SPutToken => LaneTheorems.TokenShrinks(l);
  }

  lemma SendShrinks(l: Lane, p: nat)
    requires CanSendNow(l, p) && !l.q.chClosed
    ensures DriveLeft(Send(l, p)) < DriveLeft(l)
  {
    var m := Send(l, p);
    assert m.inside.Keys == l.inside.Keys - {p};
    assert |m.inside.Keys| == |l.inside.Keys| - 1;
  }

  // ----- the worker comes to the barrier -----

  /** Lane i alone has changed, and the section has not. */
  ghost predicate OnlyLane(g: Sys, i: nat, h: Sys) {
    && i < |g.lanes| && |h.lanes| == |g.lanes| && h.lanes == g.lanes[i := h.lanes[i]] && !g.lanes[i].q.retired
    && !h.lanes[i].q.retired && h.lanes[i].inside.Keys <= g.lanes[i].inside.Keys
    && SameDuty(g.sec, h.sec) && h.ctl == g.ctl && h.cfg == g.cfg && h.reg.retiring == g.reg.retiring
    && CallsGoOn(g, h)
  }

  function LeftOn(g: Sys, i: nat): nat {
    if i < |g.lanes| then DriveLeft(g.lanes[i]) else 0
  }

  /** Lane i has gone on, and has less left. */
  ghost predicate GoneOn(g: Sys, i: nat, h: Sys) {
    OnlyLane(g, i, h) && LeftOn(h, i) < LeftOn(g, i)
  }

  /** The producer that the worker waits for sends. */
  lemma SenderGoes(g: Sys, i: nat) returns (h: Sys)
    requires LaneFacts(g, i) && Stalled(g.lanes[i])
    ensures Leads(g, h) && GoneOn(g, i, h)
  {
    hide Leads, CleanStep, WorkerStep, SectionStep, StopStep, Send, DriveLeft, LanePlaces, LaneHolds;
    hide Ordered, Counted, PendingOk, KeysOk, WakeOk, FinishingOk, BacklogOk;
    var l := g.lanes[i];
    var p := StalledBySender(l, g.sec.id);
    assert SendingWith(l.inside, p, l.inside[p].stage.ticket);
    h := SubmitSend(g, p);
    SendIsCalm(l, p);
    SendShrinks(l, p);
    Then(g, g, SubmitMove(p, SendLane), h);
    assert SameMap(g, h);
  }

  lemma SendIsCalm(l: Lane, p: nat)
    requires CanSendNow(l, p) && !l.q.chClosed && !l.panicked
    ensures !Send(l, p).panicked && Send(l, p).q.closed == l.q.closed && Send(l, p).q.retired == l.q.retired
    ensures Send(l, p).inside.Keys <= l.inside.Keys
  {
  }

  function ActOf(s: LaneStep): WorkerAct {
    match s
    case STake => TakeNext
    case ByWork(a) =>
      (match a
       case WFinishTask => CompleteTask
       case WFinishCleanup => CompleteCleanup
       case WStartBarrier => StartHold
       case WPark => ParkHere
       case WLeaveBarrier => LeaveHold
       case _ => Quiet(s))
    case _ => Quiet(s)
  }

  lemma OwnActPossible(g: Sys, i: nat, s: LaneStep)
    requires LaneFacts(g, i) && LaneTheorems.OwnStep(s) && CanStep(g.lanes[i], Sig(g.ctl), s)
    requires s == ByWork(WLeaveBarrier) ==> g.lanes[i].worker.Barrier? && g.lanes[i].worker.section < g.sec.id
    ensures CanWorker(g, i, ActOf(s)) && WorkStep(ActOf(s)) == s
  {
    hide Take, Turn, CanTurn, Driven, InsideOk;
    if s.STake? {
      TakenExists(g, i);
    }
  }

  lemma OwnActKeepsMap(g: Sys, i: nat, s: LaneStep)
    requires i < |g.lanes| && LaneTheorems.OwnStep(s) && CanWorker(g, i, ActOf(s))
    ensures DoWorker(g, i, ActOf(s)).reg == g.reg
  {
    hide Take, Step, CanStep;
  }

  /** Short of parking, the worker takes a step, or the producer that it waits for sends. */
  lemma LaneGoesOn(g: Sys, i: nat) returns (h: Sys)
    requires LaneFacts(g, i) && !MayPark(g.lanes[i], g.sec.id)
    ensures Leads(g, h) && GoneOn(g, i, h)
  {
    hide Leads, CanStep, Step, CanWorker, DoWorker, SameLog, OnlyPlaces, SubmitStep, CleanStep, SectionStep, StopStep;
    hide LaneInv, LaneHolds, InsideOk, LanePlaces, Stalled, MayPark, DriveLeft;
    var l := g.lanes[i];
    if Stalled(l) {
      h := SenderGoes(g, i);
    } else {
      var s := DrivenMoves(l, Sig(g.ctl), g.sec.id);
      OwnActPossible(g, i, s);
      OwnStepShrinks(l, Sig(g.ctl), s, g.sec.id);
      h := DoWorker(g, i, ActOf(s));
      Then(g, g, WorkerMove(i, ActOf(s)), h);
      WorkKeys(g, i, ActOf(s), h);
      WorkLanesAfter(g, i, ActOf(s), h);
      OwnActKeepsMap(g, i, s);
      StepFixed(l, Sig(g.ctl), s);
      SameMapGoesOn(g, h);
    }
  }

  ghost predicate HasParked(g: Sys, i: nat, h: Sys) {
    && h.sec.pc.Parking? && h.sec.id == g.sec.id && h.sec.took == g.sec.took && h.sec.parked == g.sec.parked + {i}
    && h.sec.parkedCount == g.sec.parkedCount + 1 && h.sec.expected == g.sec.expected
  }

  lemma ParksNow(g: Sys, i: nat) returns (h: Sys)
    requires LaneFacts(g, i) && WaitedFor(g, i) && MayPark(g.lanes[i], g.sec.id)
    ensures Goes(g, h) && HasParked(g, i, h)
  {
    hide Leads, SubmitStep, CleanStep, SectionStep, StopStep, LaneInv, LaneHolds, InsideOk, LanePlaces;
    h := WorkerPark(g, i);
    Then(g, g, WorkerMove(i, ParkHere), h);
  }

  lemma GoneOnGoes(g: Sys, i: nat, h: Sys)
    requires Leads(g, h) && GoneOn(g, i, h) && WaitedFor(g, i)
    ensures Goes(g, h) && WaitedFor(h, i) && SameDuty(g.sec, h.sec)
  {
    hide Leads, LeftOn;
  }

  /** Lane i does what lies before the barrier, and its worker parks; nobody has to give up. */
  lemma {:induction false} WorkerParks(g: Sys, i: nat) returns (h: Sys)
    requires Calm(g) && WaitedFor(g, i)
    ensures Goes(g, h) && HasParked(g, i, h)
    decreases LeftOn(g, i)
  {
    hide Leads, Calm, Goes, GoneOn, Driven, InsideOk, LanePlaces, MayPark, Alive;
    WaitedForFacts(g, i);
    if MayPark(g.lanes[i], g.sec.id) {
      h := ParksNow(g, i);
    } else {
      var k := LaneGoesOn(g, i);
      assert LeftOn(k, i) < LeftOn(g, i) by { LessLeft(g, i, k); }
      GoneOnGoes(g, i, k);
      StaysCalm(g, k);
      h := WorkerParks(k, i);
      GoesOn(g, k, h);
    }
  }

  lemma LessLeft(g: Sys, i: nat, h: Sys)
    requires GoneOn(g, i, h)
    ensures LeftOn(h, i) < LeftOn(g, i)
  {
    hide LeftOn;
  }

  lemma SomeUnparked(sec: Section, lanes: seq<Lane>) returns (i: nat)
    requires SetsOk(sec, lanes) && sec.parkedCount < sec.expected
    ensures i in sec.took && i !in sec.parked
  {
    var rest := sec.took - sec.parked;
    assert |rest| == |sec.took| - |sec.parked|;
    i :| i in rest;
  }

  /** All lanes that the section waits for park, one after the other. */
  lemma {:induction false} ParksAll(g: Sys) returns (h: Sys)
    requires Calm(g) && g.sec.pc.Parking?
    ensures Goes(g, h) && CanSecParked(h) && h.sec.id == g.sec.id
    decreases if g.sec.parkedCount < g.sec.expected then g.sec.expected - g.sec.parkedCount else 0
  {
    hide Leads, Goes, LanesOk, KeysPlain, CtlOk, SubsOk, RegOk, LifeOk, StopOk, PlacesOk, LogOk, AcceptedOk, AbortOk;
    hide PanicOk, HandOk, SetsOk, OffLaneOk, DeferredOk, LanesSec, GoodConfig;
    h := g;
    if g.sec.parkedCount < g.sec.expected {
      var i := SomeUnparked(g.sec, g.lanes);
      var k := WorkerParks(g, i);
      StaysCalm(g, k);
      h := ParksAll(k);
      GoesOn(g, k, h);
    } else {
      GoesSelf(g);
    }
  }

  lemma GoesSelf(g: Sys)
    requires Undisturbed(g)
    ensures Goes(g, g)
  {
    hide Leads;
  }

  // ----- the whole section -----

  /** With every barrier queued, the section waits for the workers; and once all are counted, it runs its function. */
  lemma AwaitsParking(g: Sys) returns (h: Sys)
    requires Gathering(g) && g.sec.todo == {}
    ensures Goes(g, h) && h.sec.pc.Parking? && h.sec.id == g.sec.id
  {
    hide Leads, SubmitStep, CleanStep, WorkerStep, StopStep;
    h := SecAwait(g);
    Then(g, g, SectionMove(Await), h);
  }

  lemma FnStarts(g: Sys) returns (h: Sys)
    requires Alive(g) && Undisturbed(g) && (CanSecParked(g) || g.sec.pc.Checking?)
    ensures Goes(g, h) && h.sec.pc.FnRunning? && h.sec.id == g.sec.id
  {
    hide Leads, SubmitStep, CleanStep, WorkerStep, StopStep, Alive;
    var k := g;
    if !g.sec.pc.Checking? {
      k := SecParked(g);
      Then(g, g, SectionMove(AllParked), k);
      SameLanesLive(g, k);
    }
    h := SecGo(k);
    Then(g, k, SectionMove(Go), h);
  }

  lemma ReadyIs(g: Sys)
    requires Ready(g)
    ensures Alive(g) && Undisturbed(g) && RegOk(g) && LanesOk(g.cfg, g.lanes)
    ensures (IsReturning(g.sec.pc) || g.sec.pc.NoSection?) && MuFree(g) ==> Returning(g)
    ensures g.sec.pc.Enqueuing? ==> Gathering(g)
  {
    hide RegOk, LanesOk, CleansAt, Alive;
  }

  /** From a state with no retirement in progress, the section comes to gather its lanes, or is past that. */
  lemma SectionGathers(g: Sys) returns (h: Sys)
    requires Calm(g) && MuFree(g)
    ensures Goes(g, h) && (h.sec.pc.Parking? || h.sec.pc.Checking? || h.sec.pc.FnRunning?)
    ensures !IsReturning(g.sec.pc) ==> h.sec.id == g.sec.id
  {
    hide Leads, Calm, Goes, Ready, Returning, Gathering, MuFree;
    var k := g;
    GoesSelfCalm(g);
    CalmIsReady(k);
    ReadyIs(k);
    if IsReturning(k.sec.pc) {
      k := SectionReturns(g);
      ReturnedIsFree(k);
      StaysCalm(g, k);
      CalmIsReady(k);
    }
    h := k;
    if k.sec.pc.NoSection? || k.sec.pc.Registered? || k.sec.pc.AwaitOffLane? || k.sec.pc.Enqueuing? {
      var n := k;
      if !k.sec.pc.Enqueuing? {
        n := SectionStarts(k);
        GoesOn(g, k, n);
      }
      var o := PutsAll(n);
      GoesOn(g, n, o);
      h := AwaitsParking(o);
      GoesOn(g, o, h);
    }
  }

  lemma GoesSelfCalm(g: Sys)
    requires Calm(g)
    ensures Goes(g, g)
  {
    hide Inv, GoodConfig;
    GoesSelf(g);
  }

  lemma ReturnedIsFree(g: Sys)
    requires Returning(g)
    ensures MuFree(g)
  {
  }

  lemma GatheredRuns(g: Sys) returns (h: Sys)
    requires Calm(g) && (g.sec.pc.Parking? || g.sec.pc.Checking? || g.sec.pc.FnRunning?)
    ensures Goes(g, h) && h.sec.pc.FnRunning? && h.sec.id == g.sec.id
  {
    hide Leads, Calm, Goes, Ready, Returning, Gathering, RegOk, LanesOk, Alive, CanSecParked;
    h := g;
    GoesSelfCalm(g);
    if !g.sec.pc.FnRunning? {
      var k := g;
      if g.sec.pc.Parking? {
        k := ParksAll(g);
      }
      StaysCalm(g, k);
      CalmIsReady(k);
      ReadyIs(k);
      h := FnStarts(k);
      GoesOn(g, k, h);
    }
  }

  /**
   Before a stop, from every reachable state a run leads to the function of an exclusive section, of the one in
   progress unless that has given up or is over: a retirement in progress and releases that run off their lanes end,
   and every worker comes to the barrier, behind whatever was queued before it; no call has to give up. Retired
   lanes, and a release that still runs on one, are not touched.
   */
  lemma SectionCanRun(g: Sys) returns (h: Sys)
    requires Reachable(g) && Undisturbed(g)
    ensures Reachable(h) && Leads(g, h) && Spares(g.lanes, h.lanes) && CallsGoOn(g, h)
    ensures h.sec.pc.FnRunning? && (!IsReturning(g.sec.pc) ==> h.sec.id == g.sec.id)
  {
    hide Reachable, Leads, Inv, Spares, MuFree, Ready;
    ReachableInv(g);
    CalmIsReady(g);
    ReadyIs(g);
    var k := FreesMu(g);
    StaysCalm(g, k);
    var n := SectionGathers(k);
    GoesOn(g, k, n);
    StaysCalm(g, n);
    h := GatheredRuns(n);
    GoesOn(g, n, h);
    if g == h {
      LeadsSelf(g);
    }
    LeadsReach(g, h);
  }

  // ----- beside a release that its lane's seal has missed -----

  /** The retired lane i still runs a release of the key. */
  ghost predicate RunsMissed(g: Sys, i: nat, key: Key) {
    i < |g.lanes| && g.lanes[i].q.retired && g.lanes[i].worker.Cleanup? && g.lanes[i].worker.entry.key == key
  }

  /** A section's function runs beside a release of the key on lane i. */
  ghost predicate FnBeside(g: Sys, i: nat, key: Key) {
    g.sec.pc.FnRunning? && RunsMissed(g, i, key) && RunsFor(g, OnLaneWorker(i), key)
  }

  /** A release that a busy seal has left running holds back no section, whatever else is going on. */
  lemma SectionIgnoresTheRelease(g: Sys, i: nat, key: Key) returns (h: Sys)
    requires Reachable(g) && Undisturbed(g) && RunsMissed(g, i, key)
    ensures Reachable(h) && Leads(g, h) && FnBeside(h, i, key)
  {
    hide Reachable, Leads, Undisturbed;
    h := SectionCanRun(g);
  }

  /** The seal happens before any stop, and leaves the release that it missed. */
  lemma SealLeavesMissed(g: Sys, i: nat, key: Key)
    requires AboutToMiss(g, i, key) && SealParts(g)
    ensures RunsMissed(RetireSeal(g, i), i, key) && Undisturbed(RetireSeal(g, i))
  {
    hide SealParts, NeedsQueue, BelowLimit;
    SealsClear(g, i, key);
  }

  /** After every busy seal a run leads to a section's function beside the release that the seal missed. */
  lemma EveryBusySealMayRunBesideFn(g: Sys, i: nat, key: Key) returns (h: Sys)
    requires Reachable(g) && MissesRelease(g, i, key)
    ensures Reachable(h) && Leads(g, h) && SealLeads(g, i, h) && FnBeside(h, i, key)
  {
    hide Reachable, Leads, Inv, SealParts, MissesRelease, SealLeads, Undisturbed, RunsMissed, FnBeside, Alive, CanSeal;
    hide Seal;
    MissedSeal(g, i, key);
    ReachableInv(g);
    PartsOfSeal(g);
    SealLeavesMissed(g, i, key);
    var k := RetireSeal(g, i);
    LeadsSelf(k);
    SealIsStep(g, i, key, k);
    LeadsReach(g, k);
    h := SectionIgnoresTheRelease(k, i, key);
    SealIsStep(g, i, key, h);
  }
}
