/** Progress of a stop behind the fence: its waits for workers, section and releases all come to an end. */
module DispatcherProgress {
  import opened RoutingKeys
  import opened Queues
  import opened Lanes
  import LaneTheorems
  import opened Dispatcher
  import opened DispatcherFrame
  import opened DispatcherFence
  import opened DispatcherRegistry
  import opened DispatcherStop
  import opened DispatcherPlaces
  import opened DispatcherSection
  import opened DispatcherFifo
  import opened DispatcherTheorems
  import opened DispatcherRuns
  import opened DispatcherHandoff
  import DispatcherFenceWait

  // ----- the wait for the workers -----

  function LaneLeft(l: Lane): nat {
    2 * LaneTheorems.WorkLeft(l) + (if l.worker.Barrier? && l.worker.at.Arriving? then 1 else 0)
  }

  function SumLeft(lanes: seq<Lane>): nat {
    if lanes == [] then 0 else SumLeft(lanes[..|lanes| - 1]) + LaneLeft(lanes[|lanes| - 1])
  }

  lemma {:induction false} SumLeftUpdate(lanes: seq<Lane>, i: nat, l: Lane)
    requires i < |lanes|
    ensures SumLeft(lanes[i := l]) == SumLeft(lanes) - LaneLeft(lanes[i]) + LaneLeft(l)
  {
    hide LaneLeft;
    var n := |lanes| - 1;
    if i == n {
      assert lanes[i := l][..n] == lanes[..n];
    } else {
      assert lanes[i := l][..n] == lanes[..n][i := l];
      SumLeftUpdate(lanes[..n], i, l);
    }
  }

  /** What the section still has to do, with room for a barrier on every lane it has not reached. */
  function SecLeft(sec: Section, lanes: nat): nat {
    3 * |sec.postponed|
    + match sec.pc
      case NoSection => 0
      case Withdrawn => 1
      case Releasing(todo) => 2 + 2 * |todo|
      case RunningPostponed(_, todo) => 3 + 2 * |todo|
      case FnRunning => 3
      case Checking => 4
      case Parking => 5
      case Enqueuing => 6 + 50 * |sec.todo|
      case AwaitOffLane(_, _) => 7 + 50 * |sec.todo|
      case Registered => 8 + 50 * lanes
  }

  /** All that the workers and the section have left to do. */
  function EngineLeft(g: Sys): nat {
    SumLeft(g.lanes) + SecLeft(g.sec, |g.lanes|)
  }

  /** Stop has closed every lane behind a fence that did not close too early. */
  ghost predicate ShuttingDown(g: Sys) {
    Inv(g) && g.ctl.fence && !g.ctl.loose && AllShut(g.lanes)
  }

  /** Nobody is registered. */
  ghost predicate NobodyIn(g: Sys) {
    && (forall p :: 0 <= p < |g.subs| ==> !Counts(g.subs[p].pc))
    && (forall c :: 0 <= c < |g.cleans| ==> !CleanCounts(g.cleans[c].pc))
  }

  ghost predicate AllWind(g: Sys) {
    forall i :: 0 <= i < |g.lanes| ==> LaneTheorems.Winding(g.lanes[i], Sig(g.ctl)) && g.lanes[i].inside == map[]
  }

  /** What the end of the engine's work rests on: every lane winds down by itself, and nothing is retired any more. */
  ghost predicate Behind(g: Sys) {
    && g.ctl.stopped && g.ctl.fence && !g.ctl.loose && MuFree(g) && (g.cfg.dynamic ==> g.reg.retirerOff)
    && ShapeOk(g.sec) && NobodyIn(g) && Alive(g) && AllShut(g.lanes) && AllWind(g)
  }

  lemma ShutIsBehind(g: Sys)
    requires ShuttingDown(g)
    ensures Behind(g)
  {
    hide LanesOk, KeysPlain, SubsOk, LifeOk, StopOk, SecOk, LogOk, AcceptedOk, AbortOk, HandOk, QueueMapOk, GateOk;
    hide GuardsOk, AimsOk, StopsOk, LanesPlace, AllPlaced, ListOk, BegunOk, LaneTheorems.Winding;
    NobodyCounted(g.subs);
    CleansAtNone(g.cleans, CleanCounts);
    forall i: nat | i < |g.lanes| ensures LaneTheorems.Winding(g.lanes[i], Sig(g.ctl)) && g.lanes[i].inside == map[] {
      InvLaneWinds(g, i);
    }
  }

  lemma ShutGoesOn(g: Sys, m: Move, h: Sys)
    requires Steps(g, m, h) && ShuttingDown(g) && AllShut(h.lanes)
    ensures ShuttingDown(h)
  {
    hide Steps, Can, Do, CanSubmitTest, CanCleanTest, LanesOk, KeysPlain, CtlOk, SubsOk, RegOk, LifeOk, StopOk;
    hide PlacesOk, SecOk;
    hide LogOk, AcceptedOk, AbortOk, PanicOk, HandOk, AllShut;
    InvKept(g, m, h);
    LatchesHold(g, m, h);
    LooseStep(g, m, h);
  }

  lemma ParkShrinks(l: Lane, sig: Signals)
    requires CanWork(l, WPark)
    ensures LaneLeft(Work(l, sig, WPark)) < LaneLeft(l) && Work(l, sig, WPark).q.closed == l.q.closed
  {
  }

  /** Nobody is inside a lane and retirement is over, so only the worker itself steps its lane. */
  lemma OnlyOwnSteps(g: Sys, i: nat, a: WorkerAct, h: Sys)
    requires WorkerStep(g, i, a, h) && Behind(g) && i < |g.lanes|
    ensures LaneTheorems.OwnStep(WorkStep(a)) || WorkStep(a) == ByWork(WPark)
  {
    hide DoWorker, Take, CanTurn, CanEnqueue, CanPutToken, LaneTheorems.Winding, NobodyIn, Alive;
  }

  lemma WorkerMoveShrinks(g: Sys, i: nat, a: WorkerAct, h: Sys)
    requires Behind(g) && WorkerStep(g, i, a, h)
    ensures EngineLeft(h) < EngineLeft(g) && AllShut(h.lanes)
  {
    hide WorkerStep, CanWorker, DoWorker, CanStep, Step, LaneTheorems.Winding, LaneTheorems.WorkLeft, SumLeft;
    hide OnlyPlaces;
    hide SameDuty, SameLog, NobodyIn, Alive, Work;
    WorkLanesAfter(g, i, a, h);
    WorkKeys(g, i, a, h);
    OnlyOwnSteps(g, i, a, h);
    var l, s := g.lanes[i], WorkStep(a);
    if s == ByWork(WPark) {
      StepIs(l, Sig(g.ctl), s);
      ParkShrinks(l, Sig(g.ctl));
    } else {
      LaneTheorems.WindingStepShrinks(l, Sig(g.ctl), s);
      WindingIsClosed(h.lanes[i], Sig(g.ctl));
    }
    SumLeftUpdate(g.lanes, i, h.lanes[i]);
  }

  lemma WindingIsClosed(l: Lane, sig: Signals)
    requires LaneTheorems.Winding(l, sig)
    ensures l.q.closed
  {
  }

  lemma EnqueueAdds(l: Lane, id: nat, key: Key, fence: bool)
    ensures var m := Enqueue(l, id, key, fence);
            LaneLeft(m) <= LaneLeft(l) + 44 && m.q.closed == l.q.closed
  {
  }

  lemma {:induction false} SubsetOfRange(s: set<nat>, n: nat)
    requires forall i :: i in s ==> i < n
    ensures |s| <= n
  {
    if n == 0 {
      assert s == {};
    } else {
      SubsetOfRange(s - {n - 1}, n - 1);
      assert s == if n - 1 in s then (s - {n - 1}) + {n - 1} else s - {n - 1};
    }
  }

  lemma PutBarrierShrinks(g: Sys, i: nat)
    requires CanSecEnqueue(g, i) && Behind(g)
    ensures EngineLeft(SecEnqueue(g, i)) < EngineLeft(g) && AllShut(SecEnqueue(g, i).lanes)
  {
    assert |g.sec.todo - {i}| == |g.sec.todo| - 1;
    if TakesCleanup(g.lanes[i].q) {
      EnqueueAdds(g.lanes[i], g.sec.id, Key(ExclusiveBarrier, 0), false);
      SumLeftUpdate(g.lanes, i, Enqueue(g.lanes[i], g.sec.id, Key(ExclusiveBarrier, 0), false));
    }
  }

  lemma InstallShrinks(g: Sys)
    requires CanSecInstall(g) && Behind(g)
    ensures EngineLeft(SecInstall(g)) < EngineLeft(g) && AllShut(SecInstall(g).lanes)
  {
    SubsetOfRange(SecInstall(g).sec.todo, |g.lanes|);
  }

  lemma SectionMoveShrinks(g: Sys, a: SectionAct, h: Sys)
    requires Behind(g) && SectionStep(g, a, h)
    ensures EngineLeft(h) < EngineLeft(g) && AllShut(h.lanes)
  {
    hide Alive, AllWind, NobodyIn, ShapeOk, SumLeft;
    SectionStepOf(g, a, h);
    match a
    case PutBarrier(i) => PutBarrierShrinks(g, i);
    case Install => InstallShrinks(g);
    case Begin => NoBeginAfterStop(g);
    case _ =>
  }

  lemma NoBeginAfterStop(g: Sys)
    requires Behind(g)
    ensures !CanSecBegin(g)
  {
  }

  /** Every move of a worker or of the section leaves less to do, and the shutdown goes on. */
  lemma EngineMoveShrinks(g: Sys, m: Move, h: Sys)
    requires ShuttingDown(g) && Steps(g, m, h) && EngineMove(m)
    ensures ShuttingDown(h) && EngineLeft(h) < EngineLeft(g) && h.ctl == g.ctl && h.stops == g.stops
  {
    hide Steps, Can, Do, SubmitStep, CleanStep, WorkerStep, SectionStep, StopStep, NewSubmit, NewCleanup, NewStop;
    hide CanNewSubmit;
    hide CanNewCleanup, ShuttingDown, Behind, EngineLeft, AllShut, SameStage, OnlyPlaces, SameDuty, SameLog, Alive, Inv;
    hide CanSubmit, DoSubmit, CanClean, DoClean, CanWorker, DoWorker, CanSection, DoSection, CanStop, DoStop;
    StepOf(g, m, h);
    MoveKeys(g, m, h);
    ShutIsBehind(g);
    if m.WorkerMove? {
      WorkerMoveShrinks(g, m.i, m.worker, h);
    } else {
      SectionMoveShrinks(g, m.section, h);
    }
    ShutGoesOn(g, m, h);
  }

  // ----- every other move leaves no more to do, but for the releases that come late -----

  /** What a release adds that comes after stop: one more entry of a backlog, or one more postponed release. */
  function Adds(m: Move): nat {
    if m.CleanMove? && m.clean.EnqueueFence? then 44 else if m.CleanMove? && m.clean.GoOffLane? then 3 else 0
  }

  ghost predicate AddsLate(g: Sys, m: Move, h: Sys) {
    AllShut(h.lanes) && EngineLeft(h) <= EngineLeft(g) + Adds(m)
  }

  lemma OtherLanes(g: Sys, m: Move, h: Sys)
    requires LanesFollow(g, m, h) && Behind(g) && !EngineMove(m) && !Creates(m)
    ensures |h.lanes| == |g.lanes| && SumLeft(h.lanes) <= SumLeft(g.lanes) + (if Adds(m) == 44 then 44 else 0)
    ensures AllShut(h.lanes)
  {
    if LaneOf(g, m).OneLane? {
      var i, s := LaneOf(g, m).i, LaneOf(g, m).s;
      StepIs(g.lanes[i], Sig(g.ctl), s);
      if s.SEnqueue? {
        EnqueueAdds(g.lanes[i], s.id, s.key, s.fence);
      } else {
        assert Gate(g.lanes[i], GClose) == g.lanes[i];
      }
      SumLeftUpdate(g.lanes, i, h.lanes[i]);
    }
  }

  /** Only a release that goes off its lane can still be postponed. */
  lemma PostponesLate(g: Sys, c: nat, a: CleanAct, h: Sys)
    requires CleanStep(g, c, a, h) && NobodyIn(g) && !a.CreateClean?
    ensures h.sec == g.sec || (a.GoOffLane? && h.sec == Defer(g.sec, c))
  {
    hide Enqueue, CanEnqueue, TakesCleanup, CanFind, Target, HasLiveQueue, GuardRefused, TestFence;
  }

  lemma OtherMoveAdds(g: Sys, m: Move, h: Sys)
    requires Steps(g, m, h) && ShuttingDown(g) && !Creates(m) && !EngineMove(m)
    ensures ShuttingDown(h) && AddsLate(g, m, h)
  {
    hide Steps, Can, Do, SubmitStep, CleanStep, WorkerStep, SectionStep, StopStep, NewSubmit, NewCleanup, NewStop;
    hide CanNewSubmit;
    hide CanNewCleanup, ShuttingDown, SumLeft, AllShut, OnlyPlaces, SameDuty, SameLog, Alive, Inv, FreshLane, Moved;
    hide LaneOf;
    hide CanSubmit, DoSubmit, CanClean, DoClean, CanWorker, DoWorker, CanSection, DoSection, CanStop, DoStop, AllWind;
    hide NobodyIn;
    StepOf(g, m, h);
    MoveKeys(g, m, h);
    LanesAfter(g, m, h);
    ShutIsBehind(g);
    OtherLanes(g, m, h);
    if m.CleanMove? {
      PostponesLate(g, m.c, m.clean, h);
    }
    ShutGoesOn(g, m, h);
  }

  // ----- over a run -----

  /** How many of the moves from m to n are moves of workers or of the section. */
  function EngineMoves(moves: seq<Move>, m: nat, n: nat): nat
    requires m <= n <= |moves|
    decreases n
  {
    if m == n then 0 else EngineMoves(moves, m, n - 1) + (if EngineMove(moves[n - 1]) then 1 else 0)
  }

  /** What the releases add that come between. */
  function LateWork(moves: seq<Move>, m: nat, n: nat): nat
    requires m <= n <= |moves|
    decreases n
  {
    if m == n then 0 else LateWork(moves, m, n - 1) + Adds(moves[n - 1])
  }

  ghost predicate NoCreations(moves: seq<Move>, m: nat, n: nat) {
    m <= n <= |moves| && forall k :: m <= k < n ==> !Creates(moves[k])
  }

  /**
   Once all lanes are closed behind a sound fence, and as long as no new lane is made, everything may interleave: the
   workers and the section make at most as many moves as they had left, plus what each late release adds.
   */
  lemma {:induction false} EngineRunIsBounded(states: seq<Sys>, moves: seq<Move>, m: nat, n: nat)
    requires IsRun(states, moves) && NoCreations(moves, m, n)
    requires ShuttingDownAt(states, m)
    ensures ShuttingDownAt(states, n)
    ensures EngineMoves(moves, m, n) + EngineLeft(states[n]) <= EngineLeft(states[m]) + LateWork(moves, m, n)
    decreases n
  {
    hide StepAt, Steps, ShuttingDown, EngineLeft, EngineMove, Creates, Adds, AllShut;
    if m < n {
      EngineRunIsBounded(states, moves, m, n - 1);
      MoveOfRun(states, moves, n - 1);
      if EngineMove(moves[n - 1]) {
        EngineMoveShrinks(states[n - 1], moves[n - 1], states[n]);
      } else {
        OtherMoveAdds(states[n - 1], moves[n - 1], states[n]);
      }
    }
  }

  ghost predicate ShuttingDownAt(states: seq<Sys>, n: nat) {
    n < |states| && ShuttingDown(states[n])
  }

  /** And when they can make no more, every worker has exited: the wait for the workers ends. */
  lemma {:induction false} WorkersExit(g: Sys) returns (h: Sys)
    requires Reachable(g) && ShuttingDown(g)
    ensures Reachable(h) && Leads(g, h) && ShuttingDown(h) && AllExited(h.lanes) && h.ctl == g.ctl && h.stops == g.stops
    decreases EngineLeft(g)
  {
    hide Reachable, Leads, Can, Do, ShuttingDown, EngineLeft, EngineMove, AllExited, Alive, AllWind, NobodyIn, ShapeOk;
    h := g;
    if AllExited(g.lanes) {
      LeadsSelf(g);
    } else {
      ShutIsBehind(g);
      StopIsNeverStuck(g);
      var m :| EngineMove(m) && Can(g, m);
      var next := Do(g, m);
      EngineMoveShrinks(g, m, next);
      LeadsStep(g, m, next);
      LeadsReach(g, next);
      h := WorkersExit(next);
      LeadsOn(g, next, h);
    }
  }

  // ----- from there to the release of the engine -----

  /** Every worker has exited. */
  ghost predicate Empty(g: Sys) {
    ShuttingDown(g) && AllExited(g.lanes)
  }

  lemma EmptyParts(g: Sys)
    requires Empty(g)
    ensures Inv(g) && Behind(g) && LanesOk(g.cfg, g.lanes) && StopOk(g) && LifeOk(g)
  {
    hide LanesOk, KeysPlain, SubsOk, RegOk, LifeOk, StopOk, PlacesOk, SecOk, LogOk, AcceptedOk, AbortOk, PanicOk;
    hide AllExited;
    hide HandOk, Behind;
    ShutIsBehind(g);
  }

  lemma EmptyStays(g: Sys, m: Move, h: Sys)
    requires Empty(g) && Steps(g, m, h) && !Creates(m) && (m.SectionMove? || m.CleanMove?) && AllShut(h.lanes)
    ensures Empty(h) && h.stops == g.stops
  {
    hide Steps, Can, Do, ShuttingDown, Inv, AllShut, Behind, LanesOk, LifeOk, StopOk, Creates, SameStage;
    hide OtherCleansStay, OnlyPlaces;
    EmptyParts(g);
    MoveKeys(g, m, h);
    LanesWind(g, m, h);
    ShutGoesOn(g, m, h);
  }

  lemma {:induction false} SectionEnds(g: Sys) returns (h: Sys)
    requires Empty(g)
    ensures FromTo(g, h) && Empty(h) && h.sec.pc.NoSection? && h.stops == g.stops
    decreases EngineLeft(g)
  {
    hide Leads, EngineLeft, Inv, ShuttingDown, CanSection, DoSection, Alive, AllWind, NobodyIn, ShapeOk, AllShut;
    hide LifeOk;
    hide LanesOk, StopOk;
    h := g;
    if !g.sec.pc.NoSection? {
      EmptyParts(g);
      SectionMoves(g);
      var a :| CanSection(g, a);
      var m, next := SectionMove(a), DoSection(g, a);
      assert Steps(g, m, next);
      EngineMoveShrinks(g, m, next);
      LanesWind(g, m, next);
      LeadsStep(g, m, next);
      h := SectionEnds(next);
      if h != next {
        LeadsOn(g, next, h);
      }
    }
  }

  lemma {:induction false} ReleasesEnd(g: Sys) returns (h: Sys)
    requires Empty(g) && g.sec.pc.NoSection?
    ensures FromTo(g, h) && Empty(h) && h.sec.pc.NoSection? && h.life.count == 0 && h.stops == g.stops
    decreases g.life.count
  {
    hide Leads, Inv, ShuttingDown, AllExited, LanesOk, StopOk, Behind, Alive, CleansAt, PcsOk, AllShut;
    hide SubmitStep, WorkerStep, SectionStep, StopStep;
    h := g;
    if g.life.count > 0 {
      EmptyParts(g);
      assert Alive(g) && AllShut(g.lanes) by { BehindIsAlive(g); }
      var c := DispatcherFenceWait.SomeClean(g.cleans, IsTracked);
      var next := CleanRunDone(g, c);
      Then(g, g, CleanMove(c, RunDone), next);
      assert Steps(g, CleanMove(c, RunDone), next);
      EmptyStays(g, CleanMove(c, RunDone), next);
      h := ReleasesEnd(next);
      if h != next {
        LeadsOn(g, next, h);
      }
    }
  }

  lemma BehindIsAlive(g: Sys)
    requires Behind(g)
    ensures Alive(g) && AllShut(g.lanes)
  {
  }

  // ----- the last steps of a stop -----

  /** Stop call s has returned without an error, and the engine is released. */
  ghost predicate HasEnded(g: Sys, s: nat) {
    g.releases == 1 && g.life.sealed && StopAt(g, s, Over(true))
  }

  /** A stop call that has closed all lanes, and is not over. */
  predicate IsLate(pc: StopPc) {
    pc.AwaitWorkers? || pc.AwaitSections? || pc.AwaitLife? || pc.Won?
  }

  predicate LateStop(g: Sys, s: nat) {
    s < |g.stops| && IsLate(g.stops[s])
  }

  /** Nothing is left to wait for. */
  ghost predicate AllGone(g: Sys) {
    Alive(g) && AllExited(g.lanes) && g.sec.pc.NoSection? && g.life.count == 0 && StopOk(g)
  }

  lemma LateStopPasses(g: Sys, s: nat) returns (h: Sys)
    requires AllGone(g) && LateStop(g, s)
    ensures Leads(g, h) && HasEnded(h, s)
  {
    hide Leads, SubmitStep, CleanStep, WorkerStep, SectionStep, AllExited, Shut, AllShut, Close, CanClose, Mapped;
    hide SignalStopped;
    hide NewSubmit, NewCleanup, CanNewSubmit, CanNewCleanup, StopMark, StopClose, StopQuiet, StopHarden, CanStopMark;
    hide CanStopClose;
    assert StopReached(g, g.stops[s]);
    var k := g;
    if StopAt(k, s, AwaitWorkers) {
      var n := SetStop(k, s, AwaitSections);
      Then(g, k, StopMove(s, WorkersGone), n);
      k := n;
    }
    if StopAt(k, s, AwaitSections) {
      var n := SetStop(k, s, AwaitLife);
      Then(g, k, StopMove(s, SectionsGone), n);
      k := n;
    }
    if StopAt(k, s, AwaitLife) {
      var n := StopSeal(k, s);
      Then(g, k, StopMove(s, SealLife), n);
      k := n;
    }
    h := StopRelease(k, s);
    Then(g, k, StopMove(s, Release), h);
  }

  /**
   Once every lane is closed behind a sound fence, a stop that waits can be brought to its end: workers exit, the
   section ends, tracked releases end, the count is sealed and the engine is released.
   */
  lemma LateStopEnds(g: Sys, s: nat) returns (h: Sys)
    requires Reachable(g) && ShuttingDown(g) && LateStop(g, s)
    ensures Leads(g, h) && HasEnded(h, s)
  {
    hide Reachable, Leads, ShuttingDown, AllExited, Inv, LanesOk, LifeOk, StopOk, HasEnded, IsLate, Alive, AllShut;
    hide Behind;
    var a := WorkersExit(g);
    var b := SectionEnds(a);
    var c := ReleasesEnd(b);
    EmptyParts(c);
    BehindIsAlive(c);
    h := LateStopPasses(c, s);
    if b != c { LeadsOn(b, c, h); }
    if a != b { LeadsOn(a, b, h); }
    LeadsOn(g, a, h);
  }
}
