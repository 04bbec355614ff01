/**
 Two runs with a guarded release: behind a fence that closed too early the engine is released while it still runs, and
 after stop it holds up two registered calls.
 */
module DispatcherLateStop {
  import opened RoutingKeys
  import opened Queues
  import opened Lanes
  import opened Dispatcher
  import opened DispatcherTheorems
  import opened DispatcherRuns
  import opened DispatcherScenes
  import DispatcherFenceWait

  /** A Dynamic engine with room for one queue. */
  function OneRoom(): Config {
    Config(true, false, 1, 1, 0, (k: Key) => 0)
  }

  function Home(key: Key): Lane {
    OnlyLane(OneRoom(), key)
  }

  /** A call of a plain operation. */
  function Plain(key: Key, pc: SubmitPc): Submit {
    Submit(key, false, None, pc)
  }

  // ----- the second call hits the limit, and its release takes a guard -----

  /** The first call has decremented and is yet to test; the second, of a closing operation, has met the limit. */
  function Refused2(key: Key, other: Key): Sys {
    Scene(OneRoom(), [Home(key)], [Plain(key, Tested(false, true)), Submit(other, true, None, Ending(false))], [],
          OpenFor(1),
          OneQueue(key), [])
  }

  lemma SecondCallIsRefused(key: Key, other: Key)
    requires key != other && !IsBarrierKey(other)
    ensures Leads(GivenUp(OneRoom(), key, false), Refused2(key, other))
  {
    hide Leads, CleanStep, WorkerStep, SectionStep, StopStep;
    var a := GivenUp(OneRoom(), key, false);
    var b := SubmitEnd(a, 0);
    Then(a, a, SubmitMove(0, EndSubmit), b);
    var c := NewSubmit(b, other, true);
    Then(a, b, SubmitCall(other, true), c);
    var d := SubmitLimit(c, 1);
    Then(a, c, SubmitMove(1, Limit), d);
    assert d.subs == Refused2(key, other).subs && d == Refused2(key, other);
  }

  /** The guarded release runs on the second call's goroutine; the first call stands at pc. */
  function Guarded(key: Key, other: Key, pc: SubmitPc, ctl: Ctl, stopping: bool, stops: seq<StopPc>): Sys {
    Scene(OneRoom(), [Home(key)], [Plain(key, pc), Submit(other, true, Some(0), Ending(false))],
          [Cleaner(other, Guarding, OnCaller)], ctl,
          Registry(map[key := 0], map[other := 0], stopping, None, stopping), stops)
      .(begun := [0])
  }

  function Guards2(key: Key, other: Key): Sys {
    Guarded(key, other, Tested(false, true), OpenFor(2), false, [])
  }

  lemma ReleaseTakesGuard(key: Key, other: Key)
    requires key != other && !IsBarrierKey(other)
    ensures Leads(Refused2(key, other), Guards2(key, other))
  {
    hide Leads, SubmitStep, WorkerStep, SectionStep, StopStep;
    var a := Refused2(key, other);
    var b := NewCleanup(a, 1);
    Then(a, a, CleanCall(1), b);
    var c := CleanLimit(b, 0);
    Then(a, b, CleanMove(0, LimitClean), c);
    var d := CleanBegin(c, 0);
    Then(a, c, CleanMove(0, BeginClean), d);
    var e := CleanGuard(d, 0);
    Then(a, d, CleanMove(0, Guard), e);
    assert e.reg.guards == map[other := 0] && e.subs == Guards2(key, other).subs;
    assert e.cleans == Guards2(key, other).cleans && e.begun == [0];
  }

  lemma GuardBeforeStop(key: Key, other: Key)
    requires key != other && !IsBarrierKey(key) && !IsBarrierKey(other)
    ensures Leads(Init(OneRoom()), Guards2(key, other))
  {
    hide *;
    assert OneRoom().dynamic by { Roomy(); }
    CallGivesUp(OneRoom(), key, false);
    SecondCallIsRefused(key, other);
    LeadsOn(Init(OneRoom()), GivenUp(OneRoom(), key, false), Refused2(key, other));
    ReleaseTakesGuard(key, other);
    LeadsOn(Init(OneRoom()), Refused2(key, other), Guards2(key, other));
  }

  lemma Roomy()
    ensures OneRoom().dynamic && GoodConfig(OneRoom())
  {
  }

  // ----- stop, and the first call's late test -----

  /** The late test has closed the fence over the guarded release; stop and worker go on from there. */
  function Late3(key: Key, other: Key, l: Lane, stop: StopPc): Sys {
    Guarded(key, other, Done(false), Ctl(true, false, true, 2, true), true, [stop]).(lanes := [l])
  }

  function Marked3(key: Key, other: Key): Sys {
    Late3(key, other, Home(key), Closing({0}))
  }

  lemma FenceClosesOverGuard(key: Key, other: Key)
    requires key != other
    ensures Leads(Halted(Guards2(key, other)), Marked3(key, other))
  {
    hide Leads, CleanStep, WorkerStep, SectionStep;
    var a := Halted(Guards2(key, other));
    var b := SubmitTest(a, 0);
    Then(a, a, SubmitMove(0, TestSubmit), b);
    assert 0 in b.reg.queues.Values by {
      assert b.reg.queues[key] == 0;
    }
    var c := StopMark(b, 0);
    Then(a, b, StopMove(0, Mark), c);
    assert c.stops[0].todo == {0};
    assert c.subs == Marked3(key, other).subs && c.stops == [Closing({0})];
  }

  function Stopping(key: Key, other: Key, worker: Worker, stop: StopPc): Sys {
    var q := NewQueue(1, false).(closed := true, chClosed := true, workerExited := worker.Exited?);
    Late3(key, other, Home(key).(worker := worker, q := q), stop)
  }

  function Closed3(key: Key, other: Key): Sys {
    Stopping(key, other, Top(false), AwaitWorkers)
  }

  lemma LaneIsClosed(key: Key, other: Key)
    ensures Leads(Marked3(key, other), Closed3(key, other))
  {
    hide Leads, SubmitStep, CleanStep, WorkerStep, SectionStep;
    var a := Marked3(key, other);
    var b := StopClose(a, 0, 0);
    Then(a, a, StopMove(0, CloseOne(0)), b);
    assert b.stops[0].todo == {};
    var c := SetStop(b, 0, AwaitWorkers);
    Then(a, b, StopMove(0, AllClosed), c);
    assert c.stops == [AwaitWorkers] && c.lanes == Closed3(key, other).lanes;
  }

  function SeenClosed(key: Key, other: Key): Sys {
    Stopping(key, other, Top(true), AwaitWorkers)
  }

  function Gone(key: Key, other: Key): Sys {
    Stopping(key, other, Exited, AwaitWorkers)
  }

  /** The worker looks for work and sees the close... */
  lemma WorkerSeesClose(key: Key, other: Key)
    ensures Leads(Closed3(key, other), SeenClosed(key, other))
  {
    hide Leads, SubmitStep, CleanStep, SectionStep, StopStep, Produce, CanProduce, Work, CanWork, Enqueue, ConvertHead;
    var a := Closed3(key, other);
    NothingToConvert(a.lanes[0]);
    var b := WorkerTake(a, 0);
    Then(a, a, WorkerMove(0, TakeNext), b);
    var c := OnLane(b, 0, ByLoop(LSeeClosed));
    Then(a, b, WorkerMove(0, Quiet(ByLoop(LSeeClosed))), c);
    assert c.lanes == SeenClosed(key, other).lanes;
  }

  /** ... looks once more, and exits. */
  lemma WorkerLeaves(key: Key, other: Key)
    ensures Leads(SeenClosed(key, other), Gone(key, other))
  {
    hide Leads, SubmitStep, CleanStep, SectionStep, StopStep, Produce, CanProduce, Work, CanWork, Enqueue, ConvertHead;
    var a := SeenClosed(key, other);
    NothingToConvert(a.lanes[0]);
    var b := WorkerTake(a, 0);
    Then(a, a, WorkerMove(0, TakeNext), b);
    var c := OnLane(b, 0, ByLoop(LFinish));
    Then(a, b, WorkerMove(0, Quiet(ByLoop(LFinish))), c);
    assert c.lanes == Gone(key, other).lanes;
  }

  lemma NothingToConvert(l: Lane)
    requires l.q.backlog == []
    ensures ConvertHead(l, true) == l
  {
  }

  ghost predicate ReleasedBeside(g: Sys, other: Key) {
    g.releases == 1 && g.cleans == [Cleaner(other, Guarding, OnCaller)]
  }

  /** The stop passes its other waits and releases the engine. */
  lemma EngineIsReleased(key: Key, other: Key) returns (g: Sys)
    ensures Leads(Gone(key, other), g) && ReleasedBeside(g, other)
  {
    hide Leads, SubmitStep, CleanStep, WorkerStep, SectionStep, Close, CanClose, Mapped;
    var a := Gone(key, other);
    var b := SetStop(a, 0, AwaitSections);
    Then(a, a, StopMove(0, WorkersGone), b);
    var c := SetStop(b, 0, AwaitLife);
    Then(a, b, StopMove(0, SectionsGone), c);
    var d := StopSeal(c, 0);
    Then(a, c, StopMove(0, SealLife), d);
    g := StopRelease(d, 0);
    Then(a, d, StopMove(0, Release), g);
  }

  lemma GuardsAlive(key: Key, other: Key)
    ensures Alive(Guards2(key, other)) && MuFree(Guards2(key, other))
  {
  }

  /** With a fence that closed too early, the engine is released while a guarded release of another key still runs. */
  lemma ReleasedBesideAGuard(key: Key, other: Key) returns (g: Sys)
    requires key != other && !IsBarrierKey(key) && !IsBarrierKey(other)
    ensures Reachable(g) && ReleasedBeside(g, other)
  {
    hide *;
    var start, a := Init(OneRoom()), Guards2(key, other);
    GuardBeforeStop(key, other);
    GuardsAlive(key, other);
    StopComes(a);
    LeadsOn(start, a, Halted(a));
    FenceClosesOverGuard(key, other);
    LeadsOn(start, Halted(a), Marked3(key, other));
    LaneIsClosed(key, other);
    LeadsOn(start, Marked3(key, other), Closed3(key, other));
    WorkerSeesClose(key, other);
    LeadsOn(start, Closed3(key, other), SeenClosed(key, other));
    WorkerLeaves(key, other);
    LeadsOn(start, SeenClosed(key, other), Gone(key, other));
    g := EngineIsReleased(key, other);
    LeadsOn(start, Gone(key, other), g);
    Roomy();
    FromTheStart(OneRoom(), g);
  }

  // ----- a third call waits at the guard -----

  /** A third call, of the guarded key, waits at the guard. */
  function Parked3(key: Key, other: Key): Sys {
    var g := Guards2(key, other);
    g.(subs := g.subs + [Plain(other, AtGuard(0))], ctl := OpenFor(3))
  }

  lemma ThirdCallParks(key: Key, other: Key)
    requires key != other && !IsBarrierKey(other)
    ensures Leads(Guards2(key, other), Parked3(key, other)) && Alive(Parked3(key, other)) && MuFree(Parked3(key, other))
  {
    hide Leads, CleanStep, WorkerStep, SectionStep, StopStep;
    var a := Guards2(key, other);
    var b := NewSubmit(a, other, false);
    Then(a, a, SubmitCall(other, false), b);
    var c := SubmitPark(b, 2);
    Then(a, b, SubmitMove(2, ParkAtGuard), c);
    assert c.subs == Parked3(key, other).subs;
  }

  /** Stop is signalled and the fence is open, and two registered calls cannot move. */
  ghost predicate HoldsUp(g: Sys, p: nat, q: nat) {
    && g.ctl.stopped && !g.ctl.fence
    && DispatcherFenceWait.Registered(g, p) && !DispatcherFenceWait.CallCanMove(g, p)
    && DispatcherFenceWait.Registered(g, q) && !DispatcherFenceWait.CallCanMove(g, q)
  }

  lemma ParkedIsHeldUp(g: Sys, key: Key, other: Key) returns (p: nat, q: nat)
    requires Reachable(g) && g == Halted(Parked3(key, other))
    ensures HoldsUp(g, p, q)
  {
    hide Reachable, DispatcherFenceWait.CallCanMove;
    p, q := 2, 1;
    DispatcherFenceWait.OpenFenceIsAlive(g);
    DispatcherFenceWait.RegisteredSubmitMoves(g, p);
    DispatcherFenceWait.RegisteredSubmitMoves(g, q);
    assert DispatcherFenceWait.WaitsAtGuard(g, p) && DispatcherFenceWait.WaitsForHandoff(g, q) by {
      hide DispatcherFenceWait.ReleaseCanMove;
      assert CanClean(g, 0, GuardDone);
      DispatcherFenceWait.ByRelease(g, 0, GuardDone);
    }
  }

  /**
   After stop two registered calls cannot move by themselves: one parked at a guard, one inside its failure handoff.
   */
  lemma GuardHoldsUpCalls(key: Key, other: Key) returns (g: Sys, p: nat, q: nat)
    requires key != other && !IsBarrierKey(key) && !IsBarrierKey(other)
    ensures Reachable(g) && HoldsUp(g, p, q)
  {
    hide *;
    var start, a, b := Init(OneRoom()), Guards2(key, other), Parked3(key, other);
    GuardBeforeStop(key, other);
    ThirdCallParks(key, other);
    LeadsOn(start, a, b);
    StopComes(b);
    g := Halted(b);
    LeadsOn(start, b, g);
    Roomy();
    FromTheStart(OneRoom(), g);
    p, q := ParkedIsHeldUp(g, key, other);
  }
}
