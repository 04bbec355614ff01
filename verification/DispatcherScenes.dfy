/** States of a small engine, given field by field, and how calls come to them. */
module DispatcherScenes {
  import opened RoutingKeys
  import opened Queues
  import opened Lanes
  import opened Dispatcher
  import opened DispatcherTheorems
  import opened DispatcherRuns

  /** Nothing has been accepted, finished or begun; no section has begun and nothing is tracked. */
  function Scene(cfg: Config, lanes: seq<Lane>, subs: seq<Submit>, cleans: seq<Cleaner>, ctl: Ctl, reg: Registry,
                 stops: seq<StopPc>): Sys
  {
    Sys(cfg, ctl, lanes, subs, cleans, reg, Life(0, false), FreshSection(0), stops, 0, [], [], [])
  }

  function OpenFor(inFlight: nat): Ctl {
    Ctl(false, false, false, inFlight, false)
  }

  function OneQueue(key: Key): Registry {
    Registry(map[key := 0], map[], false, None, false)
  }

  function OnlyLane(cfg: Config, key: Key): Lane {
    NewLane(cfg.cap, cfg.tracksIdle, Only(key), true)
  }

  /** The only call has made the lane of its key, which now is l, and stands at pc. */
  function LoneCall(cfg: Config, key: Key, closing: bool, l: Lane, pc: SubmitPc): Sys {
    Scene(cfg, [l], [Submit(key, closing, None, pc)], [], OpenFor(1), OneQueue(key), [])
  }

  /** It has found the lane that it made. */
  function LaneMade(cfg: Config, key: Key, closing: bool): Sys {
    LoneCall(cfg, key, closing, OnlyLane(cfg, key), Found(0))
  }

  /** It has entered the lane and given up. */
  function GivenUp(cfg: Config, key: Key, closing: bool): Sys {
    LoneCall(cfg, key, closing, OnlyLane(cfg, key), Ending(false))
  }

  lemma CallMakesLane(cfg: Config, key: Key, closing: bool)
    requires cfg.dynamic && !IsBarrierKey(key)
    ensures Leads(Init(cfg), LaneMade(cfg, key, closing))
  {
    hide Leads, CleanStep, WorkerStep, SectionStep, StopStep;
    var a := Init(cfg);
    var b := NewSubmit(a, key, closing);
    Then(a, a, SubmitCall(key, closing), b);
    var c := SubmitCreate(b, 0);
    assert c.reg.queues == map[key := 0] && c.lanes == [OnlyLane(cfg, key)];
    Then(a, b, SubmitMove(0, Create), c);
    assert c.subs == [Submit(key, closing, None, Found(0))];
  }

  lemma CallGivesUp(cfg: Config, key: Key, closing: bool)
    requires cfg.dynamic && !IsBarrierKey(key)
    ensures Leads(Init(cfg), GivenUp(cfg, key, closing))
  {
    hide Leads, CleanStep, WorkerStep, SectionStep, StopStep;
    var a, l := Init(cfg), OnlyLane(cfg, key);
    CallMakesLane(cfg, key, closing);
    var c := LaneMade(cfg, key, closing);
    var d := SubmitEnter(c, 0);
    Then(a, c, SubmitMove(0, EnterLane), d);
    var e := SubmitLeave(d, 0, false);
    Then(a, d, SubmitMove(0, LeaveLane(false)), e);
    assert e.lanes[0].inside == map[];
    assert e.lanes == [l] && e.subs == GivenUp(cfg, key, closing).subs;
  }

  /** The closing call has handed its release over, and that is registered with the lane. */
  function ReleaseComes(cfg: Config, key: Key): Sys {
    Scene(cfg, [OnlyLane(cfg, key)], [Submit(key, true, Some(0), Ending(false))], [Cleaner(key, RegLane(0), Unplaced)],
          OpenFor(2),           OneQueue(key), [])
  }

  lemma CallHandsOver(cfg: Config, key: Key)
    requires cfg.dynamic && !IsBarrierKey(key)
    ensures Leads(Init(cfg), ReleaseComes(cfg, key))
  {
    hide Leads, SubmitStep, WorkerStep, SectionStep, StopStep;
    var a := Init(cfg);
    var e := GivenUp(cfg, key, true);
    CallGivesUp(cfg, key, true);
    var f := NewCleanup(e, 0);
    Then(a, e, CleanCall(0), f);
    var i := CleanFind(f, 0);
    Then(a, f, CleanMove(0, FindClean), i);
    var k := CleanBegin(i, 0);
    Then(a, i, CleanMove(0, BeginClean), k);
    assert k.subs == ReleaseComes(cfg, key).subs && k.cleans == ReleaseComes(cfg, key).cleans;
    assert k == ReleaseComes(cfg, key);
  }

  /** The state when one more stop call has signalled. */
  function Halted(g: Sys): Sys {
    g.(stops := g.stops + [Signalled], reg := g.reg.(retirerOff := true), ctl := SignalStopped(g.ctl))
  }

  lemma StopComes(g: Sys)
    requires Alive(g) && MuFree(g)
    ensures Leads(g, Halted(g))
  {
    hide Leads, SubmitStep, CleanStep, WorkerStep, SectionStep, Close, CanClose, Mapped, AllExited;
    var s := |g.stops|;
    var a := NewStop(g, false);
    Then(g, g, StopCall(false), a);
    var b := StopQuiet(a, s);
    Then(g, a, StopMove(s, QuietRetirer), b);
    var c := StopSignal(b, s);
    Then(g, b, StopMove(s, Signal), c);
    assert c.stops == Halted(g).stops;
  }

  /** What a run from the start leads to is reachable. */
  lemma FromTheStart(cfg: Config, g: Sys)
    requires GoodConfig(cfg) && Leads(Init(cfg), g)
    ensures Reachable(g)
  {
    hide Leads, Reachable, GoodConfig, Init;
    ReachInit(cfg);
    LeadsReach(Init(cfg), g);
  }
}
