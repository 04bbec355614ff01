/**
 A whole stop, from its call to the release of the engine: behind a sound fence it can always be brought to its end.
 */
module DispatcherShutdown {
  import opened RoutingKeys
  import opened Lanes
  import opened LaneInvariant
  import opened Dispatcher
  import opened DispatcherFrame
  import opened DispatcherFence
  import opened DispatcherRegistry
  import opened DispatcherStop
  import opened DispatcherPlaces
  import opened DispatcherSection
  import opened DispatcherFifo
  import opened DispatcherHandoff
  import opened DispatcherTheorems
  import opened DispatcherRuns
  import opened DispatcherFenceBound
  import opened DispatcherProgress

  // ----- how long a stop waits -----

  lemma LateIsShut(g: Sys, s: nat)
    requires Inv(g) && !g.ctl.loose && LateStop(g, s)
    ensures ShuttingDown(g) && Shut(g)
  {
    hide LanesOk, KeysPlain, CtlOk, SubsOk, LifeOk, PlacesOk, SecOk, LogOk, AcceptedOk, AbortOk, PanicOk, HandOk;
    hide QueueMapOk, GateOk, GuardsOk, ClosedOk, ShardedOk, AimsOk, AllExited;
    assert StopPcOk(g.cfg, g.ctl, g.reg, g.stops[s]) && StopReached(g, g.stops[s]);
  }

  /** A stop that waits behind a sound fence has closed every lane. */
  lemma WaitingStopIsShut(g: Sys, s: nat)
    requires Reachable(g) && !g.ctl.loose && LateStop(g, s)
    ensures ShuttingDown(g) && Shut(g)
  {
    hide *;
    ReachableInv(g);
    LateIsShut(g, s);
  }

  ghost predicate ShutAt(states: seq<Sys>, n: nat) {
    n < |states| && Shut(states[n])
  }

  lemma {:induction false} NoLaneIsMade(states: seq<Sys>, moves: seq<Move>, m: nat, n: nat)
    requires IsRun(states, moves) && m <= n < |states| && ShutAt(states, m)
    ensures ShutAt(states, n) && NoCreations(moves, m, n)
    decreases n
  {
    hide StepAt, Steps, Shut, Creates, LanesOk, KeysPlain, CtlOk, SubsOk, RegOk, LifeOk, StopOk, PlacesOk, SecOk, LogOk;
    hide AcceptedOk, AbortOk, PanicOk, HandOk, Winds;
    if m < n {
      NoLaneIsMade(states, moves, m, n - 1);
      MoveOfRun(states, moves, n - 1);
      RunInv(states, moves, n - 1);
      NothingCreated(states[n - 1], moves[n - 1], states[n]);
      ShutStays(states[n - 1], moves[n - 1], states[n]);
    }
  }

  /** Stop call s waits, behind a fence that did not close too early. */
  ghost predicate WaitsSoundly(states: seq<Sys>, n: nat, s: nat) {
    n < |states| && LateStop(states[n], s) && !states[n].ctl.loose
  }

  /**
   However a waiting stop, its engine and new calls interleave, the workers and the section make at most as many
   moves as they had left, plus 44 for every release that is queued meanwhile and 3 for every one that is postponed.
   */
  lemma StopWaitIsBounded(states: seq<Sys>, moves: seq<Move>, s: nat, m: nat, n: nat)
    requires IsRun(states, moves) && WaitsSoundly(states, m, s) && m <= n < |states|
    ensures n <= |moves|
    ensures EngineMoves(moves, m, n) + EngineLeft(states[n]) <= EngineLeft(states[m]) + LateWork(moves, m, n)
  {
    hide StepAt, ShuttingDown, Shut, EngineLeft, LateStop, Creates, EngineMoves, LateWork, Inv;
    RunInv(states, moves, m);
    LateIsShut(states[m], s);
    NoLaneIsMade(states, moves, m, n);
    EngineRunIsBounded(states, moves, m, n);
  }

  // ----- from the call of a stop to its signal -----

  /** Configuration, control, stop calls and section are as they were. */
  ghost predicate SameStops(g: Sys, h: Sys) {
    h.cfg == g.cfg && h.stops == g.stops && h.ctl == g.ctl && h.sec == g.sec
  }

  /** Lanes that are retired stay as they are. */
  ghost predicate Spares(before: seq<Lane>, after: seq<Lane>) {
    |before| <= |after| && forall i :: 0 <= i < |before| && before[i].q.retired ==> after[i] == before[i]
  }

  /** The key has a lane, or the limit leaves room for one. */
  predicate HasRoom(g: Sys, key: Key) {
    g.cfg.dynamic ==> HasLiveQueue(g, key) || BelowLimit(g)
  }

  /**
   Every call stands where it stood, or its task has been accepted; no key has lost its lane and the room too; and idle
   lanes are retired as before.
   */
  ghost predicate CallsGoOn(g: Sys, h: Sys) {
    && |h.subs| == |g.subs| && h.reg.retirerOff == g.reg.retirerOff
    && (forall p :: 0 <= p < |g.subs| ==>
          h.subs[p].key == g.subs[p].key && (h.subs[p].pc == g.subs[p].pc || h.subs[p].pc == Ending(true)))
    && (forall key: Key :: HasRoom(g, key) ==> HasRoom(h, key))
  }

  /** The map of lanes, and which of them are closed, are as they were. */
  ghost predicate SameMap(g: Sys, h: Sys) {
    && h.cfg == g.cfg && h.reg.queues == g.reg.queues && h.reg.retirerOff == g.reg.retirerOff && |g.lanes| <= |h.lanes|
    && forall i :: 0 <= i < |g.lanes| ==> h.lanes[i].q.closed == g.lanes[i].q.closed
  }

  lemma SameMapGoesOn(g: Sys, h: Sys)
    requires SameMap(g, h) && h.subs == g.subs
    ensures CallsGoOn(g, h)
  {
  }

  /** A key that is removed from a map within the limit leaves room. */
  lemma SealLeavesRoom(g: Sys, i: nat)
    requires CanRetireSeal(g, i) && g.lanes[i].route.key in g.reg.queues
    requires g.cfg.maxQueues > 0 ==> |g.reg.queues| <= g.cfg.maxQueues
    ensures CallsGoOn(g, RetireSeal(g, i))
  {
    var h, key := RetireSeal(g, i), g.lanes[i].route.key;
    assert |h.reg.queues| == |g.reg.queues| - 1 by { MapLoses(g.reg.queues, key); }
    assert BelowLimit(h);
  }

  lemma MapLoses(m: map<Key, nat>, key: Key)
    requires key in m
    ensures |m - {key}| == |m| - 1
  {
    assert (m - {key}).Keys == m.Keys - {key};
    assert |(m - {key}).Keys| == |m - {key}| && |m.Keys| == |m|;
  }

  lemma RetiringIsMapped(g: Sys, i: nat)
    requires RegOk(g) && LanesOk(g.cfg, g.lanes) && CanRetireSeal(g, i)
    ensures g.lanes[i].route.key in g.reg.queues && (g.cfg.maxQueues > 0 ==> |g.reg.queues| <= g.cfg.maxQueues)
  {
    hide GuardsOk, ClosedOk, AimsOk, StopsOk, RoutesOk;
    assert LaneInv(g.lanes[i]) && LaneFits(g.cfg, g.lanes[i], i);
  }

  /** The retirement in progress, if any, ends by itself. */
  lemma FreesMu(g: Sys) returns (h: Sys)
    requires RegOk(g) && LanesOk(g.cfg, g.lanes) && Alive(g)
    ensures FromTo(g, h) && MuFree(h) && SameStops(g, h) && Spares(g.lanes, h.lanes) && Alive(h) && CallsGoOn(g, h)
  {
    hide Leads, CanStep, Step, Take, SubmitStep, CleanStep, SectionStep, StopStep, QueueMapOk, GuardsOk, ClosedOk;
    hide AimsOk, StopsOk, CallsGoOn;
    h := g;
    SameMapGoesOn(g, h);
    if !MuFree(g) {
      var i := g.reg.retiring.value;
      assert LaneInv(g.lanes[i]) && LaneFits(g.cfg, g.lanes[i], i);
      if g.lanes[i].q.backlog == [] {
        h := RetireSeal(g, i);
        Then(g, g, WorkerMove(i, SealIdle), h);
        assert CallsGoOn(g, h) by { RetiringIsMapped(g, i); SealLeavesRoom(g, i); }
      } else {
        h := RetireUnlock(g, i);
        Then(g, g, WorkerMove(i, UnlockIdle), h);
        SameMapGoesOn(g, h);
      }
    }
  }

  /** A state in which the fence is sound so far, and stop call s stands at pc. */
  ghost predicate SoundAt(g: Sys, s: nat, pc: StopPc) {
    !g.ctl.loose && StopAt(g, s, pc)
  }

  ghost predicate IsEarly(g: Sys, s: nat) {
    s < |g.stops| && (g.stops[s].Called? || g.stops[s].Quieted? || g.stops[s].Hardened?)
  }

  lemma StopSignals(g: Sys, s: nat) returns (h: Sys)
    requires RegOk(g) && LanesOk(g.cfg, g.lanes) && Alive(g) && !g.ctl.loose && IsEarly(g, s)
    ensures Leads(g, h) && SoundAt(h, s, Signalled)
  {
    hide Leads, SubmitStep, CleanStep, WorkerStep, SectionStep, RegOk, LanesOk, Spares, Close, CanClose, Mapped;
    hide AllExited;
    hide StopMark, StopClose, CanStopMark, CanStopClose, NewSubmit, NewCleanup, CanNewSubmit, CanNewCleanup;
    var k := g;
    if g.stops[s].Called? {
      var free := FreesMu(g);
      k := StopQuiet(free, s);
      Then(g, free, StopMove(s, QuietRetirer), k);
    }
    if k.stops[s] == Quieted(true) {
      var n := StopHarden(k, s);
      Then(g, k, StopMove(s, Harden), n);
      k := n;
    }
    h := StopSignal(k, s);
    Then(g, k, StopMove(s, Signal), h);
  }

  // ----- from the signal to the wait for the workers -----

  ghost predicate ClosingAt(g: Sys, s: nat) {
    !g.ctl.loose && s < |g.stops| && g.stops[s].Closing?
  }

  lemma SignalledFacts(g: Sys, s: nat)
    requires Inv(g) && SoundAt(g, s, Signalled)
    ensures g.ctl.stopped && MuFree(g) && Alive(g)
  {
    hide LanesOk, KeysPlain, CtlOk, SubsOk, LifeOk, StopOk, PlacesOk, SecOk, LogOk, AcceptedOk, AbortOk, HandOk;
    hide QueueMapOk, GateOk, GuardsOk, AimsOk;
    assert StopPcOk(g.cfg, g.ctl, g.reg, g.stops[s]);
  }

  lemma StopMarks(g: Sys, s: nat) returns (h: Sys)
    requires Reachable(g) && SoundAt(g, s, Signalled)
    ensures Leads(g, h) && ClosingAt(h, s)
  {
    hide Leads, Reachable, Inv, SubmitStep, CleanStep, WorkerStep, SectionStep, Mapped, Alive, Close, CanClose;
    hide AllExited;
    ReachableInv(g);
    SignalledFacts(g, s);
    var k := FenceCloses(g);
    ReachableInv(k);
    SignalledFacts(k, s);
    h := StopMark(k, s);
    Then(g, k, StopMove(s, Mark), h);
  }

  /** The lanes on the list of stop call s can be closed: nobody is inside them, and no gate is held. */
  ghost predicate ListMayClose(g: Sys, s: nat) {
    ClosingAt(g, s) && Alive(g) && forall i :: i in g.stops[s].todo ==> i < |g.lanes| && CanClose(g.lanes[i])
  }

  lemma ListedMayClose(g: Sys, s: nat)
    requires Inv(g) && ClosingAt(g, s)
    ensures ListMayClose(g, s)
  {
    hide LanesOk, KeysPlain, LifeOk, PlacesOk, SecOk, LogOk, AcceptedOk, AbortOk, HandOk, QueueMapOk, GuardsOk, AimsOk;
    hide InsideOk;
    hide AllExited, SubmitsIn, CleansAt;
    assert StopPcOk(g.cfg, g.ctl, g.reg, g.stops[s]) && StopReached(g, g.stops[s]);
    forall i | i in g.stops[s].todo ensures g.lanes[i].inside == map[] {
      NobodyInsideBehindFence(g, i);
    }
  }

  function TodoOf(g: Sys, s: nat): set<nat> {
    if s < |g.stops| && g.stops[s].Closing? then g.stops[s].todo else {}
  }

  /** The stop closes the lanes on its list, one after the other. */
  lemma {:induction false} ClosesAll(g: Sys, s: nat) returns (h: Sys)
    requires ListMayClose(g, s)
    ensures Leads(g, h) && SoundAt(h, s, AwaitWorkers)
    decreases TodoOf(g, s)
  {
    hide Leads, SubmitStep, CleanStep, WorkerStep, SectionStep, AllExited, Mapped, SignalStopped;
    var todo := g.stops[s].todo;
    if i :| i in todo {
      var k := StopClose(g, s, i);
      Then(g, g, StopMove(s, CloseOne(i)), k);
      h := ClosesAll(k, s);
      LeadsOn(g, k, h);
    } else {
      assert todo == {};
      h := SetStop(g, s, AwaitWorkers);
      Then(g, g, StopMove(s, AllClosed), h);
    }
  }

  // ----- the whole stop -----

  ghost predicate IsOpen(g: Sys, s: nat) {
    s < |g.stops| && !g.stops[s].Over?
  }

  lemma ClosingStopEnds(g: Sys, s: nat) returns (h: Sys)
    requires Reachable(g) && !g.ctl.loose && (ClosingAt(g, s) || LateStop(g, s))
    ensures Leads(g, h) && HasEnded(h, s)
  {
    hide Leads, Reachable, Inv, HasEnded, ShuttingDown, Shut, ListMayClose;
    ReachableInv(g);
    var k := g;
    if ClosingAt(g, s) {
      ListedMayClose(g, s);
      k := ClosesAll(g, s);
      LeadsReach(g, k);
    }
    WaitingStopIsShut(k, s);
    h := LateStopEnds(k, s);
    if k != g {
      LeadsOn(g, k, h);
    }
  }

  lemma EarlyFacts(g: Sys)
    requires Inv(g) && !g.ctl.loose
    ensures RegOk(g) && LanesOk(g.cfg, g.lanes) && Alive(g)
  {
    hide LanesOk, KeysPlain, CtlOk, SubsOk, RegOk, LifeOk, StopOk, PlacesOk, SecOk, LogOk, AcceptedOk, AbortOk, HandOk;
  }

  /**
   From every reachable state with a fence that has not closed too early, every stop call that is not over can be
   brought to its successful end, wherever it stands and whatever else is going on: the fence closes over nobody,
   every lane is closed, workers exit, the section and the tracked releases end, the count is sealed and the engine
   is released.
   */
  lemma StopCanEnd(g: Sys, s: nat) returns (h: Sys)
    requires Reachable(g) && !g.ctl.loose && IsOpen(g, s)
    ensures Reachable(h) && Leads(g, h) && HasEnded(h, s)
  {
    hide Leads, Reachable, Inv, RegOk, LanesOk, Alive, HasEnded;
    var k := g;
    if IsEarly(g, s) {
      ReachableInv(g);
      EarlyFacts(g);
      k := StopSignals(g, s);
      LeadsReach(g, k);
    }
    if StopAt(k, s, Signalled) {
      var n := StopMarks(k, s);
      LeadsReach(k, n);
      if k != g {
        LeadsOn(g, k, n);
      }
      k := n;
    }
    h := ClosingStopEnds(k, s);
    if k != g {
      LeadsOn(g, k, h);
    }
    LeadsReach(g, h);
  }
}
