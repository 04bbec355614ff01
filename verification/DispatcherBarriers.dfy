/** Which lanes an exclusive section stops: over whole runs, those that were open when it was installed, no other. */
module DispatcherBarriers {
  import opened RoutingKeys
  import opened Queues
  import opened Lanes
  import opened LaneFrame
  import opened LaneInvariant
  import opened Dispatcher
  import opened DispatcherFrame
  import opened DispatcherFence
  import opened DispatcherRegistry
  import opened DispatcherSection
  import opened DispatcherStop
  import opened DispatcherPlaces
  import opened DispatcherFifo
  import opened DispatcherHandoff
  import opened DispatcherTheorems
  import opened DispatcherRuns

  /** Lane i serves keys: a shard, or a lane that the map names and nothing has closed. */
  predicate IsOpen(g: Sys, i: nat) {
    && i < |g.lanes|
    && (g.cfg.dynamic ==> !g.lanes[i].q.closed && exists key :: key in g.reg.queues && g.reg.queues[key] == i)
  }

  /** The section installed in state f is in progress in g, has taken no other lane, and none has been retired since. */
  ghost predicate Since(f: Sys, g: Sys) {
    && g.sec.id == f.sec.id && g.sec.active && MuFree(g) && g.sec.base == |f.lanes| && |f.lanes| <= |g.lanes|
    && (forall i :: i < |f.lanes| && (i in g.sec.took || i in g.sec.todo) ==> IsOpen(f, i))
    && (forall i :: 0 <= i < |f.lanes| && g.lanes[i].q.retired ==> f.lanes[i].q.retired)
  }

  /** That section is in progress, is withdrawn, or is over. */
  ghost predicate OrOver(f: Sys, g: Sys) {
    Since(f, g) || (g.sec.id == f.sec.id && g.sec.pc.Withdrawn?) || g.sec.id > f.sec.id
  }

  /** What a move may do to the lanes that the section has taken, or has still to take. */
  ghost predicate TakesOnly(g: Sys, h: Sys) {
    && h.sec.id >= g.sec.id
    && (g.sec.pc.Withdrawn? && h.sec.id == g.sec.id ==> h.sec.pc.Withdrawn?)
    && (g.sec.active && h.sec.id == g.sec.id && !h.sec.pc.Withdrawn? ==>
          && h.sec.active && h.sec.base == g.sec.base
          && forall i :: i < |g.lanes| && (i in h.sec.took || i in h.sec.todo) ==> i in g.sec.took || i in g.sec.todo)
  }

  lemma SectionTakes(g: Sys, a: SectionAct, h: Sys)
    requires SectionStep(g, a, h) && ShapeOk(g.sec)
    ensures TakesOnly(g, h)
  {
    hide Enqueue, NeedsBarrier, TakesCleanup, CleanAt, CanEnqueue;
  }

  lemma CreateTakes(g: Sys, key: Key)
    ensures TakesOnly(g, CreateQueue(g, key))
  {
    hide FreshLane;
  }

  lemma CreatesTakes(g: Sys, m: Move, h: Sys)
    requires Steps(g, m, h) && Creates(m)
    ensures TakesOnly(g, h)
  {
    hide FreshLane, CanWorker, DoWorker, CanSection, DoSection, CanStop, DoStop, NeedsQueue, BelowLimit;
  }

  lemma OthersTake(g: Sys, m: Move, h: Sys)
    requires MoveKeeps(g, m, h) && !m.SectionMove? && h.sec.took == g.sec.took
    ensures TakesOnly(g, h)
  {
    hide SameStop, OtherCleansStay, OnlyPlaces, OffLaneShrinks, OthersStay;
  }

  lemma ParkTakes(g: Sys, m: Move, h: Sys)
    requires Steps(g, m, h) && IsPark(m)
    ensures h.sec.took == g.sec.took
  {
    hide CanSubmit, DoSubmit, CanClean, DoClean, CanSection, DoSection, CanStop, DoStop;
  }

  lemma MoveTakes(g: Sys, m: Move, h: Sys)
    requires Steps(g, m, h) && ShapeOk(g.sec)
    ensures TakesOnly(g, h)
  {
    hide Steps, Can, Do, SectionStep, SubmitStep, CleanStep, WorkerStep, StopStep, TakesOnly, MoveKeeps, ShapeOk;
    StepOf(g, m, h);
    MoveKeys(g, m, h);
    if m.SectionMove? {
      SectionTakes(g, m.section, h);
    } else if Creates(m) {
      CreatesTakes(g, m, h);
    } else {
      if IsPark(m) {
        ParkTakes(g, m, h);
      }
      OthersTake(g, m, h);
    }
  }

  /** While a section is in progress no retirement begins, and without one no lane is retired. */
  ghost predicate NoneRetires(g: Sys, h: Sys) {
    && MuFree(h) && |g.lanes| <= |h.lanes|
    && forall i :: 0 <= i < |g.lanes| && h.lanes[i].q.retired ==> g.lanes[i].q.retired
  }

  lemma SealNeedsMu(g: Sys, m: Move, h: Sys, i: nat)
    requires Steps(g, m, h) && LaneOf(g, m) == OneLane(i, ByGate(GSeal))
    ensures !MuFree(g)
  {
    hide CanSubmit, DoSubmit, CanClean, DoClean, CanSection, DoSection, CanStop, DoStop;
  }

  lemma MuStaysFree(g: Sys, m: Move, h: Sys)
    requires MoveKeeps(g, m, h) && MuFree(g) && g.sec.active
    ensures MuFree(h)
  {
    hide SameStop, OtherCleansStay, OnlyPlaces, OffLaneShrinks, OthersStay, SameStage;
  }

  lemma StaysUnretired(l: Lane, sig: Signals, s: LaneStep)
    requires CanStep(l, sig, s) && s != ByGate(GSeal)
    ensures Step(l, sig, s).q.retired == l.q.retired
  {
    hide CanStep, Step, CanProduce, Produce, CanTurn, Turn, CanWork, Work, Take, Enqueue, PutToken;
    StepIs(l, sig, s);
    StepFixed(l, sig, s);
  }

  lemma MoveRetiresNone(g: Sys, m: Move, h: Sys)
    requires Steps(g, m, h) && MuFree(g) && g.sec.active
    ensures NoneRetires(g, h)
  {
    hide Steps, Can, Do, CanStep, Step, FreshLane, LaneOf, Creates, MoveKeeps;
    MoveKeys(g, m, h);
    MuStaysFree(g, m, h);
    LanesAfter(g, m, h);
    if !Creates(m) && LaneOf(g, m).OneLane? {
      var i, s := LaneOf(g, m).i, LaneOf(g, m).s;
      if s == ByGate(GSeal) {
        SealNeedsMu(g, m, h, i);
      } else {
        StaysUnretired(g.lanes[i], Sig(g.ctl), s);
      }
    }
  }

  lemma SinceStep(f: Sys, g: Sys, m: Move, h: Sys)
    requires Steps(g, m, h) && ShapeOk(g.sec) && OrOver(f, g)
    ensures OrOver(f, h)
  {
    hide Steps, ShapeOk, IsOpen;
    MoveTakes(g, m, h);
    if Since(f, g) {
      MoveRetiresNone(g, m, h);
    }
  }

  lemma InstallStarts(g: Sys, h: Sys)
    requires Steps(g, SectionMove(Install), h) && RegOk(g) && SetsOk(g.sec, g.lanes)
    ensures Since(g, h)
  {
    hide CanSubmit, DoSubmit, CanClean, DoClean, CanWorker, DoWorker, CanStop, DoStop, QueueMapOk, GateOk, GuardsOk;
    hide ClosedOk, AimsOk, StopsOk;
  }

  lemma {:induction false} SinceInstall(states: seq<Sys>, moves: seq<Move>, m: nat, n: nat)
    requires m < n < |states| && n <= |moves| && moves[m] == SectionMove(Install) && IsRun(states, moves)
    ensures OrOver(states[m], states[n])
    decreases n
  {
    hide Steps, StepAt, Since, LanesOk, KeysPlain, CtlOk, SubsOk, RegOk, LifeOk, StopOk, LanesPlace, AllPlaced, ListOk;
    hide BegunOk, ShapeOk, LogOk, AcceptedOk, AbortOk, PanicOk, HandOk, SetsOk, OffLaneOk, DeferredOk, LanesSec;
    MoveOfRun(states, moves, n - 1);
    RunInv(states, moves, n - 1);
    if n == m + 1 {
      InstallStarts(states[m], states[n]);
    } else {
      SinceInstall(states, moves, m, n - 1);
      SinceStep(states[m], states[n - 1], moves[n - 1], states[n]);
    }
  }

  lemma OpenIsNotRetired(g: Sys, i: nat)
    requires IsOpen(g, i) && RegOk(g) && LanesOk(g.cfg, g.lanes)
    ensures !g.lanes[i].q.retired
  {
    hide QueueMapOk, GateOk, GuardsOk, ClosedOk, AimsOk, StopsOk;
    assert LaneInv(g.lanes[i]);
  }

  lemma AtFunction(g: Sys, i: nat)
    requires SecOk(g) && g.sec.pc.FnRunning? && i < g.sec.base
    ensures i < |g.lanes| && (i in g.sec.took || g.lanes[i].q.retired)
  {
    hide OffLaneOk, DeferredOk;
    assert LaneSec(g.lanes[i], i, g.sec, g.ctl.stopped);
  }

  /**
   When the function of a section runs, the section has stopped exactly those lanes, of the ones there were when it was
   installed, that were open then.
   */
  lemma SectionStopsTheOpenLanes(states: seq<Sys>, moves: seq<Move>, m: nat, n: nat, i: nat)
    requires m < n < |states| && n <= |moves| && moves[m] == SectionMove(Install) && i < |states[m].lanes|
    requires states[n].sec.id == states[m].sec.id && states[n].sec.pc.FnRunning? && IsRun(states, moves)
    ensures i in states[n].sec.took <==> IsOpen(states[m], i)
  {
    hide IsRun, IsOpen, LanesOk, KeysPlain, CtlOk, SubsOk, RegOk, LifeOk, StopOk, PlacesOk, LogOk, AcceptedOk, AbortOk;
    hide PanicOk, HandOk, SecOk;
    SinceInstall(states, moves, m, n);
    RunInv(states, moves, m);
    RunInv(states, moves, n);
    AtFunction(states[n], i);
    if IsOpen(states[m], i) {
      OpenIsNotRetired(states[m], i);
    }
  }
}
