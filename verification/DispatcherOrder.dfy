/** The overtaking fence over whole runs of the engine: a task submitted after a release was queued follows it. */
module DispatcherOrder {
  import opened RoutingKeys
  import opened Queues
  import opened Lanes
  import opened LaneFrame
  import opened LaneInvariant
  import LaneTheorems
  import opened Dispatcher
  import opened DispatcherFrame
  import opened DispatcherFence
  import opened DispatcherRegistry
  import opened DispatcherStop
  import opened DispatcherPlaces
  import opened DispatcherSection
  import opened DispatcherFifo
  import opened DispatcherHandoff
  import opened DispatcherTheorems
  import opened DispatcherRuns

  // ----- before stop no release waits for the submit fence -----

  ghost predicate NoEarlyFence(lanes: seq<Lane>, stopped: bool) {
    !stopped ==> forall i :: 0 <= i < |lanes| ==> NoFenceEntry(lanes[i].q.backlog)
  }

  lemma FenceFreeRun(states: seq<Sys>, moves: seq<Move>, n: nat)
    requires IsRun(states, moves) && n < |states|
    ensures NoEarlyFence(states[n].lanes, states[n].ctl.stopped)
  {
    hide IsRun, NoFenceEntry, LanesOk, KeysPlain, CtlOk, SubsOk, RegOk, LifeOk, StopOk, PlacesOk, LogOk, AcceptedOk;
    hide AbortOk;
    hide PanicOk, HandOk, SetsOk, OffLaneOk, DeferredOk, LaneDuty;
    RunInv(states, moves, n);
    var g := states[n];
    assert forall i :: 0 <= i < |g.lanes| ==> LaneSec(g.lanes[i], i, g.sec, g.ctl.stopped);
  }

  // ----- a release guards its key against later submits -----

  /** Call p has sent nothing, and wherever it is inside a lane it stands at the fence. */
  ghost predicate Kept(g: Sys, p: nat, key: Key) {
    p < |g.subs| && g.subs[p].key == key ==>
      !SentPc(g.subs[p].pc) && AllBefore(g.lanes, p, key)
  }

  ghost predicate GuardsLane(lanes: seq<Lane>, i: nat, c: nat, key: Key) {
    i < |lanes| && LaneTheorems.Guards(lanes[i].q.backlog, c, key)
  }

  /** Stop refuses call p, or has refused it. */
  ghost predicate Barred(g: Sys, p: nat) {
    p < |g.subs| ==> g.subs[p].pc.Refused? || g.subs[p].pc == Done(false)
  }

  /** Release c of `key` has begun, or guards lane i against p; or stop came before p was called. */
  ghost predicate Ahead(g: Sys, c: nat, i: nat, key: Key, p: nat) {
    || c in g.begun
    || (GuardsLane(g.lanes, i, c, key) && Kept(g, p, key))
    || (g.ctl.stopped && Barred(g, p))
  }

  lemma StepBefore(l: Lane, sig: Signals, s: LaneStep, p: nat, key: Key)
    requires CanStep(l, sig, s) && LaneTheorems.BeforeFence(l, p, key) && !CanPass(l, sig, p)
    requires s.ByProducer? && s.p == p && s.act.PEnter? ==> s.act.key == key
    ensures LaneTheorems.BeforeFence(Step(l, sig, s), p, key)
  {
    StepIs(l, sig, s);
    match s
    case ByProducer(q, a) =>
    case _ => StepKeepsStages(l, sig, s);
  }

  /** A guarded lane is not retired, so it is the lane of the key, and no other lane holds a producer of it. */
  lemma OnlyGuardedLane(g: Sys, i: nat, c: nat, key: Key, j: nat, p: nat)
    requires RegOk(g) && LanesOk(g.cfg, g.lanes) && SubsOk(g.lanes, g.subs) && !IsBarrierKey(key)
    requires GuardsLane(g.lanes, i, c, key)
    requires j < |g.lanes| && p in g.lanes[j].inside && p < |g.subs| && g.subs[p].key == key
    ensures j == i
  {
    assert LaneInv(g.lanes[i]) && LaneInv(g.lanes[j]) && LaneFits(g.cfg, g.lanes[j], j);
    assert InsideOk(g.lanes[j], j, g.subs);
    ServingLane(g, i, key);
    ServingLane(g, j, key);
  }

  /** A producer enters a lane with the key of its call. */
  predicate EntersAs(g: Sys, lm: LaneMove) {
    lm.OneLane? && lm.s.ByProducer? && lm.s.act.PEnter? ==> lm.s.p < |g.subs| && lm.s.act.key == g.subs[lm.s.p].key
  }

  lemma EntersWithItsKey(g: Sys, m: Move, h: Sys)
    requires Steps(g, m, h)
    ensures EntersAs(g, LaneOf(g, m))
  {
    hide Do, CanStep, Step, CanClean, CanSection, CanStop, CanSubmit;
  }

  ghost predicate AllBefore(lanes: seq<Lane>, p: nat, key: Key) {
    forall j :: 0 <= j < |lanes| ==> LaneTheorems.BeforeFence(lanes[j], p, key)
  }

  lemma FreshBefore(g: Sys, created: Key, p: nat, key: Key)
    ensures LaneTheorems.BeforeFence(FreshLane(g, created), p, key)
  {
  }

  ghost predicate StillUnsent(h: Sys, p: nat, key: Key) {
    p < |h.subs| && h.subs[p].key == key && !SentPc(h.subs[p].pc)
  }

  /** Call p keeps its key; before the fence everywhere it does not send, and stop goes on refusing it. */
  ghost predicate StandsOn(g: Sys, h: Sys, key: Key, p: nat) {
    && (StillUnsent(g, p, key) && AllBefore(g.lanes, p, key) ==> StillUnsent(h, p, key))
    && (g.ctl.stopped && Barred(g, p) ==> Barred(h, p))
  }

  lemma CallStands(g: Sys, m: Move, h: Sys, key: Key, p: nat)
    requires Steps(g, m, h)
    ensures StandsOn(g, h, key, p)
  {
    hide *;
    StepOf(g, m, h);
    MoveKeys(g, m, h);
    match m
    case SubmitMove(q, a) => SubmitStands(g, q, a, h, key, p);
    case SubmitCall(k, closing) => NewCallStands(g, k, closing, key, p);
    case _ => OthersStand(g, m, h, key, p);
  }

  lemma SubmitStands(g: Sys, q: nat, a: SubmitAct, h: Sys, key: Key, p: nat)
    requires SubmitStep(g, q, a, h)
    ensures StandsOn(g, h, key, p)
  {
    hide Enter, Leave, Abandon, CanEnter, CanLeave, CanFind, Target, FreshLane, HandedOff, Send;
  }

  lemma NewCallStands(g: Sys, k: Key, closing: bool, key: Key, p: nat)
    ensures StandsOn(g, NewSubmit(g, k, closing), key, p)
  {
  }

  lemma OthersStand(g: Sys, m: Move, h: Sys, key: Key, p: nat)
    requires MoveKeeps(g, m, h) && !m.SubmitMove? && !m.SubmitCall?
    ensures StandsOn(g, h, key, p)
  {
    hide SentPc, SameStop, SameStage, OtherCleansStay, OnlyPlaces, AllBefore;
  }

  lemma KeyAndBegun(g: Sys, m: Move, h: Sys, p: nat)
    requires Steps(g, m, h)
    ensures g.begun <= h.begun && (p < |g.subs| ==> p < |h.subs| && h.subs[p].key == g.subs[p].key)
  {
    hide Steps, Can, Do, SameStop, SameStage, OtherCleansStay, OnlyPlaces, SameDuty, SameLog;
    MoveKeys(g, m, h);
  }

  /** A call that has just been made is in no lane. */
  lemma NewCallIsKept(g: Sys, m: Move, h: Sys, key: Key, p: nat)
    requires Steps(g, m, h) && SubsOk(h.lanes, h.subs) && |g.subs| <= p
    ensures Kept(h, p, key)
  {
    hide Steps, Can, Do, SameStop, SameStage, OtherCleansStay, OnlyPlaces, SameDuty, SameLog;
    MoveKeys(g, m, h);
    if p < |h.subs| {
      forall j | 0 <= j < |h.lanes| ensures LaneTheorems.BeforeFence(h.lanes[j], p, key) {
        assert InsideOk(h.lanes[j], j, h.subs);
      }
    }
  }

  lemma KeptStep(g: Sys, m: Move, h: Sys, i: nat, c: nat, key: Key, p: nat)
    requires Steps(g, m, h) && RegOk(g) && LanesOk(g.cfg, g.lanes) && SubsOk(g.lanes, g.subs) && !IsBarrierKey(key)
    requires SubsOk(h.lanes, h.subs)
    requires GuardsLane(g.lanes, i, c, key) && Kept(g, p, key)
    ensures Kept(h, p, key)
  {
    hide Can, Do, RegOk, Steps, SubsOk;
    KeyAndBegun(g, m, h, p);
    if p >= |g.subs| {
      NewCallIsKept(g, m, h, key, p);
    } else if g.subs[p].key == key {
      LanesAfter(g, m, h);
      EntersWithItsKey(g, m, h);
      if Creates(m) {
        FreshBefore(g, CreatedKey(g, m), p, key);
      } else if LaneOf(g, m).OneLane? {
        var j, s := LaneOf(g, m).i, LaneOf(g, m).s;
        if p in g.lanes[j].inside {
          OnlyGuardedLane(g, i, c, key, j, p);
          LaneTheorems.GuardedCannotPass(g.lanes[j], Sig(g.ctl), p, c, key);
        }
        StepBefore(g.lanes[j], Sig(g.ctl), s, p, key);
      }
      CallStands(g, m, h, key, p);
    }
  }

  lemma GuardsStep(g: Sys, m: Move, h: Sys, i: nat, c: nat, key: Key)
    requires Steps(g, m, h) && LanesOk(g.cfg, g.lanes) && !IsBarrierKey(key) && PlacesOk(h)
    requires GuardsLane(g.lanes, i, c, key)
    ensures GuardsLane(h.lanes, i, c, key) || c in h.begun
  {
    hide Steps, Can, Do, CanStep, Step, LaneInv, LaneFits, FreshLane, LaneTheorems.Guards, LaneOf, Creates, AllPlaced;
    hide ListOk;
    hide ShapeOk;
    LanesAfter(g, m, h);
    if !Creates(m) && LaneOf(g, m).OneLane? && LaneOf(g, m).i == i {
      LaneTheorems.FenceStep(g.lanes[i], Sig(g.ctl), LaneOf(g, m).s, c, key);
      assert LanePlaces(h.lanes[i], i, h.cleans);
    }
  }

  /** m is the ordinary handoff that queues release c on lane i. */
  predicate Ordinary(g: Sys, m: Move, c: nat, i: nat) {
    QueuesRelease(g, m, c, i) && m.clean.EnqueueClean?
  }

  ghost predicate AheadOfLater(g: Sys, h: Sys, c: nat, i: nat, p: nat) {
    c < |g.cleans| && Ahead(h, c, i, g.cleans[c].key, p)
  }

  lemma AheadAtOnce(g: Sys, m: Move, h: Sys, c: nat, i: nat, p: nat)
    requires Steps(g, m, h) && Ordinary(g, m, c, i) && NoEarlyFence(g.lanes, g.ctl.stopped)
    requires SubsOk(h.lanes, h.subs) && |g.subs| <= p
    ensures AheadOfLater(g, h, c, i, p)
  {
    LanesAfter(g, m, h);
    MoveKeys(g, m, h);
    if !g.ctl.stopped {
      NewCallIsKept(g, m, h, g.cleans[c].key, p);
      var b := Enqueue(g.lanes[i], c, g.cleans[c].key, false).q.backlog;
      var n := |g.lanes[i].q.backlog|;
      assert b[n] == Entry(c, g.cleans[c].key, g.lanes[i].q.admitted, g.lanes[i].q.admitted, false);
      assert forall j :: 0 <= j < n ==> b[j] == g.lanes[i].q.backlog[j];
    }
  }

  lemma AheadStep(g: Sys, m: Move, h: Sys, c: nat, i: nat, key: Key, p: nat)
    requires Steps(g, m, h) && Inv(g) && Inv(h) && !IsBarrierKey(key) && Ahead(g, c, i, key, p)
    ensures Ahead(h, c, i, key, p)
  {
    hide Steps, Can, Do, LanesOk, KeysPlain, CtlOk, SubsOk, RegOk, LifeOk, StopOk, PlacesOk, SecOk, LogOk;
    hide AcceptedOk, AbortOk, PanicOk, HandOk, GuardsLane, Kept, Barred, StillUnsent, AllBefore;
    KeyAndBegun(g, m, h, p);
    if c !in g.begun {
      if GuardsLane(g.lanes, i, c, key) && Kept(g, p, key) {
        GuardsStep(g, m, h, i, c, key);
        KeptStep(g, m, h, i, c, key, p);
      } else {
        LatchesHold(g, m, h);
        CallStands(g, m, h, key, p);
      }
    }
  }

  lemma {:induction false} AheadLater(states: seq<Sys>, moves: seq<Move>, m: nat, n: nat, c: nat, i: nat, key: Key,
                                      p: nat)
    requires IsRun(states, moves) && m <= n < |states| && !IsBarrierKey(key) && Ahead(states[m], c, i, key, p)
    ensures Ahead(states[n], c, i, key, p)
    decreases n
  {
    hide Ahead, StepAt, Steps, Inv;
    if m < n {
      AheadLater(states, moves, m, n - 1, c, i, key, p);
      MoveOfRun(states, moves, n - 1);
      RunInv(states, moves, n - 1);
      RunInv(states, moves, n);
      AheadStep(states[n - 1], moves[n - 1], states[n], c, i, key, p);
    }
  }

  /**
   In every run of the engine, a task whose submit call came after an ordinary release of its key had been
   queued is accepted only once that release has begun.
   */
  lemma NoEngineOvertaking(states: seq<Sys>, moves: seq<Move>, m: nat, n: nat, c: nat, i: nat, p: nat)
    requires IsRun(states, moves) && m < n < |states| && Ordinary(states[m], moves[m], c, i)
    requires |states[m].subs| <= p < |states[n].subs| && states[n].subs[p].key == states[m].cleans[c].key
    ensures Msg(p, states[n].subs[p].key) in states[n].accepted ==> c in states[n].begun
  {
    hide IsRun, QueuesRelease, LanesOk, PlacesOk, RegOk, SubsOk, NoEarlyFence, Ahead, Steps, IsBarrierKey;
    StartOfRun(states, moves);
    MoveOfRun(states, moves, m);
    RunParts(states, moves, m);
    FenceFreeRun(states, moves, m);
    RunParts(states, moves, m + 1);
    AheadAtOnce(states[m], moves[m], states[m + 1], c, i, p);
    AheadLater(states, moves, m + 1, n, c, i, states[m].cleans[c].key, p);
    RunParts(states, moves, n);
    if c !in states[n].begun {
      AheadUnsent(states[n], c, i, states[m].cleans[c].key, p);
    }
  }

  lemma AheadUnsent(g: Sys, c: nat, i: nat, key: Key, p: nat)
    requires Ahead(g, c, i, key, p) && c !in g.begun && p < |g.subs| && g.subs[p].key == key
    ensures !SentPc(g.subs[p].pc)
  {
  }
}
