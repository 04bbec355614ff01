/** Before a stop, every submit call under way can still be accepted: past guards, retired lanes and sections. */
module DispatcherAcceptance {
  import opened RoutingKeys
  import opened Queues
  import opened Lanes
  import opened LaneFrame
  import opened LaneInvariant
  import opened Dispatcher
  import opened DispatcherFrame
  import opened DispatcherFence
  import opened DispatcherRegistry
  import opened DispatcherStop
  import opened DispatcherPlaces
  import opened DispatcherSection
  import opened DispatcherFifo
  import opened DispatcherHandoff
  import opened DispatcherTheorems
  import opened DispatcherRuns
  import opened DispatcherShutdown
  import opened DispatcherExclusive

  /** A submit call that has neither failed nor been accepted. */
  predicate UnderWay(pc: SubmitPc) {
    pc.Begun? || pc.AtGuard? || pc.Found? || pc.InLane?
  }

  /** Nothing holds calls back but other calls, releases and tasks. */
  ghost predicate Steady(g: Sys) {
    Calm(g) && MuFree(g) && g.sec.pc.NoSection?
  }

  /** Every call but p stands where it stood, or its task has been accepted. */
  ghost predicate OthersPersist(before: seq<Submit>, after: seq<Submit>, p: nat) {
    && |after| == |before|
    && forall q :: 0 <= q < |before| && q != p ==>
         after[q].key == before[q].key && (after[q].pc == before[q].pc || after[q].pc == Ending(true))
  }

  /** No call gives up: each stands where it stood, or its task has been accepted. */
  ghost predicate NoneGivesUp(before: seq<Submit>, after: seq<Submit>) {
    && |after| == |before|
    && forall q :: 0 <= q < |before| ==>
         after[q].key == before[q].key && (after[q].pc == before[q].pc || after[q].pc == Ending(true))
  }

  /** A run leads to h, in which call p has lost no room, and the others have not given up. */
  ghost predicate Brings(g: Sys, h: Sys, p: nat) {
    && p < |g.subs| && p < |h.subs| && h.subs[p].key == g.subs[p].key && OthersPersist(g.subs, h.subs, p)
    && (HasRoom(g, g.subs[p].key) ==> HasRoom(h, g.subs[p].key))
    && Undisturbed(h) && h.cfg == g.cfg && MuFree(h) && h.sec.pc.NoSection? && h.reg.retirerOff == g.reg.retirerOff
    && FromTo(g, h)
  }

  lemma BringsSteady(g: Sys, h: Sys, p: nat)
    requires Brings(g, h, p) && Steady(g)
    ensures Steady(h)
  {
    hide Inv, Leads, GoodConfig, HasRoom;
    LeadsInv(g, h);
  }

  lemma BringsOn(g: Sys, k: Sys, h: Sys, p: nat)
    requires Brings(g, k, p) && Brings(k, h, p)
    ensures Brings(g, h, p)
  {
    hide Leads, HasRoom;
    if g != k && k != h {
      LeadsOn(g, k, h);
    }
  }

  predicate RoomFor(g: Sys, p: nat) {
    p < |g.subs| && HasRoom(g, g.subs[p].key)
  }

  predicate Guarded(g: Sys, p: nat) {
    p < |g.subs| && g.subs[p].pc.AtGuard?
  }

  predicate InSomeLane(g: Sys, p: nat) {
    p < |g.subs| && g.subs[p].pc.InLane?
  }

  /** Call p has not failed. */
  predicate GoesWell(g: Sys, p: nat) {
    p < |g.subs| && (UnderWay(g.subs[p].pc) || g.subs[p].pc == Ending(true))
  }

  /** What a lane offers while nothing disturbs it. */
  ghost predicate LaneFine(g: Sys, i: nat)
    requires i < |g.lanes|
  {
    var l := g.lanes[i];
    && LaneInv(l) && LaneFits(g.cfg, l, i) && !l.gateHeld && !l.q.chClosed && l.q.cap > 0 && NoFenceEntry(l.q.backlog)
    && (l.worker.Barrier? ==> l.worker.section < g.sec.id && !l.worker.at.Holding?)
    && InsideOk(l, i, g.subs) && LanePlaces(l, i, g.cleans)
  }

  ghost predicate Fine(g: Sys) {
    && Alive(g) && Undisturbed(g) && MuFree(g) && g.sec.pc.NoSection? && !g.reg.stopping && !g.sec.active
    && (forall i :: 0 <= i < |g.lanes| ==> LaneFine(g, i))
    && (forall p :: 0 <= p < |g.subs| ==> SubOk(g.lanes, p, g.subs[p]) && !IsBarrierKey(g.subs[p].key))
  }

  lemma SteadyIsFine(g: Sys)
    requires Steady(g)
    ensures Fine(g) && RegOk(g)
  {
    hide LifeOk, StopOk, LogOk, AcceptedOk, HandOk, QueueMapOk, GuardsOk, ShardedOk, AimsOk, StopsOk;
    hide OffLaneOk, DeferredOk, AllPlaced, ListOk, BegunOk, LaneInv, InsideOk, LanePlaces, FenceOwed, SubOk, SubmitsIn;
    hide CleansAt;
    forall i | 0 <= i < |g.lanes| ensures LaneFine(g, i) {
      assert LaneInv(g.lanes[i]) && LaneFits(g.cfg, g.lanes[i], i) && LaneSec(g.lanes[i], i, g.sec, false);
    }
  }

  // ----- guards -----

  lemma GuardLifts(g: Sys, p: nat, c: nat) returns (h: Sys)
    requires p < |g.subs| && CleanAt(g, c, Guarding) && Fine(g)
    ensures h.reg == LiftGuard(g.reg, g.cleans[c].key) && CleanAt(h, c, EndingReg(true))
    ensures h.subs == g.subs && h.lanes == g.lanes && Brings(g, h, p)
  {
    hide Leads, SubmitStep, WorkerStep, SectionStep, StopStep, Alive, LaneFine, SubOk, HasRoom;
    h := CleanGuardDone(g, c);
    Then(g, g, CleanMove(c, GuardDone), h);
    SameMapGoesOn(g, h);
  }

  lemma LeavesLifted(g: Sys, p: nat) returns (h: Sys)
    requires Guarded(g, p) && CanSubmitResume(g, p) && Fine(g)
    ensures SubAt(h, p, Begun) && Brings(g, h, p)
  {
    hide Leads, CleanStep, WorkerStep, SectionStep, StopStep, Alive, LaneFine, SubOk, HasLiveQueue, BelowLimit;
    h := SetSub(g, p, Begun);
    Then(g, g, SubmitMove(p, LeaveGuard), h);
    assert h.lanes == g.lanes && h.reg == g.reg && h.cfg == g.cfg;
    SameRoom(g, h, g.subs[p].key);
  }

  lemma SameRoom(g: Sys, h: Sys, key: Key)
    requires h.lanes == g.lanes && h.reg == g.reg && h.cfg == g.cfg
    ensures HasRoom(h, key) <==> HasRoom(g, key)
  {
  }

  lemma LeavesGuard(g: Sys, p: nat) returns (h: Sys)
    requires Guarded(g, p) && Steady(g)
    ensures Brings(g, h, p) && SubAt(h, p, Begun) && Steady(h)
  {
    hide Leads, Brings, Steady, Fine, RegOk, HasRoom;
    SteadyIsFine(g);
    var c := g.subs[p].pc.release;
    if CleanAt(g, c, Guarding) {
      var k := GuardLifts(g, p, c);
      BringsSteady(g, k, p);
      SteadyIsFine(k);
      h := LeavesLifted(k, p);
      BringsOn(g, k, h, p);
    } else {
      h := LeavesLifted(g, p);
    }
    BringsSteady(g, h, p);
  }

  // ----- finding a lane -----

  /** Call p has found an open lane of its key. */
  predicate AtOpenLane(g: Sys, p: nat) {
    p < |g.subs| && g.subs[p].pc.Found? && g.subs[p].pc.lane < |g.lanes| && !g.lanes[g.subs[p].pc.lane].q.closed
  }

  predicate AtShutLane(g: Sys, p: nat) {
    p < |g.subs| && g.subs[p].pc.Found? && !AtOpenLane(g, p)
  }

  lemma LaneStaysFound(g: Sys, p: nat)
    requires Fine(g) && RegOk(g) && LanesOk(g.cfg, g.lanes) && p < |g.subs| && CanFind(g, g.subs[p].key)
    ensures !g.lanes[Target(g, g.subs[p].key)].q.closed
  {
    hide QueueMapOk, GateOk, GuardsOk, ClosedOk, AimsOk, StopsOk;
    if !g.cfg.dynamic {
      assert LaneFine(g, g.cfg.shardOf(g.subs[p].key));
    }
  }

  lemma FindsNow(g: Sys, p: nat) returns (h: Sys)
    requires CanSubmitFind(g, p) && Steady(g)
    ensures Brings(g, h, p) && AtOpenLane(h, p)
  {
    hide Leads, CleanStep, WorkerStep, SectionStep, StopStep, Inv, RegOk, LanesOk, LaneFine, SubOk, GoodConfig;
    SteadyIsFine(g);
    SteadyLanes(g);
    LaneStaysFound(g, p);
    h := SubmitFind(g, p);
    Then(g, g, SubmitMove(p, Find), h);
  }

  lemma SteadyLanes(g: Sys)
    requires Steady(g)
    ensures LanesOk(g.cfg, g.lanes)
  {
    hide LanesOk, KeysPlain, CtlOk, SubsOk, RegOk, LifeOk, StopOk, PlacesOk, SecOk, LogOk, AcceptedOk, AbortOk, PanicOk;
    hide HandOk, GoodConfig;
  }

  lemma CreatesNow(g: Sys, p: nat) returns (h: Sys)
    requires SubAt(g, p, Begun) && NeedsQueue(g, g.subs[p].key) && BelowLimit(g) && Fine(g)
    ensures Brings(g, h, p) && AtOpenLane(h, p)
  {
    hide Leads, CleanStep, WorkerStep, SectionStep, StopStep, LaneFine, SubOk, Alive;
    h := SubmitCreate(g, p);
    Then(g, g, SubmitMove(p, Create), h);
  }

  lemma GuardedIsHeld(g: Sys, key: Key)
    requires RegOk(g) && key in g.reg.guards
    ensures CleanAt(g, g.reg.guards[key], Guarding) && g.cleans[g.reg.guards[key]].key == key
  {
    hide QueueMapOk, GateOk, ClosedOk, ShardedOk, AimsOk, StopsOk;
  }

  lemma ShardIsFound(g: Sys, p: nat)
    requires RegOk(g) && p < |g.subs| && !g.cfg.dynamic
    ensures CanFind(g, g.subs[p].key)
  {
    hide QueueMapOk, GateOk, GuardsOk, ClosedOk, AimsOk, StopsOk;
  }

  /** A call at the start of the loop comes to an open lane. */
  lemma FindsLane(g: Sys, p: nat) returns (h: Sys)
    requires SubAt(g, p, Begun) && RoomFor(g, p) && Steady(g)
    ensures Brings(g, h, p) && AtOpenLane(h, p)
  {
    hide Leads, Calm, RegOk, LaneFine, SubOk, Alive, AtOpenLane;
    SteadyIsFine(g);
    var key := g.subs[p].key;
    if !g.cfg.dynamic {
      ShardIsFound(g, p);
    }
    if CanFind(g, key) {
      h := FindsNow(g, p);
    } else if key in g.reg.guards {
      GuardedIsHeld(g, key);
      var k := GuardLifts(g, p, g.reg.guards[key]);
      BringsSteady(g, k, p);
      SteadyIsFine(k);
      h := CreatesNow(k, p);
      BringsOn(g, k, h, p);
    } else {
      h := CreatesNow(g, p);
    }
  }

  /** A lane that was retired under the call sends it back. */
  lemma TurnsBack(g: Sys, p: nat) returns (h: Sys)
    requires AtShutLane(g, p) && Steady(g)
    ensures Brings(g, h, p) && SubAt(h, p, Begun) && Steady(h)
  {
    hide Leads, CleanStep, WorkerStep, SectionStep, StopStep, Calm, RegOk, Alive;
    SteadyIsFine(g);
    var i := g.subs[p].pc.lane;
    assert SubOk(g.lanes, p, g.subs[p]) && LaneFine(g, i);
    h := SubmitTurnBack(g, p);
    Then(g, g, SubmitMove(p, TurnBack), h);
    BringsSteady(g, h, p);
  }

  lemma EntersLane(g: Sys, p: nat) returns (h: Sys)
    requires AtOpenLane(g, p) && Steady(g)
    ensures Brings(g, h, p) && InSomeLane(h, p) && Steady(h)
  {
    hide Leads, CleanStep, WorkerStep, SectionStep, StopStep, Calm, RegOk, Alive, LaneInv, LanePlaces, NoFenceEntry;
    SteadyIsFine(g);
    var i := g.subs[p].pc.lane;
    assert SubOk(g.lanes, p, g.subs[p]) && LaneFine(g, i);
    assert !g.lanes[i].panicked by { LaneLives(g, i); }
    h := SubmitEnter(g, p);
    Then(g, g, SubmitMove(p, EnterLane), h);
    BringsSteady(g, h, p);
  }

  lemma LaneLives(g: Sys, i: nat)
    requires Alive(g) && i < |g.lanes|
    ensures !g.lanes[i].panicked
  {
  }

  // ----- inside the lane -----

  /** Call p is inside lane i, or its task has been accepted. */
  ghost predicate Inside(g: Sys, p: nat, i: nat) {
    && p < |g.subs| && i < |g.lanes|
    && (g.subs[p].pc == InLane(i) || g.subs[p].pc == Ending(true))
  }

  predicate IdlesAt(g: Sys, i: nat) {
    i < |g.lanes| && Idles(g.lanes[i])
  }

  /** Nothing holds up the worker of an open lane. */
  lemma OpenLaneWorks(g: Sys, i: nat)
    requires i < |g.lanes| && !g.lanes[i].q.closed && Fine(g)
    ensures LaneFine(g, i) && !g.lanes[i].panicked && !g.lanes[i].q.retired
    ensures !Idles(g.lanes[i]) ==> LaneFacts(g, i) && !MayPark(g.lanes[i], g.sec.id)
  {
    hide InsideOk, LanePlaces, NoFenceEntry, SubOk;
    assert LaneFine(g, i);
  }

  lemma WorkingLane(g: Sys, p: nat, i: nat)
    requires SubAt(g, p, InLane(i)) && Fine(g)
    ensures i < |g.lanes| && LaneFine(g, i) && p in g.lanes[i].inside && !g.lanes[i].q.closed && !g.lanes[i].panicked
    ensures !g.lanes[i].q.retired
    ensures !Idles(g.lanes[i]) ==> LaneFacts(g, i) && !MayPark(g.lanes[i], g.sec.id)
  {
    hide InsideOk, LanePlaces, NoFenceEntry, LaneFacts, MayPark;
    assert SubOk(g.lanes, p, g.subs[p]) && LaneFine(g, i);
    OpenLaneWorks(g, i);
  }

  lemma GoneOnBrings(g: Sys, p: nat, i: nat, h: Sys)
    requires SubAt(g, p, InLane(i)) && Fine(g) && Leads(g, h) && GoneOn(g, i, h)
    ensures Brings(g, h, p) && Inside(h, p, i)
  {
    hide Leads, LeftOn, HasRoom, LaneFine, SubOk, Alive;
  }

  /** The worker clears its lane, unless the call gets through before. */
  lemma {:induction false} LaneClears(g: Sys, p: nat, i: nat) returns (h: Sys)
    requires SubAt(g, p, InLane(i)) && Steady(g)
    ensures Brings(g, h, p) && Inside(h, p, i) && (SubAt(h, p, InLane(i)) ==> IdlesAt(h, i)) && Steady(h)
    decreases LeftOn(g, i)
  {
    hide Leads, Steady, LeftOn, LaneFacts, MayPark, GoneOn, Alive, LaneFine, Idles;
    h := g;
    SteadyIsFine(g);
    WorkingLane(g, p, i);
    if Idles(g.lanes[i]) {
      BringsSelf(g, p);
    } else {
      var k := LaneGoesOn(g, i);
      LessLeft(g, i, k);
      GoneOnBrings(g, p, i, k);
      BringsSteady(g, k, p);
      if k.subs[p].pc == InLane(i) {
        h := LaneClears(k, p, i);
        BringsOn(g, k, h, p);
      } else {
        h := k;
      }
    }
  }

  lemma BringsSelf(g: Sys, p: nat)
    requires Fine(g) && p < |g.subs|
    ensures Brings(g, g, p)
  {
    hide Leads;
  }

  /** Call p is inside lane i, which has nothing queued, at the given place on its way. */
  ghost predicate HasWay(g: Sys, p: nat, i: nat, passed: bool, admitted: bool) {
    && SubAt(g, p, InLane(i)) && IdlesAt(g, i) && p in g.lanes[i].inside
    && (passed <==> !g.lanes[i].inside[p].stage.AtFence?) && (admitted <==> g.lanes[i].inside[p].stage.Sending?)
  }

  lemma Passes(g: Sys, p: nat, i: nat) returns (h: Sys)
    requires HasWay(g, p, i, false, false) && Steady(g)
    ensures Brings(g, h, p) && HasWay(h, p, i, true, false) && OnlyLane(g, i, h) && Steady(h)
  {
    hide Leads, SubmitStep, CleanStep, SectionStep, StopStep, Calm, RegOk, Alive, LaneInv, InsideOk, LanePlaces, Take;
    SteadyIsFine(g);
    WorkingLane(g, p, i);
    assert FirstFor(g.lanes[i].q.backlog, g.lanes[i].inside[p].key) == None;
    var s := ByProducer(p, PPass);
    h := OnLane(g, i, s);
    Then(g, g, WorkerMove(i, Quiet(s)), h);
    SameMapGoesOn(g, h);
    BringsSteady(g, h, p);
  }

  lemma Admits(g: Sys, p: nat, i: nat) returns (h: Sys)
    requires HasWay(g, p, i, true, false) && Steady(g)
    ensures Brings(g, h, p) && HasWay(h, p, i, true, true) && OnlyLane(g, i, h) && Steady(h)
  {
    hide Leads, SubmitStep, CleanStep, SectionStep, StopStep, Calm, RegOk, Alive, LaneInv, InsideOk, LanePlaces, Take;
    SteadyIsFine(g);
    WorkingLane(g, p, i);
    var s := ByProducer(p, PAdmit);
    h := OnLane(g, i, s);
    Then(g, g, WorkerMove(i, Quiet(s)), h);
    SameMapGoesOn(g, h);
    BringsSteady(g, h, p);
  }

  /** Lane i alone has changed, and producer p is no longer inside. */
  ghost predicate HasLeft(g: Sys, i: nat, p: nat, h: Sys) {
    OnlyLane(g, i, h) && p !in h.lanes[i].inside
  }

  lemma OnlyLaneOn(g: Sys, i: nat, k: Sys, h: Sys)
    requires OnlyLane(g, i, k) && OnlyLane(k, i, h)
    ensures OnlyLane(g, i, h)
  {
    hide HasRoom;
  }

  lemma Sends(g: Sys, p: nat, i: nat) returns (h: Sys)
    requires HasWay(g, p, i, true, true) && Steady(g)
    ensures Brings(g, h, p) && SubAt(h, p, Ending(true)) && HasLeft(g, i, p, h)
  {
    hide Leads, CleanStep, WorkerStep, SectionStep, StopStep, Calm, RegOk, Alive, InsideOk, LanePlaces;
    hide Ordered, Counted, BacklogOk, PendingOk, KeysOk, WakeOk, FinishingOk;
    SteadyIsFine(g);
    WorkingLane(g, p, i);
    var l := g.lanes[i];
    assert SendingWith(l.inside, p, l.inside[p].stage.ticket);
    SendIsCalm(l, p);
    h := SubmitSend(g, p);
    Then(g, g, SubmitMove(p, SendLane), h);
    assert SameMap(g, h);
  }

  /** On a lane with nothing queued the call passes the fence, is admitted and sends. */
  lemma {:induction false} GetsThrough(g: Sys, p: nat, i: nat, passed: bool, admitted: bool) returns (h: Sys)
    requires HasWay(g, p, i, passed, admitted) && Steady(g)
    ensures Brings(g, h, p) && SubAt(h, p, Ending(true)) && HasLeft(g, i, p, h)
    decreases !passed, !admitted
  {
    hide Leads, Brings, Steady, OnlyLane;
    if admitted {
      h := Sends(g, p, i);
    } else {
      var k;
      if passed {
        k := Admits(g, p, i);
      } else {
        k := Passes(g, p, i);
      }
      h := GetsThrough(k, p, i, true, passed);
      BringsOn(g, k, h, p);
      OnlyLaneOn(g, i, k, h);
    }
  }

  lemma InLaneSends(g: Sys, p: nat) returns (h: Sys)
    requires InSomeLane(g, p) && Steady(g)
    ensures Brings(g, h, p) && SubAt(h, p, Ending(true))
  {
    hide Leads, Brings, Steady, Idles, LaneFine;
    var i := g.subs[p].pc.lane;
    h := LaneClears(g, p, i);
    if h.subs[p].pc == InLane(i) {
      SteadyIsFine(h);
      WorkingLane(h, p, i);
      var stage := h.lanes[i].inside[p].stage;
      var k := GetsThrough(h, p, i, !stage.AtFence?, stage.Sending?);
      BringsOn(g, h, k, p);
      h := k;
    }
  }

  // ----- the whole way -----

  lemma FromBegin(g: Sys, p: nat) returns (h: Sys)
    requires SubAt(g, p, Begun) && RoomFor(g, p) && Steady(g)
    ensures Brings(g, h, p) && SubAt(h, p, Ending(true))
  {
    hide Leads, Brings, Steady, HasRoom;
    var k := FindsLane(g, p);
    BringsSteady(g, k, p);
    var n := EntersLane(k, p);
    BringsOn(g, k, n, p);
    h := InLaneSends(n, p);
    BringsOn(g, n, h, p);
  }

  lemma RoomBrought(g: Sys, h: Sys, p: nat)
    requires RoomFor(g, p) && (h == g || Brings(g, h, p))
    ensures RoomFor(h, p)
  {
    hide Leads, HasRoom;
  }

  /** Whatever stage the call has reached, it gets through, if its key has a lane or room for one. */
  lemma CallGetsThrough(g: Sys, p: nat) returns (h: Sys)
    requires GoesWell(g, p) && RoomFor(g, p) && Steady(g)
    ensures Brings(g, h, p) && SubAt(h, p, Ending(true))
  {
    hide Leads, Brings, Steady, HasRoom;
    if g.subs[p].pc == Ending(true) {
      h := g;
      SteadyIsFine(g);
      BringsSelf(g, p);
    } else if g.subs[p].pc.InLane? {
      h := InLaneSends(g, p);
    } else if AtOpenLane(g, p) {
      var k := EntersLane(g, p);
      h := InLaneSends(k, p);
      BringsOn(g, k, h, p);
    } else {
      h := g;
      if g.subs[p].pc.Found? {
        h := TurnsBack(g, p);
      } else if g.subs[p].pc.AtGuard? {
        h := LeavesGuard(g, p);
      }
      assert RoomFor(h, p) by { RoomBrought(g, h, p); }
      var k := FromBegin(h, p);
      if g != h {
        BringsOn(g, h, k, p);
      }
      h := k;
    }
  }

  /** A section in progress comes to its end, and no call gives up. */
  lemma SectionEnds(g: Sys) returns (h: Sys)
    requires Calm(g)
    ensures Goes(g, h) && Steady(h)
  {
    hide Leads, Goes, Calm, MuFree, RegOk, LanesOk, Returning;
    CalmIsReady(g);
    ReadyIs(g);
    h := FreesMu(g);
    FreedGoes(g, h);
    StaysCalm(g, h);
    if !h.sec.pc.NoSection? {
      var k := h;
      if !IsReturning(h.sec.pc) {
        k := SectionGathers(h);
        DispatcherExclusive.GoesOn(g, h, k);
        StaysCalm(g, k);
        k := SectionGivesUp(g, k);
        StaysCalm(g, k);
      }
      CalmIsReady(k);
      ReadyIs(k);
      h := SectionReturns(k);
      ReturnedIsFree(h);
      DispatcherExclusive.GoesOn(g, k, h);
      StaysCalm(g, h);
    }
  }

  lemma FreedGoes(g: Sys, h: Sys)
    requires Calm(g) && FromTo(g, h) && SameStops(g, h) && Spares(g.lanes, h.lanes) && CallsGoOn(g, h)
    ensures Goes(g, h)
  {
    hide Leads, Inv, Spares, CallsGoOn;
  }

  /** The section lets its lanes go, before or after its function has run. */
  lemma SectionGivesUp(g: Sys, k: Sys) returns (h: Sys)
    requires Goes(g, k) && Calm(k) && CanSecLeave(k)
    ensures Goes(g, h) && IsReturning(h.sec.pc) && MuFree(h)
  {
    hide Leads, Calm, RegOk, LanesOk, SubmitStep, CleanStep, WorkerStep, StopStep, Alive, Spares, CallsGoOn;
    CalmIsReady(k);
    ReadyIs(k);
    var n := FreesMu(k);
    FreedGoes(k, n);
    DispatcherExclusive.GoesOn(g, k, n);
    h := SecLeave(n);
    Then(g, n, SectionMove(LeaveFn), h);
    LeftGoes(g, n, h);
  }

  lemma LeftGoes(g: Sys, k: Sys, h: Sys)
    requires Goes(g, k) && FromTo(g, h) && SameEngine(k, h)
    ensures Goes(g, h)
  {
    hide Leads;
  }

  /**
   Before a stop, every submit call that is under way can still be accepted, if its key has a lane or the limit leaves
   room for one: from every reachable state a run leads to that, in which no other call gives up either. A section in
   progress ends, a retired lane or a guard sends the call on to look for another lane, and the lane it finds clears.
   */
  lemma SubmitCanBeAccepted(g: Sys, p: nat) returns (h: Sys)
    requires p < |g.subs| && UnderWay(g.subs[p].pc) && RoomFor(g, p) && Undisturbed(g) && Reachable(g)
    ensures Msg(p, g.subs[p].key) in h.accepted && NoneGivesUp(g.subs, h.subs) && Leads(g, h) && Reachable(h)
  {
    hide Reachable, Leads, Calm, Steady, HasRoom, Inv, GoodConfig;
    ReachableIsCalm(g);
    var k := SectionEnds(g);
    h := CallGetsThrough(k, p);
    BringsSteady(k, h, p);
    AcceptedOnEnd(h, p);
    EveryonePersists(g, k, h, p);
    if g != k && k != h {
      LeadsOn(g, k, h);
    }
    LeadsReach(g, h);
  }

  lemma EveryonePersists(g: Sys, k: Sys, h: Sys, p: nat)
    requires Goes(g, k) && Brings(k, h, p) && SubAt(h, p, Ending(true))
    ensures NoneGivesUp(g.subs, h.subs)
  {
    hide Leads, HasRoom;
  }

  lemma ReachableIsCalm(g: Sys)
    requires Reachable(g) && Undisturbed(g)
    ensures Calm(g)
  {
    hide Reachable, Inv;
    ReachableInv(g);
  }

  lemma AcceptedOnEnd(g: Sys, p: nat)
    requires SubAt(g, p, Ending(true)) && Steady(g)
    ensures Msg(p, g.subs[p].key) in g.accepted
  {
    hide LanesOk, KeysPlain, CtlOk, SubsOk, RegOk, LifeOk, StopOk, PlacesOk, SecOk, LogOk, AbortOk, PanicOk;
    hide HandOk, GoodConfig;
  }
}
