/** Idle retirement: before a stop, every lane can be brought to rest and retired, and no call gives up for it. */
module DispatcherRetirement {
  import opened RoutingKeys
  import opened Tickets
  import opened Queues
  import opened Lanes
  import opened LaneInvariant
  import opened Dispatcher
  import opened DispatcherFrame
  import opened DispatcherFence
  import opened DispatcherRegistry
  import opened DispatcherTheorems
  import opened DispatcherRuns
  import opened DispatcherShutdown
  import opened DispatcherExclusive
  import opened DispatcherAcceptance

  predicate OpenAt(g: Sys, i: nat) {
    i < |g.lanes| && !g.lanes[i].q.closed
  }

  /** A run leads from g to h, in which lane i alone has changed. */
  ghost predicate Rests(g: Sys, i: nat, h: Sys) {
    OnlyLane(g, i, h) && FromTo(g, h)
  }

  lemma RestsSteady(g: Sys, i: nat, h: Sys)
    requires Rests(g, i, h) && Steady(g)
    ensures OpenAt(h, i) && Steady(h)
  {
    hide Inv, Leads, GoodConfig, CallsGoOn;
    LeadsInv(g, h);
    SteadyIsFine(h);
    assert LaneFine(h, i);
  }

  lemma RestsOn(g: Sys, i: nat, k: Sys, h: Sys)
    requires Rests(g, i, k) && Rests(k, i, h)
    ensures Rests(g, i, h)
  {
    hide Leads, OnlyLane;
    OnlyLaneOn(g, i, k, h);
    if g != k && k != h {
      LeadsOn(g, k, h);
    }
  }

  lemma OpenRests(g: Sys, i: nat)
    requires OpenAt(g, i) && Fine(g)
    ensures Rests(g, i, g)
  {
    hide Leads, LaneFacts, MayPark, LaneFine;
    OpenLaneWorks(g, i);
  }

  /** The worker of an open lane does what is queued. */
  lemma {:induction false} LaneIdlesOut(g: Sys, i: nat) returns (h: Sys)
    requires OpenAt(g, i) && Steady(g)
    ensures IdlesAt(h, i) && Rests(g, i, h) && OpenAt(h, i) && Steady(h)
    decreases LeftOn(g, i)
  {
    hide Leads, Steady, LeftOn, LaneFacts, MayPark, OnlyLane, Alive, LaneFine, Idles;
    h := g;
    SteadyIsFine(g);
    OpenLaneWorks(g, i);
    if Idles(g.lanes[i]) {
      OpenRests(g, i);
    } else {
      var k := LaneGoesOn(g, i);
      RestsSteady(g, i, k);
      h := LaneIdlesOut(k, i);
      RestsOn(g, i, k, h);
    }
  }

  predicate EmptyAt(g: Sys, i: nat) {
    IdlesAt(g, i) && g.lanes[i].inside == map[]
  }

  function InsideCount(g: Sys, i: nat): nat {
    if i < |g.lanes| then |g.lanes[i].inside.Keys| else 0
  }

  lemma SomeoneInside(g: Sys, i: nat) returns (p: nat)
    requires OpenAt(g, i) && IdlesAt(g, i) && !EmptyAt(g, i) && Fine(g)
    ensures p in g.lanes[i].inside
    ensures var stage := g.lanes[i].inside[p].stage; HasWay(g, p, i, !stage.AtFence?, stage.Sending?)
  {
    assert LaneFine(g, i);
    p :| p in g.lanes[i].inside;
  }

  lemma LeavingShrinks(g: Sys, i: nat, p: nat, h: Sys)
    requires i < |g.lanes| && p in g.lanes[i].inside && HasLeft(g, i, p, h)
    ensures InsideCount(h, i) < InsideCount(g, i)
  {
    hide CallsGoOn;
    var before, after := g.lanes[i].inside.Keys, h.lanes[i].inside.Keys;
    assert after <= before - {p};
    Smaller(after, before - {p});
  }

  lemma {:induction false} Smaller(a: set<nat>, b: set<nat>)
    requires a <= b
    ensures |a| <= |b|
  {
    if x :| x in a {
      Smaller(a - {x}, b - {x});
    }
  }

  /** Everybody inside the lane gets through, and the lane comes to rest. */
  lemma {:induction false} LaneEmpties(g: Sys, i: nat) returns (h: Sys)
    requires OpenAt(g, i) && Steady(g)
    ensures EmptyAt(h, i) && Rests(g, i, h) && OpenAt(h, i) && Steady(h)
    decreases InsideCount(g, i)
  {
    hide Leads, Steady, Fine, OnlyLane, HasWay, Brings, InsideCount;
    var k := LaneIdlesOut(g, i);
    assert InsideCount(k, i) <= InsideCount(g, i) by { RestsNoMore(g, i, k); }
    h := k;
    if !EmptyAt(k, i) {
      SteadyIsFine(k);
      var p := SomeoneInside(k, i);
      var stage := k.lanes[i].inside[p].stage;
      var n := GetsThrough(k, p, i, !stage.AtFence?, stage.Sending?);
      LeavingShrinks(k, i, p, n);
      LeftRests(k, i, p, n);
      RestsSteady(k, i, n);
      RestsOn(g, i, k, n);
      h := LaneEmpties(n, i);
      RestsOn(g, i, n, h);
    }
  }

  lemma RestsNoMore(g: Sys, i: nat, h: Sys)
    requires Rests(g, i, h)
    ensures InsideCount(h, i) <= InsideCount(g, i)
  {
    hide Leads, CallsGoOn;
    Smaller(h.lanes[i].inside.Keys, g.lanes[i].inside.Keys);
  }

  lemma LeftRests(g: Sys, i: nat, p: nat, h: Sys)
    requires Brings(g, h, p) && HasLeft(g, i, p, h)
    ensures Rests(g, i, h)
  {
    hide Leads, OnlyLane;
  }

  // ----- the retirement itself -----

  predicate RetiredAt(g: Sys, i: nat) {
    i < |g.lanes| && g.lanes[i].q.retired
  }

  /** Nothing pends on an idle lane that nobody is inside of. */
  lemma EmptyLaneIsIdle(l: Lane)
    requires LaneInv(l) && Idles(l) && l.inside == map[]
    ensures l.q.tracksIdle ==> l.q.pending == 0
  {
    hide Ordered, Counted, BacklogOk, FlagsOk, KeysOk, WakeOk, FinishingOk;
    assert forall j :: 0 <= j < |l.tickets| && l.tickets[j].InSend? ==>
             SendingWith(l.inside, l.tickets[j].producer, j + 1);
    TallyNone(l.tickets, |l.tickets|, SendKind);
  }

  /** The lane can be locked, and sealed at once. */
  lemma EmptyLaneRetires(g: Sys, i: nat) returns (h: Sys)
    requires EmptyAt(g, i) && OpenAt(g, i) && g.cfg.dynamic && g.cfg.tracksIdle && !g.reg.retirerOff && Steady(g)
    ensures RetiredAt(h, i) && h.subs == g.subs && Leads(g, h)
  {
    hide Leads, SubmitStep, CleanStep, SectionStep, StopStep, Calm, GateOk, GuardsOk, ClosedOk, ShardedOk, AimsOk;
    hide StopsOk, RoutesOk, Alive, InsideOk, LaneInv;
    SteadyIsFine(g);
    assert LaneFine(g, i);
    OpenLaneWorks(g, i);
    EmptyLaneIsIdle(g.lanes[i]);
    var k := RetireLock(g, i);
    Then(g, g, WorkerMove(i, LockIdle), k);
    LockedLives(g, i);
    h := RetireSeal(k, i);
    Then(g, k, WorkerMove(i, SealIdle), h);
  }

  lemma LockedLives(g: Sys, i: nat)
    requires CanRetireLock(g, i) && Alive(g)
    ensures Alive(RetireLock(g, i))
  {
  }

  /**
   Before a stop, every lane of an engine that retires idle lanes can be retired: from every reachable state a run leads
   to that, in which no call gives up. What is on the lane is handled, and whoever is inside gets through.
   */
  lemma LaneCanRetire(g: Sys, i: nat) returns (h: Sys)
    requires i < |g.lanes| && g.cfg.dynamic && g.cfg.tracksIdle && !g.reg.retirerOff && Undisturbed(g) && Reachable(g)
    ensures RetiredAt(h, i) && NoneGivesUp(g.subs, h.subs) && Leads(g, h) && Reachable(h)
  {
    hide Reachable, Leads, Calm, Steady, OnlyLane, Idles;
    ReachableIsCalm(g);
    var k := SectionEnds(g);
    SectionEndKeeps(g, k);
    if k.lanes[i].q.retired {
      h := k;
      if g == k {
        LeadsSelf(g);
      }
    } else {
      SteadyIsFine(k);
      assert OpenAt(k, i) by { assert LaneFine(k, i); }
      var n := LaneEmpties(k, i);
      RestsKeeps(k, i, n);
      h := EmptyLaneRetires(n, i);
      if k != n {
        LeadsOn(k, n, h);
      }
      if g != k {
        LeadsOn(g, k, h);
      }
    }
    LeadsReach(g, h);
  }

  lemma SectionEndKeeps(g: Sys, h: Sys)
    requires Goes(g, h)
    ensures |g.lanes| <= |h.lanes| && h.cfg == g.cfg && h.reg.retirerOff == g.reg.retirerOff && FromTo(g, h)
    ensures NoneGivesUp(g.subs, h.subs)
  {
    hide Leads, HasRoom;
  }

  lemma RestsKeeps(g: Sys, i: nat, h: Sys)
    requires Rests(g, i, h)
    ensures h.cfg == g.cfg && h.reg.retirerOff == g.reg.retirerOff && FromTo(g, h)
    ensures NoneGivesUp(g.subs, h.subs)
  {
    hide Leads, HasRoom;
  }
}
