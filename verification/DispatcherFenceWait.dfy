/** A stop's wait for the submit fence: who can move, who waits for whom, and that the wait comes to an end. */
module DispatcherFenceWait {
  import opened Queues
  import opened Lanes
  import opened LaneInvariant
  import opened Dispatcher
  import opened DispatcherFrame
  import opened DispatcherFence
  import opened DispatcherRegistry
  import opened DispatcherStop
  import opened DispatcherPlaces
  import opened DispatcherSection
  import opened DispatcherFifo
  import opened DispatcherTheorems
  import opened DispatcherHandoff
  import opened DispatcherRuns

  ghost predicate GatesFree(lanes: seq<Lane>) {
    forall i :: 0 <= i < |lanes| ==> !lanes[i].gateHeld
  }

  /** Stop is signalled, no send has panicked, and nothing is retired any more. */
  ghost predicate StopSignalled(g: Sys) {
    && Alive(g) && g.ctl.stopped && MuFree(g) && GatesFree(g.lanes)
    && LanesOk(g.cfg, g.lanes) && KeysPlain(g.subs, g.cleans) && CtlOk(g.ctl, g.subs, g.cleans)
    && SubsOk(g.lanes, g.subs)
    && RegOk(g) && LifeOk(g) && HandOk(g.subs, g.cleans)
  }

  lemma ReachableStopped(g: Sys)
    requires Reachable(g) && Alive(g) && g.ctl.stopped
    ensures StopSignalled(g)
  {
    hide Reachable, LanesOk, KeysPlain, CtlOk, SubsOk, LifeOk, StopOk, PlacesOk, SecOk, LogOk, AcceptedOk, AbortOk;
    hide PanicOk;
    hide HandOk, QueueMapOk, GuardsOk, AimsOk, StopsOk, Alive;
    ReachableInv(g);
  }

  /** A send on a closed channel needs a closed fence. */
  lemma OpenFenceIsAlive(g: Sys)
    requires Reachable(g) && !g.ctl.fence
    ensures Alive(g)
  {
    hide Reachable, LanesOk, KeysPlain, SubsOk, RegOk, LifeOk, StopOk, PlacesOk, SecOk, LogOk, AcceptedOk, AbortOk;
    ReachableInv(g);
  }

  // ----- who can move -----

  /** Some move of call p itself is enabled, or of the producer that it is inside a lane, or its failure handoff. */
  ghost predicate CallCanMove(g: Sys, p: nat) {
    || (exists a :: CanSubmit(g, p, a))
    || (exists i, a :: IsProducing(a, p) && CanWorker(g, i, a))
    || CanNewCleanup(g, p)
  }

  predicate IsProducing(a: WorkerAct, p: nat) {
    a.Quiet? && a.step.ByProducer? && a.step.p == p
  }

  ghost predicate ReleaseCanMove(g: Sys, c: nat) {
    exists a :: CanClean(g, c, a)
  }

  lemma ByCall(g: Sys, p: nat, a: SubmitAct)
    requires CanSubmit(g, p, a)
    ensures CallCanMove(g, p)
  {
    hide CanSubmit, CanWorker, CanNewCleanup;
  }

  lemma ByProducing(g: Sys, p: nat, i: nat, act: ProducerAct)
    requires CanWorker(g, i, Quiet(ByProducer(p, act)))
    ensures CallCanMove(g, p)
  {
    hide CanSubmit, CanWorker, CanNewCleanup;
    assert IsProducing(Quiet(ByProducer(p, act)), p);
  }

  lemma ByRelease(g: Sys, c: nat, a: CleanAct)
    requires CanClean(g, c, a)
    ensures ReleaseCanMove(g, c)
  {
    hide CanClean;
  }

  predicate Registered(g: Sys, p: nat) {
    p < |g.subs| && Counts(g.subs[p].pc)
  }

  predicate RegisteredRelease(g: Sys, c: nat) {
    c < |g.cleans| && CleanCounts(g.cleans[c].pc)
  }

  predicate HasFound(g: Sys, p: nat) {
    p < |g.subs| && g.subs[p].pc.Found?
  }

  predicate IsEnding(g: Sys, p: nat) {
    p < |g.subs| && g.subs[p].pc.Ending?
  }

  lemma FoundMoves(g: Sys, p: nat)
    requires StopSignalled(g) && HasFound(g, p)
    ensures CallCanMove(g, p)
  {
    hide CallCanMove, CtlOk, RegOk, LifeOk, StopOk, PlacesOk, SecOk, LogOk, AcceptedOk, AbortOk, PanicOk, LaneInv;
    hide HandOk;
    var i := g.subs[p].pc.lane;
    assert SubOk(g.lanes, p, g.subs[p]);
    assert InsideOk(g.lanes[i], i, g.subs);
    assert LaneFits(g.cfg, g.lanes[i], i);
    if g.cfg.dynamic && g.lanes[i].q.closed {
      ByCall(g, p, TurnBack);
    } else {
      ByCall(g, p, EnterLane);
    }
  }

  lemma SendingMoves(g: Sys, p: nat, i: nat)
    requires Alive(g) && p < |g.subs| && g.subs[p].pc == InLane(i) && i < |g.lanes| && LaneInv(g.lanes[i])
    requires InSending(g.lanes[i], p)
    ensures CallCanMove(g, p)
  {
    hide CallCanMove, Step;
    var l := g.lanes[i];
    assert SendingWith(l.inside, p, l.inside[p].stage.ticket);
    if l.inside[p].stage.tried {
      ByCall(g, p, AbandonLane(false));
    } else if l.q.chClosed || |l.q.ch| < l.q.cap {
      ByCall(g, p, SendLane);
    } else {
      ByProducing(g, p, i, PFindFull);
    }
  }

  /** The holder of a guard is registered, and can lift it at once. */
  ghost predicate HolderCanMove(g: Sys, r: nat) {
    CleanAt(g, r, Guarding) && CanClean(g, r, GuardDone)
  }

  lemma HolderMoves(g: Sys, r: nat)
    requires StopSignalled(g) && CleanAt(g, r, Guarding)
    ensures HolderCanMove(g, r)
  {
    hide HandOk, Step, CanStep;
  }

  /**
   A release that is looking for its place can move, or waits at the guard of its key, whose holder is
   registered and can move.
   */
  ghost predicate ReleaseProgresses(g: Sys, c: nat) {
    || ReleaseCanMove(g, c)
    || (c < |g.cleans| && g.cleans[c].pc.AwaitGuard? && HolderCanMove(g, g.cleans[c].pc.release))
  }

  predicate LooksAround(g: Sys, c: nat) {
    && c < |g.cleans|
    && var pc := g.cleans[c].pc; pc.Looking? || pc.GotLane? || pc.AtLimit? || pc.AfterStop? || pc.OffLane?
  }

  predicate KnowsItsWay(g: Sys, c: nat) {
    && c < |g.cleans|
    && var pc := g.cleans[c].pc;
       pc.RegLane? || pc.RegLimit? || pc.Guarding? || pc.EndingReg? || pc.TestedReg? || pc.FenceLane?
       || pc.Tracked? || pc.Untracked?
  }

  predicate Unreturned(g: Sys, c: nat) {
    c < |g.cleans| && !g.cleans[c].pc.Returned?
  }

  lemma SeekingReleaseMoves(g: Sys, c: nat)
    requires StopSignalled(g) && LooksAround(g, c)
    ensures ReleaseCanMove(g, c)
  {
    hide ReleaseCanMove, LanesOk, CtlOk, SubsOk, LifeOk, StopOk, PlacesOk, SecOk, LogOk, AcceptedOk, AbortOk;
    hide PanicOk, HandOk;
    hide QueueMapOk, GateOk, GuardsOk, AimsOk, StopsOk;
    match g.cleans[c].pc
    case Looking => ByRelease(g, c, if g.cfg.dynamic then HaltClean else BeginClean);
    case GotLane(_) => ByRelease(g, c, BeginClean);
    case AtLimit => ByRelease(g, c, BeginClean);
    case AfterStop => ByRelease(g, c, LookAfterStop);
    case OffLane => ByRelease(g, c, GoOffLane);
  }

  lemma PlacedReleaseMoves(g: Sys, c: nat)
    requires StopSignalled(g) && KnowsItsWay(g, c)
    ensures ReleaseCanMove(g, c)
  {
    hide ReleaseCanMove, LanesOk, SubsOk, StopOk, PlacesOk, SecOk, LogOk, AcceptedOk, AbortOk, PanicOk, HandOk;
    hide CanCleanEnqueue, CanCleanFence;
    hide QueueMapOk, GateOk, GuardsOk, AimsOk, StopsOk, ShardedOk, CtlOk, LifeOk;
    ReleasePasses(g, c);
    match g.cleans[c].pc
    case RegLane(_) => ByRelease(g, c, EnqueueClean);
    case RegLimit => ByRelease(g, c, Guard);
    case Guarding => ByRelease(g, c, GuardDone);
    case EndingReg(_) => ByRelease(g, c, EndClean);
    case TestedReg(_, _) => ByRelease(g, c, TestClean);
    case FenceLane(_) => ByRelease(g, c, EnqueueFence);
    case Tracked => ByRelease(g, c, RunDone);
    case Untracked => ByRelease(g, c, RunDone);
  }

  lemma WaitingReleaseProgresses(g: Sys, c: nat)
    requires StopSignalled(g) && Unreturned(g, c)
    ensures ReleaseProgresses(g, c)
  {
    hide StopSignalled, ReleaseCanMove, HolderCanMove;
    match g.cleans[c].pc
    case AwaitGuard(r) =>
      if CleanAt(g, r, Guarding) {
        HolderMoves(g, r);
      } else {
        ByRelease(g, c, ResumeClean);
      }
    case RegLane(_) => PlacedReleaseMoves(g, c);
    case RegLimit => PlacedReleaseMoves(g, c);
    case Guarding => PlacedReleaseMoves(g, c);
    case EndingReg(_) => PlacedReleaseMoves(g, c);
    case TestedReg(_, _) => PlacedReleaseMoves(g, c);
    case FenceLane(_) => PlacedReleaseMoves(g, c);
    case Tracked => PlacedReleaseMoves(g, c);
    case Untracked => PlacedReleaseMoves(g, c);
    case _ => SeekingReleaseMoves(g, c);
  }

  /** Call p waits for a guard, or for the release that its failure handed over. */
  ghost predicate WaitsAtGuard(g: Sys, p: nat) {
    p < |g.subs| && g.subs[p].pc.AtGuard? && HolderCanMove(g, g.subs[p].pc.release)
  }

  ghost predicate WaitsForHandoff(g: Sys, p: nat) {
    && p < |g.subs| && g.subs[p].pc == Ending(false) && g.subs[p].handed.Some?
    && !CleanAt(g, g.subs[p].handed.value, Returned) && ReleaseProgresses(g, g.subs[p].handed.value)
  }

  lemma EndingMoves(g: Sys, p: nat)
    requires StopSignalled(g) && IsEnding(g, p)
    ensures CallCanMove(g, p) || WaitsForHandoff(g, p)
  {
    hide CallCanMove, ReleaseProgresses, LanesOk, SubsOk, LifeOk, QueueMapOk, GateOk, GuardsOk, ClosedOk, AimsOk;
    hide StopsOk;
    var s := g.subs[p];
    assert HandedOk(s, g.cleans);
    CallPasses(g, p);
    if s.pc.ok || HandedOff(g, s) {
      ByCall(g, p, EndSubmit);
    } else if s.handed.None? {
      assert CanNewCleanup(g, p);
      ByHandoff(g, p);
    } else {
      WaitingReleaseProgresses(g, s.handed.value);
    }
  }

  lemma ByHandoff(g: Sys, p: nat)
    requires CanNewCleanup(g, p)
    ensures CallCanMove(g, p)
  {
    hide CanSubmit, CanWorker, CanNewCleanup;
  }

  predicate IsInside(g: Sys, p: nat) {
    p < |g.subs| && g.subs[p].pc.InLane?
  }

  lemma InsideMoves(g: Sys, p: nat)
    requires StopSignalled(g) && IsInside(g, p)
    ensures CallCanMove(g, p)
  {
    hide CallCanMove, CtlOk, RegOk, LifeOk, StopOk, PlacesOk, SecOk, LogOk, AcceptedOk, AbortOk, PanicOk;
    hide LaneInv, HandOk, LaneFits;
    var i := g.subs[p].pc.lane;
    assert SubOk(g.lanes, p, g.subs[p]);
    if g.lanes[i].inside[p].stage.Sending? {
      SendingMoves(g, p, i);
    } else {
      ByCall(g, p, LeaveLane(false));
    }
  }

  lemma WaitingCallProgresses(g: Sys, p: nat)
    requires StopSignalled(g) && Registered(g, p)
    ensures CallCanMove(g, p) || WaitsAtGuard(g, p) || WaitsForHandoff(g, p)
  {
    hide CallCanMove, HolderCanMove, WaitsForHandoff, HandOk;
    match g.subs[p].pc
    case Begun => ByCall(g, p, if g.cfg.dynamic then Halt else Find);
    case AtGuard(r) =>
      if CleanAt(g, r, Guarding) {
        HolderMoves(g, r);
      } else {
        ByCall(g, p, LeaveGuard);
      }
    case Found(_) => FoundMoves(g, p);
    case InLane(_) => InsideMoves(g, p);
    case Ending(_) => EndingMoves(g, p);
  }

  /** A call that is inside no lane makes no producer's step. */
  lemma OutsideProducesNothing(g: Sys, p: nat, i: nat, a: WorkerAct)
    requires SubsOk(g.lanes, g.subs) && p < |g.subs| && !g.subs[p].pc.InLane? && IsProducing(a, p)
    ensures !CanWorker(g, i, a)
  {
    hide Step, CanTurn, CanWork, CanGate;
    if i < |g.lanes| {
      assert InsideOk(g.lanes[i], i, g.subs);
    }
  }

  lemma HeldUp(g: Sys, p: nat)
    requires SubsOk(g.lanes, g.subs) && HandOk(g.subs, g.cleans) && (WaitsAtGuard(g, p) || WaitsForHandoff(g, p))
    ensures !CallCanMove(g, p)
  {
    hide CanWorker, ReleaseProgresses, CanClean, SubsOk;
    assert HandedOk(g.subs[p], g.cleans);
    forall i, a | IsProducing(a, p) ensures !CanWorker(g, i, a) {
      OutsideProducesNothing(g, p, i, a);
    }
  }

  /**
   After stop a registered submit call can move unless it waits at the guard of its key, whose holder is registered
   and can lift it, or for the release that its failure handed over, which progresses in the same way.
   */
  lemma RegisteredSubmitMoves(g: Sys, p: nat)
    requires Reachable(g) && Alive(g) && g.ctl.stopped && Registered(g, p)
    ensures CallCanMove(g, p) <==> !WaitsAtGuard(g, p) && !WaitsForHandoff(g, p)
  {
    hide Reachable, CallCanMove, WaitsAtGuard, WaitsForHandoff, Alive, SubsOk, HandOk, LanesOk, KeysPlain, CtlOk, RegOk;
    hide LifeOk;
    ReachableStopped(g);
    WaitingCallProgresses(g, p);
    if WaitsAtGuard(g, p) || WaitsForHandoff(g, p) {
      HeldUp(g, p);
    }
  }

  /** A registered call of a release can always move. */
  lemma RegisteredReleaseMoves(g: Sys, c: nat)
    requires Reachable(g) && Alive(g) && g.ctl.stopped && RegisteredRelease(g, c)
    ensures ReleaseCanMove(g, c)
  {
    hide Reachable, StopSignalled, ReleaseCanMove, Alive;
    ReachableStopped(g);
    PlacedReleaseMoves(g, c);
  }

  // ----- the wait is never stuck -----

  /** The fence waits for call p: it is registered, or is about to test. */
  predicate AwaitsCall(g: Sys, p: nat) {
    Registered(g, p) || (p < |g.subs| && SubmitOwes(g.subs[p]))
  }

  /** The fence waits for release c: it is registered or about to test itself, or a registered call waits for it. */
  ghost predicate AwaitsRelease(g: Sys, c: nat) {
    || RegisteredRelease(g, c)
    || (c < |g.cleans| && CleanOwes(g.cleans[c]))
    || (exists p :: 0 <= p < |g.subs| && Counts(g.subs[p].pc) && g.subs[p].handed == Some(c))
  }

  /** A move of a call or release that the fence waits for. */
  ghost predicate Awaited(g: Sys, m: Move) {
    match m
    case SubmitMove(p, _) => AwaitsCall(g, p)
    case WorkerMove(_, a) => a.Quiet? && a.step.ByProducer? && AwaitsCall(g, a.step.p)
    case CleanCall(p) => AwaitsCall(g, p)
    case CleanMove(c, _) => AwaitsRelease(g, c)
    case _ => false
  }

  lemma {:induction false} SomeSubmit(subs: seq<Submit>) returns (p: nat)
    requires SubmitsIn(subs) > 0
    ensures p < |subs| && Counts(subs[p].pc)
  {
    if Counts(subs[|subs| - 1].pc) {
      p := |subs| - 1;
    } else {
      p := SomeSubmit(subs[..|subs| - 1]);
    }
  }

  lemma {:induction false} SomeClean(cleans: seq<Cleaner>, f: CleanPc -> bool) returns (c: nat)
    requires CleansAt(cleans, f) > 0
    ensures c < |cleans| && f(cleans[c].pc)
  {
    if f(cleans[|cleans| - 1].pc) {
      c := |cleans| - 1;
    } else {
      c := SomeClean(cleans[..|cleans| - 1], f);
    }
  }

  /** One of them is enabled, and does not close the fence over a registered caller. */
  ghost predicate AwaitedCanMove(g: Sys) {
    exists m :: Awaited(g, m) && Can(g, m) && !ClosesEarly(g, m)
  }

  /** A registered caller has no test before it, and with nobody registered a test is in time. */
  predicate CallIsTame(g: Sys, p: nat) {
    Registered(g, p) || (p < |g.subs| && SubmitOwes(g.subs[p]) && g.ctl.inFlight == 0)
  }

  predicate ReleaseIsTame(g: Sys, c: nat) {
    c < |g.cleans| && (CleanOwes(g.cleans[c]) ==> g.ctl.inFlight == 0)
  }

  lemma CallIsAwaited(g: Sys, p: nat)
    requires Alive(g) && CallCanMove(g, p) && CallIsTame(g, p)
    ensures AwaitedCanMove(g)
  {
    hide CanSubmit, CanWorker, CanNewCleanup, CanClean, CanSection, CanStop, Alive;
    if a :| CanSubmit(g, p, a) {
      assert Awaited(g, SubmitMove(p, a)) && Can(g, SubmitMove(p, a)) && !ClosesEarly(g, SubmitMove(p, a));
    } else if i, a :| IsProducing(a, p) && CanWorker(g, i, a) {
      assert AwaitsCall(g, p);
      assert Awaited(g, WorkerMove(i, a)) && Can(g, WorkerMove(i, a)) && !ClosesEarly(g, WorkerMove(i, a));
    } else {
      assert Awaited(g, CleanCall(p)) && Can(g, CleanCall(p)) && !ClosesEarly(g, CleanCall(p));
    }
  }

  lemma ReleaseIsAwaited(g: Sys, c: nat)
    requires Alive(g) && ReleaseCanMove(g, c) && AwaitsRelease(g, c) && ReleaseIsTame(g, c)
    ensures AwaitedCanMove(g)
  {
    hide CanSubmit, CanWorker, CanNewCleanup, CanClean, CanSection, CanStop, Alive, AwaitsRelease;
    var a :| CanClean(g, c, a);
    assert Awaited(g, CleanMove(c, a)) && Can(g, CleanMove(c, a)) && !ClosesEarly(g, CleanMove(c, a));
  }

  lemma RegisteredIsAwaited(g: Sys, p: nat)
    requires StopSignalled(g) && Registered(g, p)
    ensures AwaitedCanMove(g)
  {
    hide Alive, CallCanMove, HolderCanMove, CanClean, ReleaseCanMove, AwaitedCanMove, LanesOk, KeysPlain, CtlOk, SubsOk;
    hide RegOk, LifeOk;
    WaitingCallProgresses(g, p);
    if CallCanMove(g, p) {
      CallIsAwaited(g, p);
    } else if WaitsAtGuard(g, p) {
      HolderIsAwaited(g, g.subs[p].pc.release);
    } else {
      var c := g.subs[p].handed.value;
      assert HandedOk(g.subs[p], g.cleans);
      if ReleaseCanMove(g, c) {
        ReleaseIsAwaited(g, c);
      } else {
        HolderIsAwaited(g, g.cleans[c].pc.release);
      }
    }
  }

  lemma HolderIsAwaited(g: Sys, r: nat)
    requires Alive(g) && HolderCanMove(g, r)
    ensures AwaitedCanMove(g)
  {
    hide Alive, CanClean, AwaitedCanMove;
    ByRelease(g, r, GuardDone);
    ReleaseIsAwaited(g, r);
  }

  /**
   While a stop waits for the submit fence, a call or release that the fence waits for can move, and without closing the
   fence too early.
   */
  lemma FenceWaitIsNeverStuck(g: Sys)
    requires Reachable(g) && g.ctl.stopped && !g.ctl.fence
    ensures AwaitedCanMove(g)
  {
    hide Reachable, AwaitedCanMove, Alive, ReleaseCanMove, LanesOk, KeysPlain, SubsOk, RegOk, LifeOk, HandOk;
    OpenFenceIsAlive(g);
    ReachableStopped(g);
    if SubmitsIn(g.subs) > 0 {
      var p := SomeSubmit(g.subs);
      RegisteredIsAwaited(g, p);
    } else if CleansAt(g.cleans, CleanCounts) > 0 {
      var c := SomeClean(g.cleans, CleanCounts);
      RegisteredReleaseMoves(g, c);
      ReleaseIsAwaited(g, c);
    } else if p :| 0 <= p < |g.subs| && SubmitOwes(g.subs[p]) {
      ByCall(g, p, TestSubmit);
      CallIsAwaited(g, p);
    } else {
      var c :| 0 <= c < |g.cleans| && CleanOwes(g.cleans[c]);
      ByRelease(g, c, TestClean);
      ReleaseIsAwaited(g, c);
    }
  }
}
