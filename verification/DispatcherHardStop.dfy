/** A hard stop over whole runs: who raises it, and that it aborts exactly the tasks not started when it was raised. */
module DispatcherHardStop {
  import opened RoutingKeys
  import opened Queues
  import opened Lanes
  import opened LaneFrame
  import opened LaneInvariant
  import opened Dispatcher
  import opened DispatcherFrame
  import opened DispatcherFence
  import opened DispatcherRegistry
  import opened DispatcherStop
  import opened DispatcherPlaces
  import opened DispatcherSection
  import opened DispatcherFifo
  import opened DispatcherHandoff
  import opened DispatcherTheorems
  import opened DispatcherRuns

  // ----- tasks -----

  /** A worker is running the task, or has run it. */
  ghost predicate WasStarted(g: Sys, t: Msg) {
    || Outcome(t, false) in g.finished
    || exists i :: 0 <= i < |g.lanes| && g.lanes[i].worker == Task(t, Running)
  }

  /** Under a hard stop no worker begins to run a task, or parks at a barrier it has only reached. */
  ghost predicate BeginsNothing(l: Lane, m: Lane) {
    && (forall t :: m.worker == Task(t, Running) ==> l.worker == m.worker)
    && (m.worker.Barrier? && m.worker.at.Arriving? ==> l.worker == m.worker)
    && (m.worker.Barrier? && m.worker.at.Parked? ==>
          l.worker == m.worker || l.worker == m.worker.(at := Arriving))
  }

  lemma StepBegins(l: Lane, sig: Signals, s: LaneStep)
    requires CanStep(l, sig, s) && sig.hard
    ensures BeginsNothing(l, Step(l, sig, s))
  {
    hide CanStep, Step, CanProduce, Produce, Take;
    StepIs(l, sig, s);
    match s
    case ByProducer(p, a) => ProduceFixed(l, sig, p, a);
    case STake => TakeBegins(l, sig);
    case _ =>
  }

  lemma TakeBegins(l: Lane, sig: Signals)
    requires CanTake(l)
    ensures BeginsNothing(l, Take(l, sig))
  {
    hide ConvertHead, HeadReady;
  }

  lemma StartsNothing(g: Sys, m: Move, h: Sys, t: Msg)
    requires Steps(g, m, h) && g.ctl.hard && !WasStarted(g, t)
    ensures !WasStarted(h, t)
  {
    hide Steps, Can, Do, CanStep, Step, FreshLane, LaneOf;
    FinishedGrows(g, m, h);
    LanesAfter(g, m, h);
    if Creates(m) {
      FreshIsIdle(g, CreatedKey(g, m));
    } else if LaneOf(g, m).OneLane? {
      StepBegins(g.lanes[LaneOf(g, m).i], Sig(g.ctl), LaneOf(g, m).s);
    }
  }

  lemma FreshIsIdle(g: Sys, key: Key)
    ensures FreshLane(g, key).worker == Top(false)
  {
  }

  /** A running task goes on running until its worker has finished it. */
  ghost predicate RunsOn(l: Lane, s: LaneStep, m: Lane) {
    l.worker.Task? && l.worker.mode.Running? ==> m.worker == l.worker || s == ByWork(WFinishTask)
  }

  lemma StepRunsOn(l: Lane, sig: Signals, s: LaneStep)
    requires CanStep(l, sig, s)
    ensures RunsOn(l, s, Step(l, sig, s))
  {
    hide CanStep, Step, CanProduce, Produce, Take;
    StepIs(l, sig, s);
    match s
    case ByProducer(p, a) => ProduceFixed(l, sig, p, a);
    case _ =>
  }

  lemma FinishIsComplete(g: Sys, m: Move, h: Sys, i: nat)
    requires Steps(g, m, h) && LaneOf(g, m) == OneLane(i, ByWork(WFinishTask))
    ensures m == WorkerMove(i, CompleteTask) && HasTask(g, i) && h.finished == g.finished + [TaskOutcome(g, i)]
  {
    hide CanSubmit, CanClean, CanSection, CanStop, DoSubmit, DoClean, DoSection, DoStop;
  }

  lemma StaysStarted(g: Sys, m: Move, h: Sys, t: Msg)
    requires Steps(g, m, h) && WasStarted(g, t)
    ensures WasStarted(h, t)
  {
    hide Steps, Can, Do, CanStep, Step, FreshLane, LaneOf, Creates;
    FinishedGrows(g, m, h);
    LanesAfter(g, m, h);
    if Outcome(t, false) !in g.finished {
      var i :| 0 <= i < |g.lanes| && g.lanes[i].worker == Task(t, Running);
      if !Creates(m) && LaneOf(g, m).OneLane? && LaneOf(g, m).i == i {
        StepRunsOn(g.lanes[i], Sig(g.ctl), LaneOf(g, m).s);
        if LaneOf(g, m).s == ByWork(WFinishTask) {
          FinishIsComplete(g, m, h, i);
          assert h.finished[|g.finished|] == Outcome(t, false);
        } else {
          assert h.lanes[i].worker == Task(t, Running);
        }
      } else {
        assert h.lanes[i] == g.lanes[i];
      }
    }
  }

  lemma {:induction false} StartedAsBefore(states: seq<Sys>, moves: seq<Move>, m: nat, n: nat, t: Msg)
    requires IsRun(states, moves) && m <= n < |states| && states[m].ctl.hard
    ensures states[n].ctl.hard && (WasStarted(states[n], t) <==> WasStarted(states[m], t))
    decreases n
  {
    hide Steps, StepAt, WasStarted, Latches;
    if m < n {
      StartedAsBefore(states, moves, m, n - 1, t);
      MoveOfRun(states, moves, n - 1);
      HardStays(states, moves, n - 1);
      if WasStarted(states[n - 1], t) {
        StaysStarted(states[n - 1], moves[n - 1], states[n], t);
      } else {
        StartsNothing(states[n - 1], moves[n - 1], states[n], t);
      }
    }
  }

  lemma HardStays(states: seq<Sys>, moves: seq<Move>, n: nat)
    requires IsRun(states, moves) && n < |moves|
    ensures states[n].ctl.hard ==> states[n + 1].ctl.hard
  {
    hide Steps, StepAt, IsRun, RegOk, LanesOk, PlacesOk, SubsOk, AcceptedOk, KeysPlain;
    MoveOfRun(states, moves, n);
    RunParts(states, moves, n);
    LatchesHold(states[n], moves[n], states[n + 1]);
  }

  /** After a successful stop a task that was accepted has one outcome, and it was run exactly if it was started. */
  lemma OneOutcome(g: Sys, p: nat)
    requires Reachable(g) && g.life.sealed && p < |g.subs| && SentPc(g.subs[p].pc)
    ensures var t := Msg(p, g.subs[p].key);
            && multiset(g.finished)[Outcome(t, false)] + multiset(g.finished)[Outcome(t, true)] == 1
            && (WasStarted(g, t) <==> Outcome(t, false) in g.finished)
  {
    hide Reachable;
    var t := Msg(p, g.subs[p].key);
    StopSettlesEveryTask(g, p);
    StopSafety(g);
    OutcomesCount(g.finished, t);
    assert forall i :: 0 <= i < |g.lanes| ==> !g.lanes[i].worker.Task? by {
      WorkersAreGone(g);
    }
  }

  lemma WorkersAreGone(g: Sys)
    requires Reachable(g) && AllExited(g.lanes)
    ensures forall i :: 0 <= i < |g.lanes| ==> g.lanes[i].worker.Exited?
  {
    hide Reachable, KeysPlain, CtlOk, SubsOk, RegOk, LifeOk, StopOk, PlacesOk, SecOk, LogOk, AcceptedOk, AbortOk;
    hide PanicOk, HandOk, LaneInv, LaneFits;
    ReachableInv(g);
    forall i | 0 <= i < |g.lanes| ensures g.lanes[i].worker.Exited? {
      assert LaneInv(g.lanes[i]);
      ExitedLaneHoldsNothing(g.lanes[i]);
    }
  }

  /**
   Once a hard stop has been raised, a successful stop has run exactly those accepted tasks that a worker had started
   by then, and has aborted every other one, each once.
   */
  lemma HardStopAbortsTheRest(states: seq<Sys>, moves: seq<Move>, m: nat, n: nat, p: nat)
    requires IsRun(states, moves) && m <= n < |states| && states[m].ctl.hard
    requires states[n].life.sealed && p < |states[n].subs| && SentPc(states[n].subs[p].pc)
    ensures var t := Msg(p, states[n].subs[p].key);
            && multiset(states[n].finished)[Outcome(t, false)] == (if WasStarted(states[m], t) then 1 else 0)
            && multiset(states[n].finished)[Outcome(t, true)] == (if WasStarted(states[m], t) then 0 else 1)
  {
    hide IsRun, WasStarted;
    StartedAsBefore(states, moves, m, n, Msg(p, states[n].subs[p].key));
    RunReaches(states, moves, n);
    OneOutcome(states[n], p);
  }

  // ----- sections -----

  predicate ArrivedAt(g: Sys, i: nat, id: nat) {
    i < |g.lanes| && AtBarrier(g.lanes[i], id) && (g.lanes[i].worker.at.Arriving? || g.lanes[i].worker.at.Parked?)
  }

  lemma ArrivesNowhere(g: Sys, m: Move, h: Sys, i: nat, id: nat)
    requires Steps(g, m, h) && g.ctl.hard && ArrivedAt(h, i, id)
    ensures ArrivedAt(g, i, id)
  {
    hide Steps, Can, Do, CanStep, Step, FreshLane, LaneOf;
    LanesAfter(g, m, h);
    if Creates(m) {
      FreshIsIdle(g, CreatedKey(g, m));
    } else if LaneOf(g, m).OneLane? {
      StepBegins(g.lanes[LaneOf(g, m).i], Sig(g.ctl), LaneOf(g, m).s);
    }
  }

  lemma {:induction false} ArrivedBefore(states: seq<Sys>, moves: seq<Move>, m: nat, n: nat, i: nat, id: nat)
    requires IsRun(states, moves) && m <= n < |states| && states[m].ctl.hard && ArrivedAt(states[n], i, id)
    ensures ArrivedAt(states[m], i, id)
    decreases n
  {
    hide Steps, StepAt, ArrivedAt, WasStarted;
    if m < n {
      MoveOfRun(states, moves, n - 1);
      StartedAsBefore(states, moves, m, n - 1, Msg(0, Key(Account, 0)));
      ArrivesNowhere(states[n - 1], moves[n - 1], states[n], i, id);
      ArrivedBefore(states, moves, m, n - 1, i, id);
    }
  }

  /**
   Under a hard stop no worker parks that had not come to its barrier before: a section runs its function only if all
   the lanes it counts, of those it found, had arrived when the hard stop was raised.
   */
  lemma HardStopHoldsUpSections(states: seq<Sys>, moves: seq<Move>, m: nat, n: nat, i: nat)
    requires IsRun(states, moves) && m <= n < |states| && states[m].ctl.hard
    requires states[n].sec.pc.FnRunning? && i < states[n].sec.base && i in states[n].sec.took
    ensures ArrivedAt(states[m], i, states[n].sec.id)
  {
    hide IsRun;
    InvParked(states, moves, n, i);
    ArrivedBefore(states, moves, m, n, i, states[n].sec.id);
  }

  lemma InvParked(states: seq<Sys>, moves: seq<Move>, n: nat, i: nat)
    requires IsRun(states, moves) && n < |states|
    requires states[n].sec.pc.FnRunning? && i < states[n].sec.base && i in states[n].sec.took
    ensures ArrivedAt(states[n], i, states[n].sec.id)
  {
    hide IsRun, LanesOk, KeysPlain, CtlOk, SubsOk, RegOk, LifeOk, StopOk, PlacesOk, LogOk, AcceptedOk, AbortOk;
    hide PanicOk, HandOk;
    RunInv(states, moves, n);
    assert LaneSec(states[n].lanes[i], i, states[n].sec, states[n].ctl.stopped);
  }

  predicate HoldsFor(l: Lane, id: nat) {
    AtBarrier(l, id) && l.worker.at.Holding?
  }

  /** A section is told when a hard stop keeps one of its lanes from parking, and only under a hard stop. */
  ghost predicate Told(g: Sys) {
    && (g.sec.aborted ==> g.ctl.hard)
    && forall i :: 0 <= i < |g.lanes| && HoldsFor(g.lanes[i], g.sec.id) ==> g.sec.aborted
  }

  ghost predicate HoldsAlready(l: Lane, s: LaneStep, m: Lane) {
    m.worker.Barrier? && m.worker.at.Holding? ==> l.worker == m.worker || s == ByWork(WStartBarrier)
  }

  lemma StepHolds(l: Lane, sig: Signals, s: LaneStep)
    requires CanStep(l, sig, s)
    ensures HoldsAlready(l, s, Step(l, sig, s))
  {
    hide CanStep, Step, CanProduce, Produce, Take;
    StepIs(l, sig, s);
    match s
    case ByProducer(p, a) => ProduceFixed(l, sig, p, a);
    case STake => TakeHolds(l, sig);
    case _ =>
  }

  lemma TakeHolds(l: Lane, sig: Signals)
    requires CanTake(l)
    ensures HoldsAlready(l, STake, Take(l, sig))
  {
    hide ConvertHead, HeadReady;
  }

  lemma StartTells(g: Sys, m: Move, h: Sys, i: nat)
    requires Steps(g, m, h) && LaneOf(g, m) == OneLane(i, ByWork(WStartBarrier)) && i < |g.lanes|
    ensures h.sec.id == g.sec.id && i < |h.lanes| && (HoldsFor(h.lanes[i], g.sec.id) ==> h.sec.aborted)
  {
    hide CanSubmit, CanClean, CanSection, CanStop, DoSubmit, DoClean, DoSection, DoStop;
  }

  /** Barriers belong to this section or to earlier ones. */
  ghost predicate NoLaterBarrier(g: Sys) {
    forall i :: 0 <= i < |g.lanes| && g.lanes[i].worker.Barrier? ==> g.lanes[i].worker.section <= g.sec.id
  }

  ghost predicate KeepsAborted(g: Sys, h: Sys) {
    && (h.sec.aborted ==> g.sec.aborted || g.ctl.hard)
    && if h.sec.id == g.sec.id then g.sec.aborted ==> h.sec.aborted else h.sec.id > g.sec.id
  }

  lemma AbortedKept(g: Sys, m: Move, h: Sys)
    requires Steps(g, m, h)
    ensures KeepsAborted(g, h)
  {
    hide Steps, Can, Do, SameStop, OtherCleansStay, OnlyPlaces, SameDuty, SameLog;
    MoveKeys(g, m, h);
  }

  lemma ToldKept(g: Sys, m: Move, h: Sys)
    requires Steps(g, m, h) && Told(g) && RegOk(g) && NoLaterBarrier(g)
    ensures Told(h)
  {
    hide Steps, Can, Do, CanStep, Step, FreshLane, LaneOf, RegOk;
    AbortedKept(g, m, h);
    LatchesHold(g, m, h);
    LanesAfter(g, m, h);
    if Creates(m) {
      FreshIsIdle(g, CreatedKey(g, m));
    } else if LaneOf(g, m).OneLane? {
      var i := LaneOf(g, m).i;
      StepHolds(g.lanes[i], Sig(g.ctl), LaneOf(g, m).s);
      if LaneOf(g, m).s == ByWork(WStartBarrier) {
        StartTells(g, m, h, i);
      }
    }
  }

  lemma InvNoLater(states: seq<Sys>, moves: seq<Move>, n: nat)
    requires IsRun(states, moves) && n < |states|
    ensures NoLaterBarrier(states[n])
  {
    hide IsRun, LanesOk, KeysPlain, CtlOk, SubsOk, RegOk, LifeOk, StopOk, PlacesOk, LogOk, AcceptedOk, AbortOk;
    hide PanicOk, HandOk;
    RunInv(states, moves, n);
    var g := states[n];
    assert forall i :: 0 <= i < |g.lanes| ==> LaneSec(g.lanes[i], i, g.sec, g.ctl.stopped);
  }

  lemma {:induction false} HeldLaneTellsItsSection(states: seq<Sys>, moves: seq<Move>, n: nat)
    requires IsRun(states, moves) && n < |states|
    ensures Told(states[n])
  {
    hide StepAt, Steps, Told, NoLaterBarrier, LanesOk, KeysPlain, PlacesOk, RegOk, SubsOk, AcceptedOk;
    if n > 0 {
      HeldLaneTellsItsSection(states, moves, n - 1);
      MoveOfRun(states, moves, n - 1);
      RunParts(states, moves, n - 1);
      InvNoLater(states, moves, n - 1);
      ToldKept(states[n - 1], moves[n - 1], states[n]);
    } else {
      InitTold(states[0].cfg);
    }
  }

  lemma InitTold(cfg: Config)
    requires GoodConfig(cfg)
    ensures Told(Init(cfg))
  {
    InitLanes(cfg);
  }

  // ----- who raises it -----

  /** Stop call s is a hard one that has not yet raised the flag, or the flag is raised. */
  ghost predicate HardDue(g: Sys, s: nat) {
    s < |g.stops| && (g.stops[s] == Called(true) || g.stops[s] == Quieted(true) || g.ctl.hard)
  }

  /** The flag is raised, or a hard stop call is on its way to raise it. */
  ghost predicate HardAsked(g: Sys) {
    g.ctl.hard || exists s :: 0 <= s < |g.stops| && (g.stops[s] == Called(true) || g.stops[s] == Quieted(true))
  }

  ghost predicate StopAsked(g: Sys) {
    g.ctl.stopped || g.stops != []
  }

  /** What a move does to the two flags and to the stop calls. */
  ghost predicate FlagsFollow(g: Sys, m: Move, h: Sys) {
    && (forall s :: HardDue(g, s) ==> HardDue(h, s))
    && (HardAsked(h) ==> HardAsked(g) || m == StopCall(true))
    && (StopAsked(h) ==> StopAsked(g) || m.StopCall?)
  }

  lemma StopFlags(g: Sys, s: nat, a: StopAct, h: Sys)
    requires StopStep(g, s, a, h)
    ensures FlagsFollow(g, StopMove(s, a), h)
  {
    hide CanClose, Close, Mapped, AllExited;
    assert forall t :: 0 <= t < |g.stops| && t != s ==> h.stops[t] == g.stops[t];
  }

  lemma OtherFlags(g: Sys, m: Move, h: Sys)
    requires MoveKeeps(g, m, h) && !m.StopMove?
    ensures FlagsFollow(g, m, h)
  {
    hide OtherCleansStay, OnlyPlaces, SameStage, OffLaneShrinks;
    assert forall s :: 0 <= s < |g.stops| ==> h.stops[s] == g.stops[s];
  }

  lemma MoveFlags(g: Sys, m: Move, h: Sys)
    requires Steps(g, m, h)
    ensures FlagsFollow(g, m, h)
  {
    hide *;
    StepOf(g, m, h);
    MoveKeys(g, m, h);
    match m
    case StopMove(s, a) => StopFlags(g, s, a, h);
    case _ => OtherFlags(g, m, h);
  }

  /** A hard stop call raises the flag before it signals stop, and goes no further without. */
  lemma {:induction false} HardStopRaisesIt(states: seq<Sys>, moves: seq<Move>, m: nat, n: nat, s: nat)
    requires IsRun(states, moves) && m <= n < |states| && s < |states[m].stops| && states[m].stops[s] == Called(true)
    ensures HardDue(states[n], s)
    decreases n
  {
    hide StepAt, Steps, HardAsked, StopAsked;
    if m < n {
      HardStopRaisesIt(states, moves, m, n - 1, s);
      MoveOfRun(states, moves, n - 1);
      MoveFlags(states[n - 1], moves[n - 1], states[n]);
    }
  }

  /** The engine stops only if it is asked to, and aborts tasks only if it is asked to stop hard. */
  lemma {:induction false} StopsOnlyWhenAsked(states: seq<Sys>, moves: seq<Move>, n: nat)
    requires IsRun(states, moves) && n < |states|
    ensures StopAsked(states[n]) ==> exists k :: 0 <= k < n && moves[k].StopCall?
    ensures HardAsked(states[n]) ==> exists k :: 0 <= k < n && moves[k] == StopCall(true)
  {
    hide StepAt, Steps, HardAsked, StopAsked, HardDue;
    if n > 0 {
      StopsOnlyWhenAsked(states, moves, n - 1);
      MoveOfRun(states, moves, n - 1);
      MoveFlags(states[n - 1], moves[n - 1], states[n]);
    } else {
      NobodyAsked(states[0].cfg);
    }
  }

  lemma NobodyAsked(cfg: Config)
    ensures !StopAsked(Init(cfg)) && !HardAsked(Init(cfg))
  {
  }
}
