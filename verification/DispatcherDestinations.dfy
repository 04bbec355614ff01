/** Where a release goes: onto its key's lane as long as that takes releases, and, if postponed, in its turn. */
module DispatcherDestinations {
  import opened RoutingKeys
  import opened Queues
  import opened Lanes
  import opened LaneFrame
  import opened LaneInvariant
  import opened Dispatcher
  import opened DispatcherFrame
  import opened DispatcherFence
  import opened DispatcherRegistry
  import opened DispatcherPlaces
  import opened DispatcherFifo
  import opened DispatcherTheorems
  import opened DispatcherRuns

  // ----- a release whose lane takes it -----

  /** Lane i is the key's lane, and takes releases. */
  ghost predicate Ready(g: Sys, key: Key, i: nat) {
    LaneFor(g, key) == Some(i) && i < |g.lanes| && TakesCleanup(g.lanes[i].q)
  }

  /** The release is on its way to lane i, before or after stop. */
  predicate HeadsFor(pc: CleanPc, i: nat) {
    match pc
    case Looking => true
    case GotLane(j) => j == i
    case RegLane(j) => j == i
    case AfterStop => true
    case FenceLane(j) => j == i
    case _ => false
  }

  /** The release is queued on lane i, runs there, or has run. */
  predicate Arrived(place: Place, i: nat) {
    place == InBacklog(i) || place == OnWorker(i) || place.Released?
  }

  ghost predicate Bound(g: Sys, c: nat, key: Key, i: nat) {
    && c < |g.cleans| && g.cleans[c].key == key
    && if g.cleans[c].place.Unplaced? then HeadsFor(g.cleans[c].pc, i) else Arrived(g.cleans[c].place, i)
  }

  /** While the key's lane is there and takes releases, a release neither parks nor finds room wanting. */
  lemma ReadyLaneIsFound(g: Sys, key: Key, i: nat)
    requires RegOk(g) && LanesOk(g.cfg, g.lanes) && Ready(g, key, i)
    ensures !NeedsQueue(g, key) && !MeetsGuard(g, key)
    ensures CanFind(g, key) ==> Target(g, key) == i
  {
    assert LaneInv(g.lanes[i]);
    if g.cfg.dynamic && !g.reg.stopping {
      assert !g.lanes[i].q.chClosed;
    }
  }

  ghost predicate CleanBound(g: Sys, a: CleanAct, h: Sys, c: nat, key: Key, i: nat) {
    && c < |g.cleans| && c < |h.cleans| && Bound(h, c, key, i)
    && (if g.cleans[c].place.Unplaced? && !h.cleans[c].place.Unplaced?
        then QueuesRelease(g, CleanMove(c, a), c, i) else h.cleans[c].place == g.cleans[c].place)
  }

  lemma OwnMoveBound(g: Sys, c: nat, a: CleanAct, h: Sys, key: Key, i: nat)
    requires CleanStep(g, c, a, h) && Bound(g, c, key, i) && Ready(g, key, i)
    requires Placed(g.lanes, g.sec, c, g.cleans[c])
    requires !NeedsQueue(g, key) && !MeetsGuard(g, key) && (CanFind(g, key) ==> Target(g, key) == i)
    ensures CleanBound(g, a, h, c, key, i)
  {
    hide FreshLane, CanFind, Target, NeedsQueue, MeetsGuard, Enqueue, CanEnqueue, QueuedRelease, TestFence;
  }

  /** What a worker takes was queued on its lane. */
  lemma TakenWasQueued(g: Sys, j: nat)
    requires CanWorkerTake(g, j) && LanePlaces(g.lanes[j], j, g.cleans)
    ensures var w := Take(g.lanes[j], Sig(g.ctl)).worker; w.Cleanup? ==> g.cleans[w.entry.id].place == InBacklog(j)
  {
    hide ConvertHead;
    ConvertHolding(g.lanes[j], g.ctl.fence);
  }

  /** The place of release c is what it was, or one further on the same lane. */
  ghost predicate MovesOn(g: Sys, h: Sys, c: nat) {
    && c < |g.cleans| && c < |h.cleans| && h.cleans[c].key == g.cleans[c].key
    && (g.cleans[c].place.Unplaced? <==> h.cleans[c].place.Unplaced?)
    && (g.cleans[c].place.Unplaced? ==> h.cleans[c].pc == g.cleans[c].pc)
    && forall i :: Arrived(g.cleans[c].place, i) ==> Arrived(h.cleans[c].place, i)
  }

  lemma WorkMovesOn(g: Sys, j: nat, a: WorkerAct, h: Sys, c: nat)
    requires WorkerStep(g, j, a, h) && PlacesOk(g) && c < |g.cleans|
    ensures MovesOn(g, h, c)
  {
    hide Take, FinishTask, FinishCleanup, StartBarrier, Park, LeaveBarrier, LockGate, Seal, UnlockGate, CanStep;
    hide Step, IsQuiet, ShapeOk, AllPlaced, ListOk, BegunOk;
    assert j < |g.lanes| ==> LanePlaces(g.lanes[j], j, g.cleans);
    if a.TakeNext? {
      TakenWasQueued(g, j);
    }
  }

  lemma SectionMovesOn(g: Sys, a: SectionAct, h: Sys, c: nat)
    requires SectionStep(g, a, h) && PlacesOk(g) && c < |g.cleans|
    requires g.cleans[c].place.Unplaced? || exists i :: Arrived(g.cleans[c].place, i)
    ensures MovesOn(g, h, c)
  {
    hide Enqueue, NeedsBarrier, TakesCleanup, CleanAt, HandOver, Installed, Expect, LanesPlace, AllPlaced, BegunOk;
    assert g.sec.pc.Releasing? && g.sec.pc.todo != [] ==> g.sec.pc.todo[0] in Deferred(g.sec);
  }

  lemma OthersMoveOn(g: Sys, m: Move, h: Sys, c: nat)
    requires MoveKeeps(g, m, h) && !m.WorkerMove? && !m.SectionMove? && !(m.CleanMove? && m.c == c) && c < |g.cleans|
    ensures MovesOn(g, h, c)
  {
    hide SameStop, SameStage, OffLaneShrinks;
  }

  /** What one move does to a release that is bound for lane i. */
  ghost predicate StaysBound(g: Sys, m: Move, h: Sys, c: nat, key: Key, i: nat) {
    && Bound(h, c, key, i) && c < |g.cleans|
    && (g.cleans[c].place.Unplaced? && !h.cleans[c].place.Unplaced? ==> QueuesRelease(g, m, c, i))
  }

  lemma BoundStep(g: Sys, m: Move, h: Sys, c: nat, key: Key, i: nat)
    requires Steps(g, m, h) && PlacesOk(g) && RegOk(g) && LanesOk(g.cfg, g.lanes)
    requires Bound(g, c, key, i) && Ready(g, key, i)
    ensures StaysBound(g, m, h, c, key, i)
  {
    hide Steps, Can, Do, CanSubmit, CanClean, CanWorker, CanSection, CanStop, CleanStep, WorkerStep, SectionStep;
    hide StopStep, SubmitStep, MoveKeeps, RegOk, LanesOk, QueuesRelease, Ready, ShapeOk, LanesPlace, ListOk, BegunOk;
    StepOf(g, m, h);
    MoveKeys(g, m, h);
    match m
    case CleanMove(d, a) =>
      if d == c {
        ReadyLaneIsFound(g, key, i);
        assert Placed(g.lanes, g.sec, c, g.cleans[c]);
        OwnMoveBound(g, c, a, h, key, i);
      } else {
        OthersMoveOn(g, m, h, c);
      }
    case WorkerMove(j, a) => WorkMovesOn(g, j, a, h, c);
    case SectionMove(a) => SectionMovesOn(g, a, h, c);
    case _ => OthersMoveOn(g, m, h, c);
  }

  ghost predicate ReadyBetween(states: seq<Sys>, m: nat, n: nat, key: Key, i: nat) {
    forall j :: m <= j < n && j < |states| ==> Ready(states[j], key, i)
  }

  lemma {:induction false} BoundLater(states: seq<Sys>, moves: seq<Move>, m: nat, n: nat, c: nat, key: Key, i: nat)
    returns (k: nat)
    requires IsRun(states, moves) && m <= n < |states| && ReadyBetween(states, m, n, key, i)
    requires Bound(states[m], c, key, i) && states[m].cleans[c].place.Unplaced?
    ensures Bound(states[n], c, key, i)
    ensures !states[n].cleans[c].place.Unplaced? ==> m <= k < n && QueuesRelease(states[k], moves[k], c, i)
    decreases n
  {
    hide Steps, StepAt, Ready, QueuesRelease, LanesOk, KeysPlain, PlacesOk, RegOk, SubsOk, AcceptedOk, HeadsFor;
    hide Arrived;
    k := m;
    if m < n {
      k := BoundLater(states, moves, m, n - 1, c, key, i);
      MoveOfRun(states, moves, n - 1);
      RunParts(states, moves, n - 1);
      BoundStep(states[n - 1], moves[n - 1], states[n], c, key, i);
      if states[n - 1].cleans[c].place.Unplaced? {
        k := n - 1;
      }
    }
  }

  ghost predicate SentSoFar(before: seq<Msg>, g: Sys, i: nat) {
    i < |g.lanes| && before <= g.lanes[i].sent
  }

  lemma {:induction false} SentGrows(states: seq<Sys>, moves: seq<Move>, m: nat, n: nat, i: nat, before: seq<Msg>)
    requires IsRun(states, moves) && m <= n < |states| && SentSoFar(before, states[m], i)
    ensures SentSoFar(before, states[n], i)
    decreases n
  {
    hide Steps, StepAt, CanStep, Step, StepsLane;
    if m < n {
      SentGrows(states, moves, m, n - 1, i, before);
      var s := LaneMoves(states, moves, n - 1, i);
      if s.Some? {
        StepSends(states[n - 1].lanes[i], Sig(states[n - 1].ctl), s.value);
      }
    }
  }

  lemma StepSends(l: Lane, sig: Signals, s: LaneStep)
    requires CanStep(l, sig, s)
    ensures l.sent <= Step(l, sig, s).sent
  {
    hide CanStep, Step, CanTurn, Turn, Take;
    StepIs(l, sig, s);
    match s
    case ByLoop(a) => TurnFixed(l, sig, a);
    case STake => TakeFixed(l, sig);
    case _ =>
  }

  /**
   As long as its key has a lane that takes releases, a release that was handed over goes onto that lane and nowhere
   else, before stop and after it, and begins only after the tasks sent there before it was handed over.
   */
  lemma ReleaseGoesToItsLane(states: seq<Sys>, moves: seq<Move>, m: nat, n: nat, p: nat, i: nat)
    requires IsRun(states, moves) && m < n < |states| && moves[m] == CleanCall(p) && p < |states[m].subs|
    requires ReadyBetween(states, m, n, states[m].subs[p].key, i)
    ensures var c := |states[m].cleans|;
            && c < |states[n].cleans|
            && (states[n].cleans[c].place.Unplaced? || Arrived(states[n].cleans[c].place, i))
            && (c in states[n].begun ==>
                  && i < |states[m].lanes| && i < |states[n].lanes|
                  && states[m].lanes[i].sent <= states[n].lanes[i].handled)
  {
    hide Steps, StepAt, IsRun, QueuesRelease, LanesOk, KeysPlain, RegOk, SubsOk, AcceptedOk, ShapeOk, LanesPlace;
    hide ListOk, Ready, LaneFor;
    var c, key := |states[m].cleans|, states[m].subs[p].key;
    StartOfRun(states, moves);
    MoveOfRun(states, moves, m);
    HandedOver(states[m], p, states[m + 1], i);
    var k := BoundLater(states, moves, m + 1, n, c, key, i);
    RunParts(states, moves, n);
    assert Placed(states[n].lanes, states[n].sec, c, states[n].cleans[c]);
    if c in states[n].begun {
      ReadyHasLane(states[m], key, i);
      SentGrows(states, moves, m, k, i, states[m].lanes[i].sent);
      ReleaseFollowsEarlierTasks(states, moves, k, n, c, i);
    }
  }

  lemma ReadyHasLane(g: Sys, key: Key, i: nat)
    requires Ready(g, key, i)
    ensures i < |g.lanes|
  {
  }

  lemma HandedOver(g: Sys, p: nat, h: Sys, i: nat)
    requires Steps(g, CleanCall(p), h) && p < |g.subs|
    ensures Bound(h, |g.cleans|, g.subs[p].key, i) && h.cleans[|g.cleans|].place.Unplaced?
  {
  }

  // ----- postponed releases -----

  /** The releases a section still has to run, in the order of their turns. */
  function Waitlist(sec: Section): seq<nat> {
    (if sec.pc.Releasing? || sec.pc.RunningPostponed? then sec.pc.todo else []) + sec.postponed
  }

  /** c waits, and d does not wait before it. */
  predicate Ahead(list: seq<nat>, c: nat, d: nat) {
    exists i :: 0 <= i < |list| && list[i] == c && d !in list[..i]
  }

  /** The list gains a release at its end, or its first release begins. */
  ghost predicate TurnsPass(g: Sys, h: Sys) {
    var before, after := Waitlist(g.sec), Waitlist(h.sec);
    || before <= after
    || (before != [] && before[0] in h.begun && after == before[1..])
  }

  lemma SectionTurns(g: Sys, a: SectionAct, h: Sys)
    requires SectionStep(g, a, h) && ShapeOk(g.sec)
    ensures TurnsPass(g, h) && g.begun <= h.begun
  {
    hide Enqueue, NeedsBarrier, TakesCleanup, CleanAt;
  }

  lemma OthersTurn(g: Sys, m: Move, h: Sys)
    requires MoveKeeps(g, m, h) && !m.SectionMove?
    ensures TurnsPass(g, h) && g.begun <= h.begun
  {
    hide SameStop, OtherCleansStay, OnlyPlaces, OffLaneShrinks, OthersStay;
  }

  lemma TurnsKept(g: Sys, m: Move, h: Sys)
    requires Steps(g, m, h) && ShapeOk(g.sec)
    ensures TurnsPass(g, h) && g.begun <= h.begun
  {
    hide *;
    StepOf(g, m, h);
    MoveKeys(g, m, h);
    match m
    case SectionMove(a) => SectionTurns(g, a, h);
    case _ => OthersTurn(g, m, h);
  }

  lemma AheadStep(g: Sys, h: Sys, c: nat, d: nat)
    requires TurnsPass(g, h) && Ahead(Waitlist(g.sec), c, d) && c != d && c !in h.begun
    ensures Ahead(Waitlist(h.sec), c, d) && (d in Waitlist(g.sec) ==> d in Waitlist(h.sec))
  {
    var before, after := Waitlist(g.sec), Waitlist(h.sec);
    var i :| 0 <= i < |before| && before[i] == c && d !in before[..i];
    if before <= after {
      assert after[..i] == before[..i];
      assert after[i] == c;
    } else {
      assert after[i - 1] == c && after[..i - 1] == before[1..i];
      assert before[0] in before[..i];
    }
  }

  lemma {:induction false} AheadLater(states: seq<Sys>, moves: seq<Move>, m: nat, n: nat, c: nat, d: nat)
    requires IsRun(states, moves) && m <= n < |states| && c != d && c !in states[n].begun
    requires Ahead(Waitlist(states[m].sec), c, d)
    ensures Ahead(Waitlist(states[n].sec), c, d) && (d in Waitlist(states[m].sec) ==> d in Waitlist(states[n].sec))
    decreases n
  {
    hide Steps, StepAt, TurnsPass, Ahead, Waitlist, LanesOk, KeysPlain, RegOk, SubsOk, AcceptedOk, LanesPlace;
    hide AllPlaced, ListOk, BegunOk, ShapeOk;
    if m < n {
      MoveOfRun(states, moves, n - 1);
      RunParts(states, moves, n - 1);
      TurnsKept(states[n - 1], moves[n - 1], states[n]);
      AheadLater(states, moves, m, n - 1, c, d);
      AheadStep(states[n - 1], states[n], c, d);
    }
  }

  /** The waitlist names exactly the postponed releases, and none of them has begun. */
  lemma WaitlistIs(g: Sys, c: nat)
    requires PlacesOk(g)
    ensures c in Waitlist(g.sec) <==> c < |g.cleans| && g.cleans[c].place.Postponed?
    ensures c in Waitlist(g.sec) ==> c !in g.begun
  {
    hide LanesPlace;
    assert c in Waitlist(g.sec) <==> c in Deferred(g.sec);
    if c < |g.cleans| {
      assert Placed(g.lanes, g.sec, c, g.cleans[c]);
    }
  }

  /**
   First postponed, first run: a release that a section holds back while another has not reached it begins before that
   one, if the section holds that one back too.
   */
  lemma PostponedInTurn(states: seq<Sys>, moves: seq<Move>, l: nat, m: nat, n: nat, c: nat, d: nat)
    requires IsRun(states, moves) && l <= m <= n < |states|
    requires c < |states[l].cleans| && states[l].cleans[c].place.Postponed?
    requires d < |states[l].cleans| ==> !states[l].cleans[d].place.Postponed?
    requires d < |states[m].cleans| && states[m].cleans[d].place.Postponed?
    ensures d in states[n].begun ==> c in states[n].begun
  {
    hide IsRun, Waitlist, LanesOk, KeysPlain, RegOk, SubsOk, AcceptedOk, PlacesOk;
    RunParts(states, moves, l);
    RunParts(states, moves, m);
    RunParts(states, moves, n);
    WaitlistIs(states[l], c);
    WaitlistIs(states[l], d);
    WaitlistIs(states[m], d);
    WaitlistIs(states[n], d);
    if c !in states[n].begun && d in states[n].begun {
      BegunStays(states, moves, m, n, c);
      FirstIsAhead(Waitlist(states[l].sec), c, d);
      AheadLater(states, moves, l, m, c, d);
      AheadLater(states, moves, m, n, c, d);
    }
  }

  lemma FirstIsAhead(list: seq<nat>, c: nat, d: nat)
    requires c in list && d !in list
    ensures Ahead(list, c, d)
  {
  }

  lemma {:induction false} BegunStays(states: seq<Sys>, moves: seq<Move>, m: nat, n: nat, c: nat)
    requires IsRun(states, moves) && m <= n < |states| && c !in states[n].begun
    ensures c !in states[m].begun
    decreases n
  {
    hide Steps, StepAt, TurnsPass, LanesOk, KeysPlain, RegOk, SubsOk, AcceptedOk, LanesPlace, AllPlaced, ListOk;
    hide BegunOk, ShapeOk;
    if m < n {
      MoveOfRun(states, moves, n - 1);
      RunParts(states, moves, n - 1);
      TurnsKept(states[n - 1], moves[n - 1], states[n]);
      BegunStays(states, moves, m, n - 1, c);
    }
  }
}
