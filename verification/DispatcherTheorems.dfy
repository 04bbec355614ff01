/** What the dispatcher promises in every state that any interleaving can reach. */
module DispatcherTheorems {
  import opened Sequences
  import opened RoutingKeys
  import Tickets
  import opened Queues
  import opened Lanes
  import opened LaneInvariant
  import LaneTheorems
  import opened Dispatcher
  import opened DispatcherFrame
  import opened DispatcherFence
  import opened DispatcherRegistry
  import opened DispatcherStop
  import opened DispatcherPlaces
  import opened DispatcherSection
  import opened DispatcherFifo
  import opened DispatcherHandoff

  ghost predicate Inv(g: Sys) {
    && LanesOk(g.cfg, g.lanes) && KeysPlain(g.subs, g.cleans)
    && CtlOk(g.ctl, g.subs, g.cleans) && SubsOk(g.lanes, g.subs)
    && RegOk(g) && LifeOk(g) && StopOk(g) && PlacesOk(g) && SecOk(g)
    && LogOk(g) && AcceptedOk(g.accepted, g.subs) && AbortOk(g.lanes, g.finished, g.ctl.hard)
    && PanicOk(g.lanes, g.ctl) && HandOk(g.subs, g.cleans)
  }

  ghost predicate PanicOk(lanes: seq<Lane>, ctl: Ctl) {
    forall i :: 0 <= i < |lanes| && lanes[i].panicked ==> ctl.loose
  }

  predicate IsSend(lm: LaneMove) {
    lm.OneLane? && lm.s.ByProducer? && lm.s.act.PSend?
  }

  /** Whoever sends is still registered, so a channel closed under it was closed too early. */
  lemma PanicKept(g: Sys, m: Move, h: Sys)
    requires Steps(g, m, h) && PanicOk(g.lanes, g.ctl) && LanesOk(g.cfg, g.lanes) && CtlOk(g.ctl, g.subs, g.cleans)
    requires RegOk(g)
    ensures PanicOk(h.lanes, h.ctl)
  {
    hide CanStep, LaneInv, Step;
    LanesAfter(g, m, h);
    LatchesHold(g, m, h);
    if Creates(m) {
      FreshIsCalm(g, CreatedKey(g, m));
    } else if LaneOf(g, m).OneLane? {
      var i, s := LaneOf(g, m).i, LaneOf(g, m).s;
      assert Step(g.lanes[i], Sig(g.ctl), s).panicked ==> IsSend(OneLane(0, s)) && g.lanes[i].q.chClosed by {
        LaneTheorems.PanicIsSendAfterClose(g.lanes[i], Sig(g.ctl), s);
      }
      if Step(g.lanes[i], Sig(g.ctl), s).panicked {
        FenceWasClosed(g, i);
        SendsOnly(g, m, h);
      }
    }
  }

  lemma FreshIsCalm(g: Sys, key: Key)
    ensures !FreshLane(g, key).panicked
  {
  }

  lemma FenceWasClosed(g: Sys, i: nat)
    requires RegOk(g) && i < |g.lanes| && g.lanes[i].q.chClosed
    ensures g.ctl.fence
  {
  }

  lemma SendsOnly(g: Sys, m: Move, h: Sys)
    requires Steps(g, m, h) && IsSend(LaneOf(g, m)) && CtlOk(g.ctl, g.subs, g.cleans) && g.ctl.fence
    ensures h.ctl.loose
  {
    StepOf(g, m, h);
    assert m.SubmitMove? by {
      hide CanClean, CanSection, CanStep, CanStop, CanSubmit, Do, Step;
    }
    match m
    case SubmitMove(p, a) =>
      assert SubmitsIn(g.subs) > 0 by {
        SubmitsInUpdate(g.subs, p, g.subs[p]);
      }
  }

  lemma InitLanes(cfg: Config)
    requires GoodConfig(cfg)
    ensures LanesOk(cfg, Init(cfg).lanes)
    ensures forall i :: 0 <= i < |Init(cfg).lanes| ==>
              !cfg.dynamic && Init(cfg).lanes[i] == NewLane(cfg.cap, false, Shard(i, cfg.shardOf), false)
  {
    if !cfg.dynamic {
      forall i | 0 <= i < cfg.shards ensures LaneInv(Init(cfg).lanes[i]) {
        NewLaneInv(cfg.cap, false, Shard(i, cfg.shardOf), false);
      }
    }
  }

  lemma InitControl(cfg: Config)
    requires GoodConfig(cfg)
    ensures var g := Init(cfg);
            CtlOk(g.ctl, g.subs, g.cleans) && SubsOk(g.lanes, g.subs) && RegOk(g) && LifeOk(g) && StopOk(g)
  {
    InitLanes(cfg);
  }

  lemma InitInv(cfg: Config)
    requires GoodConfig(cfg)
    ensures Inv(Init(cfg))
  {
    InitLanes(cfg);
    InitControl(cfg);
    InitLog(cfg);
  }

  lemma InitLog(cfg: Config)
    requires GoodConfig(cfg)
    ensures LogOk(Init(cfg))
  {
    forall k ensures Fifo(Init(cfg), k) == [] {
    }
  }

  lemma InvKept(g: Sys, m: Move, h: Sys)
    requires Inv(g) && Steps(g, m, h)
    ensures Inv(h)
  {
    LanesKept(g, m, h);
    KeysPlainKept(g, m, h);
    CtlKept(g, m, h);
    SubsKept(g, m, h);
    RegKept(g, m, h);
    LifeKept(g, m, h);
    StopKept(g, m, h);
    PlacesKept(g, m, h);
    SecKept(g, m, h);
    LogKept(g, m, h);
    AcceptedKept(g, m, h);
    AbortKept(g, m, h);
    PanicKept(g, m, h);
    HandKept(g, m, h);
  }

  ghost predicate StepAt(states: seq<Sys>, moves: seq<Move>, i: nat) {
    i < |moves| && i + 1 < |states| && Steps(states[i], moves[i], states[i + 1])
  }

  /** A stretch of a run: each move is enabled in its state and leads to the next one. */
  ghost predicate Stretch(states: seq<Sys>, moves: seq<Move>) {
    |states| == |moves| + 1 && forall i :: 0 <= i < |moves| ==> StepAt(states, moves, i)
  }

  /** A run of the dispatcher: any interleaving of enabled moves from the initial state. */
  ghost predicate IsRun(states: seq<Sys>, moves: seq<Move>) {
    Stretch(states, moves) && GoodConfig(states[0].cfg) && states[0] == Init(states[0].cfg)
  }

  ghost predicate Reachable(g: Sys) {
    exists states: seq<Sys>, moves: seq<Move> :: IsRun(states, moves) && g == states[|moves|]
  }

  /** Some stretch of moves leads from g to h. */
  ghost predicate Leads(g: Sys, h: Sys) {
    exists states: seq<Sys>, moves: seq<Move> :: Stretch(states, moves) && g == states[0] && h == states[|moves|]
  }

  lemma MoveOfRun(states: seq<Sys>, moves: seq<Move>, n: nat)
    requires IsRun(states, moves) && n < |moves|
    ensures n + 1 < |states| && Steps(states[n], moves[n], states[n + 1])
  {
    hide Steps, Init, GoodConfig;
    assert StepAt(states, moves, n);
  }

  lemma StartOfRun(states: seq<Sys>, moves: seq<Move>)
    requires IsRun(states, moves)
    ensures |states| == |moves| + 1 && GoodConfig(states[0].cfg) && states[0] == Init(states[0].cfg)
  {
    hide StepAt, Init, GoodConfig;
  }

  lemma {:induction false} RunInv(states: seq<Sys>, moves: seq<Move>, n: nat)
    requires IsRun(states, moves) && n < |states|
    ensures Inv(states[n]) && states[n].cfg == states[0].cfg && GoodConfig(states[n].cfg)
  {
    hide *;
    StartOfRun(states, moves);
    if n == 0 {
      InitInv(states[0].cfg);
    } else {
      RunInv(states, moves, n - 1);
      MoveOfRun(states, moves, n - 1);
      InvKept(states[n - 1], moves[n - 1], states[n]);
      ConfigStays(states[n - 1], moves[n - 1], states[n]);
    }
  }

  lemma ConfigStays(g: Sys, m: Move, h: Sys)
    requires Steps(g, m, h)
    ensures h.cfg == g.cfg
  {
    hide Steps, Can, Do, Moved, FreshLane;
    LanesAfter(g, m, h);
  }

  /** Some run leads to g. */
  lemma RunTo(g: Sys) returns (states: seq<Sys>, moves: seq<Move>)
    requires Reachable(g)
    ensures IsRun(states, moves) && |states| == |moves| + 1 && g == states[|moves|]
  {
    hide StepAt, Init, GoodConfig;
    states, moves :| IsRun(states, moves) && g == states[|moves|];
  }

  lemma ReachableInv(g: Sys)
    requires Reachable(g)
    ensures Inv(g) && GoodConfig(g.cfg)
  {
    hide *;
    var states, moves := RunTo(g);
    RunInv(states, moves, |moves|);
  }

  /** A closing call has one handoff of its own, once it has failed; and that has returned before the call is over. */
  lemma ReachableHands(g: Sys)
    requires Reachable(g)
    ensures HandOk(g.subs, g.cleans)
  {
    hide Reachable, LanesOk, KeysPlain, CtlOk, SubsOk, RegOk, LifeOk, StopOk, PlacesOk, SecOk, LogOk, AcceptedOk;
    hide AbortOk;
    hide PanicOk, HandOk;
    ReachableInv(g);
  }

  // ----- the exclusive section -----

  /** A worker is executing a task, or a handle release. */
  predicate Executing(l: Lane) {
    l.worker.Task? || l.worker.Cleanup?
  }

  /**
   While the section's function runs, every worker is stopped at the section's barrier, or has the barrier
   ahead of anything else, or belongs to a retired lane; and no release runs off its lane.
   */
  lemma ExclusiveSafety(g: Sys)
    requires Reachable(g) && g.sec.pc.FnRunning?
    ensures forall i :: 0 <= i < |g.lanes| ==>
              AtBarrier(g.lanes[i], g.sec.id) || BarrierFirst(g.lanes[i], g.sec.id) || g.lanes[i].q.retired
    ensures forall i :: 0 <= i < |g.lanes| && Executing(g.lanes[i]) ==> g.lanes[i].worker.Cleanup? && g.lanes[i].loose
    ensures forall c :: 0 <= c < |g.cleans| ==> !g.cleans[c].place.OnCaller? && !g.cleans[c].place.OnSection?
  {
    hide Reachable;
    ReachableInv(g);
    forall i | 0 <= i < |g.lanes|
      ensures AtBarrier(g.lanes[i], g.sec.id) || BarrierFirst(g.lanes[i], g.sec.id) || g.lanes[i].q.retired
      ensures Executing(g.lanes[i]) ==> g.lanes[i].worker.Cleanup? && g.lanes[i].loose
    {
      assert LaneSec(g.lanes[i], i, g.sec, g.ctl.stopped);
      assert LaneInv(g.lanes[i]);
    }
    NothingOffLane(g);
  }

  lemma NothingOffLane(g: Sys)
    requires RegOk(g) && LifeOk(g) && StopOk(g) && PlacesOk(g) && SecOk(g) && g.sec.pc.FnRunning?
    ensures forall c :: 0 <= c < |g.cleans| ==> !g.cleans[c].place.OnCaller? && !g.cleans[c].place.OnSection?
  {
    forall c | 0 <= c < |g.cleans| ensures !g.cleans[c].place.OnCaller? && !g.cleans[c].place.OnSection? {
      assert Placed(g.lanes, g.sec, c, g.cleans[c]);
      CleansAtNone(g.cleans, IsTracked);
      assert !IsTracked(g.cleans[c].pc);
    }
  }

  // ----- one key at a time -----

  datatype Runner = OnLaneWorker(lane: nat) | OffItsLane(cleanup: nat) | BySection(cleanup: nat)

  /** Runner r is executing something of key k. */
  ghost predicate RunsFor(g: Sys, r: Runner, k: Key) {
    match r
    case OnLaneWorker(i) =>
      && i < |g.lanes| && Executing(g.lanes[i])
      && k == if g.lanes[i].worker.Task? then g.lanes[i].worker.msg.key else g.lanes[i].worker.entry.key
    case OffItsLane(c) => c < |g.cleans| && g.cleans[c].place.OnCaller? && g.cleans[c].key == k
    case BySection(c) => c < |g.cleans| && g.cleans[c].place.OnSection? && g.cleans[c].key == k
  }

  ghost predicate NoLooseLane(lanes: seq<Lane>) {
    forall i :: 0 <= i < |lanes| ==> !lanes[i].loose
  }

  /** A worker with something of key k in hand is that of the one live lane of k. */
  lemma RunningLaneIsLive(g: Sys, i: nat, k: Key)
    requires RegOk(g) && LanesOk(g.cfg, g.lanes) && i < |g.lanes| && !g.lanes[i].loose && RunsFor(g, OnLaneWorker(i), k)
    ensures !g.lanes[i].q.retired && Serves(g.lanes[i].route, k) && LaneFor(g, k) == Some(i)
  {
  }

  /** Before stop, a release that its caller runs holds the guard of its key, which then has no live lane. */
  lemma CallerHoldsGuard(g: Sys, c: nat)
    requires RegOk(g) && LifeOk(g) && PlacesOk(g) && !g.ctl.stopped && c < |g.cleans| && g.cleans[c].place.OnCaller?
    ensures g.cfg.dynamic && g.cleans[c].key in g.reg.guards && g.reg.guards[g.cleans[c].key] == c
    ensures g.cleans[c].key !in g.reg.queues
  {
  }

  lemma SectionRunIsAlone(g: Sys, c: nat)
    requires PlacesOk(g) && SecOk(g) && !g.ctl.stopped && c < |g.cleans| && g.cleans[c].place.OnSection?
    ensures g.sec.pc.RunningPostponed? && g.sec.pc.release == c && g.sec.active
    ensures KeyIdle(g.lanes, g.reg, g.sec.base, g.cleans[c].key)
  {
    assert HeldBack(g.sec, c);
    assert IdleOrStopped(g, c);
  }

  /** While the section runs a release of key k, no worker has anything of k in hand. */
  lemma SectionExcludesLanes(g: Sys, c: nat, i: nat)
    requires Inv(g) && !g.ctl.stopped && NoLooseLane(g.lanes) && c < |g.cleans| && g.cleans[c].place.OnSection?
    ensures !RunsFor(g, OnLaneWorker(i), g.cleans[c].key)
  {
    SectionRunIsAlone(g, c);
    assert i < |g.lanes| ==> LaneSec(g.lanes[i], i, g.sec, g.ctl.stopped);
    if RunsFor(g, OnLaneWorker(i), g.cleans[c].key) {
      RunningLaneIsLive(g, i, g.cleans[c].key);
      assert false;
    }
  }

  /**
   Before stop is signalled, and as long as no lane was sealed while busy, at most one of the key's lane
   worker, its guarded off-lane release and the section's postponed release is executing.
   */
  lemma SameKeyExclusion(g: Sys, r: Runner, s: Runner, k: Key)
    requires Reachable(g) && !g.ctl.stopped && NoLooseLane(g.lanes)
    requires RunsFor(g, r, k) && RunsFor(g, s, k)
    ensures r == s
  {
    hide Reachable;
    ReachableInv(g);
    if r.OnLaneWorker? {
      RunningLaneIsLive(g, r.lane, k);
    } else if r.OffItsLane? {
      CallerHoldsGuard(g, r.cleanup);
    } else {
      SectionRunIsAlone(g, r.cleanup);
      if s.OnLaneWorker? {
        SectionExcludesLanes(g, r.cleanup, s.lane);
      }
    }
    if s.OnLaneWorker? {
      RunningLaneIsLive(g, s.lane, k);
    } else if s.OffItsLane? {
      CallerHoldsGuard(g, s.cleanup);
    } else {
      SectionRunIsAlone(g, s.cleanup);
      if r.OnLaneWorker? {
        SectionExcludesLanes(g, s.cleanup, r.lane);
      }
    }
  }

  // ----- lanes -----

  /** The counters of every lane account for everything on it, and a retired lane holds nothing. */
  lemma LaneCounters(g: Sys, i: nat)
    requires Reachable(g) && i < |g.lanes|
    ensures var l := g.lanes[i];
            && l.q.admitted == l.q.settled + |l.q.ch| + |Cur(l.worker)| + Made(l.tickets, Tickets.SendKind)
            && (l.q.tracksIdle ==>
                  l.q.pending == Made(l.tickets, Tickets.SendKind) + |l.q.ch| + |l.q.backlog|
                                 + (if Busy(l.worker) then 1 else 0))
            && (l.q.retired ==> l.q.ch == [] && l.q.backlog == [] && l.inside == map[] && (l.loose || !Busy(l.worker)))
  {
    hide Reachable;
    ReachableInv(g);
    assert LaneInv(g.lanes[i]);
    LaneTheorems.AdmittedIsConserved(g.lanes[i]);
  }

  // ----- tasks -----

  lemma {:induction false} DistinctCount(s: seq<Msg>, m: Msg)
    requires forall i, j :: 0 <= i < j < |s| ==> s[i].task != s[j].task
    ensures multiset(s)[m] <= 1
  {
    if s != [] {
      assert s == [s[0]] + s[1..];
      DistinctCount(s[1..], m);
      assert m == s[0] ==> m !in s[1..];
    }
  }

  /**
   Per key, tasks finish in the order of their successful sends: what has finished is a prefix of what was
   sent, and the rest is queued, in order, on the key's one lane, however often that lane was retired and
   created again.
   */
  lemma FifoPerKey(g: Sys, k: Key)
    requires Reachable(g)
    ensures Proj(g.accepted, k) == Proj(MsgsOf(g.finished), k) + Fifo(g, k)
    ensures Proj(MsgsOf(g.finished), k) <= Proj(g.accepted, k)
  {
    hide Reachable;
    ReachableInv(g);
  }

  /** How often a task was run or aborted. */
  function TimesFinished(g: Sys, m: Msg): nat {
    multiset(MsgsOf(g.finished))[m]
  }

  /**
   A submit call that returns an error has its task neither run nor aborted; a task is run or aborted at
   most once, and aborted only under a hard stop.
   */
  lemma TaskFate(g: Sys, p: nat)
    requires Reachable(g) && p < |g.subs|
    ensures var m := Msg(p, g.subs[p].key);
            && TimesFinished(g, m) <= (if SentPc(g.subs[p].pc) then 1 else 0)
            && (SentPc(g.subs[p].pc) ==> TimesFinished(g, m) + multiset(Fifo(g, m.key))[m] == 1)
    ensures forall j :: 0 <= j < |g.finished| && g.finished[j].aborted ==> g.ctl.hard
  {
    hide Reachable;
    ReachableInv(g);
    var m := Msg(p, g.subs[p].key);
    FifoPerKey(g, m.key);
    ProjCount(g.accepted, m);
    ProjCount(MsgsOf(g.finished), m);
    DistinctCount(g.accepted, m);
  }

  // ----- stop -----

  lemma ExitedLaneHoldsNothing(l: Lane)
    requires LaneInv(l) && l.q.workerExited
    ensures Held(l) == [] && l.q.backlog == [] && l.worker.Exited?
  {
  }

  lemma SealedFifosAreEmpty(g: Sys, k: Key)
    requires LanesOk(g.cfg, g.lanes) && AllExited(g.lanes)
    ensures Fifo(g, k) == []
  {
  }

  /**
   The underlying engine is released at most once, and only when no worker, section or tracked release is
   left, over any number of timed-out and repeated stop calls. Behind a fence that did not close too early, the
   only releases still running on their callers are those that came after the seal.
   */
  lemma StopSafety(g: Sys)
    requires Reachable(g)
    ensures g.releases <= 1
    ensures g.releases > 0 ==> g.life.sealed
    ensures g.life.sealed ==>
              && AllExited(g.lanes) && g.sec.pc.NoSection? && g.life.count == 0
              && forall c :: 0 <= c < |g.cleans| ==> !g.cleans[c].pc.Tracked?
    ensures g.life.sealed && !g.ctl.loose ==>
              forall c :: 0 <= c < |g.cleans| && g.cleans[c].place.OnCaller? ==> g.cleans[c].pc.Untracked?
  {
    hide Reachable;
    ReachableInv(g);
    if g.life.sealed {
      CleansAtNone(g.cleans, IsTracked);
      forall c | 0 <= c < |g.cleans| ensures !g.cleans[c].pc.Tracked? {
        assert !IsTracked(g.cleans[c].pc);
      }
      if !g.ctl.loose {
        ClosedFence(g);
        assert forall c :: 0 <= c < |g.cleans| ==> Placed(g.lanes, g.sec, c, g.cleans[c]);
      }
    }
  }

  /** After a successful stop every accepted task has been run or aborted, exactly once. */
  lemma StopSettlesEveryTask(g: Sys, p: nat)
    requires Reachable(g) && g.life.sealed && p < |g.subs| && SentPc(g.subs[p].pc)
    ensures TimesFinished(g, Msg(p, g.subs[p].key)) == 1
    ensures !g.ctl.hard ==> forall j :: 0 <= j < |g.finished| ==> !g.finished[j].aborted
  {
    hide Reachable;
    ReachableInv(g);
    TaskFate(g, p);
    SealedFifosAreEmpty(g, g.subs[p].key);
  }

  // ----- releases -----

  /** However it was placed, no release is begun twice; a release has begun exactly when its place says so. */
  lemma ReleasedAtMostOnce(g: Sys, c: nat)
    requires Reachable(g) && c < |g.cleans|
    ensures multiset(g.begun)[c] <= 1
    ensures c in g.begun <==> HasBegun(g.cleans[c].place)
    ensures g.cleans[c].pc.Returned? ==> !g.cleans[c].place.Unplaced? && !g.cleans[c].place.OnCaller?
  {
    hide Reachable;
    ReachableInv(g);
    NoDupCount(g.begun, c);
    assert Placed(g.lanes, g.sec, c, g.cleans[c]);
  }

  /** A successful stop leaves no release queued, postponed or running on a worker or in a section. */
  lemma StopReleasesEveryHandle(g: Sys, c: nat)
    requires Reachable(g) && g.life.sealed && c < |g.cleans|
    ensures g.cleans[c].place.Unplaced? || g.cleans[c].place.OnCaller? || g.cleans[c].place.Released?
    ensures g.cleans[c].pc.Returned? ==> g.cleans[c].place.Released? && multiset(g.begun)[c] == 1
  {
    hide Reachable;
    ReachableInv(g);
    ReleasedAtMostOnce(g, c);
    assert Placed(g.lanes, g.sec, c, g.cleans[c]);
    forall i | 0 <= i < |g.lanes| ensures g.lanes[i].q.backlog == [] && g.lanes[i].worker.Exited? {
      assert LaneInv(g.lanes[i]);
      ExitedLaneHoldsNothing(g.lanes[i]);
    }
  }

  // ----- the submit fence -----

  /** A closed fence means that nobody is registered any more, unless it closed over a registered caller. */
  lemma ClosedFence(g: Sys)
    requires Reachable(g) && g.ctl.fence
    ensures g.ctl.stopped
    ensures !g.ctl.loose ==> g.ctl.inFlight == 0
    ensures !g.ctl.loose ==> forall p :: 0 <= p < |g.subs| ==> !Counts(g.subs[p].pc)
    ensures !g.ctl.loose ==> forall c :: 0 <= c < |g.cleans| ==> !g.cleans[c].pc.Guarding?
    ensures forall key, closing :: CanNewSubmit(g, key) ==> NewSubmit(g, key, closing).ctl == g.ctl
  {
    hide Reachable;
    ReachableInv(g);
    if !g.ctl.loose {
      NobodyCounted(g.subs);
      CleansAtNone(g.cleans, CleanCounts);
      forall c | 0 <= c < |g.cleans| ensures !g.cleans[c].pc.Guarding? {
        assert !CleanCounts(g.cleans[c].pc);
      }
    }
  }

  lemma {:induction false} NobodyCounted(subs: seq<Submit>)
    requires SubmitsIn(subs) == 0
    ensures forall p :: 0 <= p < |subs| ==> !Counts(subs[p].pc)
  {
    if subs != [] {
      NobodyCounted(subs[..|subs| - 1]);
    }
  }

  /** A send on a closed channel happens only in a Sharded engine whose fence closed over a registered caller. */
  lemma ChannelSafety(g: Sys, i: nat)
    requires Reachable(g) && i < |g.lanes|
    ensures g.lanes[i].panicked ==> !g.cfg.dynamic && g.ctl.loose
  {
    hide Reachable;
    ReachableInv(g);
    assert LaneInv(g.lanes[i]) && LaneFits(g.cfg, g.lanes[i], i);
  }
}
