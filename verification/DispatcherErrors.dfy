/**
 Why a submit call may fail: over whole runs, a refused, halted, limited or cancelled call, and no other; and what
 the bounded channel has to do with it.
 */
module DispatcherErrors {
  import opened RoutingKeys
  import opened Queues
  import opened Lanes
  import opened LaneFrame
  import opened Dispatcher
  import opened DispatcherFrame
  import opened DispatcherHandoff
  import opened DispatcherTheorems

  /** Move m refuses call p as it comes: stop has been signalled. */
  predicate RefusedBy(g: Sys, m: Move, p: nat) {
    m.SubmitCall? && p == |g.subs| && g.ctl.stopped
  }

  /** Call p finds the engine stopped. */
  predicate HaltedBy(g: Sys, m: Move, p: nat) {
    m == SubmitMove(p, Halt) && (g.ctl.stopped || g.reg.stopping)
  }

  /** Call p needs a lane, and there are as many as the engine may have. */
  predicate LimitedBy(g: Sys, m: Move, p: nat) {
    && m == SubmitMove(p, Limit) && p < |g.subs|
    && g.cfg.maxQueues > 0 && |g.reg.queues| >= g.cfg.maxQueues
    && (g.subs[p].key in g.reg.queues && g.reg.queues[g.subs[p].key] < |g.lanes| ==>
          g.lanes[g.reg.queues[g.subs[p].key]].q.closed)
  }

  /** Call p, inside a lane, gives up: its context has fired, or stop was signalled. */
  predicate CancelledBy(g: Sys, m: Move, p: nat) {
    (m == SubmitMove(p, LeaveLane(false)) || m == SubmitMove(p, AbandonLane(false))) && IsInLane(g, p)
  }

  predicate FailedBy(g: Sys, m: Move, p: nat) {
    RefusedBy(g, m, p) || HaltedBy(g, m, p) || LimitedBy(g, m, p) || CancelledBy(g, m, p)
  }

  ghost predicate HasLost(g: Sys, p: nat) {
    p < |g.subs| && Lost(g.subs[p].pc)
  }

  lemma SubmitLoses(g: Sys, q: nat, a: SubmitAct, h: Sys, p: nat)
    requires SubmitStep(g, q, a, h) && HasLost(h, p)
    ensures HasLost(g, p) || FailedBy(g, SubmitMove(q, a), p)
  {
    hide Enter, Leave, Abandon, Send, CanEnter, CanLeave, CanGiveUp, CanFind, Target, FreshLane, HandedOff;
  }

  lemma OthersLose(g: Sys, m: Move, h: Sys, p: nat)
    requires MoveKeeps(g, m, h) && !m.SubmitMove? && !m.SubmitCall? && HasLost(h, p)
    ensures HasLost(g, p)
  {
    hide SameStop, SameStage, OtherCleansStay, OnlyPlaces, OffLaneShrinks;
  }

  lemma MoveLoses(g: Sys, m: Move, h: Sys, p: nat)
    requires Steps(g, m, h) && HasLost(h, p)
    ensures HasLost(g, p) || FailedBy(g, m, p)
  {
    hide Steps, Can, Do, CanSubmit, DoSubmit, SubmitStep, CleanStep, WorkerStep, SectionStep, StopStep, MoveKeeps;
    hide HaltedBy, LimitedBy, CancelledBy, Lost;
    StepOf(g, m, h);
    MoveKeys(g, m, h);
    match m
    case SubmitMove(q, a) => SubmitLoses(g, q, a, h, p);
    case SubmitCall(key, closing) => NewCallLoses(g, key, closing, p);
    case _ => OthersLose(g, m, h, p);
  }

  lemma NewCallLoses(g: Sys, key: Key, closing: bool, p: nat)
    requires HasLost(NewSubmit(g, key, closing), p)
    ensures HasLost(g, p) || RefusedBy(g, SubmitCall(key, closing), p)
  {
  }

  /**
   A submit call returns an error only because stop refused or halted it, the limit left no room for its lane, or it
   was cancelled; a lane that was retired under it sends it back to look for another.
   */
  lemma {:induction false} EveryErrorHasACause(states: seq<Sys>, moves: seq<Move>, n: nat, p: nat)
    requires IsRun(states, moves) && n < |states| && HasLost(states[n], p)
    ensures exists k :: 0 <= k < n && FailedBy(states[k], moves[k], p)
  {
    hide Steps, StepAt, FailedBy, HasLost;
    if n > 0 {
      MoveOfRun(states, moves, n - 1);
      MoveLoses(states[n - 1], moves[n - 1], states[n], p);
      if HasLost(states[n - 1], p) {
        EveryErrorHasACause(states, moves, n - 1, p);
      }
    } else {
      NobodyHasLost(states[0].cfg, p);
    }
  }

  lemma NobodyHasLost(cfg: Config, p: nat)
    ensures !HasLost(Init(cfg), p)
  {
  }

  // ----- giving up in mid-send -----

  /** Producer p, in mid-send, tries to send at once and finds the channel of lane i full. */
  predicate FindsFull(g: Sys, m: Move, i: nat, p: nat) {
    && LaneOf(g, m) == OneLane(i, ByProducer(p, PFindFull))
    && i < |g.lanes| && |g.lanes[i].q.ch| >= g.lanes[i].q.cap
  }

  predicate HasTried(l: Lane, p: nat) {
    InSending(l, p) && l.inside[p].stage.tried
  }

  lemma StepTries(l: Lane, sig: Signals, s: LaneStep, p: nat)
    requires CanStep(l, sig, s) && HasTried(Step(l, sig, s), p)
    ensures HasTried(l, p) || (s == ByProducer(p, PFindFull) && |l.q.ch| >= l.q.cap)
  {
    hide CanStep, Step, CanTurn, Turn, CanWork, Work, Take, Enqueue, PutToken, CanGate, Gate;
    StepIs(l, sig, s);
    match s
    case ByLoop(a) => TurnFixed(l, sig, a);
    case ByWork(a) => WorkFixed(l, sig, a);
    case STake => TakeFixed(l, sig);
    case SEnqueue(id, key, fence) => EnqueueFixed(l, id, key, fence);
    case SPutToken => TokenFixed(l);
    case ByGate(a) => GateFixed(l, a);
    case _ =>
  }

  lemma MoveTries(g: Sys, m: Move, h: Sys, i: nat, p: nat)
    requires Steps(g, m, h) && i < |h.lanes| && HasTried(h.lanes[i], p)
    ensures (i < |g.lanes| && HasTried(g.lanes[i], p)) || FindsFull(g, m, i, p)
  {
    hide Steps, Can, Do, CanStep, Step, FreshLane, LaneOf, HasTried;
    LanesAfter(g, m, h);
    if Creates(m) {
      FreshIsUntried(g, CreatedKey(g, m), p);
    } else if LaneOf(g, m).OneLane? && LaneOf(g, m).i == i {
      StepTries(g.lanes[i], Sig(g.ctl), LaneOf(g, m).s, p);
    }
  }

  lemma FreshIsUntried(g: Sys, key: Key, p: nat)
    ensures !HasTried(FreshLane(g, key), p)
  {
  }

  /** From state k + 1 to state n the producer stays in that attempt to send. */
  ghost predicate StaysInSend(states: seq<Sys>, k: nat, n: nat, i: nat, p: nat) {
    forall j :: k < j <= n && j < |states| ==> i < |states[j].lanes| && HasTried(states[j].lanes[i], p)
  }

  lemma {:induction false} TriedAndFull(states: seq<Sys>, moves: seq<Move>, n: nat, i: nat, p: nat)
    requires n < |states| && i < |states[n].lanes| && HasTried(states[n].lanes[i], p) && IsRun(states, moves)
    ensures exists k :: 0 <= k < n && FindsFull(states[k], moves[k], i, p) && StaysInSend(states, k, n, i, p)
  {
    hide Steps, StepAt, FindsFull, HasTried;
    if n > 0 {
      MoveOfRun(states, moves, n - 1);
      MoveTries(states[n - 1], moves[n - 1], states[n], i, p);
      if i < |states[n - 1].lanes| && HasTried(states[n - 1].lanes[i], p) {
        TriedAndFull(states, moves, n - 1, i, p);
        var k :| 0 <= k < n - 1 && FindsFull(states[k], moves[k], i, p) && StaysInSend(states, k, n - 1, i, p);
        assert StaysInSend(states, k, n, i, p);
      } else {
        assert StaysInSend(states, n - 1, n, i, p);
      }
    } else {
      FirstIsUntried(states[0].cfg, i, p);
    }
  }

  lemma FirstIsUntried(cfg: Config, i: nat, p: nat)
    ensures i < |Init(cfg).lanes| ==> !HasTried(Init(cfg).lanes[i], p)
  {
  }

  /** A task that found room in the channel is sent: a call gives up in mid-send only after finding the channel full. */
  lemma GivesUpOnlyWhenFull(states: seq<Sys>, moves: seq<Move>, n: nat, p: nat, retry: bool)
    requires n < |moves| && moves[n] == SubmitMove(p, AbandonLane(retry)) && IsRun(states, moves)
    ensures exists k, i :: 0 <= k < n && FindsFull(states[k], moves[k], i, p) && StaysInSend(states, k, n, i, p)
  {
    hide IsRun, Steps, FindsFull, StaysInSend;
    MoveOfRun(states, moves, n);
    Abandons(states[n], p, retry, states[n + 1]);
    TriedAndFull(states, moves, n, states[n].subs[p].pc.lane, p);
  }

  lemma Abandons(g: Sys, p: nat, retry: bool, h: Sys)
    requires Steps(g, SubmitMove(p, AbandonLane(retry)), h)
    ensures p < |g.subs| && g.subs[p].pc.InLane? && g.subs[p].pc.lane < |g.lanes|
    ensures HasTried(g.lanes[g.subs[p].pc.lane], p)
  {
    hide CanClean, DoClean, CanWorker, DoWorker, CanSection, DoSection, CanStop, DoStop;
  }

  // ----- the bounded channel -----

  ghost predicate WithinBound(lanes: seq<Lane>) {
    forall i :: 0 <= i < |lanes| ==> |lanes[i].q.ch| <= lanes[i].q.cap
  }

  ghost predicate NoLonger(l: Lane, m: Lane) {
    |m.q.ch| <= |l.q.ch| && m.q.cap == l.q.cap
  }

  lemma TurnNoLonger(l: Lane, sig: Signals, a: LoopAct)
    requires CanTurn(l, sig, a)
    ensures NoLonger(l, Turn(l, sig, a))
  {
  }

  lemma TakeNoLonger(l: Lane, sig: Signals)
    requires CanTake(l)
    ensures NoLonger(l, Take(l, sig))
  {
    hide HeadReady;
  }

  lemma WorkNoLonger(l: Lane, sig: Signals, a: WorkAct)
    requires CanWork(l, a)
    ensures NoLonger(l, Work(l, sig, a))
  {
  }

  lemma ProduceWithin(l: Lane, sig: Signals, p: nat, a: ProducerAct)
    requires CanProduce(l, sig, p, a) && |l.q.ch| <= l.q.cap
    ensures |Produce(l, sig, p, a).q.ch| <= Produce(l, sig, p, a).q.cap
  {
    hide FenceLetsPass, Raise;
    match a
    case PAdmit =>
    case PSend =>
    case PAbandon =>
    case _ =>
  }

  lemma StepStaysWithin(l: Lane, sig: Signals, s: LaneStep)
    requires CanStep(l, sig, s) && |l.q.ch| <= l.q.cap
    ensures |Step(l, sig, s).q.ch| <= Step(l, sig, s).q.cap
  {
    hide CanStep, Step, CanProduce, Produce, CanTurn, Turn, CanWork, Work, Take;
    StepIs(l, sig, s);
    match s
    case ByProducer(p, a) => ProduceWithin(l, sig, p, a);
    case ByLoop(a) => TurnNoLonger(l, sig, a);
    case STake => TakeNoLonger(l, sig);
    case ByWork(a) => WorkNoLonger(l, sig, a);
    case _ =>
  }

  lemma MoveStaysWithin(g: Sys, m: Move, h: Sys)
    requires Steps(g, m, h) && WithinBound(g.lanes)
    ensures WithinBound(h.lanes)
  {
    hide Steps, Can, Do, CanStep, Step, FreshLane, LaneOf;
    LanesAfter(g, m, h);
    if Creates(m) {
      FreshIsEmpty(g, CreatedKey(g, m));
    } else if LaneOf(g, m).OneLane? {
      StepStaysWithin(g.lanes[LaneOf(g, m).i], Sig(g.ctl), LaneOf(g, m).s);
    }
  }

  lemma FreshIsEmpty(g: Sys, key: Key)
    ensures FreshLane(g, key).q.ch == []
  {
  }

  /** Over every run, no channel ever holds more than its capacity. */
  lemma {:induction false} ChannelsStayBounded(states: seq<Sys>, moves: seq<Move>, n: nat)
    requires n < |states| && IsRun(states, moves)
    ensures WithinBound(states[n].lanes)
  {
    hide Steps, StepAt, WithinBound;
    if n > 0 {
      ChannelsStayBounded(states, moves, n - 1);
      MoveOfRun(states, moves, n - 1);
      MoveStaysWithin(states[n - 1], moves[n - 1], states[n]);
    } else {
      FirstIsWithin(states[0].cfg);
    }
  }

  lemma FirstIsWithin(cfg: Config)
    ensures WithinBound(Init(cfg).lanes)
  {
  }
}
