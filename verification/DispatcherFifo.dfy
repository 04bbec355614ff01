/** The dispatcher refines a plain map from routing key to FIFO, and every accepted task meets one fate. */
module DispatcherFifo {
  import opened RoutingKeys
  import opened Queues
  import opened Lanes
  import opened LaneFrame
  import opened LaneInvariant
  import opened Dispatcher
  import opened DispatcherFrame
  import opened DispatcherFence
  import opened DispatcherRegistry
  import opened DispatcherStop
  import opened DispatcherSection

  // ----- messages of one key -----

  function Proj(s: seq<Msg>, k: Key): seq<Msg> {
    if s == [] then []
    else (if s[0].key == k then [s[0]] else []) + Proj(s[1..], k)
  }

  lemma {:induction false} ProjConcat(a: seq<Msg>, b: seq<Msg>, k: Key)
    ensures Proj(a + b, k) == Proj(a, k) + Proj(b, k)
  {
    if a == [] {
      assert a + b == b;
    } else {
      assert (a + b)[1..] == a[1..] + b;
      ProjConcat(a[1..], b, k);
    }
  }

  lemma ProjAppends(a: seq<Msg>, m: Msg, k: Key)
    ensures Proj(a + [m], k) == Proj(a, k) + (if m.key == k then [m] else [])
  {
    ProjConcat(a, [m], k);
  }

  lemma {:induction false} ProjCount(s: seq<Msg>, m: Msg)
    ensures multiset(Proj(s, m.key))[m] == multiset(s)[m]
  {
    if s != [] {
      assert s == [s[0]] + s[1..];
      ProjCount(s[1..], m);
    }
  }

  function MsgsOf(f: seq<Outcome>): seq<Msg> {
    seq(|f|, i requires 0 <= i < |f| => f[i].msg)
  }

  lemma {:induction false} OutcomesCount(finished: seq<Outcome>, m: Msg)
    ensures multiset(MsgsOf(finished))[m]
            == multiset(finished)[Outcome(m, false)] + multiset(finished)[Outcome(m, true)]
  {
    if finished != [] {
      var n := |finished| - 1;
      OutcomesCount(finished[..n], m);
      assert finished == finished[..n] + [finished[n]];
      assert MsgsOf(finished) == MsgsOf(finished[..n]) + [finished[n].msg];
    }
  }

  // ----- the abstract queue of a key -----

  /** What a lane has accepted and not yet finished, oldest first. */
  function Held(l: Lane): seq<Msg> {
    (if l.worker.Task? then [l.worker.msg] else []) + l.q.ch
  }

  function LaneFor(g: Sys, k: Key): Option<nat> {
    if g.cfg.dynamic then if k in g.reg.queues then Some(g.reg.queues[k]) else None
    else if g.cfg.shardOf(k) < |g.lanes| then Some(g.cfg.shardOf(k)) else None
  }

  /** The FIFO of a key: nothing when the key has no live lane. */
  function Fifo(g: Sys, k: Key): seq<Msg> {
    match LaneFor(g, k)
    case Some(i) => if i < |g.lanes| then Proj(Held(g.lanes[i]), k) else []
    case None => []
  }

  /** One step of the map from keys to FIFOs. */
  datatype FifoStep = Stutter | Accept(msg: Msg) | Complete(outcome: Outcome)

  predicate CanAccept(g: Sys, p: nat) {
    p < |g.subs| && g.subs[p].pc.InLane? && g.subs[p].pc.lane < |g.lanes| && !g.lanes[g.subs[p].pc.lane].q.chClosed
  }

  predicate HasTask(g: Sys, i: nat) {
    i < |g.lanes| && g.lanes[i].worker.Task?
  }

  function TaskOutcome(g: Sys, i: nat): Outcome
    requires HasTask(g, i)
  {
    Outcome(g.lanes[i].worker.msg, g.lanes[i].worker.mode.Aborting?)
  }

  function Label(g: Sys, m: Move): FifoStep {
    match m
    case SubmitMove(p, SendLane) => if CanAccept(g, p) then Accept(Msg(p, g.subs[p].key)) else Stutter
    case WorkerMove(i, CompleteTask) => if HasTask(g, i) then Complete(TaskOutcome(g, i)) else Stutter
    case _ => Stutter
  }

  /** The abstract step: append to one FIFO, take the head of one FIFO, or nothing. */
  ghost predicate Simulates(g: Sys, h: Sys, s: FifoStep) {
    match s
    case Stutter =>
      && h.accepted == g.accepted && h.finished == g.finished
      && forall k :: Fifo(h, k) == Fifo(g, k)
    case Accept(m) =>
      && h.accepted == g.accepted + [m] && h.finished == g.finished
      && forall k :: Fifo(h, k) == if k == m.key then Fifo(g, k) + [m] else Fifo(g, k)
    case Complete(o) =>
      && h.accepted == g.accepted && h.finished == g.finished + [o]
      && forall k :: Fifo(g, k) == if k == o.msg.key then [o.msg] + Fifo(h, k) else Fifo(h, k)
  }

  // ----- what a lane step does to the held messages -----

  predicate Silent(s: LaneStep) {
    !(s.ByProducer? && s.act.PSend?) && s != ByWork(WFinishTask) && s != ByLoop(LDrainOne)
  }

  lemma TurnHeld(l: Lane, sig: Signals, a: LoopAct)
    requires LaneInv(l) && CanTurn(l, sig, a)
    ensures a != LDrainOne && Held(Turn(l, sig, a)) == Held(l)
  {
  }

  lemma ProduceHeld(l: Lane, sig: Signals, p: nat, a: ProducerAct)
    requires CanProduce(l, sig, p, a) && (a.PSend? ==> !l.q.chClosed)
    ensures Held(Produce(l, sig, p, a)) == if a.PSend? then Held(l) + [Msg(p, l.inside[p].key)] else Held(l)
  {
  }

  lemma WorkHeld(l: Lane, sig: Signals, a: WorkAct)
    requires CanWork(l, a)
    ensures if a.WFinishTask? then Held(l) == [l.worker.msg] + Held(Work(l, sig, a))
            else Held(Work(l, sig, a)) == Held(l)
  {
  }

  lemma SilentHeld(l: Lane, sig: Signals, s: LaneStep)
    requires LaneInv(l) && CanStep(l, sig, s) && Silent(s)
    ensures Held(Step(l, sig, s)) == Held(l)
  {
    StepIs(l, sig, s);
    match s
    case ByProducer(p, a) => ProduceHeld(l, sig, p, a);
    case ByLoop(a) => TurnHeld(l, sig, a);
    case ByWork(a) => WorkHeld(l, sig, a);
    case STake =>
    case SEnqueue(_, _, _) =>
    case SPutToken =>
    case ByGate(a) =>
      assert Held(Gate(l, a)) == Held(l);
  }

  /** The same map of live lanes, each of which holds what it held. */
  lemma SameFifos(g: Sys, h: Sys)
    requires h.cfg == g.cfg && |h.lanes| == |g.lanes| && h.reg.queues == g.reg.queues
    requires forall i :: 0 <= i < |g.lanes| ==> Held(h.lanes[i]) == Held(g.lanes[i])
    ensures forall k :: Fifo(h, k) == Fifo(g, k)
  {
  }

  predicate SilentLane(lm: LaneMove) {
    lm.OneLane? ==> Silent(lm.s)
  }

  lemma QuietSim(g: Sys, m: Move, h: Sys)
    requires Steps(g, m, h) && !Visible(m) && LanesOk(g.cfg, g.lanes)
    ensures Simulates(g, h, Stutter)
  {
    hide Do, LaneFits, LaneInv;
    assert SilentLane(LaneOf(g, m)) by {
      hide CanClean, CanSection, CanStop, CanSubmit;
      if m.WorkerMove? && m.worker.Quiet? {
        DrainKeeps(g.lanes[m.i]);
      }
    }
    MoveKeys(g, m, h);
    LanesAfter(g, m, h);
    forall i | 0 <= i < |g.lanes| ensures Held(h.lanes[i]) == Held(g.lanes[i]) {
      if LaneOf(g, m).OneLane? && LaneOf(g, m).i == i {
        SilentHeld(g.lanes[i], Sig(g.ctl), LaneOf(g, m).s);
      }
    }
    SameFifos(g, h);
  }

  /** A new lane starts empty, for a key that had none. */
  lemma CreateSim(g: Sys, key: Key)
    requires NeedsQueue(g, key) && RegOk(g) && LanesOk(g.cfg, g.lanes)
    ensures Simulates(g, CreateQueue(g, key), Stutter)
  {
  }

  /** Retirement removes a lane that holds nothing. */
  lemma SealSim(g: Sys, i: nat)
    requires CanRetireSeal(g, i) && RegOk(g) && LanesOk(g.cfg, g.lanes)
    ensures Simulates(g, RetireSeal(g, i), Stutter)
  {
    var h := RetireSeal(g, i);
    assert LaneInv(g.lanes[i]);
    assert Held(g.lanes[i]) == [];
    SealDrops(g, h, i);
  }

  lemma SealDrops(g: Sys, h: Sys, i: nat)
    requires g.cfg.dynamic && RoutesOk(g.cfg, g.lanes, g.reg) && i < |g.lanes| && g.lanes[i].route.Only?
    requires g.lanes[i].route.key in g.reg.queues && g.reg.queues[g.lanes[i].route.key] == i && Held(g.lanes[i]) == []
    requires h.cfg == g.cfg && |h.lanes| == |g.lanes| && h.reg.queues == g.reg.queues - {g.lanes[i].route.key}
    requires forall j :: 0 <= j < |g.lanes| && j != i ==> h.lanes[j] == g.lanes[j]
    ensures forall k :: Fifo(h, k) == Fifo(g, k)
  {
  }

  /** A lane that is not retired is the lane of every key it serves. */
  lemma ServingLane(g: Sys, i: nat, k: Key)
    requires RegOk(g) && LanesOk(g.cfg, g.lanes) && i < |g.lanes| && Serves(g.lanes[i].route, k)
    requires g.cfg.dynamic ==> !g.lanes[i].q.retired
    ensures LaneFor(g, k) == Some(i)
  {
  }

  lemma HeldAppends(g: Sys, h: Sys, i: nat, m: Msg)
    requires h.cfg == g.cfg && |h.lanes| == |g.lanes| && h.reg.queues == g.reg.queues && LaneFor(g, m.key) == Some(i)
    requires i < |g.lanes|
    requires forall j :: 0 <= j < |g.lanes| && j != i ==> h.lanes[j] == g.lanes[j]
    requires Held(h.lanes[i]) == Held(g.lanes[i]) + [m]
    ensures forall k :: Fifo(h, k) == if k == m.key then Fifo(g, k) + [m] else Fifo(g, k)
  {
    forall k ensures Fifo(h, k) == if k == m.key then Fifo(g, k) + [m] else Fifo(g, k) {
      ProjAppends(Held(g.lanes[i]), m, k);
    }
  }

  /** A send appends to the FIFO of its key, and to no other. */
  lemma SendSim(g: Sys, p: nat)
    requires CanSubmitSend(g, p) && CanAccept(g, p) && RegOk(g) && LanesOk(g.cfg, g.lanes) && SubsOk(g.lanes, g.subs)
    ensures Simulates(g, SubmitSend(g, p), Accept(Msg(p, g.subs[p].key)))
  {
    var h := SubmitSend(g, p);
    var i := g.subs[p].pc.lane;
    var l, m := g.lanes[i], Msg(p, g.subs[p].key);
    assert LaneInv(l) && LaneFits(g.cfg, l, i);
    assert InsideOk(l, i, g.subs);
    assert l.inside[p].key == m.key;
    ProduceHeld(l, Sig(g.ctl), p, PSend);
    ServingLane(g, i, m.key);
    HeldAppends(g, h, i, m);
  }

  /** Finishing a task takes the head of the FIFO of its key. */
  lemma FinishSim(g: Sys, i: nat)
    requires CanWorkerFinishTask(g, i) && HasTask(g, i) && RegOk(g) && LanesOk(g.cfg, g.lanes)
    ensures Simulates(g, WorkerFinishTask(g, i), Complete(TaskOutcome(g, i)))
  {
    var h := WorkerFinishTask(g, i);
    var l := g.lanes[i];
    var m := l.worker.msg;
    assert LaneInv(l);
    WorkHeld(l, Sig(g.ctl), WFinishTask);
    ServingLane(g, i, m.key);
    HeldShortens(g, h, i, m);
  }

  lemma HeldShortens(g: Sys, h: Sys, i: nat, m: Msg)
    requires h.cfg == g.cfg && |h.lanes| == |g.lanes| && h.reg.queues == g.reg.queues && LaneFor(g, m.key) == Some(i)
    requires i < |g.lanes|
    requires forall j :: 0 <= j < |g.lanes| && j != i ==> h.lanes[j] == g.lanes[j]
    requires Held(g.lanes[i]) == [m] + Held(h.lanes[i])
    ensures forall k :: Fifo(g, k) == if k == m.key then [m] + Fifo(h, k) else Fifo(h, k)
  {
  }

  lemma WorkMove(g: Sys, i: nat, a: WorkerAct, h: Sys)
    requires WorkerStep(g, i, a, h) && (a.SealIdle? || a.CompleteTask?) && RegOk(g) && LanesOk(g.cfg, g.lanes)
    ensures Simulates(g, h, Label(g, WorkerMove(i, a)))
  {
    hide RegOk, LanesOk, Simulates, Step, CanStep, Take, Seal, FinishTask;
    if a.SealIdle? {
      SealSim(g, i);
    } else {
      FinishSim(g, i);
    }
  }

  lemma StutterLabel(g: Sys, m: Move)
    requires !Visible(m) || Creates(m)
    ensures Label(g, m) == Stutter
  {
  }

  lemma VisibleKinds(m: Move)
    requires Visible(m) && !Creates(m)
    ensures if m.SubmitMove? then m.submit.SendLane?
            else m.WorkerMove? && (m.worker.SealIdle? || m.worker.CompleteTask?)
  {
  }

  /** Every move of the dispatcher is one step of the map from keys to FIFOs, or none. */
  lemma RefinesFifoMap(g: Sys, m: Move, h: Sys)
    requires Steps(g, m, h) && RegOk(g) && LanesOk(g.cfg, g.lanes) && SubsOk(g.lanes, g.subs)
    ensures Simulates(g, h, Label(g, m))
  {
    StepOf(g, m, h);
    if !Visible(m) {
      StutterLabel(g, m);
      QuietSim(g, m, h);
    } else if Creates(m) {
      StutterLabel(g, m);
      assert Simulates(g, h, Stutter) by {
        hide BelowLimit, Can, Do, Fifo, FreshLane, LanesOk, NeedsQueue, RegOk, Steps;
        CreateIsCreate(g, m, h);
        CreateSim(g, CreatedKey(g, m));
        SameFifos(CreateQueue(g, CreatedKey(g, m)), h);
      }
    } else {
      VisibleKinds(m);
      match m
      case SubmitMove(p, a) =>
        if CanAccept(g, p) {
          SendSim(g, p);
        } else {
          PanicSim(g, p);
        }
      case WorkerMove(i, a) => WorkMove(g, i, a, h);
    }
  }

  lemma PanicSim(g: Sys, p: nat)
    requires CanSubmitSend(g, p) && !CanAccept(g, p)
    ensures Simulates(g, SubmitSend(g, p), Stutter)
  {
    var h := SubmitSend(g, p);
    SameFifos(g, h);
  }

  /** Per key, what has been accepted is what has finished followed by what is queued. */
  ghost predicate LogOk(g: Sys) {
    forall k :: Proj(g.accepted, k) == Proj(MsgsOf(g.finished), k) + Fifo(g, k)
  }

  lemma LogKept(g: Sys, m: Move, h: Sys)
    requires Steps(g, m, h) && LogOk(g) && RegOk(g) && LanesOk(g.cfg, g.lanes) && SubsOk(g.lanes, g.subs)
    ensures LogOk(h)
  {
    hide *;
    RefinesFifoMap(g, m, h);
    SimulatedLog(g, h, Label(g, m));
  }

  lemma SimulatedLog(g: Sys, h: Sys, s: FifoStep)
    requires LogOk(g) && Simulates(g, h, s)
    ensures LogOk(h)
  {
    hide Fifo, Proj;
    forall k ensures Proj(h.accepted, k) == Proj(MsgsOf(h.finished), k) + Fifo(h, k) {
      if s.Accept? {
        ProjAppends(g.accepted, s.msg, k);
      } else if s.Complete? {
        assert MsgsOf(h.finished) == MsgsOf(g.finished) + [s.outcome.msg];
        ProjAppends(MsgsOf(g.finished), s.outcome.msg, k);
      }
    }
  }

  // ----- fates -----

  /** Submit calls that have sent their task: they return nil. */
  predicate SentPc(pc: SubmitPc) {
    match pc
    case Ending(ok) => ok
    case Tested(ok, _) => ok
    case Done(ok) => ok
    case _ => false
  }

  /** The accepted tasks are those of the submit calls that return nil, one each. */
  ghost predicate AcceptedOk(accepted: seq<Msg>, subs: seq<Submit>) {
    && (forall i, j :: 0 <= i < j < |accepted| ==> accepted[i].task != accepted[j].task)
    && (forall i :: 0 <= i < |accepted| ==>
          && accepted[i].task < |subs| && accepted[i].key == subs[accepted[i].task].key
          && SentPc(subs[accepted[i].task].pc))
    && (forall p :: 0 <= p < |subs| && SentPc(subs[p].pc) ==> Msg(p, subs[p].key) in accepted)
  }

  predicate Hardened(w: Worker) {
    (w.Task? && w.mode.Aborting?) || (w.Barrier? && w.at.Holding?)
  }

  /** A task is aborted, and a worker held at a barrier without parking, only after a hard stop was signalled. */
  ghost predicate AbortOk(lanes: seq<Lane>, finished: seq<Outcome>, hard: bool) {
    && (forall j :: 0 <= j < |finished| && finished[j].aborted ==> hard)
    && (forall i :: 0 <= i < |lanes| && Hardened(lanes[i].worker) ==> hard)
  }

  /** A task is accepted as its call comes to return nil. */
  ghost predicate Accepts(g: Sys, h: Sys, p: nat) {
    && p < |g.subs| && p < |h.subs|
    && if SentPc(h.subs[p].pc) && !SentPc(g.subs[p].pc) then h.accepted == g.accepted + [Msg(p, g.subs[p].key)]
       else SentPc(h.subs[p].pc) == SentPc(g.subs[p].pc) && h.accepted == g.accepted
  }

  lemma SubmitSent(g: Sys, p: nat, a: SubmitAct, h: Sys)
    requires SubmitStep(g, p, a, h)
    ensures Accepts(g, h, p)
  {
    hide Enter, Leave, Abandon, CanEnter, CanLeave, CanAbandon, CanFind, Target, FreshLane, HandedOff;
  }

  lemma OthersAccept(g: Sys, m: Move, h: Sys)
    requires MoveKeeps(g, m, h) && !m.SubmitMove? && AcceptedOk(g.accepted, g.subs)
    ensures AcceptedOk(h.accepted, h.subs)
  {
    hide SameStop, SameStage, OtherCleansStay, OnlyPlaces;
  }

  lemma AcceptedKept(g: Sys, m: Move, h: Sys)
    requires Steps(g, m, h) && AcceptedOk(g.accepted, g.subs)
    ensures AcceptedOk(h.accepted, h.subs)
  {
    hide CanSubmit, DoSubmit, SameLog, SameStage, SameStop, SentPc, SubmitStep;
    StepOf(g, m, h);
    MoveKeys(g, m, h);
    match m
    case SubmitMove(p, a) =>
      SubmitSent(g, p, a, h);
      SubmitKeys(g, p, a, h);
      if h.accepted != g.accepted {
        assert h.accepted[|g.accepted|] == Msg(p, g.subs[p].key);
      }
    case _ => OthersAccept(g, m, h);
  }

  /** A worker has begun to abort its task, or to hold its lane, only under a hard stop. */
  ghost predicate AbortsAlready(l: Lane, sig: Signals, m: Lane) {
    Hardened(m.worker) ==> sig.hard || l.worker == m.worker
  }

  lemma StepAborts(l: Lane, sig: Signals, s: LaneStep)
    requires CanStep(l, sig, s)
    ensures AbortsAlready(l, sig, Step(l, sig, s))
  {
    hide CanStep, Step, CanProduce, Produce, Take;
    StepIs(l, sig, s);
    match s
    case ByProducer(p, a) => ProduceFixed(l, sig, p, a);
    case STake => TakeAborts(l, sig);
    case _ =>
  }

  lemma TakeAborts(l: Lane, sig: Signals)
    requires CanTake(l)
    ensures AbortsAlready(l, sig, Take(l, sig))
  {
    hide ConvertHead, HeadReady;
  }

  /** The log of finished tasks grows by what a worker has just finished, or not at all. */
  ghost predicate FinishesOne(g: Sys, m: Move, h: Sys) {
    || h.finished == g.finished
    || (m.WorkerMove? && m.worker.CompleteTask? && HasTask(g, m.i) && !g.lanes[m.i].worker.mode.Fetched?
        && h.finished == g.finished + [TaskOutcome(g, m.i)])
  }

  lemma FinishedGrows(g: Sys, m: Move, h: Sys)
    requires Steps(g, m, h)
    ensures FinishesOne(g, m, h)
  {
    StepOf(g, m, h);
    if m.WorkerMove? {
    } else {
      MoveKeys(g, m, h);
    }
  }

  lemma AbortKept(g: Sys, m: Move, h: Sys)
    requires Steps(g, m, h) && AbortOk(g.lanes, g.finished, g.ctl.hard) && RegOk(g)
    ensures AbortOk(h.lanes, h.finished, h.ctl.hard)
  {
    hide Steps, Can, Do, CanStep, Step, RegOk;
    LatchesHold(g, m, h);
    FinishedGrows(g, m, h);
    LanesAfter(g, m, h);
    if !Creates(m) && LaneOf(g, m).OneLane? {
      StepAborts(g.lanes[LaneOf(g, m).i], Sig(g.ctl), LaneOf(g, m).s);
    }
  }
}
