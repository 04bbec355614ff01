/** What the steps of a lane leave alone, said once for every invariant that rests on it. */
module LaneFrame {
  import opened RoutingKeys
  import opened Queues
  import opened Lanes

  /** What no step of a lane changes. */
  ghost predicate SameConfig(l: Lane, m: Lane) {
    m.route == l.route && m.gated == l.gated && m.q.tracksIdle == l.q.tracksIdle && m.q.cap == l.q.cap
  }

  /** What only the gate steps of a lane change. */
  ghost predicate SameGate(l: Lane, m: Lane) {
    && SameConfig(l, m) && m.gateHeld == l.gateHeld && m.loose == l.loose
    && m.q.retired == l.q.retired && m.q.closed == l.q.closed && m.q.chClosed == l.q.chClosed && m.q.quit == l.q.quit
  }

  /** What only the worker changes. */
  ghost predicate SameWorker(l: Lane, m: Lane) {
    m.worker == l.worker && m.q.workerExited == l.q.workerExited
  }

  /** The same producers with the same keys. */
  ghost predicate SameInside(l: Lane, m: Lane) {
    m.inside.Keys == l.inside.Keys && forall p :: p in l.inside ==> m.inside[p].key == l.inside[p].key
  }

  /** The same producers where they stood, and nothing sent. */
  ghost predicate SameTasks(l: Lane, m: Lane) {
    m.inside == l.inside && m.sent == l.sent
  }

  predicate MovesProducer(s: LaneStep) {
    s.ByProducer? && (s.act.PEnter? || s.act.PLeave? || s.act.PSend? || s.act.PAbandon?)
  }

  ghost predicate Fixed(l: Lane, s: LaneStep, m: Lane) {
    && SameConfig(l, m)
    && (!s.ByGate? ==> SameGate(l, m))
    && (!MovesProducer(s) ==> SameInside(l, m))
  }

  lemma ProduceFixed(l: Lane, sig: Signals, p: nat, a: ProducerAct)
    requires CanProduce(l, sig, p, a)
    ensures SameWorker(l, Produce(l, sig, p, a)) && SameGate(l, Produce(l, sig, p, a))
    ensures a.PPass? || a.PAdmit? || a.PFindFull? ==> SameInside(l, Produce(l, sig, p, a))
  {
    match a
    case PAdmit =>
    case PSend =>
    case PAbandon =>
    case _ =>
  }

  lemma TurnFixed(l: Lane, sig: Signals, a: LoopAct)
    requires CanTurn(l, sig, a)
    ensures SameGate(l, Turn(l, sig, a)) && SameTasks(l, Turn(l, sig, a))
  {
    match a
    case LDrainOne =>
    case LFinish =>
      if l.q.backlog != [] {
        assert Finish(l) == l.(worker := Waiting(l.worker.waitFence));
      } else {
        assert Finish(l) == l.(worker := Exited, q := FinishWorker(l.q));
      }
    case _ =>
  }

  lemma ConvertFixed(l: Lane, fence: bool)
    ensures SameGate(l, ConvertHead(l, fence)) && SameTasks(l, ConvertHead(l, fence))
    ensures ConvertHead(l, fence).worker == l.worker
  {
  }

  lemma PopFixed(l: Lane)
    requires l.worker.Top? && l.q.backlog != [] && l.marks != []
    ensures SameGate(l, Pop(l)) && SameTasks(l, Pop(l))
  {
    hide WorkerFor;
  }

  lemma TakeFixed(l: Lane, sig: Signals)
    requires CanTake(l)
    ensures SameGate(l, Take(l, sig)) && SameTasks(l, Take(l, sig))
  {
    ConvertFixed(l, sig.fence);
    var c := ConvertHead(l, sig.fence);
    if c.q.backlog != [] && c.marks != [] {
      PopFixed(c);
    }
    assert SameGate(c, LookElsewhere(c)) && SameTasks(c, LookElsewhere(c));
  }

  lemma WorkFixed(l: Lane, sig: Signals, a: WorkAct)
    requires CanWork(l, a)
    ensures SameGate(l, Work(l, sig, a)) && SameTasks(l, Work(l, sig, a))
  {
  }

  lemma EnqueueFixed(l: Lane, id: nat, key: Key, fence: bool)
    ensures SameGate(l, Enqueue(l, id, key, fence)) && SameTasks(l, Enqueue(l, id, key, fence))
  {
  }

  lemma GateFixed(l: Lane, a: GateAct)
    ensures SameConfig(l, Gate(l, a)) && SameTasks(l, Gate(l, a))
  {
  }

  lemma TokenFixed(l: Lane)
    requires CanPutToken(l)
    ensures SameGate(l, PutToken(l)) && SameTasks(l, PutToken(l))
  {
  }

  lemma StepFixed(l: Lane, sig: Signals, s: LaneStep)
    requires CanStep(l, sig, s)
    ensures Fixed(l, s, Step(l, sig, s))
  {
    hide CanStep, Step, CanProduce, Produce, CanTurn, Turn, CanWork, Work, Take, Enqueue, PutToken, Gate;
    StepIs(l, sig, s);
    match s
    case ByProducer(p, a) => ProduceFixed(l, sig, p, a);
    case ByLoop(a) => TurnFixed(l, sig, a);
    case ByWork(a) => WorkFixed(l, sig, a);
    case STake => TakeFixed(l, sig);
    case SEnqueue(id, key, fence) => EnqueueFixed(l, id, key, fence);
    case SPutToken => TokenFixed(l);
    case ByGate(a) => GateFixed(l, a);
  }

  lemma StepKeepsStages(l: Lane, sig: Signals, s: LaneStep)
    requires CanStep(l, sig, s) && !s.ByProducer?
    ensures SameTasks(l, Step(l, sig, s))
  {
    hide *;
    StepIs(l, sig, s);
    match s
    case ByLoop(a) => TurnFixed(l, sig, a);
    case ByWork(a) => WorkFixed(l, sig, a);
    case STake => TakeFixed(l, sig);
    case SEnqueue(id, key, fence) => EnqueueFixed(l, id, key, fence);
    case SPutToken => TokenFixed(l);
    case ByGate(a) => GateFixed(l, a);
  }

  /** A producer's step leaves the other producers where they stand. */
  ghost predicate OthersStand(l: Lane, m: Lane, p: nat) {
    forall q :: q in l.inside && q != p ==> q in m.inside && m.inside[q] == l.inside[q]
  }

  lemma ProduceStands(l: Lane, sig: Signals, p: nat, a: ProducerAct)
    requires CanProduce(l, sig, p, a)
    ensures OthersStand(l, Produce(l, sig, p, a), p)
  {
  }
}
