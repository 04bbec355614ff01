/** What the lane protocol promises, over single steps and over whole runs of one lane. */
module LaneTheorems {
  import opened RoutingKeys
  import opened Tickets
  import opened Queues
  import opened Lanes
  import opened LaneFrame
  import opened LaneInvariant

  // ----- runs -----

  ghost predicate StepAt(states: seq<Lane>, sigs: seq<Signals>, steps: seq<LaneStep>, i: nat) {
    && i < |steps| && i < |sigs| && i + 1 < |states|
    && CanStep(states[i], sigs[i], steps[i]) && states[i + 1] == Step(states[i], sigs[i], steps[i])
  }

  /** states[i+1] follows from states[i] by steps[i], taken while the engine's channels read sigs[i]. */
  ghost predicate IsRun(states: seq<Lane>, sigs: seq<Signals>, steps: seq<LaneStep>) {
    && |states| == |steps| + 1 && |sigs| == |steps|
    && forall i :: 0 <= i < |steps| ==> StepAt(states, sigs, steps, i)
  }

  lemma {:induction false} RunKeepsInv(states: seq<Lane>, sigs: seq<Signals>, steps: seq<LaneStep>, n: nat)
    requires IsRun(states, sigs, steps) && n < |states| && LaneInv(states[0])
    ensures LaneInv(states[n])
  {
    hide CanStep, Step, LaneInv;
    if n > 0 {
      RunKeepsInv(states, sigs, steps, n - 1);
      assert StepAt(states, sigs, steps, n - 1);
      StepKeeps(states[n - 1], sigs[n - 1], steps[n - 1]);
    }
  }

  lemma Extend(states: seq<Lane>, sigs: seq<Signals>, steps: seq<LaneStep>, sig: Signals, s: LaneStep)
    returns (states': seq<Lane>, sigs': seq<Signals>, steps': seq<LaneStep>)
    requires IsRun(states, sigs, steps) && CanStep(states[|steps|], sig, s)
    ensures IsRun(states', sigs', steps') && states'[0] == states[0]
    ensures states' == states + [Step(states[|steps|], sig, s)] && sigs' == sigs + [sig] && steps' == steps + [s]
    ensures states'[|steps'|] == Step(states[|steps|], sig, s)
  {
    hide CanStep, Step;
    states', sigs', steps' := states + [Step(states[|steps|], sig, s)], sigs + [sig], steps + [s];
    forall i | 0 <= i < |steps'| ensures StepAt(states', sigs', steps', i) {
      assert i < |steps| ==> StepAt(states, sigs, steps, i);
    }
  }

  // ----- backlog order -----

  /** The head is popped only after every task sent before it was queued has been handled. */
  lemma HeadFollowsItsMark(l: Lane)
    requires LaneInv(l) && HeadReady(l.q)
    ensures l.marks != [] && l.marks[0] <= |l.handled| && l.sent[..l.marks[0]] == l.handled[..l.marks[0]]
  {
    var e := l.q.backlog[0];
    assert EntryOk(e, l.marks[0], l.tickets);
    TallyTotal(l.tickets, e.cutoff);
  }

  predicate Names(e: Entry, id: nat, key: Key) {
    e.id == id && e.key == key
  }

  predicate Queued(l: Lane, id: nat, key: Key) {
    exists i :: 0 <= i < |l.q.backlog| && Names(l.q.backlog[i], id, key)
  }

  /** The entry, while queued, stands behind the tasks of `before`; once it is gone they are all handled. */
  ghost predicate Behind(l: Lane, id: nat, key: Key, before: seq<Msg>) {
    && before <= l.sent
    && |l.marks| == |l.q.backlog|
    && (forall i :: 0 <= i < |l.q.backlog| && Names(l.q.backlog[i], id, key) ==> |before| <= l.marks[i])
    && (!Queued(l, id, key) ==> before <= l.handled)
  }

  lemma BehindPop(l: Lane, id: nat, key: Key, before: seq<Msg>)
    requires LaneInv(l) && l.worker.Top? && HeadReady(l.q) && Behind(l, id, key, before)
    ensures Behind(Pop(l), id, key, before)
  {
    HeadFollowsItsMark(l);
    var m := Pop(l);
    assert forall i :: 0 <= i < |m.q.backlog| ==> m.q.backlog[i] == l.q.backlog[i + 1] && m.marks[i] == l.marks[i + 1];
    if Queued(l, id, key) && !Names(l.q.backlog[0], id, key) {
      var i :| 0 <= i < |l.q.backlog| && Names(l.q.backlog[i], id, key);
      assert Names(m.q.backlog[i - 1], id, key);
    } else if Names(l.q.backlog[0], id, key) {
      assert before == l.sent[..|before|] == l.handled[..|before|];
    }
  }

  lemma BehindConvert(l: Lane, id: nat, key: Key, before: seq<Msg>, fenceClosed: bool)
    requires LaneInv(l) && Behind(l, id, key, before)
    ensures Behind(ConvertHead(l, fenceClosed), id, key, before)
  {
    var c := ConvertHead(l, fenceClosed);
    assert forall i :: 0 <= i < |c.q.backlog| ==>
             c.q.backlog[i].id == l.q.backlog[i].id && c.q.backlog[i].key == l.q.backlog[i].key;
    assert Queued(l, id, key) ==> Queued(c, id, key);
  }

  /** Steps that leave ids and marks alone and only extend the histories. */
  lemma BehindFrame(l: Lane, m: Lane, id: nat, key: Key, before: seq<Msg>)
    requires Behind(l, id, key, before)
    requires l.sent <= m.sent && l.handled <= m.handled && m.marks == l.marks && |m.q.backlog| == |l.q.backlog|
    requires forall i :: 0 <= i < |m.q.backlog| ==>
               m.q.backlog[i].id == l.q.backlog[i].id && m.q.backlog[i].key == l.q.backlog[i].key
    ensures Behind(m, id, key, before)
  {
  }

  lemma BehindEnqueue(l: Lane, other: nat, otherKey: Key, fence: bool, id: nat, key: Key, before: seq<Msg>)
    requires LaneInv(l) && Behind(l, id, key, before)
    ensures Behind(Enqueue(l, other, otherKey, fence), id, key, before)
  {
    var m := Enqueue(l, other, otherKey, fence);
    assert forall i :: 0 <= i < |l.q.backlog| ==> m.q.backlog[i] == l.q.backlog[i];
    assert Queued(l, id, key) ==> Queued(m, id, key);
  }

  /** No step but an enqueue or a take changes which entries are queued, or their marks. */
  ghost predicate KeepsBacklog(l: Lane, m: Lane) {
    && l.sent <= m.sent && l.handled <= m.handled && m.marks == l.marks && |m.q.backlog| == |l.q.backlog|
    && forall i :: 0 <= i < |m.q.backlog| ==>
         m.q.backlog[i].id == l.q.backlog[i].id && m.q.backlog[i].key == l.q.backlog[i].key
         && m.q.backlog[i].fence == l.q.backlog[i].fence
  }

  lemma ProduceKeepsBacklog(l: Lane, sig: Signals, p: nat, a: ProducerAct)
    requires CanProduce(l, sig, p, a)
    ensures KeepsBacklog(l, Produce(l, sig, p, a))
  {
  }

  lemma TurnKeepsBacklog(l: Lane, sig: Signals, a: LoopAct)
    requires CanTurn(l, sig, a)
    ensures KeepsBacklog(l, Turn(l, sig, a))
  {
  }

  lemma WorkKeepsBacklog(l: Lane, sig: Signals, a: WorkAct)
    requires CanWork(l, a)
    ensures KeepsBacklog(l, Work(l, sig, a))
  {
  }

  lemma StepKeepsBacklog(l: Lane, sig: Signals, s: LaneStep)
    requires CanStep(l, sig, s) && !s.SEnqueue? && !s.STake?
    ensures KeepsBacklog(l, Step(l, sig, s))
  {
    hide CanStep, Step, CanProduce, Produce, CanTurn, Turn, CanWork, Work, Take, Enqueue, CanGate;
    StepIs(l, sig, s);
    match s
    case ByProducer(p, a) => ProduceKeepsBacklog(l, sig, p, a);
    case ByLoop(a) => TurnKeepsBacklog(l, sig, a);
    case ByWork(a) => WorkKeepsBacklog(l, sig, a);
    case SPutToken =>
    case ByGate(a) =>
  }

  lemma BehindTake(l: Lane, sig: Signals, id: nat, key: Key, before: seq<Msg>)
    requires LaneInv(l) && CanTake(l) && Behind(l, id, key, before)
    ensures Behind(Take(l, sig), id, key, before)
  {
    var c := ConvertHead(l, sig.fence);
    ConvertKeeps(l, sig.fence);
    ConvertFixed(l, sig.fence);
    BehindConvert(l, id, key, before, sig.fence);
    if HeadReady(c.q) {
      BehindPop(c, id, key, before);
    } else {
      BehindFrame(c, LookElsewhere(c), id, key, before);
    }
  }

  lemma {:induction false} BehindLater(states: seq<Lane>, sigs: seq<Signals>, steps: seq<LaneStep>, n: nat,
                                       id: nat, key: Key, before: seq<Msg>)
    requires IsRun(states, sigs, steps) && n < |states| && LaneInv(states[0]) && Behind(states[0], id, key, before)
    ensures Behind(states[n], id, key, before)
  {
    hide Behind, CanStep, LaneInv, Step;
    if n > 0 {
      BehindLater(states, sigs, steps, n - 1, id, key, before);
      RunKeepsInv(states, sigs, steps, (n - 1));
      assert StepAt(states, sigs, steps, (n - 1));
      assert Behind(Step(states[(n - 1)], sigs[(n - 1)], steps[(n - 1)]), id, key, before) by {
        hide Enqueue, Take;
        StepIs(states[(n - 1)], sigs[(n - 1)], steps[(n - 1)]);
        if steps[(n - 1)].SEnqueue? {
          BehindEnqueue(states[(n - 1)], steps[(n - 1)].id, steps[(n - 1)].key, steps[(n - 1)].fence, id, key, before);
        } else if steps[(n - 1)].STake? {
          BehindTake(states[(n - 1)], sigs[(n - 1)], id, key, before);
        } else {
          StepKeepsBacklog(states[(n - 1)], sigs[(n - 1)], steps[(n - 1)]);
          BehindFrame(states[(n - 1)], Step(states[(n - 1)], sigs[(n - 1)], steps[(n - 1)]), id, key, before);
        }
      }
    }
  }

  lemma BehindAtOnce(l: Lane, id: nat, key: Key, fence: bool)
    requires LaneInv(l) && !Queued(l, id, key)
    ensures Behind(Enqueue(l, id, key, fence), id, key, l.sent)
  {
    var m := Enqueue(l, id, key, fence);
    assert Names(m.q.backlog[|l.q.backlog|], id, key);
    assert forall i :: 0 <= i < |l.q.backlog| ==> m.q.backlog[i] == l.q.backlog[i];
  }

  /**
   However many producers give up later, a queued release or barrier leaves the backlog only after every
   task that had been sent when it was queued has been handled.
   */
  lemma BacklogOrder(states: seq<Lane>, sigs: seq<Signals>, steps: seq<LaneStep>, n: nat, id: nat, key: Key)
    requires IsRun(states, sigs, steps) && 1 <= n < |states| && LaneInv(states[0])
    requires steps[0].SEnqueue? && steps[0].id == id && steps[0].key == key && !Queued(states[0], id, key)
    ensures Behind(states[n], id, key, states[0].sent)
  {
    BehindAtOnce(states[0], id, key, steps[0].fence);
    RunKeepsInv(states, sigs, steps, 1);
    var later := states[1..];
    assert StepAt(states, sigs, steps, 0);
    forall i | 0 <= i < |steps| - 1 ensures StepAt(later, sigs[1..], steps[1..], i) {
      assert StepAt(states, sigs, steps, i + 1);
    }
    BehindLater(later, sigs[1..], steps[1..], n - 1, id, key, states[0].sent);
  }

  // ----- no stuck backlog -----

  ghost predicate NobodySending(l: Lane) {
    forall p :: p in l.inside ==> !l.inside[p].stage.Sending?
  }

  /** admitted == settled + buffered + in hand + mid-send, whatever has happened to the lane. */
  lemma AdmittedIsConserved(l: Lane)
    requires LaneInv(l)
    ensures l.q.admitted == l.q.settled + |l.q.ch| + |Cur(l.worker)| + Made(l.tickets, SendKind)
    ensures NobodySending(l) ==> Made(l.tickets, SendKind) == 0
  {
    TallyTotal(l.tickets, |l.tickets|);
    if NobodySending(l) {
      NobodyInside(l.inside, l.tickets);
    }
  }

  /** With the channel drained and no producer in mid-send, the head of the backlog is runnable. */
  lemma HeadIsRunnable(l: Lane, sig: Signals)
    requires LaneInv(l) && l.q.backlog != [] && l.q.ch == [] && Cur(l.worker) == [] && NobodySending(l)
    requires l.q.backlog[0].fence ==> sig.fence
    ensures HeadReady(ConvertHead(l, sig.fence).q)
    ensures TakeMandatory(l.q, sig.fence).1.Ready?
  {
    AdmittedIsConserved(l);
    assert EntryOk(l.q.backlog[0], l.marks[0], l.tickets);
    TallyMonotone(l.tickets, l.q.backlog[0].cutoff, |l.tickets|, GaveUpKind);
  }

  /** The steps the lane itself can take: those of its worker, and a wake token already owed. */
  predicate OwnStep(s: LaneStep) {
    match s
    case SPutToken => true
    case STake => true
    case ByLoop(_) => true
    case ByWork(a) => a != WPark
    case _ => false
  }

  /** No wake-up is lost: a worker parked on a lane whose head deserves another look can always be woken. */
  lemma NoLostWakeUp(l: Lane, sig: Signals)
    requires LaneInv(l) && !l.panicked && l.q.backlog != [] && (l.worker.Select? || l.worker.Waiting?)
    requires if l.q.backlog[0].fence then sig.fence else l.q.settled >= l.q.backlog[0].target
    ensures exists s :: OwnStep(s) && CanStep(l, sig, s)
  {
    if l.owed > 0 {
      assert CanStep(l, sig, SPutToken);
    } else if l.q.wake {
      assert CanStep(l, sig, if l.worker.Select? then ByLoop(LWakeUp) else ByLoop(LReleaseByWake));
    } else {
      assert CanStep(l, sig, if l.worker.Select? then ByLoop(LSeeFence) else ByLoop(LReleaseByFence));
    }
  }

  function PcRank(w: Worker): nat {
    match w
    case Exited => 0
    case Finishing(_) => 1
    case Top(sealed) => if sealed then 2 else 5
    case Waiting(_) => 3
    case Draining => 3
    case Select(wf) => if wf then 6 else 4
    case Settling(_) => 6
    case Task(_, mode) => if mode.Fetched? then 8 else 7
    case Cleanup(_, sealed) => if sealed then 3 else 6
    case Barrier(_, at, sealed) => (if sealed then 3 else 6) + (if at.Reached? then 1 else 0)
  }

  /** Work left on a lane that takes nothing new. */
  function WorkLeft(l: Lane): nat {
    10 * |l.q.ch| + 10 * |l.q.backlog| + 9 * l.owed + (if l.q.wake then 8 else 0) + PcRank(l.worker)
    + (if l.worker.Finishing? && l.q.backlog != [] then 3 else 0)
  }

  /** The channel is closed or quit, the submit fence is closed and the last producer is gone. */
  ghost predicate Winding(l: Lane, sig: Signals) {
    LaneInv(l) && !l.panicked && l.q.closed && sig.fence && NobodySending(l)
  }

  /** Such a lane never stops short of its worker's exit... */
  lemma WindingLaneMoves(l: Lane, sig: Signals) returns (s: LaneStep)
    requires Winding(l, sig) && !l.worker.Exited?
    ensures OwnStep(s) && CanStep(l, sig, s)
  {
    match l.worker
    case Top(_) => s := STake;
    case Select(_) =>
      s := if l.q.ch != [] then ByLoop(LReceive) else if l.q.chClosed then ByLoop(LSeeClosed) else ByLoop(LSeeQuit);
    case Task(_, mode) => s := if mode.Fetched? then ByWork(WStartTask) else ByWork(WFinishTask);
    case Settling(_) => s := ByWork(WSettle);
    case Cleanup(_, _) => s := ByWork(WFinishCleanup);
    case Barrier(_, at, _) => s := if at.Reached? then ByWork(WStartBarrier) else ByWork(WLeaveBarrier);
    case Draining => s := ByLoop(LDrainDone);
    case Finishing(_) => s := ByLoop(LFinish);
    case Waiting(wf) =>
      if l.owed > 0 {
        s := SPutToken;
      } else if l.q.wake {
        s := ByLoop(LReleaseByWake);
      } else {
        WaitingSeesFence(l);
        s := ByLoop(LReleaseByFence);
      }
  }

  /** On a sealed lane only the submit fence can still hold the worker back. */
  lemma WaitingSeesFence(l: Lane)
    requires LaneInv(l) && l.worker.Waiting? && l.q.closed && NobodySending(l) && l.owed == 0 && !l.q.wake
    ensures l.worker.waitFence
  {
    AdmittedIsConserved(l);
    assert EntryOk(l.q.backlog[0], l.marks[0], l.tickets);
    TallyMonotone(l.tickets, l.q.backlog[0].cutoff, |l.tickets|, GaveUpKind);
  }

  /** ... and every step it takes leaves less work, so it exits after at most WorkLeft steps of its own. */
  lemma WindingStepShrinks(l: Lane, sig: Signals, s: LaneStep)
    requires Winding(l, sig) && OwnStep(s) && CanStep(l, sig, s)
    ensures var m := Step(l, sig, s); Winding(m, sig) && WorkLeft(m) < WorkLeft(l)
  {
    hide CanStep, Step, LaneInv, CanTurn, Turn, CanWork, Work, Take, WorkLeft, PutToken;
    StepKeeps(l, sig, s);
    StepIs(l, sig, s);
    match s
    case STake => WindingTakeShrinks(l, sig);
    case ByLoop(a) => TurnShrinks(l, sig, a);
    case ByWork(a) => WorkShrinks(l, sig, a);
    case SPutToken => TokenShrinks(l);
  }

  lemma TokenShrinks(l: Lane)
    requires CanPutToken(l)
    ensures var m := PutToken(l);
            WorkLeft(m) < WorkLeft(l) && m.q.closed == l.q.closed && m.inside == l.inside && m.panicked == l.panicked
  {
  }

  lemma TurnShrinks(l: Lane, sig: Signals, a: LoopAct)
    requires LaneInv(l) && CanTurn(l, sig, a)
    ensures var m := Turn(l, sig, a);
            WorkLeft(m) < WorkLeft(l) && m.q.closed == l.q.closed && m.inside == l.inside && m.panicked == l.panicked
  {
  }

  lemma WorkShrinks(l: Lane, sig: Signals, a: WorkAct)
    requires CanWork(l, a) && a != WPark
    ensures var m := Work(l, sig, a);
            WorkLeft(m) < WorkLeft(l) && m.q.closed == l.q.closed && m.inside == l.inside && m.panicked == l.panicked
  {
  }

  lemma PopShrinks(l: Lane)
    requires l.worker.Top? && l.q.backlog != [] && l.marks != []
    ensures WorkLeft(Pop(l)) < WorkLeft(l)
  {
  }

  lemma WindingTakeShrinks(l: Lane, sig: Signals)
    requires Winding(l, sig) && CanTake(l)
    ensures NobodySending(Take(l, sig)) && Take(l, sig).q.closed && WorkLeft(Take(l, sig)) < WorkLeft(l)
    ensures Take(l, sig).panicked == l.panicked
  {
    var c := ConvertHead(l, sig.fence);
    assert WorkLeft(c) == WorkLeft(l);
    if HeadReady(c.q) {
      PopShrinks(c);
    } else if l.worker.sealed && l.q.backlog != [] {
      HeadIsRunnable(l, sig);
    }
  }

  /** Any run of the lane's own steps is no longer than the work it started with. */
  lemma {:induction false} WindingRunIsBounded(states: seq<Lane>, sigs: seq<Signals>, steps: seq<LaneStep>, n: nat)
    requires IsRun(states, sigs, steps) && n <= |steps|
    requires forall i :: 0 <= i < |steps| ==> OwnStep(steps[i]) && sigs[i].fence
    requires LaneInv(states[0]) && !states[0].panicked && states[0].q.closed && NobodySending(states[0])
    ensures n + WorkLeft(states[n]) <= WorkLeft(states[0])
    ensures LaneInv(states[n]) && !states[n].panicked && states[n].q.closed && NobodySending(states[n])
  {
    hide CanStep, Step, LaneInv, WorkLeft;
    if n > 0 {
      WindingRunIsBounded(states, sigs, steps, n - 1);
      assert StepAt(states, sigs, steps, n - 1);
      WindingStepShrinks(states[n - 1], sigs[n - 1], steps[n - 1]);
    }
  }

  // ----- retirement -----

  /** A retired lane holds nothing, takes nothing, and its defensive drain finds nothing. */
  lemma RetiredLaneIsEmpty(l: Lane, sig: Signals)
    requires LaneInv(l) && l.q.retired
    ensures l.q.ch == [] && l.q.backlog == [] && l.inside == map[] && !l.q.chClosed
    ensures forall p, key :: !CanEnter(l, p, key)
    ensures forall p :: !CanStep(l, sig, ByProducer(p, PSend))
    ensures forall key :: !CanEnqueue(l, key)
    ensures !CanDrainOne(l)
    ensures !l.loose ==> !Busy(l.worker)
  {
  }

  /** Retired for good: no step brings a retired lane back or gives it work. */
  lemma RetirementIsFinal(l: Lane, sig: Signals, s: LaneStep)
    requires LaneInv(l) && l.q.retired && CanStep(l, sig, s)
    ensures var m := Step(l, sig, s);
            && m.q.retired && m.loose == l.loose && m.sent == l.sent
            && (Busy(m.worker) ==> Busy(l.worker))
  {
    hide CanStep, Step, CanTurn, Turn, CanProduce, Produce, LaneInv, TakesCleanup;
    StepIs(l, sig, s);
    match s
    case ByProducer(p, a) => RetiredProduce(l, sig, p, a);
    case SEnqueue(id, key, _) => RetiredTakesNothing(l, key);
    case SPutToken =>
    case STake => RetiredTake(l, sig);
    case ByLoop(a) => RetiredTurn(l, sig, a);
    case ByWork(a) => RetiredWork(l, sig, a);
    case ByGate(a) => RetiredGate(l, a);
  }

  lemma RetiredProduce(l: Lane, sig: Signals, p: nat, a: ProducerAct)
    requires LaneInv(l) && l.q.retired
    ensures !CanProduce(l, sig, p, a)
  {
  }

  lemma RetiredTakesNothing(l: Lane, key: Key)
    requires l.q.retired
    ensures !CanEnqueue(l, key)
  {
  }

  lemma RetiredTake(l: Lane, sig: Signals)
    requires LaneInv(l) && l.q.retired && CanTake(l)
    ensures var m := Take(l, sig); m.q.retired && m.loose == l.loose && m.sent == l.sent && !Busy(m.worker)
  {
    assert ConvertHead(l, sig.fence) == l;
  }

  lemma RetiredWork(l: Lane, sig: Signals, a: WorkAct)
    requires CanWork(l, a)
    ensures var m := Work(l, sig, a); m.q.retired == l.q.retired && m.loose == l.loose && m.sent == l.sent
    ensures Busy(Work(l, sig, a).worker) ==> Busy(l.worker)
  {
    hide Work, CanWork, Busy;
    WorkFixed(l, sig, a);
    WorkBusy(l, sig, a);
  }

  lemma WorkBusy(l: Lane, sig: Signals, a: WorkAct)
    requires CanWork(l, a)
    ensures Busy(Work(l, sig, a).worker) ==> Busy(l.worker)
  {
    hide Bump;
  }

  lemma RetiredGate(l: Lane, a: GateAct)
    requires LaneInv(l) && l.q.retired && CanGate(l, a)
    ensures var m := Gate(l, a); m.q.retired && m.loose == l.loose && m.sent == l.sent && m.worker == l.worker
  {
  }

  lemma RetiredTurn(l: Lane, sig: Signals, a: LoopAct)
    requires LaneInv(l) && l.q.retired && CanTurn(l, sig, a)
    ensures var m := Turn(l, sig, a);
            m.q.retired && m.loose == l.loose && m.sent == l.sent && !Busy(m.worker)
  {
  }

  /**
   The idle check of retireIfIdle is not repeated under the backlog lock. The lane is sealed with its
   worker idle exactly when `pending` still is zero at that moment.
   */
  lemma SealedIdleExactlyWhenPendingIsZero(l: Lane)
    requires LaneInv(l) && CanSeal(l)
    ensures !Busy(Seal(l).worker) <==> l.q.pending == 0
  {
    NobodyInside(l.inside, l.tickets);
  }

  /** The idle check passed and took the gate; then a release was queued. */
  ghost predicate QueuedUnderGate(l: Lane, e: Entry) {
    && l.gateHeld && l.q.tracksIdle && l.worker == Top(false) && !l.panicked
    && l.q.backlog == [e] && |l.marks| == 1 && l.q.pending == 1
    && !e.fence && e.target == l.q.settled && !IsBarrierKey(e.key)
  }

  lemma QueueUnderGate(key: Key, id: nat) returns (states: seq<Lane>, sigs: seq<Signals>, steps: seq<LaneStep>)
    requires !IsBarrierKey(key)
    ensures IsRun(states, sigs, steps) && states[0] == NewLane(1, true, Only(key), true)
    ensures QueuedUnderGate(states[|steps|], Entry(id, key, 0, 0, false))
  {
    var sig := Signals(false, false, false);
    states, sigs, steps := [NewLane(1, true, Only(key), true)], [], [];
    states, sigs, steps := Extend(states, sigs, steps, sig, ByGate(GLock));
    states, sigs, steps := Extend(states, sigs, steps, sig, SEnqueue(id, key, false));
  }

  lemma TakeUnderGate(l: Lane, e: Entry, sig: Signals)
    requires QueuedUnderGate(l, e)
    ensures CanStep(l, sig, STake) && Step(l, sig, STake) == Pop(l)
    ensures CanStep(Pop(l), sig, ByGate(GSeal)) && Pop(l).worker == Cleanup(e, false) && Pop(l).q.pending == 1
  {
  }

  /** A release queued and taken between the idle check and the seal is still running on the retired lane. */
  lemma RetiredLaneMayStillRun(key: Key, id: nat)
    returns (states: seq<Lane>, sigs: seq<Signals>, steps: seq<LaneStep>)
    requires !IsBarrierKey(key)
    ensures IsRun(states, sigs, steps) && states[0] == NewLane(1, true, Only(key), true)
    ensures var end := states[|steps|]; end.q.retired && end.loose && end.worker.Cleanup? && end.worker.entry.id == id
  {
    var sig := Signals(false, false, false);
    states, sigs, steps := QueueUnderGate(key, id);
    TakeUnderGate(states[|steps|], Entry(id, key, 0, 0, false), sig);
    states, sigs, steps := Extend(states, sigs, steps, sig, STake);
    states, sigs, steps := Extend(states, sigs, steps, sig, ByGate(GSeal));
  }

  // ----- channel safety -----

  /** A lane panics exactly on a send after its channel was closed. */
  lemma PanicIsSendAfterClose(l: Lane, sig: Signals, s: LaneStep)
    requires LaneInv(l) && CanStep(l, sig, s)
    ensures Step(l, sig, s).panicked <==> s.ByProducer? && s.act.PSend? && l.q.chClosed
  {
    hide CanStep, Step, CanTurn, Turn, CanProduce, Produce, CanWork, Work, CanTake, Take, CanGate, Gate, LaneInv;
    StepIs(l, sig, s);
    match s
    case ByProducer(p, a) => ProducePanics(l, sig, p, a);
    case STake => TakeIsCalm(l, sig);
    case ByLoop(a) => TurnIsCalm(l, sig, a);
    case ByWork(a) => WorkIsCalm(l, sig, a);
    case ByGate(a) => GateIsCalm(l, a);
    case SEnqueue(_, _, _) =>
    case SPutToken =>
  }

  lemma ProducePanics(l: Lane, sig: Signals, p: nat, a: ProducerAct)
    requires CanProduce(l, sig, p, a) && !l.panicked
    ensures Produce(l, sig, p, a).panicked <==> a.PSend? && l.q.chClosed
  {
    hide FenceLetsPass, UnmarkSent, AdmitTask;
  }

  lemma TakeIsCalm(l: Lane, sig: Signals)
    requires CanTake(l)
    ensures Take(l, sig).panicked == l.panicked
  {
  }

  lemma TurnIsCalm(l: Lane, sig: Signals, a: LoopAct)
    requires CanTurn(l, sig, a)
    ensures Turn(l, sig, a).panicked == l.panicked
  {
    hide Bump, FinishWorker;
  }

  lemma WorkIsCalm(l: Lane, sig: Signals, a: WorkAct)
    requires CanWork(l, a)
    ensures Work(l, sig, a).panicked == l.panicked
  {
    hide Bump;
  }

  lemma GateIsCalm(l: Lane, a: GateAct)
    ensures Gate(l, a).panicked == l.panicked
  {
    hide MarkRetired, CloseChannel;
  }

  /** On a Dynamic lane the gate alone rules that out, whatever the submit fence does. */
  lemma GatedLaneNeverPanics(l: Lane, sig: Signals, s: LaneStep)
    requires LaneInv(l) && l.gated && CanStep(l, sig, s)
    ensures !Step(l, sig, s).panicked
  {
    hide CanStep, Step;
    StepIs(l, sig, s);
    PanicIsSendAfterClose(l, sig, s);
  }

  // ----- the overtaking fence -----

  /** waitForMandatoryCleanup holds a producer exactly while its own key has a release queued ahead of it. */
  lemma PassesExactlyWhen(l: Lane, sig: Signals, p: nat)
    requires At(l, p, AtFence)
    ensures var key := l.inside[p].key;
            CanPass(l, sig, p) <==>
              || (forall i :: 0 <= i < |l.q.backlog| ==> l.q.backlog[i].key != key)
              || (sig.stopped
                  && exists i :: 0 <= i < |l.q.backlog| && l.q.backlog[i].key == key && l.q.backlog[i].fence
                                 && forall j :: 0 <= j < i ==> l.q.backlog[j].key != key)
  {
  }

  /** Release `id` of `key` is queued, waits for no submit fence, and no release of the key ahead of it does. */
  ghost predicate Guards(backlog: seq<Entry>, id: nat, key: Key) {
    exists i :: 0 <= i < |backlog| && backlog[i].id == id && backlog[i].key == key
                && forall j :: 0 <= j <= i && backlog[j].key == key ==> !backlog[j].fence
  }

  predicate BeforeFence(l: Lane, p: nat, key: Key) {
    p in l.inside ==> l.inside[p] == Inside(key, AtFence)
  }

  /** Producer p of `key` has not got past the fence. */
  ghost predicate Held(l: Lane, p: nat, key: Key) {
    && BeforeFence(l, p, key)
    && (forall i :: 0 <= i < |l.sent| ==> l.sent[i].task != p)
  }

  lemma GuardedCannotPass(l: Lane, sig: Signals, p: nat, id: nat, key: Key)
    requires Guards(l.q.backlog, id, key) && BeforeFence(l, p, key)
    ensures !CanPass(l, sig, p)
  {
  }

  lemma GuardsConvert(l: Lane, fenceClosed: bool, id: nat, key: Key)
    requires Guards(l.q.backlog, id, key)
    ensures Guards(ConvertHead(l, fenceClosed).q.backlog, id, key)
    ensures ConvertHead(l, fenceClosed).worker == l.worker
  {
    var i :| 0 <= i < |l.q.backlog| && l.q.backlog[i].id == id && l.q.backlog[i].key == key
             && forall j :: 0 <= j <= i && l.q.backlog[j].key == key ==> !l.q.backlog[j].fence;
    var b := ConvertHead(l, fenceClosed).q.backlog;
    assert b[i].id == id && b[i].key == key;
    assert forall j :: 0 <= j <= i ==> b[j].key == l.q.backlog[j].key && (b[j].fence ==> l.q.backlog[j].fence);
  }

  lemma HeldProduce(l: Lane, sig: Signals, q: nat, a: ProducerAct, p: nat, key: Key)
    requires CanProduce(l, sig, q, a) && Held(l, p, key) && !CanPass(l, sig, p)
    requires q == p && a.PEnter? ==> a.key == key
    ensures Held(Produce(l, sig, q, a), p, key)
  {
  }

  /** What the lane looks at to say that p is held. */
  lemma HeldFrame(l: Lane, m: Lane, p: nat, key: Key)
    requires Held(l, p, key) && m.inside == l.inside && m.sent == l.sent
    ensures Held(m, p, key)
  {
  }

  lemma HeldStep(l: Lane, sig: Signals, s: LaneStep, p: nat, key: Key)
    requires CanStep(l, sig, s) && Held(l, p, key) && !CanPass(l, sig, p)
    requires s.ByProducer? && s.p == p && s.act.PEnter? ==> s.act.key == key
    ensures Held(Step(l, sig, s), p, key)
  {
    hide CanStep, Step, CanProduce, Produce, CanPass, Held;
    StepIs(l, sig, s);
    match s
    case ByProducer(q, a) => HeldProduce(l, sig, q, a, p, key);
    case _ =>
      StepKeepsStages(l, sig, s);
      HeldFrame(l, Step(l, sig, s), p, key);
  }

  lemma GuardsKept(before: seq<Entry>, after: seq<Entry>, id: nat, key: Key)
    requires Guards(before, id, key) && |before| <= |after|
    requires forall i :: 0 <= i < |before| ==>
               after[i].id == before[i].id && after[i].key == before[i].key && after[i].fence == before[i].fence
    ensures Guards(after, id, key)
  {
  }

  /** One step: either the release still guards its key, or it is the one the worker has just begun to run. */
  lemma FenceStep(l: Lane, sig: Signals, s: LaneStep, id: nat, key: Key)
    requires LaneInv(l) && CanStep(l, sig, s) && !IsBarrierKey(key)
    requires Guards(l.q.backlog, id, key)
    ensures var m := Step(l, sig, s);
            Guards(m.q.backlog, id, key) || (m.worker.Cleanup? && m.worker.entry.id == id && m.worker.entry.key == key)
  {
    hide CanStep, Step, LaneInv, Guards, Take, Enqueue;
    StepIs(l, sig, s);
    if s.STake? {
      FenceTake(l, sig, id, key);
    } else if s.SEnqueue? {
      EnqueueAppends(l, s.id, s.key, s.fence);
      GuardsKept(l.q.backlog, Enqueue(l, s.id, s.key, s.fence).q.backlog, id, key);
    } else {
      StepKeepsBacklog(l, sig, s);
      GuardsKept(l.q.backlog, Step(l, sig, s).q.backlog, id, key);
    }
  }

  lemma EnqueueAppends(l: Lane, id: nat, key: Key, fence: bool)
    ensures l.q.backlog <= Enqueue(l, id, key, fence).q.backlog
  {
  }

  lemma FencePop(l: Lane, id: nat, key: Key)
    requires |l.marks| == |l.q.backlog| && l.worker.Top? && HeadReady(l.q) && !IsBarrierKey(key)
    requires Guards(l.q.backlog, id, key)
    ensures var m := Pop(l);
            Guards(m.q.backlog, id, key) || (m.worker.Cleanup? && m.worker.entry.id == id && m.worker.entry.key == key)
  {
  }

  lemma FenceTake(l: Lane, sig: Signals, id: nat, key: Key)
    requires LaneInv(l) && CanTake(l) && Guards(l.q.backlog, id, key) && !IsBarrierKey(key)
    ensures var m := Take(l, sig);
            Guards(m.q.backlog, id, key) || (m.worker.Cleanup? && m.worker.entry.id == id && m.worker.entry.key == key)
  {
    GuardsConvert(l, sig.fence, id, key);
    ConvertKeeps(l, sig.fence);
    var c := ConvertHead(l, sig.fence);
    if HeadReady(c.q) {
      FencePop(c, id, key);
    }
  }

  /**
   A producer that comes to a lane after a release of its key was queued there sends nothing while that
   release is queued, and when the release leaves the queue the worker is running it.
   */
  lemma {:induction false} NoOvertaking(states: seq<Lane>, sigs: seq<Signals>, steps: seq<LaneStep>, n: nat,
                                        p: nat, id: nat, key: Key)
    requires IsRun(states, sigs, steps) && n < |states| && LaneInv(states[0]) && !IsBarrierKey(key)
    requires Guards(states[0].q.backlog, id, key) && Held(states[0], p, key)
    requires forall i :: 0 <= i < |steps| && steps[i].ByProducer? && steps[i].p == p && steps[i].act.PEnter? ==>
               steps[i].act.key == key
    requires forall i :: 0 <= i < n ==> Guards(states[i].q.backlog, id, key)
    ensures Held(states[n], p, key)
    ensures Guards(states[n].q.backlog, id, key)
            || (states[n].worker.Cleanup? && states[n].worker.entry.id == id && states[n].worker.entry.key == key)
  {
    hide CanStep, Step, LaneInv, Guards;
    if n > 0 {
      NoOvertaking(states, sigs, steps, n - 1, p, id, key);
      RunKeepsInv(states, sigs, steps, n - 1);
      assert StepAt(states, sigs, steps, n - 1);
      GuardedCannotPass(states[n - 1], sigs[n - 1], p, id, key);
      HeldStep(states[n - 1], sigs[n - 1], steps[n - 1], p, key);
      FenceStep(states[n - 1], sigs[n - 1], steps[n - 1], id, key);
    }
  }

  /** A post-stop release of the key at the head, an ordinary one behind it, and producer p just arrived. */
  ghost predicate BehindFenceEntry(l: Lane, p: nat, key: Key, post: nat, own: nat) {
    && !l.panicked && !l.gateHeld && !l.q.chClosed && l.q.ch == [] && l.q.cap == 1 && l.sent == [] && l.tickets == []
    && l.q.backlog == [Entry(post, key, 0, 0, true), Entry(own, key, 0, 0, false)]
    && l.inside == map[p := Inside(key, AtFence)] && l.q.admitted == 0
  }

  lemma QueueBehindFenceEntry(key: Key, p: nat, post: nat, own: nat)
    returns (states: seq<Lane>, sigs: seq<Signals>, steps: seq<LaneStep>)
    requires !IsBarrierKey(key)
    ensures IsRun(states, sigs, steps) && states[0] == NewLane(1, true, Only(key), true) && |steps| == 3
    ensures steps[1] == SEnqueue(own, key, false) && steps[2] == ByProducer(p, PEnter(key))
    ensures BehindFenceEntry(states[3], p, key, post, own)
  {
    var sig := Signals(true, false, false);
    states, sigs, steps := [NewLane(1, true, Only(key), true)], [], [];
    states, sigs, steps := Extend(states, sigs, steps, sig, SEnqueue(post, key, true));
    states, sigs, steps := Extend(states, sigs, steps, sig, SEnqueue(own, key, false));
    states, sigs, steps := Extend(states, sigs, steps, sig, ByProducer(p, PEnter(key)));
  }

  lemma PassFenceEntry(l: Lane, p: nat, key: Key, post: nat, own: nat)
    requires BehindFenceEntry(l, p, key, post, own)
    ensures var sig := Signals(true, false, false);
            && CanStep(l, sig, ByProducer(p, PPass))
            && CanStep(Pass(l, p), sig, ByProducer(p, PAdmit))
            && CanStep(Admit(Pass(l, p), p), sig, ByProducer(p, PSend))
            && Send(Admit(Pass(l, p), p), p).sent == [Msg(p, key)]
            && Send(Admit(Pass(l, p), p), p).q.backlog == l.q.backlog
  {
    hide BehindFenceEntry, FenceLetsPass;
    FenceEntryLetsPass(l, p, key, post, own);
    PassesAndSends(l, p, key, post, own);
  }

  lemma FenceEntryLetsPass(l: Lane, p: nat, key: Key, post: nat, own: nat)
    requires BehindFenceEntry(l, p, key, post, own)
    ensures p in l.inside && l.inside[p].key == key && FenceLetsPass(l.q.backlog, key, true)
  {
    assert l.q.backlog[0].key == key;
    assert FirstFor(l.q.backlog, key) == Some(l.q.backlog[0]);
  }

  lemma PassesAndSends(l: Lane, p: nat, key: Key, post: nat, own: nat)
    requires BehindFenceEntry(l, p, key, post, own) && p in l.inside && FenceLetsPass(l.q.backlog, key, true)
    ensures var sig := Signals(true, false, false);
            && CanStep(l, sig, ByProducer(p, PPass))
            && CanStep(Pass(l, p), sig, ByProducer(p, PAdmit))
            && CanStep(Admit(Pass(l, p), p), sig, ByProducer(p, PSend))
            && Send(Admit(Pass(l, p), p), p).sent == [Msg(p, key)]
            && Send(Admit(Pass(l, p), p), p).q.backlog == l.q.backlog
  {
    hide FenceLetsPass, Step, CanTurn, CanWork, CanGate;
  }

  /**
   Why Guards looks at the entries ahead: a producer that comes after release `own` of its key was queued has
   its task sent while `own` still waits, because a post-stop release of the key stands first.
   */
  lemma FenceEntryAheadLetsOvertake(key: Key, p: nat, post: nat, own: nat)
    returns (states: seq<Lane>, sigs: seq<Signals>, steps: seq<LaneStep>)
    requires !IsBarrierKey(key)
    ensures IsRun(states, sigs, steps) && states[0] == NewLane(1, true, Only(key), true) && |steps| == 6
    ensures steps[1] == SEnqueue(own, key, false) && steps[2] == ByProducer(p, PEnter(key))
    ensures states[6].sent == [Msg(p, key)] && |states[6].q.backlog| == 2
    ensures states[6].q.backlog[1] == Entry(own, key, 0, 0, false)
  {
    var sig := Signals(true, false, false);
    states, sigs, steps := QueueBehindFenceEntry(key, p, post, own);
    var l := states[3];
    PassFenceEntry(l, p, key, post, own);
    states, sigs, steps :=
      ExtendThrice(states, sigs, steps, sig, ByProducer(p, PPass), ByProducer(p, PAdmit), ByProducer(p, PSend));
  }

  lemma ExtendThrice(states: seq<Lane>, sigs: seq<Signals>, steps: seq<LaneStep>, sig: Signals, a: LaneStep,
                     b: LaneStep, c: LaneStep)
    returns (states': seq<Lane>, sigs': seq<Signals>, steps': seq<LaneStep>)
    requires IsRun(states, sigs, steps) && CanStep(states[|steps|], sig, a)
    requires CanStep(Step(states[|steps|], sig, a), sig, b)
    requires CanStep(Step(Step(states[|steps|], sig, a), sig, b), sig, c)
    ensures IsRun(states', sigs', steps') && states'[0] == states[0] && steps' == steps + [a, b, c]
    ensures states'[|steps'|] == Step(Step(Step(states[|steps|], sig, a), sig, b), sig, c)
  {
    states', sigs', steps' := Extend(states, sigs, steps, sig, a);
    states', sigs', steps' := Extend(states', sigs', steps', sig, b);
    states', sigs', steps' := Extend(states', sigs', steps', sig, c);
  }
}
