/** What every step of a lane keeps. */
module LaneInvariant {
  import opened RoutingKeys
  import opened Tickets
  import opened Queues
  import opened Lanes

  /** The task the worker has received and not yet settled. */
  function Cur(w: Worker): seq<Msg> {
    match w
    case Task(m, _) => [m]
    case Settling(m) => [m]
    case _ => []
  }

  /** Tasks are handled in the order of their sends; none is lost or duplicated. */
  ghost predicate Ordered(l: Lane) {
    l.sent == l.handled + Cur(l.worker) + l.q.ch
  }

  function Made(tickets: seq<Fate>, k: Kind): nat {
    Tally(tickets, |tickets|, k)
  }

  /** The two counters know the table only through these sums. */
  ghost predicate Counted(l: Lane) {
    && l.q.admitted == |l.tickets|
    && |l.sent| == Made(l.tickets, SentKind)
    && l.q.settled == |l.handled| + Made(l.tickets, GaveUpKind)
  }

  predicate SendingWith(inside: map<nat, Inside>, p: nat, ticket: nat) {
    p in inside && inside[p].stage.Sending? && inside[p].stage.ticket == ticket
  }

  /** The tickets in mid-send are exactly those of the producers in mid-send, one each. */
  ghost predicate Linked(inside: map<nat, Inside>, tickets: seq<Fate>) {
    && (forall p: nat, t: nat :: SendingWith(inside, p, t) ==> 0 < t <= |tickets| && tickets[t - 1] == InSend(p))
    && (forall i :: 0 <= i < |tickets| && tickets[i].InSend? ==> SendingWith(inside, tickets[i].producer, i + 1))
  }

  /**
   The settle target is the boundary plus the abandonments beyond it, and the tasks sent before the entry
   was queued are among the admissions within the boundary.
   */
  ghost predicate EntryOk(e: Entry, mark: nat, tickets: seq<Fate>) {
    && e.cutoff <= |tickets|
    && e.target == e.cutoff + Made(tickets, GaveUpKind) - Tally(tickets, e.cutoff, GaveUpKind)
    && mark <= Tally(tickets, e.cutoff, SentKind)
  }

  ghost predicate BacklogOk(backlog: seq<Entry>, marks: seq<nat>, tickets: seq<Fate>) {
    && |marks| == |backlog|
    && forall i :: 0 <= i < |backlog| ==> EntryOk(backlog[i], marks[i], tickets)
  }

  predicate Busy(w: Worker) {
    w.Task? || w.Cleanup? || w.Barrier?
  }

  /** pending counts producers in mid-send, buffered tasks, backlog entries and the work in hand. */
  ghost predicate PendingOk(l: Lane) {
    l.q.tracksIdle ==>
      l.q.pending == Made(l.tickets, SendKind) + |l.q.ch| + |l.q.backlog| + (if Busy(l.worker) then 1 else 0)
  }

  predicate Latched(w: Worker) {
    match w
    case Top(sealed) => sealed
    case Cleanup(_, sealed) => sealed
    case Barrier(_, _, sealed) => sealed
    case Finishing(_) => true
    case Waiting(_) => true
    case Exited => true
    case _ => false
  }

  ghost predicate FlagsOk(l: Lane) {
    && (l.q.quit <==> l.q.retired)
    && (l.q.closed <==> l.q.retired || l.q.chClosed)
    && !(l.q.retired && l.q.chClosed)
    && (l.q.retired ==> l.gated && l.q.tracksIdle && l.q.ch == [] && l.q.backlog == [] && !l.gateHeld)
    && (l.gated && l.q.closed ==> l.inside == map[])
    && (l.gated ==> !l.panicked)
    && (l.gateHeld ==> l.gated && l.q.tracksIdle && l.inside == map[] && !l.q.closed && l.q.ch == [] && !l.worker.Task?)
    && (Latched(l.worker) ==> l.q.closed && l.q.ch == [])
    && (l.worker.Draining? ==> l.q.retired)
    && (l.worker.Exited? <==> l.q.workerExited)
    && (l.q.workerExited ==> l.q.backlog == [])
    && (l.loose ==> l.q.retired)
    && (l.q.retired ==> !l.worker.Task?)
    && (l.q.retired && !l.loose ==> !Busy(l.worker))
    && (l.worker.Waiting? ==> l.q.backlog != [])
  }

  predicate WorkerServes(l: Lane) {
    match l.worker
    case Task(m, _) => Serves(l.route, m.key) && !IsBarrierKey(m.key)
    case Settling(m) => Serves(l.route, m.key) && !IsBarrierKey(m.key)
    case Cleanup(e, _) => Serves(l.route, e.key) && !IsBarrierKey(e.key)
    case _ => true
  }

  /** Everything on a lane was routed to it. */
  ghost predicate KeysOk(l: Lane) {
    && (forall p :: p in l.inside ==> Serves(l.route, l.inside[p].key) && !IsBarrierKey(l.inside[p].key))
    && (forall i :: 0 <= i < |l.q.ch| ==> Serves(l.route, l.q.ch[i].key) && !IsBarrierKey(l.q.ch[i].key))
    && (forall i :: 0 <= i < |l.q.backlog| ==>
          if IsBarrierKey(l.q.backlog[i].key) then !l.q.backlog[i].fence else Serves(l.route, l.q.backlog[i].key))
    && WorkerServes(l)
  }

  /** A worker about to park cannot miss work: if the head is worth another look, a wake-up is on its way. */
  ghost predicate WakeOk(l: Lane) {
    l.q.backlog != [] && (l.worker.Select? || l.worker.Waiting?) ==>
      && (l.q.backlog[0].fence ==> l.worker.waitFence || l.q.wake || l.owed > 0)
      && (!l.q.backlog[0].fence && l.q.settled >= l.q.backlog[0].target ==> l.q.wake || l.owed > 0)
  }

  /** Between the worker's last look and its exit gate the backlog may only have grown. */
  ghost predicate FinishingOk(l: Lane) {
    l.worker.Finishing? && l.q.backlog != [] ==>
      && (l.q.backlog[0].fence ==> l.worker.waitFence || l.q.wake || l.owed > 0)
      && (!l.q.backlog[0].fence && l.q.settled >= l.q.backlog[0].target ==> l.q.wake || l.owed > 0)
  }

  ghost predicate LaneInv(l: Lane) {
    && Ordered(l)
    && Counted(l)
    && Linked(l.inside, l.tickets)
    && BacklogOk(l.q.backlog, l.marks, l.tickets)
    && PendingOk(l)
    && FlagsOk(l)
    && KeysOk(l)
    && WakeOk(l)
    && FinishingOk(l)
  }

  lemma NewLaneInv(cap: nat, tracksIdle: bool, route: Route, gated: bool)
    ensures LaneInv(NewLane(cap, tracksIdle, route, gated))
  {
  }

  // ----- the backlog under changes of the ticket table -----

  lemma BacklogAdmit(backlog: seq<Entry>, marks: seq<nat>, tickets: seq<Fate>, p: nat)
    requires BacklogOk(backlog, marks, tickets)
    ensures BacklogOk(backlog, marks, tickets + [InSend(p)])
  {
    TallyAppend(tickets, InSend(p), |tickets|, GaveUpKind);
    forall i | 0 <= i < |backlog| ensures EntryOk(backlog[i], marks[i], tickets + [InSend(p)]) {
      TallyAppend(tickets, InSend(p), backlog[i].cutoff, GaveUpKind);
      TallyAppend(tickets, InSend(p), backlog[i].cutoff, SentKind);
    }
  }

  lemma BacklogSend(backlog: seq<Entry>, marks: seq<nat>, tickets: seq<Fate>, t: nat)
    requires BacklogOk(backlog, marks, tickets) && t < |tickets| && tickets[t].InSend?
    ensures BacklogOk(backlog, marks, tickets[t := WasSent])
  {
    TallyUpdate(tickets, t, WasSent, |tickets|, GaveUpKind);
    forall i | 0 <= i < |backlog| ensures EntryOk(backlog[i], marks[i], tickets[t := WasSent]) {
      TallyUpdate(tickets, t, WasSent, backlog[i].cutoff, GaveUpKind);
      TallyUpdate(tickets, t, WasSent, backlog[i].cutoff, SentKind);
    }
  }

  /** Raising the targets beyond the boundary is exactly what keeps the formula for the settle target. */
  lemma BacklogAbandon(backlog: seq<Entry>, marks: seq<nat>, tickets: seq<Fate>, t: nat)
    requires BacklogOk(backlog, marks, tickets) && t < |tickets| && tickets[t].InSend?
    ensures BacklogOk(Raise(backlog, t + 1), marks, tickets[t := GaveUp])
  {
    var after := tickets[t := GaveUp];
    TallyUpdate(tickets, t, GaveUp, |tickets|, GaveUpKind);
    forall i | 0 <= i < |backlog| ensures EntryOk(Raise(backlog, t + 1)[i], marks[i], after) {
      TallyUpdate(tickets, t, GaveUp, backlog[i].cutoff, GaveUpKind);
      TallyUpdate(tickets, t, GaveUp, backlog[i].cutoff, SentKind);
    }
  }

  // ----- one lemma for each step that touches the table -----

  lemma AdmitLinks(inside: map<nat, Inside>, tickets: seq<Fate>, p: nat)
    requires Linked(inside, tickets) && p in inside && !inside[p].stage.Sending?
    ensures Linked(inside[p := inside[p].(stage := Sending(|tickets| + 1, false))], tickets + [InSend(p)])
  {
    var after := inside[p := inside[p].(stage := Sending(|tickets| + 1, false))];
    forall r: nat, t: nat | SendingWith(after, r, t)
      ensures 0 < t <= |tickets| + 1 && (tickets + [InSend(p)])[t - 1] == InSend(r)
    {
      assert r != p ==> SendingWith(inside, r, t);
    }
    forall i | 0 <= i < |tickets| && tickets[i].InSend?
      ensures SendingWith(after, tickets[i].producer, i + 1)
    {
      assert SendingWith(inside, tickets[i].producer, i + 1);
    }
  }

  lemma AdmitKeeps(l: Lane, p: nat)
    requires LaneInv(l) && !l.panicked && CanAdmit(l, p)
    ensures LaneInv(Admit(l, p))
  {
    BacklogAdmit(l.q.backlog, l.marks, l.tickets, p);
    TallyAppend(l.tickets, InSend(p), |l.tickets|, GaveUpKind);
    TallyAppend(l.tickets, InSend(p), |l.tickets|, SentKind);
    TallyAppend(l.tickets, InSend(p), |l.tickets|, SendKind);
    AdmitLinks(l.inside, l.tickets, p);
    var m := Admit(l, p);
    assert Counted(m);
    assert PendingOk(m);
    assert KeysOk(m);
  }

  lemma LeaveLinks(inside: map<nat, Inside>, tickets: seq<Fate>, p: nat, t: nat, f: Fate)
    requires Linked(inside, tickets) && SendingWith(inside, p, t) && !f.InSend?
    ensures 0 < t <= |tickets| && Linked(inside - {p}, tickets[t - 1 := f])
  {
    var after := tickets[t - 1 := f];
    forall r: nat, u: nat | SendingWith(inside - {p}, r, u)
      ensures 0 < u <= |after| && after[u - 1] == InSend(r)
    {
      assert SendingWith(inside, r, u);
    }
    forall i | 0 <= i < |after| && after[i].InSend?
      ensures SendingWith(inside - {p}, after[i].producer, i + 1)
    {
      assert SendingWith(inside, tickets[i].producer, i + 1);
    }
  }

  /** Moving a producer between stages other than mid-send, or noting that the channel was full, keeps its link. */
  lemma StageLinks(inside: map<nat, Inside>, tickets: seq<Fate>, p: nat, x: Inside)
    requires Linked(inside, tickets)
    requires if x.stage.Sending? then SendingWith(inside, p, x.stage.ticket)
             else p in inside ==> !inside[p].stage.Sending?
    ensures Linked(inside[p := x], tickets)
  {
    var after := inside[p := x];
    forall r: nat, u: nat | SendingWith(after, r, u)
      ensures 0 < u <= |tickets| && tickets[u - 1] == InSend(r)
    {
      assert SendingWith(inside, r, u);
    }
    forall i | 0 <= i < |tickets| && tickets[i].InSend?
      ensures SendingWith(after, tickets[i].producer, i + 1)
    {
      assert SendingWith(inside, tickets[i].producer, i + 1);
    }
  }

  lemma GoneLinks(inside: map<nat, Inside>, tickets: seq<Fate>, p: nat)
    requires Linked(inside, tickets) && p in inside && !inside[p].stage.Sending?
    ensures Linked(inside - {p}, tickets)
  {
    forall r: nat, u: nat | SendingWith(inside - {p}, r, u)
      ensures 0 < u <= |tickets| && tickets[u - 1] == InSend(r)
    {
      assert SendingWith(inside, r, u);
    }
    forall i | 0 <= i < |tickets| && tickets[i].InSend?
      ensures SendingWith(inside - {p}, tickets[i].producer, i + 1)
    {
      assert SendingWith(inside, tickets[i].producer, i + 1);
    }
  }

  lemma SendKeeps(l: Lane, p: nat)
    requires LaneInv(l) && !l.panicked && CanSend(l, p)
    ensures 0 < l.inside[p].stage.ticket <= |l.tickets| && LaneInv(Send(l, p))
  {
    assert SendingWith(l.inside, p, l.inside[p].stage.ticket);
    var t := l.inside[p].stage.ticket - 1;
    if !l.q.chClosed {
      BacklogSend(l.q.backlog, l.marks, l.tickets, t);
      LeaveLinks(l.inside, l.tickets, p, t + 1, WasSent);
      TallyUpdate(l.tickets, t, WasSent, |l.tickets|, GaveUpKind);
      TallyUpdate(l.tickets, t, WasSent, |l.tickets|, SentKind);
      TallyUpdate(l.tickets, t, WasSent, |l.tickets|, SendKind);
      var m := Send(l, p);
      assert m.sent == m.handled + Cur(m.worker) + m.q.ch;
      assert KeysOk(m);
      assert FlagsOk(m);
    }
  }

  /** The ticket table and what is counted from it. */
  lemma AbandonTable(l: Lane, p: nat)
    requires LaneInv(l) && CanAbandon(l, p)
    ensures 0 < l.inside[p].stage.ticket <= |l.tickets|
    ensures var m := Abandon(l, p);
            Counted(m) && Linked(m.inside, m.tickets) && BacklogOk(m.q.backlog, m.marks, m.tickets) && PendingOk(m)
  {
    assert SendingWith(l.inside, p, l.inside[p].stage.ticket);
    var t := l.inside[p].stage.ticket - 1;
    BacklogAbandon(l.q.backlog, l.marks, l.tickets, t);
    LeaveLinks(l.inside, l.tickets, p, t + 1, GaveUp);
    TallyUpdate(l.tickets, t, GaveUp, |l.tickets|, GaveUpKind);
    TallyUpdate(l.tickets, t, GaveUp, |l.tickets|, SentKind);
    TallyUpdate(l.tickets, t, GaveUp, |l.tickets|, SendKind);
  }

  lemma AbandonKeeps(l: Lane, p: nat)
    requires LaneInv(l) && !l.panicked && CanAbandon(l, p)
    ensures 0 < l.inside[p].stage.ticket <= |l.tickets| && LaneInv(Abandon(l, p))
  {
    AbandonTable(l, p);
    var m := Abandon(l, p);
    assert FlagsOk(m) && WakeOk(m);
  }

  /** A step that only moves producers keeps the invariant once the links and keys are known to hold. */
  lemma InsideKeeps(l: Lane, inside: map<nat, Inside>)
    requires LaneInv(l)
    requires Linked(inside, l.tickets)
    requires forall p :: p in inside ==> Serves(l.route, inside[p].key) && !IsBarrierKey(inside[p].key)
    requires l.gated && (l.gateHeld || l.q.closed) ==> inside == map[]
    ensures LaneInv(l.(inside := inside))
  {
  }

  lemma EnterKeeps(l: Lane, p: nat, key: Key)
    requires LaneInv(l) && CanEnter(l, p, key)
    ensures LaneInv(Enter(l, p, key))
  {
    StageLinks(l.inside, l.tickets, p, Inside(key, AtFence));
    InsideKeeps(l, l.inside[p := Inside(key, AtFence)]);
  }

  lemma PassKeeps(l: Lane, p: nat)
    requires LaneInv(l) && At(l, p, AtFence)
    ensures LaneInv(Pass(l, p))
  {
    StageLinks(l.inside, l.tickets, p, l.inside[p].(stage := Passed));
    InsideKeeps(l, l.inside[p := l.inside[p].(stage := Passed)]);
  }

  lemma LeaveKeeps(l: Lane, p: nat)
    requires LaneInv(l) && CanLeave(l, p)
    ensures LaneInv(Leave(l, p))
  {
    GoneLinks(l.inside, l.tickets, p);
    InsideKeeps(l, l.inside - {p});
  }

  lemma FindFullKeeps(l: Lane, p: nat)
    requires LaneInv(l) && CanFindFull(l, p)
    ensures LaneInv(FindFull(l, p))
  {
    var x := l.inside[p].(stage := l.inside[p].stage.(tried := true));
    StageLinks(l.inside, l.tickets, p, x);
    InsideKeeps(l, l.inside[p := x]);
  }

  lemma EnqueueKeeps(l: Lane, id: nat, key: Key, fence: bool)
    requires LaneInv(l) && CanEnqueue(l, key) && (IsBarrierKey(key) ==> !fence)
    ensures LaneInv(Enqueue(l, id, key, fence))
  {
  }

  lemma ConvertKeeps(l: Lane, fenceClosed: bool)
    requires LaneInv(l) && CanTake(l)
    ensures LaneInv(ConvertHead(l, fenceClosed))
  {
  }

  lemma PopKeeps(l: Lane)
    requires LaneInv(l) && CanTake(l) && l.q.backlog != []
    ensures l.marks != [] && LaneInv(Pop(l))
  {
  }

  lemma LookElsewhereKeeps(l: Lane)
    requires LaneInv(l) && CanTake(l) && !HeadReady(l.q)
    ensures LaneInv(LookElsewhere(l))
  {
  }

  lemma TakeKeeps(l: Lane, sig: Signals)
    requires LaneInv(l) && CanTake(l)
    ensures LaneInv(Take(l, sig))
  {
    var c := ConvertHead(l, sig.fence);
    ConvertKeeps(l, sig.fence);
    if HeadReady(c.q) {
      PopKeeps(c);
    } else {
      LookElsewhereKeeps(c);
    }
  }

  lemma ReceiveKeeps(l: Lane)
    requires LaneInv(l) && CanReceive(l)
    ensures LaneInv(Receive(l))
  {
    var m := Receive(l);
    assert m.sent == m.handled + Cur(m.worker) + m.q.ch;
  }

  lemma SettleKeeps(l: Lane)
    requires LaneInv(l)
    ensures CanSettle(l) ==> LaneInv(Settle(l))
  {
    if CanSettle(l) {
      var m := Settle(l);
      assert m.sent == m.handled + Cur(m.worker) + m.q.ch;
    }
  }

  lemma FinishTaskKeeps(l: Lane)
    requires LaneInv(l)
    ensures CanFinishTask(l) ==> LaneInv(FinishTask(l))
  {
  }

  lemma StartTaskKeeps(l: Lane, sig: Signals)
    requires LaneInv(l)
    ensures CanStartTask(l) ==> LaneInv(StartTask(l, sig))
  {
  }

  lemma DrainKeeps(l: Lane)
    requires LaneInv(l)
    ensures !CanDrainOne(l)
    ensures CanDrainDone(l) ==> LaneInv(DrainDone(l))
    ensures CanSeeQuit(l) ==> LaneInv(SeeQuit(l))
    ensures CanSeeClosed(l) ==> LaneInv(SeeClosed(l))
  {
  }

  lemma WakeKeeps(l: Lane)
    requires LaneInv(l)
    ensures CanPutToken(l) ==> LaneInv(PutToken(l))
    ensures CanWakeUp(l) ==> LaneInv(WakeUp(l))
  {
  }

  lemma ReleaseKeeps(l: Lane, sig: Signals)
    requires LaneInv(l)
    ensures CanReleaseByWake(l) ==> LaneInv(ReleaseByWake(l))
    ensures CanSeeFence(l, sig) ==> LaneInv(SeeFence(l))
    ensures CanReleaseByFence(l, sig) ==> LaneInv(ReleaseByFence(l))
  {
  }

  lemma BarrierKeeps(l: Lane)
    requires LaneInv(l)
    ensures CanStartBarrier(l) ==> forall sig :: LaneInv(StartBarrier(l, sig))
    ensures CanPark(l) ==> LaneInv(Park(l))
  {
  }

  lemma ReturnKeeps(l: Lane)
    requires LaneInv(l)
    ensures CanLeaveBarrier(l) ==> LaneInv(LeaveBarrier(l))
    ensures CanFinishCleanup(l) ==> LaneInv(FinishCleanup(l))
  {
  }

  lemma FinishKeeps(l: Lane)
    requires LaneInv(l) && CanFinish(l)
    ensures LaneInv(Finish(l))
  {
  }

  /** Nobody is inside a lane whose gate is held, so no ticket is in mid-send. */
  lemma NobodyInside(inside: map<nat, Inside>, tickets: seq<Fate>)
    requires Linked(inside, tickets) && forall p :: p in inside ==> !inside[p].stage.Sending?
    ensures Made(tickets, SendKind) == 0
  {
    forall i | 0 <= i < |tickets| ensures KindOf(tickets[i]) != SendKind {
      assert tickets[i].InSend? ==> SendingWith(inside, tickets[i].producer, i + 1);
    }
    TallyNone(tickets, |tickets|, SendKind);
  }

  lemma RetireKeeps(l: Lane)
    requires LaneInv(l)
    ensures CanLockGate(l) ==> LaneInv(LockGate(l))
    ensures CanSeal(l) ==> LaneInv(Seal(l))
    ensures CanUnlockGate(l) ==> LaneInv(UnlockGate(l))
    ensures CanClose(l) ==> LaneInv(Close(l))
  {
    if l.inside == map[] {
      NobodyInside(l.inside, l.tickets);
    }
  }

  lemma ProduceKeeps(l: Lane, sig: Signals, p: nat, a: ProducerAct)
    requires LaneInv(l) && !l.panicked && CanProduce(l, sig, p, a)
    ensures LaneInv(Produce(l, sig, p, a))
  {
    match a
    case PEnter(key) => EnterKeeps(l, p, key);
    case PPass => PassKeeps(l, p);
    case PLeave => LeaveKeeps(l, p);
    case PAdmit => AdmitKeeps(l, p);
    case PFindFull => FindFullKeeps(l, p);
    case PSend => SendKeeps(l, p);
    case PAbandon => AbandonKeeps(l, p);
  }

  lemma TurnKeeps(l: Lane, sig: Signals, a: LoopAct)
    requires LaneInv(l) && CanTurn(l, sig, a)
    ensures LaneInv(Turn(l, sig, a))
  {
    match a
    case LReceive => ReceiveKeeps(l);
    case LWakeUp => WakeKeeps(l);
    case LReleaseByWake => ReleaseKeeps(l, sig);
    case LSeeFence => ReleaseKeeps(l, sig);
    case LReleaseByFence => ReleaseKeeps(l, sig);
    case LFinish => FinishKeeps(l);
    case _ => DrainKeeps(l);
  }

  lemma WorkKeeps(l: Lane, sig: Signals, a: WorkAct)
    requires LaneInv(l) && CanWork(l, a)
    ensures LaneInv(Work(l, sig, a))
  {
    match a
    case WStartTask => StartTaskKeeps(l, sig);
    case WFinishTask => FinishTaskKeeps(l);
    case WSettle => SettleKeeps(l);
    case WFinishCleanup => ReturnKeeps(l);
    case WLeaveBarrier => ReturnKeeps(l);
    case _ => BarrierKeeps(l);
  }

  /** The invariant of a lane survives every step, whatever the rest of the engine does. */
  lemma StepKeeps(l: Lane, sig: Signals, s: LaneStep)
    requires LaneInv(l) && CanStep(l, sig, s)
    ensures LaneInv(Step(l, sig, s))
  {
    match s
    case ByProducer(p, a) => ProduceKeeps(l, sig, p, a);
    case SEnqueue(id, key, fence) => EnqueueKeeps(l, id, key, fence);
    case SPutToken => WakeKeeps(l);
    case STake => TakeKeeps(l, sig);
    case ByLoop(a) => TurnKeeps(l, sig, a);
    case ByWork(a) => WorkKeeps(l, sig, a);
    case ByGate(_) => RetireKeeps(l);
  }
}
