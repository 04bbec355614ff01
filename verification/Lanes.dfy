/**
 One lane: a keyQueue, its single worker, and the producers that are inside its send path. Every function
 below is one atomic step of the engine; a predicate Can... beside it says when that step is enabled.

 Context cancellation may strike at any time, so it never appears in a guard. `owed` counts the wake tokens that
 callers are about to put, and `panicked` says that a send on a closed channel has ended the process. `loose`, `sent`
 and `handled` are history. `marks` and `tickets` stand beside the backlog and the ticket counter; steps look at their
 lengths only.
 */
module Lanes {
  import opened RoutingKeys
  import opened Tickets
  import opened Queues

  /** The stop, hard-stop and submit-fence channels of the engine, as a step observes them. */
  datatype Signals = Signals(stopped: bool, hard: bool, fence: bool)

  /** Which keys a lane serves: one key (Dynamic), or every key hashed to its shard (Sharded). */
  datatype Route = Only(key: Key) | Shard(index: nat, shardOf: Key -> nat)

  predicate Serves(route: Route, key: Key) {
    match route
    case Only(k) => key == k
    case Shard(i, shardOf) => shardOf(key) == i
  }

  datatype Stage = AtFence | Passed | Sending(ticket: nat, tried: bool)

  datatype Inside = Inside(key: Key, stage: Stage)

  datatype Mode = Fetched | Running | Aborting

  /** A barrier holds its worker until the section ends, whether it parked or was aborted by a hard stop. */
  datatype BarrierStage = Reached | Arriving | Parked | Holding

  /** `sealed` latches that no channel work can reach the lane any more. */
  datatype Worker =
    | Top(sealed: bool)
    | Select(waitFence: bool)
    | Task(msg: Msg, mode: Mode)
    | Settling(msg: Msg)
    | Cleanup(entry: Entry, sealed: bool)
    | Barrier(section: nat, at: BarrierStage, sealed: bool)
    | Draining
    | Finishing(waitFence: bool)
    | Waiting(waitFence: bool)
    | Exited

  datatype Lane = Lane(
    q: Queue,
    route: Route,
    gated: bool,
    gateHeld: bool,
    worker: Worker,
    inside: map<nat, Inside>,
    owed: nat,
    panicked: bool,
    loose: bool,
    sent: seq<Msg>,
    handled: seq<Msg>,
    tickets: seq<Fate>,
    marks: seq<nat>)

  function NewLane(cap: nat, tracksIdle: bool, route: Route, gated: bool): Lane {
    Lane(NewQueue(cap, tracksIdle), route, gated, false, Top(false), map[], 0, false, false, [], [], [], [])
  }

  // ----- producers -----

  /** A Dynamic producer enters under the read side of the gate and turns back from a closed lane. */
  predicate CanEnter(l: Lane, p: nat, key: Key) {
    && p !in l.inside
    && Serves(l.route, key)
    && !IsBarrierKey(key)
    && (l.gated ==> !l.gateHeld && !l.q.closed)
  }

  function Enter(l: Lane, p: nat, key: Key): Lane {
    l.(inside := l.inside[p := Inside(key, AtFence)])
  }

  predicate At(l: Lane, p: nat, stage: Stage) {
    p in l.inside && l.inside[p].stage == stage
  }

  predicate InSending(l: Lane, p: nat) {
    p in l.inside && l.inside[p].stage.Sending?
  }

  predicate CanPass(l: Lane, sig: Signals, p: nat) {
    At(l, p, AtFence) && FenceLetsPass(l.q.backlog, l.inside[p].key, sig.stopped)
  }

  function Pass(l: Lane, p: nat): Lane
    requires p in l.inside
  {
    l.(inside := l.inside[p := l.inside[p].(stage := Passed)])
  }

  predicate CanLeave(l: Lane, p: nat) {
    p in l.inside && !l.inside[p].stage.Sending?
  }

  function Leave(l: Lane, p: nat): Lane {
    l.(inside := l.inside - {p})
  }

  predicate CanAdmit(l: Lane, p: nat) {
    At(l, p, Passed)
  }

  function Admit(l: Lane, p: nat): Lane
    requires p in l.inside
  {
    l.(q := AdmitTask(l.q),
       inside := l.inside[p := l.inside[p].(stage := Sending(l.q.admitted + 1, false))],
       tickets := l.tickets + [InSend(p)])
  }

  /** The non-blocking attempt found the channel full. */
  predicate CanFindFull(l: Lane, p: nat) {
    InSending(l, p) && !l.inside[p].stage.tried && !l.q.chClosed && |l.q.ch| >= l.q.cap
  }

  function FindFull(l: Lane, p: nat): Lane
    requires InSending(l, p)
  {
    l.(inside := l.inside[p := l.inside[p].(stage := l.inside[p].stage.(tried := true))])
  }

  /** A send on a closed channel is ready at once, and panics. */
  predicate CanSend(l: Lane, p: nat) {
    InSending(l, p) && (l.q.chClosed || |l.q.ch| < l.q.cap)
  }

  function Send(l: Lane, p: nat): Lane
    requires InSending(l, p) && 0 < l.inside[p].stage.ticket <= |l.tickets|
  {
    if l.q.chClosed then l.(panicked := true)
    else
      var m := Msg(p, l.inside[p].key);
      l.(q := l.q.(ch := l.q.ch + [m]),
         sent := l.sent + [m],
         tickets := l.tickets[l.inside[p].stage.ticket - 1 := WasSent],
         inside := l.inside - {p})
  }

  predicate CanAbandon(l: Lane, p: nat) {
    InSending(l, p) && l.inside[p].stage.tried
  }

  function Abandon(l: Lane, p: nat): Lane
    requires InSending(l, p) && 0 < l.inside[p].stage.ticket <= |l.tickets|
  {
    var t := l.inside[p].stage.ticket;
    l.(q := UnmarkSent(l.q, t),
       tickets := l.tickets[t - 1 := GaveUp],
       inside := l.inside - {p},
       owed := if l.q.backlog != [] then l.owed + 1 else l.owed)
  }

  // ----- backlog -----

  predicate CanEnqueue(l: Lane, key: Key) {
    TakesCleanup(l.q) && (IsBarrierKey(key) || Serves(l.route, key))
  }

  function Enqueue(l: Lane, id: nat, key: Key, fence: bool): Lane {
    l.(q := EnqueueMandatory(l.q, id, key, fence),
       marks := l.marks + [|l.sent|],
       owed := l.owed + 1)
  }

  /** Whoever changed the backlog puts the wake token afterwards; a token already there is enough. */
  predicate CanPutToken(l: Lane) {
    l.owed > 0
  }

  function PutToken(l: Lane): Lane
    requires l.owed > 0
  {
    l.(owed := l.owed - 1, q := l.q.(wake := true))
  }

  // ----- worker -----

  predicate CanTake(l: Lane) {
    l.worker.Top?
  }

  /** A fence entry at the head is re-dated when the submit fence is closed. */
  function ConvertHead(l: Lane, fenceClosed: bool): Lane {
    if l.marks != [] && l.q.backlog != [] && l.q.backlog[0].fence && fenceClosed
    then l.(q := Convert(l.q, fenceClosed), marks := l.marks[0 := |l.sent|])
    else l
  }

  /** The worker's next state when the head of the backlog is popped. */
  function WorkerFor(e: Entry, sealed: bool): Worker {
    if IsBarrierKey(e.key) then Barrier(e.id, Reached, sealed) else Cleanup(e, sealed)
  }

  function Pop(l: Lane): Lane
    requires l.worker.Top? && l.q.backlog != [] && l.marks != []
  {
    l.(q := l.q.(backlog := l.q.backlog[1..]),
       marks := l.marks[1..],
       worker := WorkerFor(l.q.backlog[0], l.worker.sealed))
  }

  function LookElsewhere(l: Lane): Lane
    requires l.worker.Top?
  {
    var wf := l.q.backlog != [] && l.q.backlog[0].fence;
    l.(worker := if l.worker.sealed then Finishing(wf) else Select(wf))
  }

  function Take(l: Lane, sig: Signals): Lane
    requires l.worker.Top?
  {
    var c := ConvertHead(l, sig.fence);
    if HeadReady(c.q) && c.marks != [] then Pop(c) else LookElsewhere(c)
  }

  /** A step of the worker's loop head is one call of takeMandatoryCleanup. */
  lemma TakeIsTakeMandatory(l: Lane, sig: Signals)
    requires l.worker.Top? && |l.marks| == |l.q.backlog|
    ensures var (q, taken) := TakeMandatory(l.q, sig.fence);
            && Take(l, sig).q == q
            && Take(l, sig).worker == match taken
                                      case Ready(e) => WorkerFor(e, l.worker.sealed)
                                      case NotReady(wf) => if l.worker.sealed then Finishing(wf) else Select(wf)
  {
    hide Convert, ConvertHead, WorkerFor;
    ConvertHeadConverts(l, sig.fence);
  }

  lemma ConvertHeadConverts(l: Lane, fenceClosed: bool)
    requires |l.marks| == |l.q.backlog|
    ensures ConvertHead(l, fenceClosed).q == Convert(l.q, fenceClosed) && ConvertHead(l, fenceClosed).worker == l.worker
    ensures |ConvertHead(l, fenceClosed).marks| == |ConvertHead(l, fenceClosed).q.backlog|
  {
  }

  predicate CanReceive(l: Lane) {
    l.worker.Select? && l.q.ch != []
  }

  function Receive(l: Lane): Lane
    requires l.q.ch != []
  {
    l.(worker := Task(l.q.ch[0], Fetched), q := l.q.(ch := l.q.ch[1..]))
  }

  predicate CanSeeClosed(l: Lane) {
    l.worker.Select? && l.q.ch == [] && l.q.chClosed
  }

  function SeeClosed(l: Lane): Lane {
    l.(worker := Top(true))
  }

  predicate CanWakeUp(l: Lane) {
    l.worker.Select? && l.q.wake
  }

  function WakeUp(l: Lane): Lane {
    l.(worker := Top(false), q := l.q.(wake := false))
  }

  predicate CanSeeFence(l: Lane, sig: Signals) {
    l.worker.Select? && l.worker.waitFence && sig.fence
  }

  function SeeFence(l: Lane): Lane {
    l.(worker := Top(false))
  }

  predicate CanSeeQuit(l: Lane) {
    l.worker.Select? && l.q.quit
  }

  function SeeQuit(l: Lane): Lane {
    l.(worker := Draining)
  }

  /** drainAndAbort, one message at a time. */
  predicate CanDrainOne(l: Lane) {
    l.worker.Draining? && l.q.ch != []
  }

  function DrainOne(l: Lane): Lane
    requires l.q.ch != []
  {
    l.(q := Bump(l.q, -1).(ch := l.q.ch[1..], settled := l.q.settled + 1), handled := l.handled + [l.q.ch[0]])
  }

  predicate CanDrainDone(l: Lane) {
    l.worker.Draining? && l.q.ch == []
  }

  function DrainDone(l: Lane): Lane {
    l.(worker := Top(true))
  }

  predicate CanStartTask(l: Lane) {
    l.worker.Task? && l.worker.mode.Fetched?
  }

  function StartTask(l: Lane, sig: Signals): Lane
    requires l.worker.Task?
  {
    l.(worker := Task(l.worker.msg, if sig.hard then Aborting else Running))
  }

  predicate CanFinishTask(l: Lane) {
    l.worker.Task? && !l.worker.mode.Fetched?
  }

  function FinishTask(l: Lane): Lane
    requires l.worker.Task?
  {
    l.(worker := Settling(l.worker.msg), q := Bump(l.q, -1))
  }

  predicate CanSettle(l: Lane) {
    l.worker.Settling?
  }

  function Settle(l: Lane): Lane
    requires l.worker.Settling?
  {
    l.(worker := Top(false), q := l.q.(settled := l.q.settled + 1), handled := l.handled + [l.worker.msg])
  }

  predicate CanFinishCleanup(l: Lane) {
    l.worker.Cleanup?
  }

  function FinishCleanup(l: Lane): Lane
    requires l.worker.Cleanup?
  {
    l.(worker := Top(l.worker.sealed), q := Bump(l.q, -1))
  }

  predicate CanStartBarrier(l: Lane) {
    l.worker.Barrier? && l.worker.at.Reached?
  }

  function StartBarrier(l: Lane, sig: Signals): Lane
    requires l.worker.Barrier?
  {
    l.(worker := l.worker.(at := if sig.hard then Holding else Arriving))
  }

  predicate CanPark(l: Lane) {
    l.worker.Barrier? && l.worker.at.Arriving?
  }

  function Park(l: Lane): Lane
    requires l.worker.Barrier?
  {
    l.(worker := l.worker.(at := Parked))
  }

  /** The section's release channel is closed. */
  predicate CanLeaveBarrier(l: Lane) {
    l.worker.Barrier? && !l.worker.at.Reached?
  }

  function LeaveBarrier(l: Lane): Lane
    requires l.worker.Barrier?
  {
    l.(worker := Top(l.worker.sealed), q := Bump(l.q, -1))
  }

  predicate CanFinish(l: Lane) {
    l.worker.Finishing?
  }

  function Finish(l: Lane): Lane
    requires l.worker.Finishing?
  {
    if l.q.backlog != [] then l.(worker := Waiting(l.worker.waitFence))
    else l.(worker := Exited, q := FinishWorker(l.q))
  }

  predicate CanReleaseByWake(l: Lane) {
    l.worker.Waiting? && l.q.wake
  }

  function ReleaseByWake(l: Lane): Lane {
    l.(worker := Top(true), q := l.q.(wake := false))
  }

  predicate CanReleaseByFence(l: Lane, sig: Signals) {
    l.worker.Waiting? && l.worker.waitFence && sig.fence
  }

  function ReleaseByFence(l: Lane): Lane {
    l.(worker := Top(true))
  }

  // ----- retirement and stop -----

  /** retireIfIdle holds the write side of the gate and has re-checked that the lane is idle. */
  predicate CanLockGate(l: Lane) {
    && l.gated && l.q.tracksIdle && !l.gateHeld && l.inside == map[]
    && !l.q.closed && l.q.pending == 0 && l.q.ch == []
  }

  function LockGate(l: Lane): Lane {
    l.(gateHeld := true)
  }

  predicate CanSeal(l: Lane) {
    l.gateHeld && l.q.backlog == []
  }

  /** markRetired succeeded. `loose` records that the lane had become busy since the idle check. */
  function Seal(l: Lane): Lane {
    l.(q := MarkRetired(l.q).(closed := true, quit := true), gateHeld := false, loose := l.q.pending != 0)
  }

  predicate CanUnlockGate(l: Lane) {
    l.gateHeld && l.q.backlog != []
  }

  function UnlockGate(l: Lane): Lane {
    l.(gateHeld := false)
  }

  /** closeQueueChannels takes the write side of the gate; on a Sharded lane no producer holds it. */
  predicate CanClose(l: Lane) {
    !l.gateHeld && (l.gated ==> l.inside == map[])
  }

  function Close(l: Lane): Lane {
    l.(q := CloseChannel(l.q))
  }

  // ----- the step relation of one lane -----

  datatype ProducerAct = PEnter(key: Key) | PPass | PLeave | PAdmit | PFindFull | PSend | PAbandon

  datatype LoopAct =
    | LReceive | LSeeClosed | LWakeUp | LSeeFence | LSeeQuit | LDrainOne | LDrainDone
    | LFinish | LReleaseByWake | LReleaseByFence

  datatype WorkAct = WStartTask | WFinishTask | WSettle | WFinishCleanup | WStartBarrier | WPark | WLeaveBarrier

  datatype GateAct = GLock | GSeal | GUnlock | GClose

  datatype LaneStep =
    | ByProducer(p: nat, act: ProducerAct)
    | SEnqueue(id: nat, key: Key, fence: bool)
    | SPutToken
    | STake
    | ByLoop(turn: LoopAct)
    | ByWork(work: WorkAct)
    | ByGate(gate: GateAct)

  predicate CanSendNow(l: Lane, p: nat) {
    CanSend(l, p) && 0 < l.inside[p].stage.ticket <= |l.tickets|
  }

  predicate CanGiveUp(l: Lane, p: nat) {
    CanAbandon(l, p) && 0 < l.inside[p].stage.ticket <= |l.tickets|
  }

  predicate CanProduce(l: Lane, sig: Signals, p: nat, a: ProducerAct) {
    match a
    case PEnter(key) => CanEnter(l, p, key)
    case PPass => CanPass(l, sig, p)
    case PLeave => CanLeave(l, p)
    case PAdmit => CanAdmit(l, p)
    case PFindFull => CanFindFull(l, p)
    case PSend => CanSendNow(l, p)
    case PAbandon => CanGiveUp(l, p)
  }

  function Produce(l: Lane, sig: Signals, p: nat, a: ProducerAct): Lane
    requires CanProduce(l, sig, p, a)
  {
    match a
    case PEnter(key) => Enter(l, p, key)
    case PPass => Pass(l, p)
    case PLeave => Leave(l, p)
    case PAdmit => Admit(l, p)
    case PFindFull => FindFull(l, p)
    case PSend => Send(l, p)
    case PAbandon => Abandon(l, p)
  }

  predicate CanTurn(l: Lane, sig: Signals, a: LoopAct) {
    match a
    case LReceive => CanReceive(l)
    case LSeeClosed => CanSeeClosed(l)
    case LWakeUp => CanWakeUp(l)
    case LSeeFence => CanSeeFence(l, sig)
    case LSeeQuit => CanSeeQuit(l)
    case LDrainOne => CanDrainOne(l)
    case LDrainDone => CanDrainDone(l)
    case LFinish => CanFinish(l)
    case LReleaseByWake => CanReleaseByWake(l)
    case LReleaseByFence => CanReleaseByFence(l, sig)
  }

  function Turn(l: Lane, sig: Signals, a: LoopAct): Lane
    requires CanTurn(l, sig, a)
  {
    match a
    case LReceive => Receive(l)
    case LSeeClosed => SeeClosed(l)
    case LWakeUp => WakeUp(l)
    case LSeeFence => SeeFence(l)
    case LSeeQuit => SeeQuit(l)
    case LDrainOne => DrainOne(l)
    case LDrainDone => DrainDone(l)
    case LFinish => Finish(l)
    case LReleaseByWake => ReleaseByWake(l)
    case LReleaseByFence => ReleaseByFence(l)
  }

  predicate CanWork(l: Lane, a: WorkAct) {
    match a
    case WStartTask => CanStartTask(l)
    case WFinishTask => CanFinishTask(l)
    case WSettle => CanSettle(l)
    case WFinishCleanup => CanFinishCleanup(l)
    case WStartBarrier => CanStartBarrier(l)
    case WPark => CanPark(l)
    case WLeaveBarrier => CanLeaveBarrier(l)
  }

  function Work(l: Lane, sig: Signals, a: WorkAct): Lane
    requires CanWork(l, a)
  {
    match a
    case WStartTask => StartTask(l, sig)
    case WFinishTask => FinishTask(l)
    case WSettle => Settle(l)
    case WFinishCleanup => FinishCleanup(l)
    case WStartBarrier => StartBarrier(l, sig)
    case WPark => Park(l)
    case WLeaveBarrier => LeaveBarrier(l)
  }

  predicate CanGate(l: Lane, a: GateAct) {
    match a
    case GLock => CanLockGate(l)
    case GSeal => CanSeal(l)
    case GUnlock => CanUnlockGate(l)
    case GClose => CanClose(l)
  }

  function Gate(l: Lane, a: GateAct): Lane {
    match a
    case GLock => LockGate(l)
    case GSeal => Seal(l)
    case GUnlock => UnlockGate(l)
    case GClose => Close(l)
  }

  predicate CanStep(l: Lane, sig: Signals, s: LaneStep) {
    && !l.panicked
    && match s
       case ByProducer(p, a) => CanProduce(l, sig, p, a)
       case SEnqueue(id, key, fence) => CanEnqueue(l, key) && (IsBarrierKey(key) ==> !fence) && (fence ==> sig.stopped)
       case SPutToken => CanPutToken(l)
       case STake => CanTake(l)
       case ByLoop(a) => CanTurn(l, sig, a)
       case ByWork(a) => CanWork(l, a)
       case ByGate(a) => CanGate(l, a)
  }

  function Step(l: Lane, sig: Signals, s: LaneStep): Lane
    requires CanStep(l, sig, s)
  {
    match s
    case ByProducer(p, a) => Produce(l, sig, p, a)
    case SEnqueue(id, key, fence) => Enqueue(l, id, key, fence)
    case SPutToken => PutToken(l)
    case STake => Take(l, sig)
    case ByLoop(a) => Turn(l, sig, a)
    case ByWork(a) => Work(l, sig, a)
    case ByGate(a) => Gate(l, a)
  }

  /** A step is the step of one of the four groups, or one of the three others. */
  lemma StepIs(l: Lane, sig: Signals, s: LaneStep)
    requires CanStep(l, sig, s)
    ensures !l.panicked
    ensures match s
            case ByProducer(p, a) => CanProduce(l, sig, p, a) && Step(l, sig, s) == Produce(l, sig, p, a)
            case SEnqueue(id, key, fence) => CanEnqueue(l, key) && Step(l, sig, s) == Enqueue(l, id, key, fence)
            case SPutToken => CanPutToken(l) && Step(l, sig, s) == PutToken(l)
            case STake => CanTake(l) && Step(l, sig, s) == Take(l, sig)
            case ByLoop(a) => CanTurn(l, sig, a) && Step(l, sig, s) == Turn(l, sig, a)
            case ByWork(a) => CanWork(l, a) && Step(l, sig, s) == Work(l, sig, a)
            case ByGate(a) => CanGate(l, a) && Step(l, sig, s) == Gate(l, a)
  {
  }
}
