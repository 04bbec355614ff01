/**
 The chain interpreter: a validated list of steps, run inside one lane task with arbitrary hook results, driver
 results and panics. A run is the trace of what it did to hooks, engine and handles, and its outcome.
 */
module Chains {
  import opened RoutingKeys
  import opened Queues
  import opened Handles

  // ----- plans -----

  datatype Source =
    | OrderSource(account: Option<nat>) | AccountSource(id: nat) | GroupSource(group: nat, initialized: bool)

  /** Engine calls with an account or account-group target. */
  datatype EngineOp =
    | ExecutionReport | Adjustment | BlockAccount | UnblockAccount | BlockGroup | UnblockGroup
    | SetCurrency | ClearCurrency | SetPnl

  /** Whether each hook was supplied is part of the plan. */
  datatype ChainStep =
    | Then(fn: bool)
    | Operate(onRejected: bool, onAccepted: bool)
    | Check(onChecked: bool)
    | Call(op: EngineOp, input: bool, onDone: bool)

  /** How the builder was finished: without a terminal hook, with one, with a nil one, or by discarding the runner. */
  datatype Ending = NoFinally | WithFinally | NilFinally | DiscardedFinally

  datatype Plan = Plan(source: Source, begin: bool, steps: seq<ChainStep>, ending: Ending)

  predicate OnGroup(op: EngineOp) {
    op.BlockGroup? || op.UnblockGroup?
  }

  predicate HasInput(op: EngineOp) {
    !op.UnblockAccount? && !op.UnblockGroup? && !op.ClearCurrency?
  }

  /** Blocking, unblocking and clearing the currency of an account report no error. */
  predicate CanFail(op: EngineOp) {
    !op.BlockAccount? && !op.UnblockAccount? && !op.ClearCurrency?
  }

  // ----- validation -----

  datatype PlanError =
    | Incomplete | OrderRequired | AccountRequired | GroupRequired | MissingAccount | UninitializedGroup

  datatype Validated = RunsOn(key: Key) | Refused(error: PlanError)

  function CheckStep(s: ChainStep, source: Source): Option<PlanError> {
    match s
    case Then(fn) => if fn then None else Some(Incomplete)
    case Operate(onRejected, onAccepted) =>
      if !source.OrderSource? then Some(OrderRequired)
      else if !onRejected || !onAccepted then Some(Incomplete)
      else None
    case Check(onChecked) =>
      if !source.OrderSource? then Some(OrderRequired) else if !onChecked then Some(Incomplete) else None
    case Call(op, input, onDone) =>
      if OnGroup(op) && !source.GroupSource? then Some(GroupRequired)
      else if !OnGroup(op) && source.GroupSource? then Some(AccountRequired)
      else if (HasInput(op) && !input) || !onDone then Some(Incomplete)
      else None
  }

  function CheckSteps(steps: seq<ChainStep>, source: Source): Option<PlanError> {
    if steps == [] then None
    else
      var first := CheckStep(steps[0], source);
      if first.Some? then first else CheckSteps(steps[1..], source)
  }

  function SourceKey(source: Source): Validated {
    match source
    case OrderSource(account) =>
      if account.None? then Refused(MissingAccount) else RunsOn(Key(Account, account.value))
    case AccountSource(id) => RunsOn(Key(Account, id))
    case GroupSource(id, initialized) =>
      if initialized then RunsOn(Key(AccountGroup, id)) else Refused(UninitializedGroup)
  }

  function Validate(p: Plan): Validated {
    if p.ending.NilFinally? || p.ending.DiscardedFinally? || !p.begin then Refused(Incomplete)
    else
      var key := SourceKey(p.source);
      if key.Refused? then key
      else
        var bad := CheckSteps(p.steps, p.source);
        if bad.Some? then Refused(bad.value) else key
  }

  // ----- the world -----

  /** An error may already carry ErrChainRetryUnsafe. */
  datatype HookResult = Fine | HookErr(tagged: bool) | HookPanic

  datatype Decision = CommitDecision | RollbackDecision | InvalidDecision

  datatype DriverReply = Replies(result: DriverResult) | DriverPanics

  datatype CheckReply = Reports(report: HandleShape, failed: bool) | CheckPanics

  datatype CheckVerdict = Passes | Fails | VerdictErr

  datatype CheckRejects = SomeRejects | NilRejects | RejectsErr

  datatype CallReply = CallOk | CallErr | CallPanics

  /** What happens at one step: the hooks' results, what they return, and what the driver answers. */
  datatype StepWorld = StepWorld(
    input: HookResult, reportAccount: Option<nat>, operate: DriverReply, check: CheckReply, verdict: CheckVerdict,
    rejects: CheckRejects, call: CallReply, errTagged: bool, hook: HookResult, decision: Decision)

  datatype World = World(begin: HookResult, steps: nat -> StepWorld, finally: HookResult)

  // ----- runs -----

  datatype Target = OnOrder | OnAccount(id: nat) | OnAccountGroup(id: nat)

  datatype ChainError = NoError | Failed(tagged: bool)

  datatype ChainStatus = StatusCompleted | StatusRejected | StatusFailed

  datatype ChainOutcome = ChainOutcome(status: ChainStatus, err: ChainError, retryUnsafe: bool)

  /** Each event of step i; a handle made at step i is handle i. `readable` are the results a hook could read from. */
  datatype Event =
    | BeginRan
    | HookRan(step: nat, readable: set<nat>)
    | EngineCalled(step: nat, target: Target, mutating: bool)
    | HandleMade(step: nat)
    | Native(step: nat, call: NativeCall)
    | ReportClosed(step: nat)
    | Misused(step: nat)
    | FinallyRan(outcome: ChainOutcome, readable: set<nat>)
    | Resolved(outcome: ChainOutcome)

  datatype Pending = Pending(step: nat, handle: Handle)

  datatype Task = Task(trace: seq<Event>, pending: Option<Pending>, available: set<nat>, unsafe: bool)

  datatype End = Next | Ended | Error(tagged: bool) | Panic

  datatype StepRun = StepRun(task: Task, end: End)

  function Emit(t: Task, e: Event): Task {
    t.(trace := t.trace + [e])
  }

  /** Calling a hook that was never supplied panics. */
  function RunHook(t: Task, i: nat, supplied: bool, r: HookResult): StepRun {
    if !supplied then StepRun(Emit(t, Misused(i)), Panic)
    else
      StepRun(Emit(t, HookRan(i, t.available)),
          match r
          case Fine => Next
          case HookErr(tagged) => Error(tagged)
          case HookPanic => Panic)
  }

  function Calls(i: nat, calls: seq<NativeCall>): seq<Event> {
    seq(|calls|, k requires 0 <= k < |calls| => Native(i, calls[k]))
  }

  /** The native calls that an operation makes on a handle. */
  function Finalize(t: Task, h: Pending, op: HandleOp): Task {
    t.(trace := t.trace + Calls(h.step, Apply(h.handle, op).log[|h.handle.log|..]), pending := None)
  }

  function DecisionOp(d: Decision): HandleOp {
    if d.CommitDecision? then CommitAndClose else RollbackAndClose
  }

  function DecisionEnd(d: Decision): End {
    match d
    case CommitDecision => Next
    case RollbackDecision => Ended
    case InvalidDecision => Error(false)
  }

  /**
   The accepted branch of executePreTrade and applyDropCopy: hook, then decision. A panic leaves the handle pending.
   */
  function Decide(t: Task, i: nat, supplied: bool, w: StepWorld): StepRun
    requires t.pending.Some?
  {
    var r := RunHook(t.(available := {i}), i, supplied, w.hook);
    var after := r.task.(available := {});
    if r.end.Next? then StepRun(Finalize(after, t.pending.value, DecisionOp(w.decision)), DecisionEnd(w.decision))
    else StepRun(after, r.end)
  }

  /** The driver call, and the handle it may have produced, which is pending from that moment on. */
  function Entered(t: Task, i: nat, w: StepWorld): Task {
    var called := Emit(t.(unsafe := true), EngineCalled(i, OnOrder, true));
    if w.operate.DriverPanics? || w.operate.result.handle.NoHandle? then called
    else
      var shape := w.operate.result.handle;
      var held := called.(pending := Some(Pending(i, HandleOf(shape))));
      if shape.LiveHandle? then Emit(held, HandleMade(i)) else held
  }

  function RunOperate(t: Task, i: nat, p: Plan, s: ChainStep, w: StepWorld): StepRun
    requires s.Operate?
  {
    if !p.source.OrderSource? then StepRun(Emit(t.(unsafe := true), Misused(i)), Panic)
    else
      var e := Entered(t, i, w);
      if w.operate.DriverPanics? then StepRun(e, Panic)
      else
        var r := w.operate.result;
        if !ShapeAccepted(r) then StepRun(e, Error(w.errTagged && r.err))
        else if r.err then StepRun(e, Error(w.errTagged))
        else if r.rejects > 0 then
          var h := RunHook(e, i, s.onRejected, w.hook);
          if h.end.Next? then h.(end := Ended) else h
        else if e.pending.None? then StepRun(e, Error(false))
        else Decide(e, i, s.onAccepted, w)
  }

  /** The body of checkOrder after the driver call; the deferred close of the report is Closing. */
  function RunVerdict(t: Task, i: nat, s: ChainStep, w: StepWorld): StepRun
    requires s.Check? && w.check.Reports?
  {
    if !ShapeAccepted(DriverResult(w.check.report, 0, w.check.failed)) then
      StepRun(t, Error(w.errTagged && w.check.failed))
    else if w.check.failed then StepRun(t, Error(w.errTagged))
    else if w.verdict.VerdictErr? then StepRun(t, Error(w.errTagged))
    else if w.verdict.Fails? && w.rejects.RejectsErr? then StepRun(t, Error(w.errTagged))
    else if w.verdict.Fails? && w.rejects.NilRejects? then StepRun(t, Error(false))
    else
      var r := RunHook(t.(available := {i}), i, s.onChecked, w.hook);
      r.(task := r.task.(available := {}))
  }

  function RunCheck(t: Task, i: nat, p: Plan, s: ChainStep, w: StepWorld): StepRun
    requires s.Check?
  {
    if !p.source.OrderSource? then StepRun(Emit(t, Misused(i)), Panic)
    else
      var e := Emit(t, EngineCalled(i, OnOrder, false));
      if w.check.CheckPanics? then StepRun(e, Panic)
      else
        var r := RunVerdict(e, i, s, w);
        if w.check.report.LiveHandle? then r.(task := Emit(r.task, ReportClosed(i))) else r
  }

  /** plan.accountID as newChainTaskFromPlan leaves it. */
  function AccountOf(source: Source): nat {
    match source
    case OrderSource(account) => if account.Some? then account.value else 0
    case AccountSource(id) => id
    case GroupSource(_, _) => 0
  }

  /** An execution report names its account itself. */
  function TargetOf(op: EngineOp, source: Source, w: StepWorld): Target {
    if op.ExecutionReport? then OnAccount(if w.reportAccount.Some? then w.reportAccount.value else 0)
    else if !OnGroup(op) then OnAccount(AccountOf(source))
    else if source.GroupSource? then OnAccountGroup(source.group)
    else OnAccountGroup(0)
  }

  /** The engine call and its result hook. */
  function RunEngineOp(t: Task, i: nat, p: Plan, s: ChainStep, w: StepWorld): StepRun
    requires s.Call?
  {
    if OnGroup(s.op) && !p.source.GroupSource? then StepRun(Emit(t.(unsafe := true), Misused(i)), Panic)
    else
      var e := Emit(t.(unsafe := true), EngineCalled(i, TargetOf(s.op, p.source, w), true));
      if w.call.CallPanics? then StepRun(e, Panic)
      else if CanFail(s.op) && w.call.CallErr? then StepRun(e, Error(w.errTagged))
      else RunHook(e, i, s.onDone, w.hook)
  }

  function RunCall(t: Task, i: nat, p: Plan, s: ChainStep, w: StepWorld): StepRun
    requires s.Call?
  {
    var r := if HasInput(s.op) then RunHook(t, i, s.input, w.input) else StepRun(t, Next);
    if !r.end.Next? then r
    else if s.op.ExecutionReport? && w.reportAccount != Some(AccountOf(p.source)) then r.(end := Error(false))
    else RunEngineOp(r.task, i, p, s, w)
  }

  function RunStep(t: Task, i: nat, p: Plan, s: ChainStep, w: StepWorld): StepRun {
    match s
    case Then(fn) => RunHook(t, i, fn, w.hook)
    case Operate(_, _) => RunOperate(t, i, p, s, w)
    case Check(_) => RunCheck(t, i, p, s, w)
    case Call(_, _, _) => RunCall(t, i, p, s, w)
  }

  /** The loop of execute from step i on. */
  function RunSteps(t: Task, i: nat, p: Plan, w: World): StepRun
    decreases |p.steps| - i
  {
    if i >= |p.steps| then StepRun(t, Next)
    else
      var r := RunStep(t, i, p, p.steps[i], w.steps(i));
      if r.end.Next? then RunSteps(r.task, i + 1, p, w) else r
  }

  // ----- the deferred end of execute -----

  function Join(a: ChainError, b: ChainError): ChainError {
    if a.NoError? then b else if b.NoError? then a else Failed(a.tagged || b.tagged)
  }

  function Tag(e: ChainError, unsafe: bool): ChainError {
    if e.Failed? && unsafe then Failed(true) else e
  }

  function ErrorOf(end: End): ChainError {
    match end
    case Error(tagged) => Failed(tagged)
    case Panic => Failed(false)
    case _ => NoError
  }

  /** resolvedOutcome. */
  function Outcome(ended: bool, err: ChainError, unsafe: bool): ChainOutcome {
    ChainOutcome(if err.Failed? then StatusFailed else if ended then StatusRejected else StatusCompleted, err, unsafe)
  }

  /** A handle still pending is rolled back and released. */
  function CleanUp(t: Task): Task {
    if t.pending.Some? then Finalize(t, t.pending.value, RollbackAndClose) else t
  }

  function FinallyError(r: HookResult): ChainError {
    match r
    case Fine => NoError
    case HookErr(tagged) => Failed(tagged)
    case HookPanic => Failed(false)
  }

  datatype Run = Run(trace: seq<Event>, outcome: ChainOutcome)

  /** Cleanup, the retry-unsafe mark, the terminal hook, and the resolution of the future. */
  function Finish(r: StepRun, ready: bool, p: Plan, w: World): Run {
    var t := CleanUp(r.task);
    var err := Tag(ErrorOf(r.end), t.unsafe);
    var outcome := Outcome(r.end.Ended?, err, t.unsafe);
    if ready && p.ending.WithFinally? then
      var fin := Emit(t, FinallyRan(outcome, t.available));
      var finErr := FinallyError(w.finally);
      var whole := Join(err, if err.NoError? then Tag(finErr, t.unsafe) else finErr);
      var last := Outcome(r.end.Ended?, whole, t.unsafe);
      Run(fin.trace + [Resolved(last)], last)
    else Run(t.trace + [Resolved(outcome)], outcome)
  }

  function EmptyTask(): Task {
    Task([], None, {}, false)
  }

  function RunBegin(p: Plan, w: World): StepRun {
    if !p.begin then StepRun(Emit(EmptyTask(), Misused(0)), Panic)
    else
      StepRun(Emit(EmptyTask(), BeginRan),
          match w.begin
          case Fine => Next
          case HookErr(tagged) => Error(tagged)
          case HookPanic => Panic)
  }

  function RunChain(p: Plan, w: World): Run {
    var b := RunBegin(p, w);
    if b.end.Next? then Finish(RunSteps(b.task, 0, p, w), true, p, w)
    else Finish(b, false, p, w)
  }
}
