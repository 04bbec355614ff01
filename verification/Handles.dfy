/**
 Handles that the caller owns: a reservation or drop-copy operation, which is resolved and then released, and a
 request, which is executed and then released. The native library is the log of the calls made on one handle.
 Reservations and drop-copy operations have the same lifecycle, so one model stands for both.
 */
module Handles {
  datatype NativeCall = NativeCommit | NativeRollback | NativeExecute | NativeDestroy

  datatype Handle = Handle(live: bool, resolved: bool, log: seq<NativeCall>)

  datatype HandleOp = Commit | CommitAndClose | Rollback | RollbackAndClose | Close

  function FreshHandle(): Handle {
    Handle(true, false, [])
  }

  function Committed(h: Handle): Handle {
    if h.resolved || !h.live then h else h.(resolved := true, log := h.log + [NativeCommit])
  }

  function RolledBack(h: Handle): Handle {
    if h.resolved || !h.live then h else h.(resolved := true, log := h.log + [NativeRollback])
  }

  function Closed(h: Handle): Handle {
    if !h.live then h else h.(live := false, resolved := true, log := h.log + [NativeDestroy])
  }

  function Apply(h: Handle, op: HandleOp): Handle {
    match op
    case Commit => Committed(h)
    case CommitAndClose => Closed(Committed(h))
    case Rollback => RolledBack(h)
    case RollbackAndClose => Closed(RolledBack(h))
    case Close => Closed(h)
  }

  function ApplyAll(h: Handle, ops: seq<HandleOp>): Handle {
    if ops == [] then h else Apply(ApplyAll(h, ops[..|ops| - 1]), ops[|ops| - 1])
  }

  predicate Closes(op: HandleOp) {
    op.CommitAndClose? || op.RollbackAndClose? || op.Close?
  }

  /** What the first operation on a handle decides for good. */
  function Decision(op: HandleOp): seq<NativeCall> {
    match op
    case Commit => [NativeCommit]
    case CommitAndClose => [NativeCommit]
    case Rollback => [NativeRollback]
    case RollbackAndClose => [NativeRollback]
    case Close => []
  }

  ghost predicate AnyCloses(ops: seq<HandleOp>) {
    exists i :: 0 <= i < |ops| && Closes(ops[i])
  }

  lemma AnyClosesConcat(a: seq<HandleOp>, b: seq<HandleOp>)
    ensures AnyCloses(a + b) <==> AnyCloses(a) || AnyCloses(b)
  {
    if i :| 0 <= i < |a| && Closes(a[i]) {
      assert Closes((a + b)[i]);
    }
    if i :| 0 <= i < |b| && Closes(b[i]) {
      assert Closes((a + b)[|a| + i]);
    }
  }

  /** The whole native log of a handle, from its first operation and whether any operation closes. */
  ghost function LogOf(ops: seq<HandleOp>): seq<NativeCall> {
    (if ops == [] then [] else Decision(ops[0]))
    + (if AnyCloses(ops) then [NativeDestroy] else [])
  }

  /** One more operation, on a handle whose history is known. */
  lemma HistoryStep(ops: seq<HandleOp>, op: HandleOp, h: Handle)
    requires h.log == LogOf(ops) && (h.live <==> !AnyCloses(ops)) && (h.resolved <==> ops != [])
    ensures var k := Apply(h, op);
            k.log == LogOf(ops + [op]) && (k.live <==> !AnyCloses(ops + [op])) && k.resolved
  {
    AnyClosesConcat(ops, [op]);
    assert AnyCloses([op]) <==> Closes(op) by {
      assert [op][0] == op;
    }
    if ops == [] {
      assert ops + [op] == [op];
    } else {
      assert (ops + [op])[0] == ops[0];
    }
  }

  /**
   Whatever sequence of operations a handle receives, the first one decides between commit, rollback and
   nothing, no later one changes that, and the handle is destroyed once if any of them closes it.
   */
  lemma {:induction false} HandleHistory(ops: seq<HandleOp>)
    ensures var h := ApplyAll(FreshHandle(), ops);
            && h.log == LogOf(ops)
            && (h.live <==> !AnyCloses(ops))
            && (h.resolved <==> ops != [])
  {
    if ops != [] {
      var n := |ops| - 1;
      HandleHistory(ops[..n]);
      HistoryStep(ops[..n], ops[n], ApplyAll(FreshHandle(), ops[..n]));
      assert ops == ops[..n] + [ops[n]];
    }
  }

  datatype HandleShape = NoHandle | DeadHandle | LiveHandle

  /** A handle as it comes from a driver: fresh, or released already. */
  function HandleOf(shape: HandleShape): Handle {
    if shape.LiveHandle? then FreshHandle() else Handle(false, true, [])
  }

  class PendingHandle {
    var live: bool
    var resolved: bool
    ghost var log: seq<NativeCall>

    ghost function View(): Handle
      reads this
    {
      Handle(live, resolved, log)
    }

    constructor ()
      ensures View() == FreshHandle()
    {
      live, resolved, log := true, false, [];
    }

    /** The wrapper around whatever a driver returned. */
    constructor Carrying(shape: HandleShape)
      ensures View() == HandleOf(shape)
    {
      live, resolved, log := shape.LiveHandle?, !shape.LiveHandle?, [];
    }

    method CommitIt()
      modifies this
      ensures View() == Committed(old(View()))
    {
      if resolved || !live {
        return;
      }
      resolved := true;
      log := log + [NativeCommit];
    }

    method RollbackIt()
      modifies this
      ensures View() == RolledBack(old(View()))
    {
      if !live {
        return;
      }
      if resolved {
        return;
      }
      resolved := true;
      log := log + [NativeRollback];
    }

    method CloseIt()
      modifies this
      ensures View() == Closed(old(View()))
    {
      if !live {
        return;
      }
      log := log + [NativeDestroy];
      live := false;
      resolved := true;
    }

    method Perform(op: HandleOp)
      modifies this
      ensures View() == Apply(old(View()), op)
    {
      match op
      case Commit => CommitIt();
      case CommitAndClose =>
        CommitIt();
        CloseIt();
      case Rollback => RollbackIt();
      case RollbackAndClose =>
        RollbackIt();
        CloseIt();
      case Close => CloseIt();
    }
  }

  // ----- how a lifecycle call ends -----

  /** The task ran on its worker, was aborted by a hard stop, or its submit failed. */
  datatype CallFate = Ran | Aborted | SubmitFailed

  /**
   runVoid and reservationTask: a closing call closes the handle on every path, another call only acts when it runs.
   */
  function Effect(op: HandleOp, fate: CallFate): seq<HandleOp> {
    match fate
    case Ran => [op]
    case Aborted => if Closes(op) then [Close] else []
    case SubmitFailed => if Closes(op) then [Close] else []
  }

  datatype HandleCall = HandleCall(op: HandleOp, fate: CallFate)

  function Effects(calls: seq<HandleCall>): seq<HandleOp> {
    if calls == [] then []
    else Effects(calls[..|calls| - 1]) + Effect(calls[|calls| - 1].op, calls[|calls| - 1].fate)
  }

  lemma {:induction false} ClosingEffect(calls: seq<HandleCall>)
    ensures AnyCloses(Effects(calls)) <==> exists i :: 0 <= i < |calls| && Closes(calls[i].op)
  {
    if calls != [] {
      var n := |calls| - 1;
      ClosingEffect(calls[..n]);
      assert forall i :: 0 <= i < n ==> calls[..n][i] == calls[i];
      var last := Effect(calls[n].op, calls[n].fate);
      AnyClosesConcat(Effects(calls[..n]), last);
      assert AnyCloses(last) <==> Closes(calls[n].op) by {
        if Closes(calls[n].op) {
          assert Closes(last[0]);
        }
      }
    }
  }

  lemma LogCounts(ops: seq<HandleOp>)
    ensures multiset(LogOf(ops))[NativeDestroy] == (if AnyCloses(ops) then 1 else 0)
    ensures multiset(LogOf(ops))[NativeCommit] + multiset(LogOf(ops))[NativeRollback] <= 1
  {
  }

  /** A call that reaches the handle: it runs, or it is a closing call, which releases the handle on every path. */
  predicate Acts(c: HandleCall) {
    c.fate.Ran? || Closes(c.op)
  }

  ghost predicate FirstToAct(calls: seq<HandleCall>, i: nat) {
    i < |calls| && Acts(calls[i]) && forall j :: 0 <= j < i ==> !Acts(calls[j])
  }

  /** The first call to reach the handle ran, with one of these two operations. */
  ghost predicate Asked(calls: seq<HandleCall>, op: HandleOp, closing: HandleOp) {
    exists i: nat :: FirstToAct(calls, i) && calls[i].fate.Ran? && (calls[i].op == op || calls[i].op == closing)
  }

  ghost predicate CallCloses(calls: seq<HandleCall>) {
    exists i :: 0 <= i < |calls| && Closes(calls[i].op)
  }

  /** The native log that calls and fates ask for. */
  ghost function LogFor(calls: seq<HandleCall>): seq<NativeCall> {
    (if Asked(calls, Commit, CommitAndClose) then [NativeCommit]
     else if Asked(calls, Rollback, RollbackAndClose) then [NativeRollback]
     else [])
    + (if CallCloses(calls) then [NativeDestroy] else [])
  }

  /** What the first call to reach the handle does to it comes first. */
  lemma {:induction false} FirstEffect(calls: seq<HandleCall>)
    ensures Effects(calls) == [] <==> forall j :: 0 <= j < |calls| ==> !Acts(calls[j])
    ensures forall i: nat :: FirstToAct(calls, i) ==>
              Effects(calls) != [] && Effects(calls)[0] == if calls[i].fate.Ran? then calls[i].op else Close
  {
    if calls != [] {
      var n := |calls| - 1;
      FirstEffect(calls[..n]);
      assert forall i :: 0 <= i < n ==> calls[..n][i] == calls[i];
      forall i: nat | FirstToAct(calls, i)
        ensures Effects(calls) != [] && Effects(calls)[0] == if calls[i].fate.Ran? then calls[i].op else Close
      {
        if i < n {
          assert FirstToAct(calls[..n], i);
        }
      }
    }
  }

  lemma {:induction false} SomeoneActsFirst(calls: seq<HandleCall>) returns (i: nat)
    requires exists j :: 0 <= j < |calls| && Acts(calls[j])
    ensures FirstToAct(calls, i)
  {
    if Acts(calls[0]) {
      i := 0;
    } else {
      i := SomeoneActsFirst(calls[1..]);
      assert forall j :: 0 < j < i + 1 ==> calls[j] == calls[1..][j - 1];
      i := i + 1;
    }
  }

  lemma LogOfCalls(calls: seq<HandleCall>)
    ensures LogOf(Effects(calls)) == LogFor(calls)
  {
    ClosingEffect(calls);
    FirstEffect(calls);
    if Effects(calls) != [] {
      var first := SomeoneActsFirst(calls);
      assert forall i: nat :: FirstToAct(calls, i) ==> i == first;
    }
  }

  /**
   Whatever becomes of the calls, the handle's native log is what their operations and fates ask for: a commit or a
   rollback if the first call to reach it ran with that, and one destroy, last, exactly when one of them closes.
   */
  lemma ClosingCallReleases(calls: seq<HandleCall>)
    ensures var h := ApplyAll(FreshHandle(), Effects(calls));
            && h.log == LogFor(calls) && (h.live <==> !CallCloses(calls))
            && multiset(h.log)[NativeDestroy] == (if h.live then 0 else 1)
            && multiset(h.log)[NativeCommit] + multiset(h.log)[NativeRollback] <= 1
  {
    HandleHistory(Effects(calls));
    ClosingEffect(calls);
    LogCounts(Effects(calls));
    LogOfCalls(calls);
  }

  // ----- what a driver returns -----

  /** A handle and whether it is live, how many rejects, and whether there is an error. */
  datatype DriverResult = DriverResult(handle: HandleShape, rejects: nat, err: bool)

  /** validateDriverResult, as it counts. */
  function ShapeAccepted(r: DriverResult): (ok: bool)
    ensures ok <==>
            || r == DriverResult(LiveHandle, 0, false)
            || r == DriverResult(NoHandle, 0, true)
            || (r.handle.NoHandle? && r.rejects > 0 && !r.err)
  {
    if r.handle.DeadHandle? then false
    else (if r.handle.LiveHandle? then 1 else 0) + (if r.rejects > 0 then 1 else 0) + (if r.err then 1 else 0) == 1
  }

  datatype Resolution = HandedOver | Rejected | TransportError | ShapeError

  /**
   resolveReservationDriverResult and its two siblings: the caller gets the handle, or the handle is released here.
   */
  method ResolveDriverResult(h: PendingHandle?, rejects: nat, err: bool) returns (r: Resolution)
    modifies h
    ensures r.HandedOver? <==> h != null && old(h.live) && rejects == 0 && !err
    ensures h != null ==> h.View() == if r.HandedOver? then old(h.View()) else Closed(old(h.View()))
    ensures r.Rejected? <==> h == null && rejects > 0 && !err
    ensures r.TransportError? <==> h == null && rejects == 0 && err
  {
    var shape := if h == null then NoHandle else if h.live then LiveHandle else DeadHandle;
    if !ShapeAccepted(DriverResult(shape, rejects, err)) {
      if h != null {
        h.CloseIt();
      }
      return ShapeError;
    }
    if err {
      return TransportError;
    }
    if rejects > 0 {
      return Rejected;
    }
    return HandedOver;
  }

  // ----- requests -----

  datatype RequestOp = Execute | CloseRequest

  /** The main stage is issued only on a live request, and the request is released on every path of both operations. */
  function OnRequest(h: Handle, op: RequestOp, fate: CallFate): Handle {
    if op.Execute? && fate.Ran? && h.live then Closed(h.(log := h.log + [NativeExecute]))
    else Closed(h)
  }

  datatype RequestCall = RequestCall(op: RequestOp, fate: CallFate)

  function OnRequests(h: Handle, calls: seq<RequestCall>): Handle {
    if calls == [] then h
    else
      var last := calls[|calls| - 1];
      OnRequest(OnRequests(h, calls[..|calls| - 1]), last.op, last.fate)
  }

  /** A request is executed natively only by its first call, and destroyed exactly once as soon as it has had one. */
  lemma {:induction false} RequestHistory(calls: seq<RequestCall>)
    ensures var h := OnRequests(FreshHandle(), calls);
            && (h.live <==> calls == [])
            && h.log == if calls == [] then []
                        else if calls[0] == RequestCall(Execute, Ran) then [NativeExecute, NativeDestroy]
                        else [NativeDestroy]
  {
    if calls != [] {
      RequestHistory(calls[..|calls| - 1]);
    }
  }

  /** What the native main stage returns. */
  datatype MainStage = Accepted | RejectedWith(count: nat) | Undecodable | NativeError

  class Request {
    var live: bool
    ghost var log: seq<NativeCall>

    constructor ()
      ensures live && log == []
    {
      live, log := true, [];
    }

    /** Request.Execute; a closed request reports ErrRequestClosed without a native call. */
    method Run(native: MainStage) returns (reservation: PendingHandle?, rejects: nat, err: bool)
      modifies this`log
      ensures log == old(log) + (if live then [NativeExecute] else [])
      ensures reservation != null <==> live && native.Accepted?
      ensures reservation != null ==> fresh(reservation) && reservation.View() == FreshHandle()
      ensures rejects == if live && native.RejectedWith? then native.count else 0
      ensures err <==> !live || native.Undecodable? || native.NativeError?
    {
      reservation, rejects, err := null, 0, false;
      if !live {
        return null, 0, true;
      }
      log := log + [NativeExecute];
      match native
      case NativeError => err := true;
      case Undecodable => err := true;
      case RejectedWith(n) => rejects := n;
      case Accepted => reservation := new PendingHandle();
    }

    method CloseIt()
      modifies this
      ensures !live && log == old(log) + (if old(live) then [NativeDestroy] else [])
    {
      if !live {
        return;
      }
      log := log + [NativeDestroy];
      live := false;
    }

    /** executeInner: the request is closed after the main stage whatever it returned. */
    method ExecuteInner(native: MainStage) returns (reservation: PendingHandle?, rejects: nat, err: bool)
      modifies this
      ensures !live && log == old(log) + (if old(live) then [NativeExecute, NativeDestroy] else [])
      ensures reservation != null <==> old(live) && native.Accepted?
      ensures reservation != null ==> fresh(reservation) && reservation.View() == FreshHandle()
      ensures rejects == if old(live) && native.RejectedWith? then native.count else 0
      ensures err <==> !old(live) || native.Undecodable? || native.NativeError?
    {
      reservation, rejects, err := Run(native);
      CloseIt();
    }

    /** executeRequestTask.run: a reservation reaches the caller live and untouched, or no reservation was made. */
    method ExecuteTask(native: MainStage) returns (reservation: PendingHandle?, r: Resolution)
      modifies this
      ensures !live && log == old(log) + (if old(live) then [NativeExecute, NativeDestroy] else [])
      ensures r.HandedOver? <==> old(live) && native.Accepted?
      ensures r.HandedOver? ==> reservation != null && fresh(reservation) && reservation.View() == FreshHandle()
      ensures !r.HandedOver? ==> reservation == null
      ensures r.Rejected? <==> old(live) && native.RejectedWith? && native.count > 0
      ensures r.TransportError? <==> !old(live) || native.Undecodable? || native.NativeError?
    {
      var rejects, err;
      reservation, rejects, err := ExecuteInner(native);
      r := ResolveDriverResult(reservation, rejects, err);
    }
  }
}
