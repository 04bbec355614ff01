/**
 Snapshot reads beside native finalization, for AsyncReservation and AsyncDropCopyOperation, whose protocols are
 the same. Readers and finalizers interleave one mutex body at a time.
 */
module ReaderFinalizer {
  import opened Sequences
  import opened Queues
  import opened Handles

  datatype Mode = Open | Finalizing | Shut

  /**
   What the wrapper's mutex protects. `waiter` is the channel a finalizer waits on; `woken` lists those closed so
   far.
   */
  datatype Gate = Gate(readers: nat, mode: Mode, closed: bool, waiter: Option<nat>, nextWait: nat, woken: seq<nat>)

  datatype Verdict = Admitted | TryLater | ClosedForGood

  function ReadVerdict(g: Gate): Verdict {
    if g.closed then ClosedForGood
    else match g.mode
         case Open => Admitted
         case Finalizing => TryLater
         case Shut => ClosedForGood
  }

  function ReadBegun(g: Gate): Gate {
    if ReadVerdict(g).Admitted? then g.(readers := g.readers + 1) else g
  }

  function ReadEnded(g: Gate): Gate
    requires g.readers > 0
  {
    var h := g.(readers := g.readers - 1);
    if h.readers == 0 && h.waiter.Some? then h.(woken := h.woken + [h.waiter.value], waiter := None) else h
  }

  /** The first mutex body of runInner. */
  function FinalizeBegun(g: Gate): Gate {
    var h := g.(mode := Finalizing);
    if h.readers != 0 then h.(waiter := Some(h.nextWait), nextWait := h.nextWait + 1) else h
  }

  /** Its deferred mutex body. */
  function FinalizeEnded(g: Gate, op: HandleOp): Gate {
    var closed := g.closed || Closes(op);
    g.(closed := closed, mode := if closed then Shut else Open)
  }

  datatype FinPc = Queued | Draining(wait: nat) | InNative | Settling | Finished

  datatype Finalizer = Finalizer(op: HandleOp, pc: FinPc)

  /** turn is lifecycleMu; done is the history of finished operations. */
  datatype Sync = Sync(gate: Gate, turn: Option<nat>, finalizers: seq<Finalizer>, inner: Handle, done: seq<HandleOp>)

  function Start(): Sync {
    Sync(Gate(0, Open, false, None, 0, []), None, [], FreshHandle(), [])
  }

  datatype Step =
    | CallFinalizer(op: HandleOp) | BeginRead | EndRead | Begin(f: nat) | Wake(f: nat) | Perform(f: nat) | End(f: nat)

  predicate FinAt(s: Sync, f: nat) {
    f < |s.finalizers|
  }

  predicate CanStep(s: Sync, a: Step) {
    match a
    case CallFinalizer(_) => true
    case BeginRead => true
    case EndRead => s.gate.readers > 0
    case Begin(f) => FinAt(s, f) && s.finalizers[f].pc.Queued? && s.turn.None?
    case Wake(f) => FinAt(s, f) && s.finalizers[f].pc.Draining? && s.finalizers[f].pc.wait in s.gate.woken
    case Perform(f) => FinAt(s, f) && s.finalizers[f].pc.InNative?
    case End(f) => FinAt(s, f) && s.finalizers[f].pc.Settling?
  }

  function AtPc(s: Sync, f: nat, pc: FinPc): Sync
    requires f < |s.finalizers|
  {
    s.(finalizers := s.finalizers[f := s.finalizers[f].(pc := pc)])
  }

  function Next(s: Sync, a: Step): Sync
    requires CanStep(s, a)
  {
    match a
    case CallFinalizer(op) => s.(finalizers := s.finalizers + [Finalizer(op, Queued)])
    case BeginRead => s.(gate := ReadBegun(s.gate))
    case EndRead => s.(gate := ReadEnded(s.gate))
    case Begin(f) =>
      AtPc(s.(turn := Some(f), gate := FinalizeBegun(s.gate)), f,
           if s.gate.readers != 0 then Draining(s.gate.nextWait) else InNative)
    case Wake(f) => AtPc(s, f, InNative)
    case Perform(f) => AtPc(s.(inner := Apply(s.inner, s.finalizers[f].op)), f, Settling)
    case End(f) =>
      var op := s.finalizers[f].op;
      AtPc(s.(gate := FinalizeEnded(s.gate, op), turn := None, done := s.done + [op]), f, Finished)
  }

  // ----- the invariant -----

  predicate Active(pc: FinPc) {
    pc.Draining? || pc.InNative? || pc.Settling?
  }

  /** At most one finalizer is past lifecycleMu, and the mode says whether one is. */
  ghost predicate TurnOk(s: Sync) {
    && (forall f :: 0 <= f < |s.finalizers| ==> (Active(s.finalizers[f].pc) <==> s.turn == Some(f)))
    && (s.turn.Some? ==> s.turn.value < |s.finalizers|)
    && s.gate.mode == if s.turn.Some? then Finalizing else if s.gate.closed then Shut else Open
  }

  /** A finalizer in the native call has no reader beside it, and one that waits for readers will be woken. */
  ghost predicate WaitOk(g: Gate, pc: FinPc) {
    match pc
    case Draining(w) => if g.waiter.Some? then g.waiter.value == w && g.readers > 0 else w in g.woken && g.readers == 0
    case InNative => g.readers == 0 && g.waiter.None?
    case Settling => g.readers == 0 && g.waiter.None?
    case _ => true
  }

  /** Each wait has its own channel, which is closed at most once. */
  ghost predicate ChannelsOk(g: Gate) {
    && NoDup(g.woken)
    && (forall w :: w in g.woken ==> w < g.nextWait)
    && (g.waiter.Some? ==> g.waiter.value < g.nextWait && g.waiter.value !in g.woken)
  }

  function Applied(s: Sync): seq<HandleOp> {
    s.done + (if s.turn.Some? && s.turn.value < |s.finalizers| && s.finalizers[s.turn.value].pc.Settling?
              then [s.finalizers[s.turn.value].op] else [])
  }

  ghost predicate SyncInv(s: Sync) {
    && TurnOk(s)
    && (if s.turn.Some? then WaitOk(s.gate, s.finalizers[s.turn.value].pc) else s.gate.waiter.None?)
    && ChannelsOk(s.gate)
    && (s.gate.closed <==> AnyCloses(s.done))
    && (s.gate.closed ==> s.gate.readers == 0)
    && s.inner == ApplyAll(FreshHandle(), Applied(s))
  }

  lemma NextGate(s: Sync, a: Step)
    requires SyncInv(s) && CanStep(s, a) && (a.CallFinalizer? || a.BeginRead? || a.EndRead?)
    ensures SyncInv(Next(s, a))
  {
  }

  lemma NextBegin(s: Sync, f: nat)
    requires SyncInv(s) && CanStep(s, Begin(f))
    ensures SyncInv(Next(s, Begin(f)))
  {
  }

  lemma NextWake(s: Sync, f: nat)
    requires SyncInv(s) && CanStep(s, Wake(f))
    ensures SyncInv(Next(s, Wake(f)))
  {
  }

  lemma NextPerform(s: Sync, f: nat)
    requires SyncInv(s) && CanStep(s, Perform(f))
    ensures SyncInv(Next(s, Perform(f)))
  {
    var t := Next(s, Perform(f));
    var op := s.finalizers[f].op;
    assert s.turn == Some(f);
    assert Applied(s) == s.done && Applied(t) == s.done + [op];
    assert Applied(t)[..|Applied(t)| - 1] == s.done;
  }

  lemma NextEnd(s: Sync, f: nat)
    requires SyncInv(s) && CanStep(s, End(f))
    ensures SyncInv(Next(s, End(f)))
  {
    var t := Next(s, End(f));
    var op := s.finalizers[f].op;
    assert s.turn == Some(f);
    assert Applied(t) == s.done + [op] == Applied(s);
    AnyClosesConcat(s.done, [op]);
    assert AnyCloses([op]) <==> Closes(op) by {
      assert [op][0] == op;
    }
  }

  lemma NextKeeps(s: Sync, a: Step)
    requires SyncInv(s) && CanStep(s, a)
    ensures SyncInv(Next(s, a))
  {
    match a
    case Begin(f) => NextBegin(s, f);
    case Wake(f) => NextWake(s, f);
    case Perform(f) => NextPerform(s, f);
    case End(f) => NextEnd(s, f);
    case CallFinalizer(_) => NextGate(s, a);
    case BeginRead => NextGate(s, a);
    case EndRead => NextGate(s, a);
  }

  ghost predicate IsRun(states: seq<Sync>, steps: seq<Step>) {
    && |states| == |steps| + 1 && states[0] == Start()
    && forall i {:trigger steps[i]} :: 0 <= i < |steps| ==>
         CanStep(states[i], steps[i]) && states[i + 1] == Next(states[i], steps[i])
  }

  lemma {:induction false} RunInv(states: seq<Sync>, steps: seq<Step>, n: nat)
    requires IsRun(states, steps) && n < |states|
    ensures SyncInv(states[n])
  {
    if n > 0 {
      RunInv(states, steps, n - 1);
      assert states[n] == Next(states[n - 1], steps[n - 1]);
      NextKeeps(states[n - 1], steps[n - 1]);
    }
  }

  // ----- what the protocol promises, over every interleaving -----

  /** Native finalization runs with no reader, one finalizer at a time, and no read is admitted beside a finalizer. */
  lemma FinalizationIsAlone(states: seq<Sync>, steps: seq<Step>, n: nat, f: nat, g: nat)
    requires IsRun(states, steps) && n < |states| && f < |states[n].finalizers| && g < |states[n].finalizers|
    ensures var s := states[n];
            && (s.finalizers[f].pc.InNative? ==> s.gate.readers == 0)
            && (Active(s.finalizers[f].pc) && Active(s.finalizers[g].pc) ==> f == g)
            && (Active(s.finalizers[f].pc) ==> !ReadVerdict(s.gate).Admitted?)
  {
    RunInv(states, steps, n);
    var s := states[n];
    assert Active(s.finalizers[f].pc) <==> s.turn == Some(f);
    assert Active(s.finalizers[g].pc) <==> s.turn == Some(g);
  }

  /**
   A read is admitted exactly when no finalizer is at work and none has closed; and an admitted read finds the handle
   alive.
   */
  lemma ReadsExactlyWhen(states: seq<Sync>, steps: seq<Step>, n: nat)
    requires IsRun(states, steps) && n < |states|
    ensures var s := states[n];
            && (ReadVerdict(s.gate).Admitted? <==>
                  (forall f :: 0 <= f < |s.finalizers| ==> !Active(s.finalizers[f].pc)) && !AnyCloses(s.done))
            && (ReadVerdict(s.gate).ClosedForGood? <==> AnyCloses(s.done))
            && (s.gate.readers > 0 ==> s.inner.live)
            && (ReadVerdict(s.gate).Admitted? ==> s.inner.live)
  {
    RunInv(states, steps, n);
    var s := states[n];
    HandleHistory(Applied(s));
    AnyClosesConcat(s.done, Applied(s)[|s.done|..]);
    assert Applied(s) == s.done + Applied(s)[|s.done|..];
    if s.turn.None? {
      assert Applied(s) == s.done;
    } else {
      assert Active(s.finalizers[s.turn.value].pc);
    }
  }

  /** Once a closing operation has finished, every later read is refused for good. */
  lemma {:induction false} RefusedForGood(states: seq<Sync>, steps: seq<Step>, m: nat, n: nat)
    requires IsRun(states, steps) && m <= n < |states| && AnyCloses(states[m].done)
    ensures ReadVerdict(states[n].gate).ClosedForGood?
    decreases n - m
  {
    RunInv(states, steps, m);
    if m < n {
      assert states[m + 1] == Next(states[m], steps[m]);
      if steps[m].End? {
        AnyClosesConcat(states[m].done, [states[m].finalizers[steps[m].f].op]);
      }
      RefusedForGood(states, steps, m + 1, n);
    }
  }

  /** Every wait has its channel closed at most once, and a finalizer never waits for readers that have all left. */
  lemma NoLostWait(states: seq<Sync>, steps: seq<Step>, n: nat, f: nat)
    requires IsRun(states, steps) && n < |states|
    ensures var s := states[n];
            && NoDup(s.gate.woken)
            && (f < |s.finalizers| && s.finalizers[f].pc.Draining? && s.gate.readers == 0 ==> CanStep(s, Wake(f)))
            && (s.turn.Some? ==> exists a :: CanStep(s, a) && !a.CallFinalizer? && !a.BeginRead?)
  {
    RunInv(states, steps, n);
    var s := states[n];
    if f < |s.finalizers| && s.finalizers[f].pc.Draining? {
      assert s.turn == Some(f);
    }
    if s.turn.Some? {
      var t := s.turn.value;
      assert Active(s.finalizers[t].pc);
      match s.finalizers[t].pc
      case Draining(w) => assert CanStep(s, if s.gate.readers > 0 then EndRead else Wake(t));
      case InNative => assert CanStep(s, Perform(t));
      case Settling => assert CanStep(s, End(t));
      case _ =>
    }
  }

  /** Composed with the handle: at most one commit or rollback and at most one destroy, however calls interleave. */
  lemma FinalizedOnce(states: seq<Sync>, steps: seq<Step>, n: nat)
    requires IsRun(states, steps) && n < |states|
    ensures var s := states[n];
            && multiset(s.inner.log)[NativeDestroy] == (if s.inner.live then 0 else 1)
            && multiset(s.inner.log)[NativeCommit] + multiset(s.inner.log)[NativeRollback] <= 1
            && (s.turn.None? ==> s.inner.log == LogOf(s.done))
  {
    RunInv(states, steps, n);
    var s := states[n];
    HandleHistory(Applied(s));
    LogCounts(Applied(s));
    if s.turn.None? {
      assert Applied(s) == s.done;
    }
  }

  // ----- the object -----

  class AsyncHandle {
    const inner: PendingHandle
    var readers: nat
    var mode: Mode
    var closed: bool
    var waiter: Option<nat>
    var nextWait: nat
    ghost var woken: seq<nat>

    ghost function View(): Gate
      reads this
    {
      Gate(readers, mode, closed, waiter, nextWait, woken)
    }

    constructor (inner: PendingHandle)
      ensures this.inner == inner && View() == Start().gate
    {
      this.inner := inner;
      readers, mode, closed, waiter, nextWait, woken := 0, Open, false, None, 0, [];
    }

    method BeginReading() returns (v: Verdict)
      modifies this
      ensures v == ReadVerdict(old(View())) && View() == ReadBegun(old(View()))
    {
      if closed {
        return ClosedForGood;
      }
      match mode
      case Open =>
        readers := readers + 1;
        return Admitted;
      case Finalizing => return TryLater;
      case Shut => return ClosedForGood;
    }

    method EndReading()
      requires readers > 0
      modifies this
      ensures View() == ReadEnded(old(View()))
    {
      readers := readers - 1;
      if readers == 0 && waiter.Some? {
        woken := woken + [waiter.value];
        waiter := None;
      }
    }

    /** The first mutex body of runInner, with the channel to wait on, if any. */
    method BeginFinalizing() returns (wait: Option<nat>)
      modifies this
      ensures View() == FinalizeBegun(old(View()))
      ensures wait == if readers != 0 then Some(old(nextWait)) else None
    {
      mode := Finalizing;
      wait := None;
      if readers != 0 {
        waiter := Some(nextWait);
        wait := waiter;
        nextWait := nextWait + 1;
      }
    }

    method EndFinalizing(op: HandleOp)
      modifies this
      ensures View() == FinalizeEnded(old(View()), op)
    {
      if Closes(op) {
        closed := true;
      }
      mode := if closed then Shut else Open;
    }

    /** Readers that were admitted before the finalizer end their reads, and the last one wakes it. */
    method AwaitReaders()
      requires mode.Finalizing? && (readers == 0 <==> waiter.None?)
      modifies this
      ensures readers == 0 && waiter.None? && mode == old(mode) && closed == old(closed) && nextWait == old(nextWait)
      ensures woken == old(woken) + (if old(waiter).Some? then [old(waiter).value] else [])
    {
      while readers > 0
        invariant mode == old(mode) && closed == old(closed) && nextWait == old(nextWait)
        invariant readers == 0 <==> waiter.None?
        invariant waiter.Some? ==> waiter == old(waiter) && woken == old(woken)
        invariant waiter.None? ==> woken == old(woken) + (if old(waiter).Some? then [old(waiter).value] else [])
        decreases readers
      {
        EndReading();
      }
    }

    /**
     runInner under lifecycleMu. Reads in progress end first, and their wait is closed once; the wrapper is closed
     afterwards exactly when the handle has been released.
     */
    method RunInner(op: HandleOp)
      requires waiter.None? && (closed <==> !inner.live)
      modifies this, inner
      ensures readers == 0 && waiter.None? && inner.View() == Apply(old(inner.View()), op)
      ensures woken == old(woken) + (if old(readers) > 0 then [old(nextWait)] else [])
      ensures (closed <==> old(closed) || Closes(op)) && (closed <==> !inner.live)
      ensures mode == if closed then Shut else Open
    {
      var wait := BeginFinalizing();
      AwaitReaders();
      inner.Perform(op);
      EndFinalizing(op);
    }
  }
}
