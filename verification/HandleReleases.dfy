/** A handle across the whole engine: what its calls come to, and that a stop leaves no closing call undone. */
module HandleReleases {
  import opened Queues
  import opened Dispatcher
  import opened DispatcherFifo
  import opened DispatcherTheorems
  import opened DispatcherHandoff
  import Handles

  /** An operation on the handle, and the submit call that carries it. */
  datatype Use = Use(call: nat, op: Handles.HandleOp)

  /** The call of a use has returned; it was a closing call exactly if its operation closes the handle. */
  ghost predicate HasReturned(g: Sys, u: Use) {
    u.call < |g.subs| && g.subs[u.call].pc.Done? && (g.subs[u.call].closing <==> Handles.Closes(u.op))
  }

  ghost predicate AllReturned(g: Sys, uses: seq<Use>) {
    forall i :: 0 <= i < |uses| ==> HasReturned(g, uses[i])
  }

  /** How the engine ended a call. */
  ghost function FateOf(g: Sys, p: nat): Handles.CallFate {
    if p < |g.subs| && SentPc(g.subs[p].pc) then
      if Outcome(Msg(p, g.subs[p].key), true) in g.finished then Handles.Aborted else Handles.Ran
    else Handles.SubmitFailed
  }

  ghost function CallsOf(g: Sys, uses: seq<Use>): seq<Handles.HandleCall> {
    seq(|uses|, i requires 0 <= i < |uses| => Handles.HandleCall(uses[i].op, FateOf(g, uses[i].call)))
  }

  /** How often a call's work was done: by its task, run or aborted, or by the release that its failure handed over. */
  ghost function TimesDone(g: Sys, p: nat): nat {
    if p < |g.subs| then
      TimesFinished(g, Msg(p, g.subs[p].key))
      + (if g.subs[p].handed.Some? then multiset(g.begun)[g.subs[p].handed.value] else 0)
    else 0
  }

  /** The release of a failed closing call is over. */
  ghost predicate HandoffIsOver(g: Sys, p: nat) {
    p < |g.subs| && g.subs[p].handed.Some? ==>
      g.subs[p].handed.value < |g.cleans| && g.cleans[g.subs[p].handed.value].place.Released?
  }

  ghost predicate ClosingReturned(g: Sys, p: nat) {
    p < |g.subs| && g.subs[p].closing && g.subs[p].pc.Done?
  }

  /** After a successful stop every closing call that returned has had its work done exactly once. */
  lemma ClosingCallIsDoneOnce(g: Sys, p: nat)
    requires Reachable(g) && g.life.sealed && ClosingReturned(g, p)
    ensures TimesDone(g, p) == 1 && HandoffIsOver(g, p)
  {
    hide Reachable;
    ReachableHands(g);
    assert HandedOk(g.subs[p], g.cleans);
    TaskFate(g, p);
    if g.subs[p].pc.ok {
      StopSettlesEveryTask(g, p);
    } else {
      StopReleasesEveryHandle(g, g.subs[p].handed.value);
    }
  }

  // ----- what reached the handle -----

  /** Some operations, n times over. */
  function Times(n: nat, ops: seq<Handles.HandleOp>): seq<Handles.HandleOp> {
    if n == 0 then [] else Times(n - 1, ops) + ops
  }

  /** What the use's task did to the handle: once for each time that a worker ran it or aborted it. */
  ghost function ByTask(g: Sys, u: Use, m: Msg): seq<Handles.HandleOp> {
    Times(multiset(g.finished)[Outcome(m, false)], Handles.Effect(u.op, Handles.Ran))
    + Times(multiset(g.finished)[Outcome(m, true)], Handles.Effect(u.op, Handles.Aborted))
  }

  /** What the release that the call handed over did to it: a close for each time that it was begun. */
  ghost function ByRelease(g: Sys, handed: Option<nat>): seq<Handles.HandleOp> {
    if handed.Some? then Times(multiset(g.begun)[handed.value], [Handles.Close]) else []
  }

  /** What the engine did to the handle on account of one use. */
  ghost function DoneFor(g: Sys, u: Use): seq<Handles.HandleOp> {
    if u.call < |g.subs| then
      ByTask(g, u, Msg(u.call, g.subs[u.call].key)) + ByRelease(g, g.subs[u.call].handed)
    else []
  }

  ghost function DoneForAll(g: Sys, uses: seq<Use>): seq<Handles.HandleOp> {
    if uses == [] then []
    else DoneForAll(g, uses[..|uses| - 1]) + DoneFor(g, uses[|uses| - 1])
  }

  /** The native handle after all that the engine did to it, its uses taken in any order. */
  ghost function NativeHandle(g: Sys, uses: seq<Use>): Handles.Handle {
    Handles.ApplyAll(Handles.FreshHandle(), DoneForAll(g, uses))
  }

  lemma TimesFew(ops: seq<Handles.HandleOp>)
    ensures Times(0, ops) == [] && Times(1, ops) == ops
  {
    assert Times(1, ops) == Times(0, ops) + ops;
  }

  /** The use's task finished t times, run or aborted, and its release was begun r times. */
  ghost predicate Came(g: Sys, u: Use, t: nat, r: nat) {
    u.call < |g.subs| && TimesFinished(g, Msg(u.call, g.subs[u.call].key)) == t
    && (if g.subs[u.call].handed.Some? then multiset(g.begun)[g.subs[u.call].handed.value] else 0) == r
  }

  /** What the engine did for a call is what the call's fate promises. */
  lemma DoneAsFated(g: Sys, u: Use)
    requires Reachable(g) && g.life.sealed && HasReturned(g, u)
    ensures DoneFor(g, u) == Handles.Effect(u.op, FateOf(g, u.call))
  {
    hide Reachable;
    assert if SentPc(g.subs[u.call].pc) then Came(g, u, 1, 0)
           else Came(g, u, 0, if Handles.Closes(u.op) then 1 else 0) by {
      ReachableHands(g);
      assert HandedOk(g.subs[u.call], g.cleans);
      TaskFate(g, u.call);
      if SentPc(g.subs[u.call].pc) {
        StopSettlesEveryTask(g, u.call);
      } else if Handles.Closes(u.op) {
        StopReleasesEveryHandle(g, g.subs[u.call].handed.value);
      }
    }
    var m := Msg(u.call, g.subs[u.call].key);
    OutcomesCount(g.finished, m);
    TimesFew(Handles.Effect(u.op, Handles.Ran));
    TimesFew(Handles.Effect(u.op, Handles.Aborted));
    TimesFew([Handles.Close]);
  }

  lemma {:induction false} AllDoneAsFated(g: Sys, uses: seq<Use>)
    requires Reachable(g) && g.life.sealed && AllReturned(g, uses)
    ensures DoneForAll(g, uses) == Handles.Effects(CallsOf(g, uses))
  {
    hide Reachable, DoneFor, FateOf, HasReturned;
    if uses != [] {
      var n := |uses| - 1;
      AllDoneAsFated(g, uses[..n]);
      DoneAsFated(g, uses[n]);
      assert CallsOf(g, uses)[..n] == CallsOf(g, uses[..n]);
    }
  }

  ghost predicate ClosesAny(uses: seq<Use>) {
    exists i :: 0 <= i < |uses| && Handles.Closes(uses[i].op)
  }

  /**
   After a successful stop, what workers and releases did to a handle is what the fates of its calls promise, each
   effect once: its native log holds the commit or rollback of the first call to reach it, if that ran, and a destroy
   exactly if one of the calls was a closing one; it lives on otherwise.
   */
  lemma StopDestroysEveryHandleOnce(g: Sys, uses: seq<Use>)
    requires Reachable(g) && g.life.sealed && AllReturned(g, uses)
    ensures DoneForAll(g, uses) == Handles.Effects(CallsOf(g, uses))
    ensures NativeHandle(g, uses).log == Handles.LogFor(CallsOf(g, uses))
    ensures NativeHandle(g, uses).live <==> !ClosesAny(uses)
    ensures multiset(NativeHandle(g, uses).log)[Handles.NativeDestroy] == if ClosesAny(uses) then 1 else 0
  {
    hide Reachable, FateOf, HasReturned, Handles.LogFor, DoneFor;
    AllDoneAsFated(g, uses);
    Handles.ClosingCallReleases(CallsOf(g, uses));
    var calls := CallsOf(g, uses);
    assert ClosesAny(uses) <==> Handles.CallCloses(calls) by {
      if i :| 0 <= i < |uses| && Handles.Closes(uses[i].op) {
        assert Handles.Closes(calls[i].op);
      }
    }
  }
}
