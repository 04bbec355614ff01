/** The failure handoff of closing calls: each hands over one release of its own key, and ends only after it. */
module DispatcherHandoff {
  import opened Queues
  import opened Lanes
  import opened Dispatcher
  import opened DispatcherFrame
  import opened DispatcherFence

  /** The call has ended, or is past its handoff, with an error. */
  predicate Failed(pc: SubmitPc) {
    (pc.Tested? && !pc.ok) || pc == Done(false)
  }

  predicate Lost(pc: SubmitPc) {
    pc == Ending(false) || pc.Refused? || Failed(pc)
  }

  /** While the call is registered, its release is not about to close the fence. */
  ghost predicate HandedOk(s: Submit, cleans: seq<Cleaner>) {
    && (s.handed.Some? ==>
          s.closing && Lost(s.pc) && s.handed.value < |cleans| && cleans[s.handed.value].key == s.key)
    && (s.closing && Failed(s.pc) ==>
          s.handed.Some? && s.handed.value < |cleans| && cleans[s.handed.value].pc.Returned?)
    && (Counts(s.pc) && s.handed.Some? && s.handed.value < |cleans| ==> !CleanOwes(cleans[s.handed.value]))
  }

  /** No release is handed over by two calls, and a failed closing call has seen its own one return. */
  ghost predicate HandOk(subs: seq<Submit>, cleans: seq<Cleaner>) {
    && (forall p :: 0 <= p < |subs| ==> HandedOk(subs[p], cleans))
    && (forall p, q :: 0 <= p < q < |subs| && subs[p].handed.Some? && subs[q].handed.Some? ==>
          subs[p].handed.value != subs[q].handed.value)
  }

  /** A release does not move on once it has returned, and comes to owe only by a decrement to zero. */
  ghost predicate OwesByZero(g: Sys, h: Sys, c: nat) {
    && c < |g.cleans| && c < |h.cleans| && !g.cleans[c].pc.Returned?
    && (CleanOwes(h.cleans[c]) ==> CleanCounts(g.cleans[c].pc) && g.ctl.inFlight == 1)
  }

  lemma SubmitHands(g: Sys, p: nat, a: SubmitAct, h: Sys)
    requires SubmitStep(g, p, a, h) && HandOk(g.subs, g.cleans)
    ensures HandOk(h.subs, h.cleans)
  {
    SubmitKeys(g, p, a, h);
    assert HandedOk(g.subs[p], g.cleans);
  }

  lemma CleanHands(g: Sys, c: nat, a: CleanAct, h: Sys)
    requires CleanStep(g, c, a, h) && HandOk(g.subs, g.cleans) && CtlOk(g.ctl, g.subs, g.cleans)
    ensures HandOk(h.subs, h.cleans)
  {
    CleanKeys(g, c, a, h);
    assert OwesByZero(g, h, c) by {
      hide CanEnqueue, CanFind, Enqueue, FreshLane, GuardRefused, HasLiveQueue, TakesCleanup, Target;
    }
    forall p | 0 <= p < |h.subs| ensures HandedOk(h.subs[p], h.cleans) {
      assert HandedOk(g.subs[p], g.cleans);
      if Counts(g.subs[p].pc) && CleanCounts(g.cleans[c].pc) {
        assert g.ctl.inFlight > 1 by {
          SubmitsInUpdate(g.subs, p, g.subs[p]);
          CleansAtUpdate(g.cleans, c, g.cleans[c], CleanCounts);
        }
      }
    }
  }

  lemma CallHands(g: Sys, m: Move, h: Sys)
    requires HandOk(g.subs, g.cleans)
    requires match m
             case SubmitCall(key, closing) => h == NewSubmit(g, key, closing)
             case CleanCall(p) => CanNewCleanup(g, p) && h == NewCleanup(g, p)
             case _ => false
    ensures HandOk(h.subs, h.cleans)
  {
    assert forall q :: 0 <= q < |g.subs| ==> HandedOk(g.subs[q], g.cleans);
  }

  lemma OthersHand(g: Sys, m: Move, h: Sys)
    requires MoveKeeps(g, m, h) && (m.WorkerMove? || m.SectionMove? || m.StopMove? || m.StopCall?)
    requires HandOk(g.subs, g.cleans)
    ensures HandOk(h.subs, h.cleans)
  {
    hide Failed, Lost, Counts, SameStop, SameStage;
    forall p | 0 <= p < |h.subs| ensures HandedOk(h.subs[p], h.cleans) {
      assert HandedOk(g.subs[p], g.cleans);
    }
  }

  lemma HandKept(g: Sys, m: Move, h: Sys)
    requires Steps(g, m, h) && HandOk(g.subs, g.cleans) && CtlOk(g.ctl, g.subs, g.cleans)
    ensures HandOk(h.subs, h.cleans)
  {
    hide *;
    StepOf(g, m, h);
    match m
    case SubmitMove(p, a) => SubmitHands(g, p, a, h);
    case CleanMove(c, a) => CleanHands(g, c, a, h);
    case SubmitCall(_, _) => CallHands(g, m, h);
    case CleanCall(_) => CallHands(g, m, h);
    case _ =>
      MoveKeys(g, m, h);
      OthersHand(g, m, h);
  }
}
