/** The submit fence: who is counted in flight, and what the closed fence is worth. */
module DispatcherFence {
  import opened RoutingKeys
  import opened Queues
  import opened Lanes
  import opened LaneFrame
  import opened Dispatcher
  import opened DispatcherFrame

  // ----- counting registered callers -----

  predicate Counts(pc: SubmitPc) {
    pc.Begun? || pc.AtGuard? || pc.Found? || pc.InLane? || pc.Ending?
  }

  predicate CleanCounts(pc: CleanPc) {
    pc.RegLane? || pc.RegLimit? || pc.Guarding? || pc.EndingReg?
  }

  function SubmitsIn(subs: seq<Submit>): nat {
    if subs == [] then 0
    else SubmitsIn(subs[..|subs| - 1]) + (if Counts(subs[|subs| - 1].pc) then 1 else 0)
  }

  /** How many releases are at a position that f picks out. */
  function CleansAt(cleans: seq<Cleaner>, f: CleanPc -> bool): nat {
    if cleans == [] then 0
    else CleansAt(cleans[..|cleans| - 1], f) + (if f(cleans[|cleans| - 1].pc) then 1 else 0)
  }

  lemma {:induction false} SubmitsInUpdate(subs: seq<Submit>, p: nat, x: Submit)
    requires p < |subs|
    ensures SubmitsIn(subs[p := x]) ==
            SubmitsIn(subs) - (if Counts(subs[p].pc) then 1 else 0) + (if Counts(x.pc) then 1 else 0)
    ensures Counts(subs[p].pc) ==> SubmitsIn(subs) > 0
  {
    var n := |subs| - 1;
    if p == n {
      assert subs[p := x][..n] == subs[..n];
    } else {
      assert subs[p := x][..n] == subs[..n][p := x];
      SubmitsInUpdate(subs[..n], p, x);
    }
  }

  lemma {:induction false} CleansAtUpdate(cleans: seq<Cleaner>, c: nat, x: Cleaner, f: CleanPc -> bool)
    requires c < |cleans|
    ensures CleansAt(cleans[c := x], f) ==
            CleansAt(cleans, f) - (if f(cleans[c].pc) then 1 else 0) + (if f(x.pc) then 1 else 0)
    ensures f(cleans[c].pc) ==> CleansAt(cleans, f) > 0
  {
    var n := |cleans| - 1;
    if c == n {
      assert cleans[c := x][..n] == cleans[..n];
    } else {
      assert cleans[c := x][..n] == cleans[..n][c := x];
      CleansAtUpdate(cleans[..n], c, x, f);
    }
  }

  lemma {:induction false} CleansAtNone(cleans: seq<Cleaner>, f: CleanPc -> bool)
    requires CleansAt(cleans, f) == 0
    ensures forall c :: 0 <= c < |cleans| ==> !f(cleans[c].pc)
  {
    if cleans != [] {
      CleansAtNone(cleans[..|cleans| - 1], f);
    }
  }

  predicate SubmitOwes(s: Submit) {
    s.pc.Tested? && s.pc.zero
  }

  predicate CleanOwes(c: Cleaner) {
    c.pc.TestedReg? && c.pc.zero
  }

  /** After stop, an open fence is still owed its closing: by a registered caller, or by one about to test. */
  ghost predicate FenceOwed(ctl: Ctl, subs: seq<Submit>, cleans: seq<Cleaner>) {
    ctl.stopped && !ctl.fence ==>
      || ctl.inFlight > 0
      || (exists p :: 0 <= p < |subs| && SubmitOwes(subs[p]))
      || (exists c :: 0 <= c < |cleans| && CleanOwes(cleans[c]))
  }

  /**
   inFlight counts exactly the callers between beginSubmit and endSubmit, the fence closes over one of them only when
   `loose` says so, and after stop somebody is left to close it.
   */
  ghost predicate CtlOk(ctl: Ctl, subs: seq<Submit>, cleans: seq<Cleaner>) {
    && ctl.inFlight == SubmitsIn(subs) + CleansAt(cleans, CleanCounts)
    && (ctl.fence ==> ctl.stopped)
    && (ctl.loose ==> ctl.fence)
    && (ctl.fence && ctl.inFlight > 0 ==> ctl.loose)
    && FenceOwed(ctl, subs, cleans)
  }

  /**
   A caller is counted in flight exactly while it is registered; who decrements to zero owes the closing of the fence
   until it has tested.
   */
  ghost predicate Registers(c: Ctl, d: Ctl, was: bool, now: bool, owed: bool, owes: bool) {
    && d.stopped == c.stopped
    && (if was == now then d == c || (!now && (d == TestFence(c, true) || d == TestFence(c, false)))
        else if now then !c.stopped && d == Register(c)
        else c.inFlight > 0 && d == Deregister(c) && (d.inFlight == 0 ==> owes))
    && (owed && d.stopped && !d.fence ==> owes)
  }

  lemma SubmitCtl(g: Sys, p: nat, a: SubmitAct, h: Sys)
    requires SubmitStep(g, p, a, h) && CtlOk(g.ctl, g.subs, g.cleans)
    ensures CtlOk(h.ctl, h.subs, h.cleans)
  {
    hide Enter, Leave, Send, Abandon, CanEnter, CanLeave, CanSend, CanAbandon, CanFind, Target, FreshLane, HandedOff;
    hide SubmitsIn, CleansAt;
    SubmitKeys(g, p, a, h);
    var s, t := g.subs[p], h.subs[p];
    assert Registers(g.ctl, h.ctl, Counts(s.pc), Counts(t.pc), SubmitOwes(s), SubmitOwes(t));
    SubmitsInUpdate(g.subs, p, h.subs[p]);
    OwedByOthers(g, h);
  }

  ghost predicate ReleaseRegisters(g: Sys, c: nat, h: Sys) {
    && c < |g.cleans| && c < |h.cleans|
    && Registers(g.ctl, h.ctl, CleanCounts(g.cleans[c].pc), CleanCounts(h.cleans[c].pc),
                 CleanOwes(g.cleans[c]), CleanOwes(h.cleans[c]))
  }

  lemma CleanRegisters(g: Sys, c: nat, a: CleanAct, h: Sys)
    requires CleanStep(g, c, a, h)
    ensures ReleaseRegisters(g, c, h)
  {
    hide Enqueue, CanEnqueue, TakesCleanup, CanFind, Target, FreshLane, HasLiveQueue, GuardRefused, AdmissionOf;
  }

  lemma CleanCtl(g: Sys, c: nat, a: CleanAct, h: Sys)
    requires CleanStep(g, c, a, h) && CtlOk(g.ctl, g.subs, g.cleans)
    ensures CtlOk(h.ctl, h.subs, h.cleans)
  {
    hide CleanStep, CanClean, DoClean, CleanCounts, SubmitsIn, CleansAt;
    CleanKeys(g, c, a, h);
    CleanRegisters(g, c, a, h);
    CleansAtUpdate(g.cleans, c, h.cleans[c], CleanCounts);
    OwedByOthers(g, h);
  }

  /** A change of place alone does not change who is counted. */
  lemma {:induction false} CleansAtSame(a: seq<Cleaner>, b: seq<Cleaner>, f: CleanPc -> bool)
    requires |a| == |b| && forall d :: 0 <= d < |a| ==> b[d].pc == a[d].pc
    ensures CleansAt(a, f) == CleansAt(b, f)
  {
    if a != [] {
      CleansAtSame(a[..|a| - 1], b[..|b| - 1], f);
    }
  }

  lemma CallCtl(g: Sys, m: Move, h: Sys)
    requires CtlOk(g.ctl, g.subs, g.cleans)
    requires match m
             case SubmitCall(key, closing) => h == NewSubmit(g, key, closing)
             case CleanCall(p) => CanNewCleanup(g, p) && h == NewCleanup(g, p)
             case StopCall(hard) => h == NewStop(g, hard)
             case _ => false
    ensures CtlOk(h.ctl, h.subs, h.cleans)
  {
    if m.SubmitCall? {
      assert h.subs[..|h.subs| - 1] == g.subs;
    } else if m.CleanCall? {
      SubmitsInUpdate(g.subs, m.p, h.subs[m.p]);
      assert h.cleans[..|h.cleans| - 1] == g.cleans;
    }
    OwedByOthers(g, h);
  }

  lemma OthersCtl(g: Sys, m: Move, h: Sys)
    requires MoveKeeps(g, m, h) && (m.WorkerMove? || m.SectionMove? || m.StopMove?) && CtlOk(g.ctl, g.subs, g.cleans)
    ensures CtlOk(h.ctl, h.subs, h.cleans)
  {
    hide SameStage, SubmitsIn, CleansAt;
    CleansAtSame(g.cleans, h.cleans, CleanCounts);
    OwedByOthers(g, h);
  }

  /** Who owed the closing of the fence still does, unless that has been passed on. */
  lemma OwedByOthers(g: Sys, h: Sys)
    requires FenceOwed(g.ctl, g.subs, g.cleans) && |g.subs| <= |h.subs| && |g.cleans| <= |h.cleans|
    requires h.ctl.stopped && !h.ctl.fence && h.ctl.inFlight == 0 && g.ctl.inFlight == 0 ==>
               && g.ctl.stopped && !g.ctl.fence
               && (forall p :: 0 <= p < |g.subs| && SubmitOwes(g.subs[p]) ==> SubmitOwes(h.subs[p]))
               && (forall c :: 0 <= c < |g.cleans| && CleanOwes(g.cleans[c]) ==> CleanOwes(h.cleans[c]))
    requires h.ctl.inFlight == 0 && g.ctl.inFlight > 0 ==>
               (exists p :: 0 <= p < |h.subs| && SubmitOwes(h.subs[p]))
               || (exists c :: 0 <= c < |h.cleans| && CleanOwes(h.cleans[c]))
    ensures FenceOwed(h.ctl, h.subs, h.cleans)
  {
  }

  lemma CtlKept(g: Sys, m: Move, h: Sys)
    requires Steps(g, m, h) && CtlOk(g.ctl, g.subs, g.cleans)
    ensures CtlOk(h.ctl, h.subs, h.cleans)
  {
    hide *;
    StepOf(g, m, h);
    match m
    case SubmitMove(p, a) => SubmitCtl(g, p, a, h);
    case CleanMove(c, a) => CleanCtl(g, c, a, h);
    case SubmitCall(_, _) => CallCtl(g, m, h);
    case CleanCall(_) => CallCtl(g, m, h);
    case StopCall(_) => CallCtl(g, m, h);
    case _ =>
      MoveKeys(g, m, h);
      OthersCtl(g, m, h);
  }

  // ----- producers and lanes agree -----

  ghost predicate SubOk(lanes: seq<Lane>, p: nat, s: Submit) {
    match s.pc
    case Found(i) => i < |lanes| && Serves(lanes[i].route, s.key)
    case InLane(i) => i < |lanes| && p in lanes[i].inside
    case _ => true
  }

  ghost predicate InsideOk(l: Lane, i: nat, subs: seq<Submit>) {
    forall p :: p in l.inside ==> p < |subs| && subs[p].key == l.inside[p].key && subs[p].pc == InLane(i)
  }

  /** A producer is inside a lane exactly when its submit call says so. */
  ghost predicate SubsOk(lanes: seq<Lane>, subs: seq<Submit>) {
    && (forall p :: 0 <= p < |subs| ==> SubOk(lanes, p, subs[p]))
    && (forall i :: 0 <= i < |lanes| ==> InsideOk(lanes[i], i, subs))
  }

  predicate LeavesProducers(lm: LaneMove) {
    lm.OneLane? ==> !MovesProducer(lm.s)
  }

  lemma SubsStayedPut(lanes: seq<Lane>, subs: seq<Submit>, i: nat, m: Lane)
    requires SubsOk(lanes, subs) && i < |lanes| && SameInside(lanes[i], m) && m.route == lanes[i].route
    ensures SubsOk(lanes[i := m], subs)
  {
  }

  lemma SubsNewLane(lanes: seq<Lane>, subs: seq<Submit>, l: Lane)
    requires SubsOk(lanes, subs) && l.inside == map[]
    ensures SubsOk(lanes + [l], subs)
  {
  }

  /** A call outside every lane may change its own position freely among such positions. */
  lemma SubsMoveOutside(lanes: seq<Lane>, subs: seq<Submit>, p: nat, pc: SubmitPc)
    requires SubsOk(lanes, subs) && p < |subs| && !subs[p].pc.InLane? && !pc.InLane?
    requires pc.Found? ==> pc.lane < |lanes| && Serves(lanes[pc.lane].route, subs[p].key)
    ensures SubsOk(lanes, subs[p := subs[p].(pc := pc)])
  {
  }

  lemma SubsEnter(lanes: seq<Lane>, subs: seq<Submit>, p: nat, i: nat, m: Lane)
    requires SubsOk(lanes, subs) && p < |subs| && i < |lanes| && !subs[p].pc.InLane?
    requires m.route == lanes[i].route && m.inside == lanes[i].inside[p := Inside(subs[p].key, AtFence)]
    ensures SubsOk(lanes[i := m], subs[p := subs[p].(pc := InLane(i))])
  {
  }

  lemma SubsExit(lanes: seq<Lane>, subs: seq<Submit>, p: nat, m: Lane, pc: SubmitPc)
    requires SubsOk(lanes, subs) && p < |subs| && subs[p].pc.InLane? && subs[p].pc.lane < |lanes|
    requires m.route == lanes[subs[p].pc.lane].route && m.inside == lanes[subs[p].pc.lane].inside - {p}
    requires !pc.InLane? && !pc.Found?
    ensures SubsOk(lanes[subs[p].pc.lane := m], subs[p := subs[p].(pc := pc)])
  {
  }

  lemma SubmitExits(g: Sys, p: nat, a: SubmitAct, h: Sys)
    requires SubmitStep(g, p, a, h) && SubsOk(g.lanes, g.subs) && (a.LeaveLane? || a.AbandonLane? || a.SendLane?)
    ensures SubsOk(h.lanes, h.subs)
  {
    var i := g.subs[p].pc.lane;
    var pc := h.subs[p].pc;
    assert SubOk(g.lanes, p, g.subs[p]);
    match a
    case LeaveLane(_) => SubsExit(g.lanes, g.subs, p, h.lanes[i], pc);
    case AbandonLane(_) => SubsExit(g.lanes, g.subs, p, h.lanes[i], pc);
    case SendLane =>
      if h.lanes[i].panicked {
        SubsStayedPut(g.lanes, g.subs, i, h.lanes[i]);
      } else {
        SubsExit(g.lanes, g.subs, p, h.lanes[i], pc);
      }
  }

  lemma SubmitSubs(g: Sys, p: nat, a: SubmitAct, h: Sys)
    requires SubmitStep(g, p, a, h) && SubsOk(g.lanes, g.subs)
    requires LanesOk(g.cfg, g.lanes) && KeysPlain(g.subs, g.cleans) && RoutesOk(g.cfg, g.lanes, g.reg)
    ensures SubsOk(h.lanes, h.subs)
  {
    assert SubOk(g.lanes, p, g.subs[p]);
    match a
    case EnterLane =>
      var i := g.subs[p].pc.lane;
      SubsEnter(g.lanes, g.subs, p, i, SubmitEnter(g, p).lanes[i]);
    case LeaveLane(_) => SubmitExits(g, p, a, h);
    case AbandonLane(_) => SubmitExits(g, p, a, h);
    case SendLane => SubmitExits(g, p, a, h);
    case Create =>
      SubsNewLane(g.lanes, g.subs, FreshLane(g, g.subs[p].key));
      SubsMoveOutside(g.lanes + [FreshLane(g, g.subs[p].key)], g.subs, p, Found(|g.lanes|));
    case Find =>
      FoundServes(g, g.subs[p].key);
      SubsMoveOutside(g.lanes, g.subs, p, Found(Target(g, g.subs[p].key)));
    case Halt => SubsMoveOutside(g.lanes, g.subs, p, Ending(false));
    case Limit => SubsMoveOutside(g.lanes, g.subs, p, Ending(false));
    case TurnBack => SubsMoveOutside(g.lanes, g.subs, p, Begun);
    case ParkAtGuard => SubsMoveOutside(g.lanes, g.subs, p, AtGuard(g.reg.guards[g.subs[p].key]));
    case LeaveGuard => SubsMoveOutside(g.lanes, g.subs, p, Begun);
    case EndSubmit => SubsMoveOutside(g.lanes, g.subs, p, SubmitEnd(g, p).subs[p].pc);
    case TestSubmit => SubsMoveOutside(g.lanes, g.subs, p, SubmitTest(g, p).subs[p].pc);
    case ReturnRefused => SubsMoveOutside(g.lanes, g.subs, p, Done(false));
  }

  /** The map of live queues names lanes of the right key. */
  ghost predicate RoutesOk(cfg: Config, lanes: seq<Lane>, reg: Registry) {
    cfg.dynamic ==>
      forall k :: k in reg.queues ==>
        reg.queues[k] < |lanes| && lanes[reg.queues[k]].route == Only(k) && !lanes[reg.queues[k]].q.retired
  }

  lemma FoundServes(g: Sys, key: Key)
    requires LanesOk(g.cfg, g.lanes) && RoutesOk(g.cfg, g.lanes, g.reg) && CanFind(g, key)
    ensures Target(g, key) < |g.lanes| && Serves(g.lanes[Target(g, key)].route, key)
  {
  }

  lemma SubmitCallSubs(g: Sys, key: Key, closing: bool)
    requires SubsOk(g.lanes, g.subs)
    ensures SubsOk(NewSubmit(g, key, closing).lanes, NewSubmit(g, key, closing).subs)
  {
  }

  lemma CleanCallSubs(g: Sys, p: nat)
    requires CanNewCleanup(g, p) && SubsOk(g.lanes, g.subs)
    ensures SubsOk(NewCleanup(g, p).lanes, NewCleanup(g, p).subs)
  {
    assert SubOk(g.lanes, p, g.subs[p]);
  }

  lemma OtherSubs(g: Sys, m: Move, h: Sys)
    requires Steps(g, m, h) && !m.SubmitMove? && !m.SubmitCall? && !m.CleanCall? && SubsOk(g.lanes, g.subs)
    ensures SubsOk(h.lanes, g.subs)
  {
    hide Do, Can, CanStep, Step, SubsOk, SameInside, SameGate, MovesProducer;
    LanesAfter(g, m, h);
    SubsUntouched(g, m, h);
    if Creates(m) {
      SubsNewLane(g.lanes, g.subs, FreshLane(g, CreatedKey(g, m)));
    } else if LaneOf(g, m).OneLane? {
      var i, s := LaneOf(g, m).i, LaneOf(g, m).s;
      StepFixed(g.lanes[i], Sig(g.ctl), s);
      SubsStayedPut(g.lanes, g.subs, i, Step(g.lanes[i], Sig(g.ctl), s));
    }
  }

  lemma SubsKept(g: Sys, m: Move, h: Sys)
    requires Steps(g, m, h) && SubsOk(g.lanes, g.subs)
    requires LanesOk(g.cfg, g.lanes) && KeysPlain(g.subs, g.cleans) && RoutesOk(g.cfg, g.lanes, g.reg)
    ensures SubsOk(h.lanes, h.subs)
  {
    hide *;
    StepOf(g, m, h);
    match m
    case SubmitMove(p, a) => SubmitSubs(g, p, a, h);
    case SubmitCall(key, closing) => SubmitCallSubs(g, key, closing);
    case CleanCall(p) => CleanCallSubs(g, p);
    case _ =>
      SubsUntouched(g, m, h);
      OtherSubs(g, m, h);
  }

  lemma SubsUntouched(g: Sys, m: Move, h: Sys)
    requires Steps(g, m, h) && !m.SubmitMove? && !m.SubmitCall? && !m.CleanCall?
    ensures h.subs == g.subs && LeavesProducers(LaneOf(g, m))
  {
    hide Steps, Can, Do, MovesProducer, Entering, WorkStep;
    MoveKeys(g, m, h);
    if m.WorkerMove? {
      QuietWork(g, m, h);
    } else {
      NoProducer(g, m);
    }
  }

  lemma NoProducer(g: Sys, m: Move)
    requires !m.SubmitMove? && !m.WorkerMove?
    ensures LeavesProducers(LaneOf(g, m))
  {
  }

  lemma QuietWork(g: Sys, m: Move, h: Sys)
    requires Steps(g, m, h) && m.WorkerMove?
    ensures LeavesProducers(LaneOf(g, m))
  {
    hide Do, DoWorker, CanSubmit, CanClean, CanSection, CanStop, Alive, CanStep;
  }
}
