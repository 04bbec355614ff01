/** What a busy seal leads to, for every one of them: a second worker on the key. */
module DispatcherBusySeal {
  import opened RoutingKeys
  import opened Queues
  import opened Lanes
  import LaneTheorems
  import Tickets
  import opened Dispatcher
  import opened DispatcherFrame
  import opened DispatcherFence
  import opened DispatcherRegistry
  import opened DispatcherStop
  import opened DispatcherPlaces
  import opened DispatcherSection
  import opened DispatcherFifo
  import opened DispatcherHandoff
  import opened DispatcherTheorems
  import opened DispatcherRuns

  // ----- what the seal leaves -----

  /** Lane i, whose key is `key`, has been sealed over a release. */
  ghost predicate MissesRelease(g: Sys, i: nat, key: Key) {
    && i < |g.lanes| && g.lanes[i].route == Only(key)
    && Can(g, WorkerMove(i, SealIdle)) && SealsBusy(g, WorkerMove(i, SealIdle), i)
  }

  /** Lane i is about to be sealed, and a release has come to it since it was found idle. */
  ghost predicate AboutToMiss(g: Sys, i: nat, key: Key) {
    Alive(g) && CanRetireSeal(g, i) && g.lanes[i].q.pending != 0 && g.lanes[i].route == Only(key)
  }

  lemma MissedSeal(g: Sys, i: nat, key: Key)
    requires MissesRelease(g, i, key)
    ensures AboutToMiss(g, i, key)
  {
    hide Step, CanStep;
  }

  /** The parts of the invariant that a seal rests on. */
  ghost predicate SealParts(g: Sys) {
    && LanesOk(g.cfg, g.lanes) && RegOk(g) && OffLaneOk(g.cfg, g.reg, g.life, g.sec)
    && LanesSec(g.lanes, g.sec, g.ctl.stopped)
    && GoodConfig(g.cfg) && (g.ctl.fence ==> g.ctl.stopped)
  }

  /** Lane i runs a release of the key; the key has no queue, no guard, and may have a new lane. */
  ghost predicate Clear(g: Sys, i: nat, key: Key) {
    && Alive(g) && g.cfg.dynamic && g.cfg.cap > 0 && !g.ctl.stopped && !IsBarrierKey(key)
    && i < |g.lanes| && g.lanes[i].worker.Cleanup? && g.lanes[i].worker.entry.key == key
    && NeedsQueue(g, key) && BelowLimit(g) && !g.sec.active
  }

  /** A busy seal seals a lane on which a release is running, before any stop; the key may have a new lane at once. */
  lemma SealsClear(g: Sys, i: nat, key: Key)
    requires AboutToMiss(g, i, key) && SealParts(g)
    ensures Clear(RetireSeal(g, i), i, key) && !g.ctl.hard
  {
    assert LaneFits(g.cfg, g.lanes[i], i) && LaneSec(g.lanes[i], i, g.sec, g.ctl.stopped);
    LaneTheorems.SealedIdleExactlyWhenPendingIsZero(g.lanes[i]);
    assert (g.reg.queues - {key}).Keys == g.reg.queues.Keys - {key};
  }

  lemma PartsOfSeal(g: Sys)
    requires Inv(g) && GoodConfig(g.cfg)
    ensures SealParts(g)
  {
    hide LanesOk, KeysPlain, SubsOk, RegOk, LifeOk, StopOk, PlacesOk, LogOk, AcceptedOk, AbortOk, PanicOk, HandOk;
    hide SetsOk, OffLaneOk, DeferredOk, LanesSec, GoodConfig;
  }

  // ----- a second worker on the key -----

  /** Lane i still runs the release, and lane n of the same key is l; submit call p of the key stands at pc. */
  ghost predicate Beside(g: Sys, i: nat, n: nat, key: Key, l: Lane, p: nat, pc: SubmitPc) {
    && Alive(g) && g.cfg.dynamic && !g.ctl.stopped && i < n && n < |g.lanes| && g.lanes[n] == l
    && g.lanes[i].worker.Cleanup? && g.lanes[i].worker.entry.key == key
    && p < |g.subs| && g.subs[p].key == key && g.subs[p].pc == pc
  }

  function NewOf(g: Sys, key: Key): Lane {
    NewLane(g.cfg.cap, g.cfg.tracksIdle, Only(key), true)
  }

  ghost predicate NewInside(g: Sys, i: nat, key: Key, h: Sys) {
    Beside(h, i, |g.lanes|, key, Enter(NewOf(g, key), |g.subs|, key), |g.subs|, InLane(|g.lanes|))
  }

  /** The next call of the key makes a new lane and enters it. */
  lemma CallIsInside(g: Sys, i: nat, key: Key) returns (h: Sys)
    requires Clear(g, i, key)
    ensures Leads(g, h) && NewInside(g, i, key, h)
  {
    hide Leads, CleanStep, WorkerStep, SectionStep, StopStep;
    var p := |g.subs|;
    var a := NewSubmit(g, key, false);
    Then(g, g, SubmitCall(key, false), a);
    var b := SubmitCreate(a, p);
    Then(g, a, SubmitMove(p, Create), b);
    h := SubmitEnter(b, p);
    Then(g, b, SubmitMove(p, EnterLane), h);
  }

  /** Lane n takes a step that nothing else takes note of. */
  ghost predicate QuietTo(l: Lane, sig: Signals, s: LaneStep, m: Lane) {
    IsQuiet(s) && CanStep(l, sig, s) && m == Step(l, sig, s) && !m.panicked
  }

  /** The lane of a producer that came to an empty lane and took its admission. */
  function AdmittedOn(l: Lane, p: nat, key: Key): Lane {
    l.(inside := map[p := Inside(key, Sending(1, false))], tickets := [Tickets.InSend(p)], q := AdmitTask(l.q))
  }

  ghost predicate Unused(l: Lane) {
    l.q.backlog == [] && !l.panicked && l.inside == map[] && l.tickets == [] && l.q.admitted == 0
  }

  lemma PassesNew(l: Lane, p: nat, key: Key, sig: Signals)
    requires Unused(l)
    ensures p in Enter(l, p, key).inside
    ensures QuietTo(Enter(l, p, key), sig, ByProducer(p, PPass), Pass(Enter(l, p, key), p))
    ensures QuietTo(Pass(Enter(l, p, key), p), sig, ByProducer(p, PAdmit), AdmittedOn(l, p, key))
  {
    var q := Pass(Enter(l, p, key), p);
    assert q.inside == map[p := Inside(key, Passed)];
    assert Admit(q, p) == AdmittedOn(l, p, key);
  }

  lemma CallAdmits(g: Sys, i: nat, n: nat, key: Key, l: Lane, p: nat) returns (h: Sys)
    requires Beside(g, i, n, key, Enter(l, p, key), p, InLane(n)) && Unused(l)
    ensures Leads(g, h) && Beside(h, i, n, key, AdmittedOn(l, p, key), p, InLane(n))
  {
    hide Leads, SubmitStep, CleanStep, SectionStep, StopStep, CanStep, Step, Enter, Pass, AdmittedOn;
    PassesNew(l, p, key, Sig(g.ctl));
    var a := OnLane(g, n, ByProducer(p, PPass));
    Then(g, g, WorkerMove(n, Quiet(ByProducer(p, PPass))), a);
    h := OnLane(a, n, ByProducer(p, PAdmit));
    Then(g, a, WorkerMove(n, Quiet(ByProducer(p, PAdmit))), h);
  }

  /** Before stop both lanes execute something of the key. */
  ghost predicate Overlap(g: Sys, i: nat, n: nat, key: Key) {
    !g.ctl.stopped && n != i && RunsFor(g, OnLaneWorker(i), key) && RunsFor(g, OnLaneWorker(n), key)
  }

  /** What becomes of the new lane when the producer sends and the worker receives. */
  ghost predicate WillRun(l: Lane, sig: Signals, p: nat, key: Key) {
    && CanSendNow(l, p) && !l.q.chClosed && CanTake(Send(l, p))
    && var w := Take(Send(l, p), sig);
       w == Send(l, p).(worker := Select(false)) && QuietTo(w, sig, ByLoop(LReceive), Receive(w))
       && Receive(w).worker == Task(Msg(p, key), Fetched)
  }

  lemma NewWillRun(cap: nat, tracksIdle: bool, p: nat, key: Key, sig: Signals)
    requires cap > 0
    ensures Unused(NewLane(cap, tracksIdle, Only(key), true))
    ensures WillRun(AdmittedOn(NewLane(cap, tracksIdle, Only(key), true), p, key), sig, p, key)
  {
  }

  lemma TaskRuns(g: Sys, i: nat, n: nat, key: Key, l: Lane, p: nat) returns (h: Sys)
    requires Beside(g, i, n, key, l, p, InLane(n)) && WillRun(l, Sig(g.ctl), p, key)
    ensures Leads(g, h) && Overlap(h, i, n, key)
  {
    hide Leads, CleanStep, SectionStep, StopStep, CanStep, Step, Take, ConvertHead, CanSendNow, Send;
    var a := SubmitSend(g, p);
    Then(g, g, SubmitMove(p, SendLane), a);
    var b := WorkerTake(a, n);
    Then(g, a, WorkerMove(n, TakeNext), b);
    h := OnLane(b, n, ByLoop(LReceive));
    Then(g, b, WorkerMove(n, Quiet(ByLoop(LReceive))), h);
  }

  /** The seal of lane i leads, perhaps by way of more moves, to h. */
  ghost predicate SealLeads(g: Sys, i: nat, h: Sys) {
    exists k :: Steps(g, WorkerMove(i, SealIdle), k) && Leads(k, h)
  }

  ghost predicate SealedTo(g: Sys, i: nat, h: Sys) {
    CanRetireSeal(g, i) && Leads(RetireSeal(g, i), h)
  }

  lemma SealIsStep(g: Sys, i: nat, key: Key, h: Sys)
    requires AboutToMiss(g, i, key) && SealedTo(g, i, h)
    ensures Leads(g, h) && SealLeads(g, i, h)
  {
    hide Leads, CanStep, Step, CanSeal, Seal, ForgetQueue;
    var k := RetireSeal(g, i);
    assert Steps(g, WorkerMove(i, SealIdle), k);
    LeadsStep(g, WorkerMove(i, SealIdle), k);
    LeadsOn(g, k, h);
  }

  lemma TaskBeside(g: Sys, i: nat, key: Key) returns (h: Sys, n: nat)
    requires Clear(g, i, key)
    ensures Leads(g, h) && Overlap(h, i, n, key)
  {
    hide Leads, Beside, NeedsQueue, BelowLimit, Alive, Overlap, WillRun, Unused, AdmittedOn;
    var l, p := NewOf(g, key), |g.subs|;
    n := |g.lanes|;
    var a := CallIsInside(g, i, key);
    NewWillRun(g.cfg.cap, g.cfg.tracksIdle, p, key, Sig(a.ctl));
    var b := CallAdmits(a, i, n, key, l, p);
    LeadsOn(g, a, b);
    NewWillRun(g.cfg.cap, g.cfg.tracksIdle, p, key, Sig(b.ctl));
    h := TaskRuns(b, i, n, key, AdmittedOn(l, p, key), p);
    LeadsOn(g, b, h);
  }

  /** After every busy seal the key's next task may run beside the release that the seal missed. */
  lemma EveryBusySealMayOverlap(g: Sys, i: nat, key: Key) returns (h: Sys, n: nat)
    requires Reachable(g) && MissesRelease(g, i, key)
    ensures Reachable(h) && Leads(g, h) && SealLeads(g, i, h) && Overlap(h, i, n, key)
  {
    hide Reachable, Inv, SealParts, Leads, MissesRelease, Clear, Overlap, RetireSeal, CanRetireSeal, SealLeads;
    MissedSeal(g, i, key);
    ReachableInv(g);
    PartsOfSeal(g);
    SealsClear(g, i, key);
    h, n := TaskBeside(RetireSeal(g, i), i, key);
    SealIsStep(g, i, key, h);
    LeadsReach(g, h);
  }
}
