/** The map of live queues, the key guards, the retirement gate and the order of a stop. */
module DispatcherRegistry {
  import opened RoutingKeys
  import opened Queues
  import opened Lanes
  import opened LaneFrame
  import opened LaneInvariant
  import opened Dispatcher
  import opened DispatcherFrame
  import opened DispatcherFence

  /** A key has at most one lane that is not retired, and the map names it. */
  ghost predicate QueueMapOk(cfg: Config, lanes: seq<Lane>, reg: Registry) {
    && RoutesOk(cfg, lanes, reg) && (cfg.maxQueues > 0 ==> |reg.queues| <= cfg.maxQueues)
    && (cfg.dynamic ==>
          forall i :: 0 <= i < |lanes| && !lanes[i].q.retired ==>
            lanes[i].route.Only? && lanes[i].route.key in reg.queues && reg.queues[lanes[i].route.key] == i)
  }

  /** The gate is held by the retirement in progress and by nobody else. */
  ghost predicate GateOk(lanes: seq<Lane>, reg: Registry) {
    && (reg.retiring.Some? ==> reg.retiring.value < |lanes|)
    && forall i :: 0 <= i < |lanes| ==> (lanes[i].gateHeld <==> reg.retiring == Some(i))
  }

  /** A guarded key has no lane in the map, and its release is the one that holds the guard. */
  ghost predicate GuardsOk(reg: Registry, cleans: seq<Cleaner>) {
    && (forall k :: k in reg.guards ==>
          && k !in reg.queues && reg.guards[k] < |cleans|
          && cleans[reg.guards[k]].pc.Guarding? && cleans[reg.guards[k]].key == k)
    && (forall c :: 0 <= c < |cleans| && cleans[c].pc.Guarding? ==>
          cleans[c].key in reg.guards && reg.guards[cleans[c].key] == c)
  }

  /** Channels close only behind the closed submit fence, once creation and retirement have ended. */
  ghost predicate ClosedOk(cfg: Config, ctl: Ctl, lanes: seq<Lane>, reg: Registry) {
    && (forall i :: 0 <= i < |lanes| && lanes[i].q.chClosed ==> ctl.fence && (cfg.dynamic ==> reg.stopping))
    && (reg.stopping ==> ctl.fence)
    && (cfg.dynamic && ctl.stopped ==> reg.retirerOff) && (ctl.hard ==> reg.retirerOff)
    && (cfg.dynamic && reg.retirerOff ==> reg.retiring.None?)
  }

  ghost predicate ShardedOk(cfg: Config, lanes: seq<Lane>, reg: Registry, subs: seq<Submit>, cleans: seq<Cleaner>) {
    !cfg.dynamic ==>
      && (forall p :: 0 <= p < |subs| ==> cfg.shardOf(subs[p].key) < |lanes|)
      && reg.queues == map[] && reg.guards == map[] && reg.retiring.None? && !reg.stopping
      && (forall i :: 0 <= i < |lanes| ==> !lanes[i].q.retired)
      && (forall c :: 0 <= c < |cleans| ==>
            && cfg.shardOf(cleans[c].key) < |lanes|
            && !cleans[c].pc.GotLane? && !cleans[c].pc.AtLimit? && !cleans[c].pc.RegLimit? && !cleans[c].pc.Guarding?)
  }

  ghost predicate AimOk(lanes: seq<Lane>, c: Cleaner) {
    match c.pc
    case GotLane(i) => i < |lanes| && Serves(lanes[i].route, c.key)
    case RegLane(i) => i < |lanes| && Serves(lanes[i].route, c.key)
    case FenceLane(i) => i < |lanes| && Serves(lanes[i].route, c.key)
    case _ => true
  }

  /** A release on its way to a lane is on its way to a lane of its own key. */
  ghost predicate AimsOk(lanes: seq<Lane>, cleans: seq<Cleaner>) {
    forall c :: 0 <= c < |cleans| ==> AimOk(lanes, cleans[c])
  }

  ghost predicate StopPcOk(cfg: Config, ctl: Ctl, reg: Registry, pc: StopPc) {
    match pc
    case Called(_) => true
    case Over(_) => true
    case Quieted(_) => reg.retirerOff
    case Hardened => reg.retirerOff
    case Signalled => reg.retirerOff && ctl.stopped
    case _ => reg.retirerOff && ctl.stopped && ctl.fence && (cfg.dynamic ==> reg.stopping)
  }

  /** How far a stop call has come tells what has already been shut. */
  ghost predicate StopsOk(cfg: Config, ctl: Ctl, reg: Registry, stops: seq<StopPc>) {
    forall s :: 0 <= s < |stops| ==> StopPcOk(cfg, ctl, reg, stops[s])
  }

  ghost predicate RegOk(g: Sys) {
    && QueueMapOk(g.cfg, g.lanes, g.reg)
    && GateOk(g.lanes, g.reg)
    && GuardsOk(g.reg, g.cleans)
    && ClosedOk(g.cfg, g.ctl, g.lanes, g.reg)
    && ShardedOk(g.cfg, g.lanes, g.reg, g.subs, g.cleans)
    && AimsOk(g.lanes, g.cleans)
    && StopsOk(g.cfg, g.ctl, g.reg, g.stops)
  }

  lemma LanesFrame(g: Sys, i: nat, m: Lane)
    requires RegOk(g) && i < |g.lanes| && SameGate(g.lanes[i], m)
    ensures RegOk(g.(lanes := g.lanes[i := m]))
  {
  }

  /** A release may change position anywhere outside the guards. */
  lemma CleanFrame(g: Sys, c: nat, pc: CleanPc, place: Place)
    requires RegOk(g) && c < |g.cleans| && !g.cleans[c].pc.Guarding? && !pc.Guarding?
    requires AimOk(g.lanes, g.cleans[c].(pc := pc, place := place))
    requires !g.cfg.dynamic ==> !pc.GotLane? && !pc.AtLimit? && !pc.RegLimit?
    ensures RegOk(SetClean(g, c, pc, place))
  {
  }

  /** No live lane and no stop in progress: the key has no lane in the map at all. */
  lemma NoQueueForKey(g: Sys, key: Key)
    requires RegOk(g) && LanesOk(g.cfg, g.lanes) && g.cfg.dynamic && !g.reg.stopping && !HasLiveQueue(g, key)
    ensures key !in g.reg.queues
  {
  }

  lemma CreateReg(g: Sys, key: Key)
    requires RegOk(g) && LanesOk(g.cfg, g.lanes) && NeedsQueue(g, key) && BelowLimit(g) && !IsBarrierKey(key)
    ensures RegOk(CreateQueue(g, key))
    ensures Serves(CreateQueue(g, key).lanes[|g.lanes|].route, key)
  {
    hide FreshLane, LanesOk, HasLiveQueue, QueueMapOk, GateOk, GuardsOk, ClosedOk, AimsOk, StopsOk;
    NoQueueForKey(g, key);
    FreshLaneIsNew(g, key);
    var l, h := FreshLane(g, key), CreateQueue(g, key);
    assert h.lanes[|g.lanes|] == l;
    AimsGrow(g.lanes, l, g.cleans);
    StopsFrame(g, h.reg);
    MapGains(g, key, l);
    OthersGain(g, key, l);
  }

  lemma MapGains(g: Sys, key: Key, l: Lane)
    requires QueueMapOk(g.cfg, g.lanes, g.reg) && BelowLimit(g) && g.cfg.dynamic && key !in g.reg.queues
    requires l.route == Only(key) && !l.q.retired
    ensures QueueMapOk(g.cfg, g.lanes + [l], NameQueue(g.reg, key, |g.lanes|))
  {
    hide RoutesOk;
    assert RoutesOk(g.cfg, g.lanes + [l], NameQueue(g.reg, key, |g.lanes|)) by {
      RoutesGain(g.cfg, g.lanes, g.reg, key, l);
    }
  }

  lemma RoutesGain(cfg: Config, lanes: seq<Lane>, reg: Registry, key: Key, l: Lane)
    requires RoutesOk(cfg, lanes, reg) && l.route == Only(key) && !l.q.retired
    ensures RoutesOk(cfg, lanes + [l], NameQueue(reg, key, |lanes|))
  {
  }

  lemma OthersGain(g: Sys, key: Key, l: Lane)
    requires GateOk(g.lanes, g.reg) && GuardsOk(g.reg, g.cleans) && ClosedOk(g.cfg, g.ctl, g.lanes, g.reg)
    requires MuFree(g) && key !in g.reg.guards && !l.gateHeld && !l.q.chClosed
    ensures var reg := NameQueue(g.reg, key, |g.lanes|);
            GateOk(g.lanes + [l], reg) && GuardsOk(reg, g.cleans) && ClosedOk(g.cfg, g.ctl, g.lanes + [l], reg)
  {
  }

  lemma AimsGrow(lanes: seq<Lane>, l: Lane, cleans: seq<Cleaner>)
    requires AimsOk(lanes, cleans)
    ensures AimsOk(lanes + [l], cleans)
  {
    forall c | 0 <= c < |cleans| ensures AimOk(lanes + [l], cleans[c]) {
      assert AimOk(lanes, cleans[c]);
    }
  }

  lemma FreshLaneIsNew(g: Sys, key: Key)
    ensures var l := FreshLane(g, key);
            l.route == Only(key) && !l.gateHeld && !l.q.retired && !l.q.chClosed && l.inside == map[]
  {
  }

  lemma SubmitReg(g: Sys, p: nat, a: SubmitAct, h: Sys)
    requires SubmitStep(g, p, a, h) && RegOk(g) && LanesOk(g.cfg, g.lanes) && KeysPlain(g.subs, g.cleans)
    ensures RegOk(h)
  {
    hide SubmitStep, CanSubmit, DoSubmit, CanStep, Step, RegOk, SameGate, SameConfig, SameInside;
    hide FreshLane, LaneOf;
    SubmitKeys(g, p, a, h);
    SubmitLanesAfter(g, p, a, h);
    if a.Create? {
      SubmitCreateReg(g, p, a, h);
    } else {
      var lm := LaneOf(g, SubmitMove(p, a));
      if lm.OneLane? {
        NoGateStep(g, p, a);
        StepFixed(g.lanes[lm.i], Sig(g.ctl), lm.s);
        LanesFrame(g, lm.i, Step(g.lanes[lm.i], Sig(g.ctl), lm.s));
      }
      SameReg(g.(lanes := h.lanes), h);
    }
  }

  lemma NoGateStep(g: Sys, p: nat, a: SubmitAct)
    ensures LaneOf(g, SubmitMove(p, a)).OneLane? ==> !LaneOf(g, SubmitMove(p, a)).s.ByGate?
  {
  }

  lemma SubmitCreateReg(g: Sys, p: nat, a: SubmitAct, h: Sys)
    requires SubmitStep(g, p, a, h) && a.Create? && RegOk(g) && LanesOk(g.cfg, g.lanes) && KeysPlain(g.subs, g.cleans)
    ensures RegOk(h)
  {
    CreateReg(g, g.subs[p].key);
    SameReg(CreateQueue(g, g.subs[p].key), h);
  }

  /** The registry looks neither at places, sections and counts, nor at the count of registered callers. */
  lemma SameReg(g: Sys, h: Sys)
    requires RegOk(g) && h.cfg == g.cfg && h.lanes == g.lanes && h.reg == g.reg && h.stops == g.stops
    requires h.ctl.stopped == g.ctl.stopped && (h.ctl.hard ==> g.ctl.hard || g.reg.retirerOff)
    requires (g.ctl.fence ==> h.ctl.fence)
    requires |h.subs| == |g.subs| && forall p :: 0 <= p < |g.subs| ==> h.subs[p].key == g.subs[p].key
    requires OnlyPlaces(g.cleans, h.cleans)
    ensures RegOk(h)
  {
  }

  lemma CleanReg(g: Sys, c: nat, a: CleanAct, h: Sys)
    requires CleanStep(g, c, a, h) && RegOk(g) && LanesOk(g.cfg, g.lanes) && KeysPlain(g.subs, g.cleans)
    ensures RegOk(h)
  {
    CleanStepOf(g, c, a, h);
    match a
    case FindClean => FindReg(g, c);
    case LookAfterStop => AfterReg(g, c);
    case CreateClean =>
      CreateReg(g, g.cleans[c].key);
      CleanFrame(CreateQueue(g, g.cleans[c].key), c, GotLane(|g.lanes|), g.cleans[c].place);
    case BeginClean => BeginReg(g, c);
    case EnqueueClean => EnqueueReg(g, c, a, h);
    case Guard => GuardReg(g, c);
    case GuardDone => GuardDoneReg(g, c);
    case EnqueueFence => EnqueueReg(g, c, a, h);
    case _ => StrollReg(g, c, a, h);
  }

  lemma FindReg(g: Sys, c: nat)
    requires CanCleanFind(g, c) && RegOk(g) && LanesOk(g.cfg, g.lanes)
    ensures RegOk(CleanFind(g, c))
  {
    FoundServes(g, g.cleans[c].key);
    CleanFrame(g, c, GotLane(Target(g, g.cleans[c].key)), g.cleans[c].place);
  }

  /** The release moves on, to no lane, and neither the lanes nor the registry change. */
  lemma StrollReg(g: Sys, c: nat, a: CleanAct, h: Sys)
    requires CleanStep(g, c, a, h) && RegOk(g) && !a.FindClean? && !a.LookAfterStop?
    requires !a.CreateClean? && !a.BeginClean? && !a.EnqueueClean? && !a.Guard? && !a.GuardDone? && !a.EnqueueFence?
    ensures RegOk(h)
  {
    hide QueueMapOk, GateOk, GuardsOk, ClosedOk, AimsOk, StopsOk, GuardRefused, HasLiveQueue;
    CleanFrame(g, c, h.cleans[c].pc, h.cleans[c].place);
    SameReg(SetClean(g, c, h.cleans[c].pc, h.cleans[c].place), h);
  }

  lemma AfterReg(g: Sys, c: nat)
    requires CanCleanAfter(g, c) && RegOk(g) && LanesOk(g.cfg, g.lanes)
    ensures RegOk(CleanAfter(g, c))
  {
    var h := CleanAfter(g, c);
    if !g.cfg.dynamic {
      assert LaneFits(g.cfg, g.lanes[g.cfg.shardOf(g.cleans[c].key)], g.cfg.shardOf(g.cleans[c].key));
    }
    CleanFrame(g, c, h.cleans[c].pc, g.cleans[c].place);
  }

  lemma BeginReg(g: Sys, c: nat)
    requires CanCleanBegin(g, c) && RegOk(g) && LanesOk(g.cfg, g.lanes)
    ensures RegOk(CleanBegin(g, c))
  {
    assert AimOk(g.lanes, g.cleans[c]);
    if g.ctl.stopped {
      CleanFrame(g, c, AfterStop, g.cleans[c].place);
    } else {
      if !g.cfg.dynamic {
        assert LaneFits(g.cfg, g.lanes[g.cfg.shardOf(g.cleans[c].key)], g.cfg.shardOf(g.cleans[c].key));
      }
      SameReg(g, g.(ctl := Register(g.ctl)));
      CleanFrame(g.(ctl := Register(g.ctl)), c, CleanBegin(g, c).cleans[c].pc, g.cleans[c].place);
    }
  }

  lemma EnqueueReg(g: Sys, c: nat, a: CleanAct, h: Sys)
    requires CleanStep(g, c, a, h) && RegOk(g) && (a.EnqueueClean? || a.EnqueueFence?)
    ensures RegOk(h)
  {
    var i := g.cleans[c].pc.lane;
    if TakesCleanup(g.lanes[i].q) {
      var l := Enqueue(g.lanes[i], c, g.cleans[c].key, a.EnqueueFence?);
      LanesFrame(g, i, l);
      CleanFrame(PutLane(g, i, l), c, h.cleans[c].pc, h.cleans[c].place);
    } else {
      CleanFrame(g, c, h.cleans[c].pc, h.cleans[c].place);
    }
  }

  lemma GuardReg(g: Sys, c: nat)
    requires CanCleanGuard(g, c) && RegOk(g) && LanesOk(g.cfg, g.lanes)
    ensures RegOk(CleanGuard(g, c))
  {
    if GuardRefused(g, g.cleans[c].key) {
      CleanFrame(g, c, EndingReg(false), g.cleans[c].place);
    } else if g.sec.active {
      CleanFrame(g, c, EndingReg(true), Postponed);
      SameReg(SetClean(g, c, EndingReg(true), Postponed), CleanGuard(g, c));
    } else {
      assert RegOk(CleanGuard(g, c)) by {
        hide AimsOk, ClosedOk, GateOk, GuardsOk, QueueMapOk, StopsOk;
        var h := CleanGuard(g, c);
        NoQueueForKey(g, g.cleans[c].key);
        QueueMapFrame(g, h.reg);
        GateFrame(g, h.reg);
        ClosedFrame(g, h.reg);
        StopsFrame(g, h.reg);
        GuardsGain(g, c);
      }
    }
  }

  lemma QueueMapFrame(g: Sys, reg: Registry)
    requires QueueMapOk(g.cfg, g.lanes, g.reg) && reg.queues == g.reg.queues
    ensures QueueMapOk(g.cfg, g.lanes, reg)
  {
  }

  lemma GateFrame(g: Sys, reg: Registry)
    requires GateOk(g.lanes, g.reg) && reg.retiring == g.reg.retiring
    ensures GateOk(g.lanes, reg)
  {
  }

  lemma ClosedFrame(g: Sys, reg: Registry)
    requires ClosedOk(g.cfg, g.ctl, g.lanes, g.reg)
    requires reg.stopping == g.reg.stopping && reg.retirerOff == g.reg.retirerOff && reg.retiring == g.reg.retiring
    ensures ClosedOk(g.cfg, g.ctl, g.lanes, reg)
  {
  }

  lemma GuardsGain(g: Sys, c: nat)
    requires GuardsOk(g.reg, g.cleans) && CleanAt(g, c, RegLimit)
    requires g.cleans[c].key !in g.reg.guards && g.cleans[c].key !in g.reg.queues
    ensures GuardsOk(AddGuard(g.reg, g.cleans[c].key, c),
                     g.cleans[c := g.cleans[c].(pc := Guarding, place := OnCaller)])
  {
  }

  lemma StopsFrame(g: Sys, reg: Registry)
    requires StopsOk(g.cfg, g.ctl, g.reg, g.stops)
    requires (g.reg.retirerOff ==> reg.retirerOff) && (g.reg.stopping ==> reg.stopping)
    ensures StopsOk(g.cfg, g.ctl, reg, g.stops)
  {
  }

  lemma GuardDoneReg(g: Sys, c: nat)
    requires CanCleanGuardDone(g, c) && RegOk(g)
    ensures RegOk(CleanGuardDone(g, c))
  {
  }

  lemma OnlyLaneReg(g: Sys, i: nat, a: WorkerAct, h: Sys)
    requires WorkerStep(g, i, a, h) && RegOk(g)
    requires !a.LockIdle? && !a.SealIdle? && !a.UnlockIdle?
    ensures RegOk(h)
  {
    hide CanStep, Step, Take, FinishTask, FinishCleanup, Park, LeaveBarrier, StartBarrier, RegOk;
    WorkLanesAfter(g, i, a, h);
    WorkKeys(g, i, a, h);
    StepFixed(g.lanes[i], Sig(g.ctl), WorkStep(a));
    LanesFrame(g, i, Step(g.lanes[i], Sig(g.ctl), WorkStep(a)));
    SameReg(g.(lanes := h.lanes), h);
  }

  lemma AimsFrame(g: Sys, i: nat, m: Lane)
    requires AimsOk(g.lanes, g.cleans) && i < |g.lanes| && m.route == g.lanes[i].route
    ensures AimsOk(g.lanes[i := m], g.cleans)
  {
  }

  lemma GateFlips(g: Sys, i: nat, m: Lane, to: Option<nat>)
    requires RegOk(g) && i < |g.lanes| && m == g.lanes[i].(gateHeld := m.gateHeld) && g.cfg.dynamic
    requires if m.gateHeld then MuFree(g) && to == Some(i) && !g.reg.retirerOff
             else g.reg.retiring == Some(i) && to == None
    ensures RegOk(g.(lanes := g.lanes[i := m], reg := g.reg.(retiring := to)))
  {
    hide StopsOk, AimsOk;
    var h := g.(lanes := g.lanes[i := m], reg := g.reg.(retiring := to));
    AimsFrame(g, i, m);
    StopsFrame(g, h.reg);
    assert GateOk(h.lanes, h.reg);
  }

  /** The gate is taken, or given back without a seal. */
  lemma GateReg(g: Sys, i: nat, a: WorkerAct, h: Sys)
    requires WorkerStep(g, i, a, h) && (a.LockIdle? || a.UnlockIdle?) && RegOk(g)
    ensures RegOk(h)
  {
    hide CanStep, Step, Take, FinishTask, FinishCleanup, Park, LeaveBarrier, StartBarrier, Seal, CanSeal, IsQuiet;
    hide QueueMapOk, ClosedOk, AimsOk, StopsOk, GuardsOk, GateOk;
    GateFlips(g, i, h.lanes[i], h.reg.retiring);
  }

  lemma SealReg(g: Sys, i: nat)
    requires CanRetireSeal(g, i) && RegOk(g) && LanesOk(g.cfg, g.lanes)
    ensures RegOk(RetireSeal(g, i))
  {
    hide QueueMapOk, GateOk, GuardsOk, ClosedOk, AimsOk, StopsOk, Seal, CanSeal;
    var h := RetireSeal(g, i);
    assert LaneInv(g.lanes[i]);
    SealedFlags(g.lanes[i]);
    AimsFrame(g, i, h.lanes[i]);
    StopsFrame(g, h.reg);
    SealQueueMap(g, i);
    SealGate(g, i);
    SealGuards(g, i);
  }

  lemma SealGate(g: Sys, i: nat)
    requires CanRetireSeal(g, i) && GateOk(g.lanes, g.reg) && ClosedOk(g.cfg, g.ctl, g.lanes, g.reg)
    requires FlagsOk(g.lanes[i])
    ensures GateOk(RetireSeal(g, i).lanes, RetireSeal(g, i).reg)
    ensures ClosedOk(g.cfg, g.ctl, RetireSeal(g, i).lanes, RetireSeal(g, i).reg)
  {
    hide Seal, FlagsOk;
    SealedFlags(g.lanes[i]);
  }

  lemma SealedFlags(l: Lane)
    requires CanSeal(l) && FlagsOk(l)
    ensures var m := Seal(l); m.route == l.route && m.q.retired && !m.gateHeld && m.q.chClosed == l.q.chClosed
    ensures l.gated && !l.q.retired
  {
  }

  lemma FewerKeys(queues: map<Key, nat>, key: Key)
    ensures (queues - {key}).Keys == queues.Keys - {key} && |queues - {key}| <= |queues|
  {
    assert |queues - {key}| == |(queues - {key}).Keys| && |queues| == |queues.Keys|;
  }

  lemma ForgetsRoute(cfg: Config, lanes: seq<Lane>, reg: Registry, i: nat, m: Lane)
    requires RoutesOk(cfg, lanes, reg) && i < |lanes| && lanes[i].route.Only? && m.route == lanes[i].route
    ensures RoutesOk(cfg, lanes[i := m], ForgetQueue(reg, m.route.key).(retiring := None))
  {
  }

  /** A map without the key of lane i, which is now retired, names all the others. */
  lemma ForgetsRetired(cfg: Config, lanes: seq<Lane>, reg: Registry, i: nat, m: Lane)
    requires QueueMapOk(cfg, lanes, reg) && i < |lanes| && lanes[i].route.Only? && m.route == lanes[i].route
    requires m.q.retired
    requires cfg.dynamic && !lanes[i].q.retired
    ensures QueueMapOk(cfg, lanes[i := m], ForgetQueue(reg, m.route.key).(retiring := None))
  {
    hide RoutesOk;
    ForgetsRoute(cfg, lanes, reg, i, m);
    FewerKeys(reg.queues, m.route.key);
  }

  lemma SealQueueMap(g: Sys, i: nat)
    requires CanRetireSeal(g, i) && QueueMapOk(g.cfg, g.lanes, g.reg) && FlagsOk(g.lanes[i]) && g.cfg.dynamic
    ensures QueueMapOk(g.cfg, RetireSeal(g, i).lanes, RetireSeal(g, i).reg)
  {
    hide Seal, FlagsOk, QueueMapOk;
    SealedFlags(g.lanes[i]);
    ForgetsRetired(g.cfg, g.lanes, g.reg, i, RetireSeal(g, i).lanes[i]);
  }

  lemma SealGuards(g: Sys, i: nat)
    requires CanRetireSeal(g, i) && GuardsOk(g.reg, g.cleans)
    ensures GuardsOk(RetireSeal(g, i).reg, g.cleans)
  {
    hide Seal;
  }

  lemma SectionReg(g: Sys, a: SectionAct, h: Sys)
    requires SectionStep(g, a, h) && RegOk(g)
    ensures RegOk(h)
  {
    hide RegOk, Enqueue, HandOver, Installed, Expect, NeedsBarrier, TakesCleanup;
    SectionKeys(g, a, h);
    if h.lanes != g.lanes {
      EnqueueFixed(g.lanes[a.i], g.sec.id, Key(ExclusiveBarrier, 0), false);
      LanesFrame(g, a.i, h.lanes[a.i]);
    }
    SameReg(g.(lanes := h.lanes), h);
  }

  lemma StopFrame(g: Sys, s: nat, pc: StopPc)
    requires RegOk(g) && s < |g.stops| && StopPcOk(g.cfg, g.ctl, g.reg, pc)
    ensures RegOk(SetStop(g, s, pc))
  {
  }

  lemma CloseReg(g: Sys, s: nat, i: nat)
    requires CanStopClose(g, s, i) && RegOk(g)
    ensures RegOk(StopClose(g, s, i))
  {
    assert StopPcOk(g.cfg, g.ctl, g.reg, g.stops[s]);
    var h := PutLane(g, i, Close(g.lanes[i]));
    AimsFrame(g, i, h.lanes[i]);
    assert GateOk(h.lanes, h.reg);
    StopFrame(h, s, Closing(g.stops[s].todo - {i}));
  }

  /** A stop call turns hard, or passes on to its next wait, or ends. */
  lemma AdvanceReg(g: Sys, s: nat, a: StopAct, h: Sys)
    requires StopStep(g, s, a, h) && RegOk(g) && !a.QuietRetirer? && !a.Signal? && !a.Mark? && !a.CloseOne?
    ensures RegOk(h)
  {
    assert StopPcOk(g.cfg, g.ctl, g.reg, g.stops[s]);
    SameReg(g, g.(ctl := h.ctl));
    StopFrame(g.(ctl := h.ctl), s, h.stops[s]);
    SameReg(SetStop(g.(ctl := h.ctl), s, h.stops[s]), h);
  }

  lemma StopReg(g: Sys, s: nat, a: StopAct, h: Sys)
    requires StopStep(g, s, a, h) && RegOk(g) && CtlOk(g.ctl, g.subs, g.cleans)
    ensures RegOk(h)
  {
    StopStepOf(g, s, a, h);
    match a
    case QuietRetirer =>
      var r := g.reg.(retirerOff := true);
      StopsFrame(g, r);
      StopFrame(g.(reg := r), s, Quieted(g.stops[s].hard));
    case Signal =>
      assert RegOk(StopSignal(g, s)) by {
        assert StopPcOk(g.cfg, g.ctl, g.reg, g.stops[s]);
      }
    case Mark =>
      assert StopPcOk(g.cfg, g.ctl, g.reg, g.stops[s]);
      var r := g.reg.(stopping := g.cfg.dynamic);
      StopsFrame(g, r);
      StopFrame(g.(reg := r), s, StopMark(g, s).stops[s]);
    case CloseOne(i) => CloseReg(g, s, i);
    case _ => AdvanceReg(g, s, a, h);
  }

  lemma CallReg(g: Sys, m: Move, h: Sys)
    requires RegOk(g)
    requires match m
             case SubmitCall(key, closing) => CanNewSubmit(g, key) && h == NewSubmit(g, key, closing)
             case CleanCall(p) => CanNewCleanup(g, p) && h == NewCleanup(g, p)
             case StopCall(hard) => h == NewStop(g, hard)
             case _ => false
    ensures RegOk(h)
  {
  }

  lemma RegKept(g: Sys, m: Move, h: Sys)
    requires Steps(g, m, h) && RegOk(g) && LanesOk(g.cfg, g.lanes) && KeysPlain(g.subs, g.cleans)
    requires CtlOk(g.ctl, g.subs, g.cleans)
    ensures RegOk(h)
  {
    hide *;
    StepOf(g, m, h);
    match m
    case SubmitMove(p, a) => SubmitReg(g, p, a, h);
    case CleanMove(c, a) => CleanReg(g, c, a, h);
    case WorkerMove(i, a) =>
      assert RegOk(h) by {
        WorkerStepOf(g, i, a, h);
        match a
        case LockIdle => GateReg(g, i, a, h);
        case SealIdle => SealReg(g, i);
        case UnlockIdle => GateReg(g, i, a, h);
        case _ => OnlyLaneReg(g, i, a, h);
      }
    case SectionMove(a) => SectionReg(g, a, h);
    case StopMove(s, a) => StopReg(g, s, a, h);
    case _ => CallReg(g, m, h);
  }
}
