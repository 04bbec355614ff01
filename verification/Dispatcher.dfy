/**
 The dispatcher of the asynchronous engine: every lane, submit call, handle release, exclusive section, idle
 retirement and stop call, interleaved one critical section or atomic operation at a time. `dynamic` selects
 the strategy that creates lanes on demand; otherwise a fixed pool of shards serves all keys.
 */
module Dispatcher {
  import opened RoutingKeys
  import opened Queues
  import opened Lanes

  datatype Config = Config(dynamic: bool, tracksIdle: bool, cap: nat, maxQueues: nat, shards: nat, shardOf: Key -> nat)

  /** The stop and submit-fence state of `base`; `loose` records that the fence closed over a registered producer. */
  datatype Ctl = Ctl(stopped: bool, hard: bool, fence: bool, inFlight: nat, loose: bool)

  function Sig(c: Ctl): Signals {
    Signals(c.stopped, c.hard, c.fence)
  }

  datatype SubmitPc =
    | Begun | AtGuard(release: nat) | Found(lane: nat) | InLane(lane: nat) | Ending(ok: bool)
    | Tested(ok: bool, zero: bool) | Refused | Done(ok: bool)

  /**
   One submit call. Its index is the id of its task, and of the producer inside a lane. A closing call that fails
   hands the release of its handle to scheduleSubmitFailureCleanup before it ends; `handed` names that release.
   */
  datatype Submit = Submit(key: Key, closing: bool, handed: Option<nat>, pc: SubmitPc)

  /** One scheduleSubmitFailureCleanup call: where the call stands, and where its release is. */
  datatype CleanPc =
    | Looking | AwaitGuard(release: nat) | GotLane(lane: nat) | AtLimit | RegLane(lane: nat) | RegLimit | Guarding
    | EndingReg(placed: bool) | TestedReg(placed: bool, zero: bool)
    | AfterStop | FenceLane(lane: nat) | OffLane | Tracked | Untracked | Returned

  datatype Place =
    | Unplaced | InBacklog(lane: nat) | OnWorker(lane: nat) | Postponed | OnSection | OnCaller | Released

  datatype Cleaner = Cleaner(key: Key, pc: CleanPc, place: Place)

  /** The state of dynamicStrategy that s.mu protects. guards maps a key to the release running off-lane for it. */
  datatype Registry = Registry(
    queues: map<Key, nat>, guards: map<Key, nat>, stopping: bool, retiring: Option<nat>, retirerOff: bool)

  datatype Life = Life(count: nat, sealed: bool)

  datatype SectionPc =
    | NoSection | Registered | AwaitOffLane(guards: set<nat>, tracked: bool) | Enqueuing | Parking | Checking
    | FnRunning | Releasing(todo: seq<nat>) | RunningPostponed(release: nat, todo: seq<nat>) | Withdrawn

  /** The exclusive section in progress, or the next one. Sections with a smaller id have been released. */
  datatype Section = Section(
    id: nat, pc: SectionPc, active: bool, base: nat, todo: set<nat>, took: set<nat>, expected: nat,
    parked: set<nat>, parkedCount: nat, aborted: bool, postponed: seq<nat>)

  datatype StopPc =
    | Called(hard: bool) | Quieted(hard: bool) | Hardened | Signalled | Closing(todo: set<nat>)
    | AwaitWorkers | AwaitSections | AwaitLife | Won | Over(released: bool)

  /** A task that finished on its worker, and whether it ran or was aborted. */
  datatype Outcome = Outcome(msg: Msg, aborted: bool)

  datatype Sys = Sys(
    cfg: Config, ctl: Ctl, lanes: seq<Lane>, subs: seq<Submit>, cleans: seq<Cleaner>, reg: Registry, life: Life,
    sec: Section, stops: seq<StopPc>, releases: nat, accepted: seq<Msg>, finished: seq<Outcome>, begun: seq<nat>)

  function FreshSection(id: nat): Section {
    Section(id, NoSection, false, 0, {}, {}, 0, {}, 0, false, [])
  }

  function Shards(cfg: Config): seq<Lane> {
    seq(cfg.shards, (i: nat) => NewLane(cfg.cap, false, Shard(i, cfg.shardOf), false))
  }

  predicate GoodConfig(cfg: Config) {
    cfg.cap > 0 && (!cfg.dynamic ==> cfg.shards > 0)
  }

  function Init(cfg: Config): Sys {
    Sys(cfg, Ctl(false, false, false, 0, false), if cfg.dynamic then [] else Shards(cfg), [], [],
        Registry(map[], map[], false, None, false), Life(0, false), FreshSection(0), [], 0, [], [], [])
  }

  // ----- shorthands -----

  predicate MuFree(g: Sys) {
    g.reg.retiring.None?
  }

  function OnLane(g: Sys, i: nat, s: LaneStep): Sys
    requires i < |g.lanes| && CanStep(g.lanes[i], Sig(g.ctl), s)
  {
    g.(lanes := g.lanes[i := Step(g.lanes[i], Sig(g.ctl), s)])
  }

  predicate CanOnLane(g: Sys, i: nat, s: LaneStep) {
    i < |g.lanes| && CanStep(g.lanes[i], Sig(g.ctl), s)
  }

  function SetSub(g: Sys, p: nat, pc: SubmitPc): Sys
    requires p < |g.subs|
  {
    g.(subs := g.subs[p := g.subs[p].(pc := pc)])
  }

  function SetClean(g: Sys, c: nat, pc: CleanPc, place: Place): Sys
    requires c < |g.cleans|
  {
    g.(cleans := g.cleans[c := g.cleans[c].(pc := pc, place := place)])
  }

  /** A lane that a step of the engine may change: a panic ends every step. */
  predicate Runs(g: Sys, i: nat) {
    i < |g.lanes| && !g.lanes[i].panicked
  }

  function PutLane(g: Sys, i: nat, l: Lane): Sys
    requires i < |g.lanes|
  {
    g.(lanes := g.lanes[i := l])
  }

  predicate SubAt(g: Sys, p: nat, pc: SubmitPc) {
    p < |g.subs| && g.subs[p].pc == pc
  }

  predicate CleanAt(g: Sys, c: nat, pc: CleanPc) {
    c < |g.cleans| && g.cleans[c].pc == pc
  }

  predicate HasLiveQueue(g: Sys, key: Key) {
    key in g.reg.queues && g.reg.queues[key] < |g.lanes| && !g.lanes[g.reg.queues[key]].q.closed
  }

  /** getOrCreate, past every other outcome: this call creates the lane or reports the limit. */
  predicate NeedsQueue(g: Sys, key: Key) {
    g.cfg.dynamic && MuFree(g) && !g.reg.stopping && !HasLiveQueue(g, key) && key !in g.reg.guards
  }

  predicate BelowLimit(g: Sys) {
    g.cfg.maxQueues == 0 || |g.reg.queues| < g.cfg.maxQueues
  }

  function FreshLane(g: Sys, key: Key): Lane {
    var l := NewLane(g.cfg.cap, g.cfg.tracksIdle, Only(key), true);
    if g.sec.active then Enqueue(l, g.sec.id, Key(ExclusiveBarrier, 0), false) else l
  }

  function CreateQueue(g: Sys, key: Key): Sys {
    var n := |g.lanes|;
    g.(lanes := g.lanes + [FreshLane(g, key)],
       reg := NameQueue(g.reg, key, n),
       sec := if g.sec.active then Expect(g.sec, n) else g.sec)
  }

  /** beginSubmit, when it does not refuse. */
  function Register(c: Ctl): Ctl {
    c.(inFlight := c.inFlight + 1)
  }

  /** endSubmit, first half: the decrement. */
  function Deregister(c: Ctl): Ctl
    requires c.inFlight > 0
  {
    c.(inFlight := c.inFlight - 1)
  }

  /** signalStopOnce closes the fence at once when nobody is registered. */
  function SignalStopped(c: Ctl): Ctl {
    if c.stopped then c else c.(stopped := true, fence := c.fence || c.inFlight == 0)
  }

  /** endSubmit, second half: the test after the decrement. */
  function TestFence(c: Ctl, zero: bool): Ctl {
    if zero && c.stopped && !c.fence then c.(fence := true, loose := c.loose || c.inFlight > 0) else c
  }

  // ----- the parts that locked regions change -----

  function NameQueue(r: Registry, key: Key, n: nat): Registry {
    r.(queues := r.queues[key := n])
  }

  function ForgetQueue(r: Registry, key: Key): Registry {
    r.(queues := r.queues - {key})
  }

  function AddGuard(r: Registry, key: Key, c: nat): Registry {
    r.(guards := r.guards[key := c])
  }

  function LiftGuard(r: Registry, key: Key): Registry {
    r.(guards := r.guards - {key})
  }

  /** What becomes of a release that has no lane. */
  datatype Admission = TrackIt | RunNow | LeaveToSection

  function AdmissionOf(life: Life, sec: Section): Admission {
    if life.sealed then RunNow else if sec.active then LeaveToSection else TrackIt
  }

  function Track(life: Life): Life {
    life.(count := life.count + 1)
  }

  function Untrack(life: Life): Life
    requires life.count > 0
  {
    life.(count := life.count - 1)
  }

  function Defer(sec: Section, c: nat): Section {
    sec.(postponed := sec.postponed + [c])
  }

  /** Lane n has taken the section's barrier. */
  function Expect(sec: Section, n: nat): Section {
    sec.(took := sec.took + {n}, expected := sec.expected + 1)
  }

  /** The section waits for the releases it finds off their lanes, and then gives the lanes of todo its barrier. */
  function Installed(sec: Section, guards: set<nat>, life: Life, lanes: nat, todo: set<nat>): Section {
    sec.(pc := AwaitOffLane(guards, life.count != 0), active := true, base := lanes, todo := todo)
  }

  /** withdrawExclusive: postponed releases are handed over, or the section goes. */
  function HandOver(sec: Section): Section {
    if sec.postponed != [] then sec.(pc := Releasing(sec.postponed), postponed := [])
    else sec.(pc := Withdrawn, active := false)
  }

  // ----- submit calls -----

  predicate CanNewSubmit(g: Sys, key: Key) {
    !IsBarrierKey(key) && (!g.cfg.dynamic ==> g.cfg.shardOf(key) < |g.lanes|)
  }

  function NewSubmit(g: Sys, key: Key, closing: bool): Sys {
    if g.ctl.stopped then g.(subs := g.subs + [Submit(key, closing, None, Refused)])
    else g.(subs := g.subs + [Submit(key, closing, None, Begun)], ctl := Register(g.ctl))
  }

  predicate CanSubmitStop(g: Sys, p: nat) {
    g.cfg.dynamic && SubAt(g, p, Begun) && (g.ctl.stopped || (MuFree(g) && g.reg.stopping))
  }

  function SubmitStop(g: Sys, p: nat): Sys
    requires p < |g.subs|
  {
    SetSub(g, p, Ending(false))
  }

  predicate CanFind(g: Sys, key: Key) {
    if g.cfg.dynamic then MuFree(g) && HasLiveQueue(g, key) else g.cfg.shardOf(key) < |g.lanes|
  }

  function Target(g: Sys, key: Key): nat
    requires CanFind(g, key)
  {
    if g.cfg.dynamic then g.reg.queues[key] else g.cfg.shardOf(key)
  }

  predicate CanSubmitFind(g: Sys, p: nat) {
    SubAt(g, p, Begun) && CanFind(g, g.subs[p].key)
  }

  function SubmitFind(g: Sys, p: nat): Sys
    requires CanSubmitFind(g, p)
  {
    SetSub(g, p, Found(Target(g, g.subs[p].key)))
  }

  predicate CanSubmitCreate(g: Sys, p: nat) {
    SubAt(g, p, Begun) && NeedsQueue(g, g.subs[p].key) && BelowLimit(g)
  }

  function SubmitCreate(g: Sys, p: nat): Sys
    requires p < |g.subs|
  {
    SetSub(CreateQueue(g, g.subs[p].key), p, Found(|g.lanes|))
  }

  /** getOrCreate finds the key guarded, and waits for that one guard to be lifted. */
  predicate MeetsGuard(g: Sys, key: Key) {
    g.cfg.dynamic && MuFree(g) && !g.reg.stopping && !HasLiveQueue(g, key) && key in g.reg.guards
  }

  predicate CanSubmitPark(g: Sys, p: nat) {
    SubAt(g, p, Begun) && MeetsGuard(g, g.subs[p].key)
  }

  function SubmitPark(g: Sys, p: nat): Sys
    requires CanSubmitPark(g, p)
  {
    SetSub(g, p, AtGuard(g.reg.guards[g.subs[p].key]))
  }

  /** The holder of the guard closes its barrier as it lifts the guard. */
  predicate CanSubmitResume(g: Sys, p: nat) {
    p < |g.subs| && g.subs[p].pc.AtGuard? && !CleanAt(g, g.subs[p].pc.release, Guarding)
  }

  predicate CanSubmitLimit(g: Sys, p: nat) {
    SubAt(g, p, Begun) && NeedsQueue(g, g.subs[p].key) && !BelowLimit(g)
  }

  function SubmitLimit(g: Sys, p: nat): Sys
    requires p < |g.subs|
  {
    SetSub(g, p, Ending(false))
  }

  predicate FoundLane(g: Sys, p: nat) {
    p < |g.subs| && g.subs[p].pc.Found? && g.subs[p].pc.lane < |g.lanes|
  }

  predicate CanSubmitEnter(g: Sys, p: nat) {
    FoundLane(g, p) && Runs(g, g.subs[p].pc.lane) && CanEnter(g.lanes[g.subs[p].pc.lane], p, g.subs[p].key)
  }

  function SubmitEnter(g: Sys, p: nat): Sys
    requires CanSubmitEnter(g, p)
  {
    var i := g.subs[p].pc.lane;
    SetSub(PutLane(g, i, Enter(g.lanes[i], p, g.subs[p].key)), p, InLane(i))
  }

  predicate CanSubmitTurnBack(g: Sys, p: nat) {
    g.cfg.dynamic && FoundLane(g, p) && !g.lanes[g.subs[p].pc.lane].gateHeld && g.lanes[g.subs[p].pc.lane].q.closed
  }

  function SubmitTurnBack(g: Sys, p: nat): Sys
    requires p < |g.subs|
  {
    SetSub(g, p, Begun)
  }

  predicate IsInLane(g: Sys, p: nat) {
    p < |g.subs| && g.subs[p].pc.InLane? && Runs(g, g.subs[p].pc.lane)
  }

  /** A closed quit channel sends the producer back to the loop; cancellation and stop end the call. */
  predicate CanSubmitLeave(g: Sys, p: nat, retry: bool) {
    && IsInLane(g, p) && CanLeave(g.lanes[g.subs[p].pc.lane], p)
    && (retry ==> g.lanes[g.subs[p].pc.lane].q.quit)
  }

  function SubmitLeave(g: Sys, p: nat, retry: bool): Sys
    requires CanSubmitLeave(g, p, retry)
  {
    var i := g.subs[p].pc.lane;
    SetSub(PutLane(g, i, Leave(g.lanes[i], p)), p, if retry then Begun else Ending(false))
  }

  predicate CanSubmitAbandon(g: Sys, p: nat, retry: bool) {
    && IsInLane(g, p) && CanGiveUp(g.lanes[g.subs[p].pc.lane], p)
    && (retry ==> g.lanes[g.subs[p].pc.lane].q.quit)
  }

  function SubmitAbandon(g: Sys, p: nat, retry: bool): Sys
    requires CanSubmitAbandon(g, p, retry)
  {
    var i := g.subs[p].pc.lane;
    SetSub(PutLane(g, i, Abandon(g.lanes[i], p)), p, if retry then Begun else Ending(false))
  }

  predicate CanSubmitSend(g: Sys, p: nat) {
    IsInLane(g, p) && CanSendNow(g.lanes[g.subs[p].pc.lane], p)
  }

  function SubmitSend(g: Sys, p: nat): Sys
    requires CanSubmitSend(g, p)
  {
    var i := g.subs[p].pc.lane;
    var h := PutLane(g, i, Send(g.lanes[i], p));
    if h.lanes[i].panicked then h
    else SetSub(h.(accepted := g.accepted + [Msg(p, g.subs[p].key)]), p, Ending(true))
  }

  /** The failure handoff of a closing call is over. */
  predicate HandedOff(g: Sys, s: Submit) {
    s.closing ==> s.handed.Some? && CleanAt(g, s.handed.value, Returned)
  }

  predicate CanSubmitEnd(g: Sys, p: nat) {
    && p < |g.subs| && g.subs[p].pc.Ending? && g.ctl.inFlight > 0
    && (g.subs[p].pc.ok || HandedOff(g, g.subs[p]))
  }

  function SubmitEnd(g: Sys, p: nat): Sys
    requires CanSubmitEnd(g, p)
  {
    SetSub(g.(ctl := Deregister(g.ctl)), p, Tested(g.subs[p].pc.ok, g.ctl.inFlight == 1))
  }

  predicate CanSubmitTest(g: Sys, p: nat) {
    p < |g.subs| && g.subs[p].pc.Tested?
  }

  function SubmitTest(g: Sys, p: nat): Sys
    requires CanSubmitTest(g, p)
  {
    SetSub(g.(ctl := TestFence(g.ctl, g.subs[p].pc.zero)), p, Done(g.subs[p].pc.ok))
  }

  /** A call that stop refused was never registered. */
  predicate CanSubmitReturn(g: Sys, p: nat) {
    SubAt(g, p, Refused) && HandedOff(g, g.subs[p])
  }

  // ----- handle releases -----

  /** A closing call has failed and hands its release over; it is still registered unless stop refused it. */
  predicate HandsOver(s: Submit) {
    s.closing && s.handed.None? && (s.pc == Ending(false) || s.pc == Refused)
  }

  predicate CanNewCleanup(g: Sys, p: nat) {
    p < |g.subs| && HandsOver(g.subs[p]) && CanNewSubmit(g, g.subs[p].key)
  }

  function NewCleanup(g: Sys, p: nat): Sys
    requires CanNewCleanup(g, p)
  {
    g.(subs := g.subs[p := g.subs[p].(handed := Some(|g.cleans|))],
       cleans := g.cleans + [Cleaner(g.subs[p].key, Looking, Unplaced)])
  }

  predicate CanCleanStop(g: Sys, c: nat) {
    g.cfg.dynamic && CleanAt(g, c, Looking) && (g.ctl.stopped || (MuFree(g) && g.reg.stopping))
  }

  function CleanStop(g: Sys, c: nat): Sys
    requires c < |g.cleans|
  {
    SetClean(g, c, AfterStop, g.cleans[c].place)
  }

  predicate CanCleanFind(g: Sys, c: nat) {
    g.cfg.dynamic && CleanAt(g, c, Looking) && CanFind(g, g.cleans[c].key)
  }

  function CleanFind(g: Sys, c: nat): Sys
    requires CanCleanFind(g, c)
  {
    SetClean(g, c, GotLane(Target(g, g.cleans[c].key)), g.cleans[c].place)
  }

  predicate CanCleanCreate(g: Sys, c: nat) {
    CleanAt(g, c, Looking) && NeedsQueue(g, g.cleans[c].key) && BelowLimit(g)
  }

  function CleanCreate(g: Sys, c: nat): Sys
    requires c < |g.cleans|
  {
    SetClean(CreateQueue(g, g.cleans[c].key), c, GotLane(|g.lanes|), g.cleans[c].place)
  }

  predicate CanCleanPark(g: Sys, c: nat) {
    CleanAt(g, c, Looking) && MeetsGuard(g, g.cleans[c].key)
  }

  function CleanPark(g: Sys, c: nat): Sys
    requires CanCleanPark(g, c)
  {
    SetClean(g, c, AwaitGuard(g.reg.guards[g.cleans[c].key]), g.cleans[c].place)
  }

  predicate CanCleanResume(g: Sys, c: nat) {
    c < |g.cleans| && g.cleans[c].pc.AwaitGuard? && !CleanAt(g, g.cleans[c].pc.release, Guarding)
  }

  predicate CanCleanLimit(g: Sys, c: nat) {
    CleanAt(g, c, Looking) && NeedsQueue(g, g.cleans[c].key) && !BelowLimit(g)
  }

  function CleanLimit(g: Sys, c: nat): Sys
    requires c < |g.cleans|
  {
    SetClean(g, c, AtLimit, g.cleans[c].place)
  }

  /** beginSubmit of the handoff: refused after stop. */
  predicate CanCleanBegin(g: Sys, c: nat) {
    && c < |g.cleans|
    && (if g.cfg.dynamic then g.cleans[c].pc.GotLane? || g.cleans[c].pc.AtLimit?
        else g.cleans[c].pc.Looking? && CanFind(g, g.cleans[c].key))
  }

  function CleanBegin(g: Sys, c: nat): Sys
    requires CanCleanBegin(g, c)
  {
    if g.ctl.stopped then SetClean(g, c, AfterStop, g.cleans[c].place)
    else
      var pc := if !g.cfg.dynamic then RegLane(g.cfg.shardOf(g.cleans[c].key))
                else if g.cleans[c].pc.GotLane? then RegLane(g.cleans[c].pc.lane)
                else RegLimit;
      SetClean(g.(ctl := Register(g.ctl)), c, pc, g.cleans[c].place)
  }

  predicate CanCleanEnqueue(g: Sys, c: nat) {
    && c < |g.cleans| && g.cleans[c].pc.RegLane? && Runs(g, g.cleans[c].pc.lane)
    && (TakesCleanup(g.lanes[g.cleans[c].pc.lane].q) ==> CanEnqueue(g.lanes[g.cleans[c].pc.lane], g.cleans[c].key))
  }

  function CleanEnqueue(g: Sys, c: nat): Sys
    requires CanCleanEnqueue(g, c)
  {
    var i := g.cleans[c].pc.lane;
    if TakesCleanup(g.lanes[i].q)
    then SetClean(PutLane(g, i, Enqueue(g.lanes[i], c, g.cleans[c].key, false)), c, EndingReg(true), InBacklog(i))
    else SetClean(g, c, EndingReg(false), g.cleans[c].place)
  }

  /** cleanupWithoutLiveLane: refuse, hand the release to the section, or guard the key and run it. */
  predicate CanCleanGuard(g: Sys, c: nat) {
    CleanAt(g, c, RegLimit) && MuFree(g)
  }

  predicate GuardRefused(g: Sys, key: Key) {
    g.reg.stopping || HasLiveQueue(g, key) || key in g.reg.guards
  }

  function CleanGuard(g: Sys, c: nat): Sys
    requires c < |g.cleans|
  {
    var key := g.cleans[c].key;
    if GuardRefused(g, key) then SetClean(g, c, EndingReg(false), g.cleans[c].place)
    else if g.sec.active then
      SetClean(g.(sec := Defer(g.sec, c)), c, EndingReg(true), Postponed)
    else
      SetClean(g.(reg := AddGuard(g.reg, key, c), begun := g.begun + [c]), c, Guarding, OnCaller)
  }

  predicate CanCleanGuardDone(g: Sys, c: nat) {
    CleanAt(g, c, Guarding) && MuFree(g)
  }

  function CleanGuardDone(g: Sys, c: nat): Sys
    requires c < |g.cleans|
  {
    SetClean(g.(reg := LiftGuard(g.reg, g.cleans[c].key)), c, EndingReg(true), Released)
  }

  predicate CanCleanEnd(g: Sys, c: nat) {
    c < |g.cleans| && g.cleans[c].pc.EndingReg? && g.ctl.inFlight > 0
  }

  function CleanEnd(g: Sys, c: nat): Sys
    requires CanCleanEnd(g, c)
  {
    SetClean(g.(ctl := Deregister(g.ctl)), c,
             TestedReg(g.cleans[c].pc.placed, g.ctl.inFlight == 1), g.cleans[c].place)
  }

  predicate CanCleanTest(g: Sys, c: nat) {
    c < |g.cleans| && g.cleans[c].pc.TestedReg?
  }

  function CleanTest(g: Sys, c: nat): Sys
    requires CanCleanTest(g, c)
  {
    SetClean(g.(ctl := TestFence(g.ctl, g.cleans[c].pc.zero)), c,
             if g.cleans[c].pc.placed then Returned else if g.cfg.dynamic then Looking else AfterStop,
             g.cleans[c].place)
  }

  predicate CanCleanAfter(g: Sys, c: nat) {
    CleanAt(g, c, AfterStop) && (g.cfg.dynamic ==> MuFree(g))
  }

  function CleanAfter(g: Sys, c: nat): Sys
    requires c < |g.cleans|
  {
    var key := g.cleans[c].key;
    SetClean(g, c,
             if !g.cfg.dynamic then FenceLane(g.cfg.shardOf(key))
             else if key in g.reg.queues then FenceLane(g.reg.queues[key]) else OffLane,
             g.cleans[c].place)
  }

  predicate CanCleanFence(g: Sys, c: nat) {
    && c < |g.cleans| && g.cleans[c].pc.FenceLane? && Runs(g, g.cleans[c].pc.lane)
    && (TakesCleanup(g.lanes[g.cleans[c].pc.lane].q) ==>
          && CanEnqueue(g.lanes[g.cleans[c].pc.lane], g.cleans[c].key)
          && g.ctl.stopped && !IsBarrierKey(g.cleans[c].key))
  }

  function CleanFence(g: Sys, c: nat): Sys
    requires CanCleanFence(g, c)
  {
    var i := g.cleans[c].pc.lane;
    if TakesCleanup(g.lanes[i].q)
    then SetClean(PutLane(g, i, Enqueue(g.lanes[i], c, g.cleans[c].key, true)), c, Returned, InBacklog(i))
    else SetClean(g, c, OffLane, g.cleans[c].place)
  }

  /** beginLifecycleCleanup. */
  function CleanLife(g: Sys, c: nat): Sys
    requires c < |g.cleans|
  {
    match AdmissionOf(g.life, g.sec)
    case RunNow => SetClean(g.(begun := g.begun + [c]), c, Untracked, OnCaller)
    case LeaveToSection => SetClean(g.(sec := Defer(g.sec, c)), c, Returned, Postponed)
    case TrackIt => SetClean(g.(life := Track(g.life), begun := g.begun + [c]), c, Tracked, OnCaller)
  }

  predicate CanCleanRunDone(g: Sys, c: nat) {
    c < |g.cleans| && ((g.cleans[c].pc.Tracked? && g.life.count > 0) || g.cleans[c].pc.Untracked?)
  }

  function CleanRunDone(g: Sys, c: nat): Sys
    requires CanCleanRunDone(g, c)
  {
    var life := if g.cleans[c].pc.Tracked? then Untrack(g.life) else g.life;
    SetClean(g.(life := life), c, Returned, Released)
  }

  // ----- workers -----

  /** Steps that no other part of the engine takes note of. */
  predicate IsQuiet(s: LaneStep) {
    match s
    case ByProducer(_, a) => a.PPass? || a.PAdmit? || a.PFindFull?
    case SPutToken => true
    case ByLoop(_) => true
    case ByWork(a) => a.WStartTask? || a.WSettle?
    case _ => false
  }

  predicate CanQuiet(g: Sys, i: nat, s: LaneStep) {
    IsQuiet(s) && CanOnLane(g, i, s)
  }

  predicate CanWorkerTake(g: Sys, i: nat) {
    && Runs(g, i) && CanTake(g.lanes[i])
    && var w := Take(g.lanes[i], Sig(g.ctl)).worker; (w.Cleanup? ==> w.entry.id < |g.cleans|)
  }

  function WorkerTake(g: Sys, i: nat): Sys
    requires CanWorkerTake(g, i)
  {
    var h := PutLane(g, i, Take(g.lanes[i], Sig(g.ctl)));
    var w := h.lanes[i].worker;
    if w.Cleanup? then SetClean(h.(begun := g.begun + [w.entry.id]), w.entry.id, g.cleans[w.entry.id].pc, OnWorker(i))
    else h
  }

  predicate CanWorkerFinishTask(g: Sys, i: nat) {
    Runs(g, i) && CanFinishTask(g.lanes[i])
  }

  function WorkerFinishTask(g: Sys, i: nat): Sys
    requires CanWorkerFinishTask(g, i)
  {
    var w := g.lanes[i].worker;
    PutLane(g, i, FinishTask(g.lanes[i])).(finished := g.finished + [Outcome(w.msg, w.mode.Aborting?)])
  }

  predicate CanWorkerFinishCleanup(g: Sys, i: nat) {
    Runs(g, i) && CanFinishCleanup(g.lanes[i]) && g.lanes[i].worker.entry.id < |g.cleans|
  }

  function WorkerFinishCleanup(g: Sys, i: nat): Sys
    requires CanWorkerFinishCleanup(g, i)
  {
    var c := g.lanes[i].worker.entry.id;
    SetClean(PutLane(g, i, FinishCleanup(g.lanes[i])), c, g.cleans[c].pc, Released)
  }

  predicate CanWorkerBarrier(g: Sys, i: nat) {
    Runs(g, i) && CanStartBarrier(g.lanes[i])
  }

  /** Under a hard stop the barrier tells its section that it cannot stop every lane. */
  function WorkerBarrier(g: Sys, i: nat): Sys
    requires CanWorkerBarrier(g, i)
  {
    PutLane(g, i, StartBarrier(g.lanes[i], Sig(g.ctl))).(
      sec := if g.ctl.hard && g.lanes[i].worker.section == g.sec.id then g.sec.(aborted := true) else g.sec)
  }

  /** The barrier and the section meet on the unbuffered parked channel. */
  predicate CanWorkerPark(g: Sys, i: nat) {
    Runs(g, i) && CanPark(g.lanes[i]) && g.sec.pc.Parking? && g.lanes[i].worker.section == g.sec.id
    && g.sec.parkedCount < g.sec.expected
  }

  function WorkerPark(g: Sys, i: nat): Sys
    requires CanWorkerPark(g, i)
  {
    PutLane(g, i, Park(g.lanes[i])).(sec := g.sec.(parked := g.sec.parked + {i}, parkedCount := g.sec.parkedCount + 1))
  }

  predicate CanWorkerLeave(g: Sys, i: nat) {
    Runs(g, i) && CanLeaveBarrier(g.lanes[i]) && g.lanes[i].worker.section < g.sec.id
  }

  function WorkerLeave(g: Sys, i: nat): Sys
    requires CanWorkerLeave(g, i)
  {
    PutLane(g, i, LeaveBarrier(g.lanes[i]))
  }

  // ----- idle retirement -----

  predicate CanRetireLock(g: Sys, i: nat) {
    && g.cfg.dynamic && MuFree(g) && !g.reg.retirerOff && !g.sec.active
    && i in g.reg.queues.Values && Runs(g, i) && CanLockGate(g.lanes[i])
  }

  function RetireLock(g: Sys, i: nat): Sys
    requires CanRetireLock(g, i)
  {
    PutLane(g, i, LockGate(g.lanes[i])).(reg := g.reg.(retiring := Some(i)))
  }

  predicate CanRetireSeal(g: Sys, i: nat) {
    g.reg.retiring == Some(i) && Runs(g, i) && CanSeal(g.lanes[i]) && g.lanes[i].route.Only?
  }

  function RetireSeal(g: Sys, i: nat): Sys
    requires CanRetireSeal(g, i)
  {
    PutLane(g, i, Seal(g.lanes[i])).(reg := ForgetQueue(g.reg, g.lanes[i].route.key).(retiring := None))
  }

  predicate CanRetireUnlock(g: Sys, i: nat) {
    g.reg.retiring == Some(i) && Runs(g, i) && CanUnlockGate(g.lanes[i])
  }

  function RetireUnlock(g: Sys, i: nat): Sys
    requires CanRetireUnlock(g, i)
  {
    PutLane(g, i, UnlockGate(g.lanes[i])).(reg := g.reg.(retiring := None))
  }

  // ----- exclusive section -----

  predicate CanSecBegin(g: Sys) {
    g.sec.pc.NoSection? && !g.ctl.stopped
  }

  function SecBegin(g: Sys): Sys {
    g.(sec := g.sec.(pc := Registered))
  }

  predicate CanSecInstall(g: Sys) {
    g.sec.pc.Registered? && (g.cfg.dynamic ==> MuFree(g))
  }

  /** Dynamic stops the lanes its map still names; Sharded stops every shard. */
  predicate Mapped(g: Sys, i: nat) {
    i < |g.lanes| && (g.cfg.dynamic ==> i in g.reg.queues.Values)
  }

  predicate NeedsBarrier(g: Sys, i: nat) {
    Mapped(g, i) && (g.cfg.dynamic ==> !g.lanes[i].q.closed)
  }

  function SecInstall(g: Sys): Sys {
    var todo := set i | 0 <= i < |g.lanes| && NeedsBarrier(g, i);
    g.(sec := Installed(g.sec, g.reg.guards.Values, g.life, |g.lanes|, todo))
  }

  /** Every guard seen at installation is gone, and so are the tracked releases if there were any. */
  predicate CanSecWaited(g: Sys) {
    && g.sec.pc.AwaitOffLane?
    && (forall c :: c in g.sec.pc.guards ==> !CleanAt(g, c, Guarding))
    && (g.sec.pc.tracked ==> g.life.count == 0)
  }

  function SecWaited(g: Sys): Sys {
    g.(sec := g.sec.(pc := Enqueuing))
  }

  predicate CanSecEnqueue(g: Sys, i: nat) {
    && g.sec.pc.Enqueuing? && i in g.sec.todo && Runs(g, i)
  }

  function SecEnqueue(g: Sys, i: nat): Sys
    requires CanSecEnqueue(g, i)
  {
    var sec := g.sec.(todo := g.sec.todo - {i});
    if TakesCleanup(g.lanes[i].q) then
      PutLane(g, i, Enqueue(g.lanes[i], g.sec.id, Key(ExclusiveBarrier, 0), false)).(
        sec := Expect(sec, i))
    else g.(sec := sec)
  }

  predicate CanSecAwait(g: Sys) {
    g.sec.pc.Enqueuing? && g.sec.todo == {}
  }

  function SecAwait(g: Sys): Sys {
    g.(sec := g.sec.(pc := Parking))
  }

  predicate CanSecParked(g: Sys) {
    g.sec.pc.Parking? && g.sec.parkedCount >= g.sec.expected
  }

  function SecParked(g: Sys): Sys {
    g.(sec := g.sec.(pc := Checking))
  }

  predicate CanSecGo(g: Sys) {
    g.sec.pc.Checking? && !g.ctl.stopped
  }

  function SecGo(g: Sys): Sys {
    g.(sec := g.sec.(pc := FnRunning))
  }

  /**
   A cancelled context, a stop or a hard-stopped lane ends the section before fn; fn returning or panicking ends it
   too.
   */
  predicate CanSecLeave(g: Sys) {
    g.sec.pc.AwaitOffLane? || g.sec.pc.Parking? || g.sec.pc.Checking? || g.sec.pc.FnRunning?
  }

  function SecLeave(g: Sys): Sys {
    g.(sec := g.sec.(pc := Releasing([])))
  }

  predicate CanSecWithdraw(g: Sys) {
    g.sec.pc == Releasing([]) && (g.cfg.dynamic ==> MuFree(g))
  }

  function SecWithdraw(g: Sys): Sys {
    g.(sec := HandOver(g.sec))
  }

  predicate CanSecRun(g: Sys) {
    g.sec.pc.Releasing? && g.sec.pc.todo != [] && g.sec.pc.todo[0] < |g.cleans|
  }

  function SecRun(g: Sys): Sys
    requires CanSecRun(g)
  {
    var c := g.sec.pc.todo[0];
    SetClean(g.(sec := g.sec.(pc := RunningPostponed(c, g.sec.pc.todo[1..])), begun := g.begun + [c]),
             c, g.cleans[c].pc, OnSection)
  }

  predicate CanSecRan(g: Sys) {
    g.sec.pc.RunningPostponed? && g.sec.pc.release < |g.cleans|
  }

  function SecRan(g: Sys): Sys
    requires CanSecRan(g)
  {
    var c := g.sec.pc.release;
    SetClean(g.(sec := g.sec.(pc := Releasing(g.sec.pc.todo))), c, g.cleans[c].pc, Released)
  }

  predicate CanSecEnd(g: Sys) {
    g.sec.pc.Withdrawn?
  }

  function SecEnd(g: Sys): Sys {
    g.(sec := FreshSection(g.sec.id + 1))
  }

  // ----- stop calls -----

  predicate StopAt(g: Sys, s: nat, pc: StopPc) {
    s < |g.stops| && g.stops[s] == pc
  }

  function SetStop(g: Sys, s: nat, pc: StopPc): Sys
    requires s < |g.stops|
  {
    g.(stops := g.stops[s := pc])
  }

  function NewStop(g: Sys, hard: bool): Sys {
    g.(stops := g.stops + [Called(hard)])
  }

  /** stopCleanup waits for the retirement goroutine to end. */
  predicate CanStopQuiet(g: Sys, s: nat) {
    s < |g.stops| && g.stops[s].Called? && (g.cfg.dynamic ==> MuFree(g))
  }

  function StopQuiet(g: Sys, s: nat): Sys
    requires CanStopQuiet(g, s)
  {
    SetStop(g.(reg := g.reg.(retirerOff := true)), s, Quieted(g.stops[s].hard))
  }

  predicate CanStopHarden(g: Sys, s: nat) {
    StopAt(g, s, Quieted(true))
  }

  function StopHarden(g: Sys, s: nat): Sys
    requires s < |g.stops|
  {
    SetStop(g.(ctl := g.ctl.(hard := true)), s, Hardened)
  }

  predicate CanStopSignal(g: Sys, s: nat) {
    StopAt(g, s, Quieted(false)) || StopAt(g, s, Hardened)
  }

  function StopSignal(g: Sys, s: nat): Sys
    requires s < |g.stops|
  {
    SetStop(g.(ctl := SignalStopped(g.ctl)), s, Signalled)
  }

  predicate CanStopMark(g: Sys, s: nat) {
    StopAt(g, s, Signalled) && g.ctl.fence && (g.cfg.dynamic ==> MuFree(g))
  }

  function StopMark(g: Sys, s: nat): Sys
    requires s < |g.stops|
  {
    var todo := set i | 0 <= i < |g.lanes| && Mapped(g, i);
    SetStop(g.(reg := g.reg.(stopping := g.cfg.dynamic)), s, Closing(todo))
  }

  predicate CanStopClose(g: Sys, s: nat, i: nat) {
    s < |g.stops| && g.stops[s].Closing? && i in g.stops[s].todo && Runs(g, i) && CanClose(g.lanes[i])
  }

  function StopClose(g: Sys, s: nat, i: nat): Sys
    requires CanStopClose(g, s, i)
  {
    SetStop(PutLane(g, i, Close(g.lanes[i])), s, Closing(g.stops[s].todo - {i}))
  }

  predicate CanStopClosed(g: Sys, s: nat) {
    StopAt(g, s, Closing({}))
  }

  predicate AllExited(lanes: seq<Lane>) {
    forall i :: 0 <= i < |lanes| ==> lanes[i].q.workerExited
  }

  predicate CanStopWorkers(g: Sys, s: nat) {
    StopAt(g, s, AwaitWorkers) && AllExited(g.lanes)
  }

  predicate CanStopSections(g: Sys, s: nat) {
    StopAt(g, s, AwaitSections) && g.sec.pc.NoSection?
  }

  predicate CanStopSeal(g: Sys, s: nat) {
    StopAt(g, s, AwaitLife) && g.life.count == 0
  }

  function StopSeal(g: Sys, s: nat): Sys
    requires s < |g.stops|
  {
    SetStop(g.(life := g.life.(sealed := true)), s, Won)
  }

  /** releaseUnderlying runs once, however many stops succeed. */
  function StopRelease(g: Sys, s: nat): Sys
    requires s < |g.stops|
  {
    SetStop(g.(releases := if g.releases == 0 then 1 else g.releases), s, Over(true))
  }

  /** The context of a waiting stop fires. */
  predicate CanStopTimeout(g: Sys, s: nat) {
    StopAt(g, s, Signalled) || StopAt(g, s, AwaitWorkers) || StopAt(g, s, AwaitSections) || StopAt(g, s, AwaitLife)
  }

  // ----- the step relation -----

  datatype SubmitAct =
    | Halt | Find | Create | Limit | ParkAtGuard | LeaveGuard | EnterLane | TurnBack | LeaveLane(retry: bool)
    | AbandonLane(retry: bool) | SendLane | EndSubmit | TestSubmit | ReturnRefused

  predicate CanSubmit(g: Sys, p: nat, a: SubmitAct) {
    match a
    case Halt => CanSubmitStop(g, p)
    case Find => CanSubmitFind(g, p)
    case Create => CanSubmitCreate(g, p)
    case Limit => CanSubmitLimit(g, p)
    case ParkAtGuard => CanSubmitPark(g, p)
    case LeaveGuard => CanSubmitResume(g, p)
    case EnterLane => CanSubmitEnter(g, p)
    case TurnBack => CanSubmitTurnBack(g, p)
    case LeaveLane(retry) => CanSubmitLeave(g, p, retry)
    case AbandonLane(retry) => CanSubmitAbandon(g, p, retry)
    case SendLane => CanSubmitSend(g, p)
    case EndSubmit => CanSubmitEnd(g, p)
    case TestSubmit => CanSubmitTest(g, p)
    case ReturnRefused => CanSubmitReturn(g, p)
  }

  function DoSubmit(g: Sys, p: nat, a: SubmitAct): Sys
    requires CanSubmit(g, p, a)
  {
    match a
    case Halt => SubmitStop(g, p)
    case Find => SubmitFind(g, p)
    case Create => SubmitCreate(g, p)
    case Limit => SubmitLimit(g, p)
    case ParkAtGuard => SubmitPark(g, p)
    case LeaveGuard => SetSub(g, p, Begun)
    case EnterLane => SubmitEnter(g, p)
    case TurnBack => SubmitTurnBack(g, p)
    case LeaveLane(retry) => SubmitLeave(g, p, retry)
    case AbandonLane(retry) => SubmitAbandon(g, p, retry)
    case SendLane => SubmitSend(g, p)
    case EndSubmit => SubmitEnd(g, p)
    case TestSubmit => SubmitTest(g, p)
    case ReturnRefused => SetSub(g, p, Done(false))
  }

  ghost predicate SubmitStep(g: Sys, p: nat, a: SubmitAct, h: Sys) {
    CanSubmit(g, p, a) && h == DoSubmit(g, p, a)
  }

  datatype CleanAct =
    | HaltClean | FindClean | CreateClean | LimitClean | ParkClean | ResumeClean | BeginClean | EnqueueClean | Guard
    | GuardDone | EndClean | TestClean | LookAfterStop | EnqueueFence | GoOffLane | RunDone

  predicate CanClean(g: Sys, c: nat, a: CleanAct) {
    match a
    case HaltClean => CanCleanStop(g, c)
    case FindClean => CanCleanFind(g, c)
    case CreateClean => CanCleanCreate(g, c)
    case LimitClean => CanCleanLimit(g, c)
    case ParkClean => CanCleanPark(g, c)
    case ResumeClean => CanCleanResume(g, c)
    case BeginClean => CanCleanBegin(g, c)
    case EnqueueClean => CanCleanEnqueue(g, c)
    case Guard => CanCleanGuard(g, c)
    case GuardDone => CanCleanGuardDone(g, c)
    case EndClean => CanCleanEnd(g, c)
    case TestClean => CanCleanTest(g, c)
    case LookAfterStop => CanCleanAfter(g, c)
    case EnqueueFence => CanCleanFence(g, c)
    case GoOffLane => CleanAt(g, c, OffLane)
    case RunDone => CanCleanRunDone(g, c)
  }

  function DoClean(g: Sys, c: nat, a: CleanAct): Sys
    requires CanClean(g, c, a)
  {
    match a
    case HaltClean => CleanStop(g, c)
    case FindClean => CleanFind(g, c)
    case CreateClean => CleanCreate(g, c)
    case LimitClean => CleanLimit(g, c)
    case ParkClean => CleanPark(g, c)
    case ResumeClean => SetClean(g, c, Looking, g.cleans[c].place)
    case BeginClean => CleanBegin(g, c)
    case EnqueueClean => CleanEnqueue(g, c)
    case Guard => CleanGuard(g, c)
    case GuardDone => CleanGuardDone(g, c)
    case EndClean => CleanEnd(g, c)
    case TestClean => CleanTest(g, c)
    case LookAfterStop => CleanAfter(g, c)
    case EnqueueFence => CleanFence(g, c)
    case GoOffLane => CleanLife(g, c)
    case RunDone => CleanRunDone(g, c)
  }

  ghost predicate CleanStep(g: Sys, c: nat, a: CleanAct, h: Sys) {
    CanClean(g, c, a) && h == DoClean(g, c, a)
  }

  datatype WorkerAct =
    | Quiet(step: LaneStep) | TakeNext | CompleteTask | CompleteCleanup | StartHold | ParkHere | LeaveHold
    | LockIdle | SealIdle | UnlockIdle

  /** The moves of lane i's worker, and of the retirement of lane i. */
  predicate CanWorker(g: Sys, i: nat, a: WorkerAct) {
    match a
    case Quiet(step) => CanQuiet(g, i, step)
    case TakeNext => CanWorkerTake(g, i)
    case CompleteTask => CanWorkerFinishTask(g, i)
    case CompleteCleanup => CanWorkerFinishCleanup(g, i)
    case StartHold => CanWorkerBarrier(g, i)
    case ParkHere => CanWorkerPark(g, i)
    case LeaveHold => CanWorkerLeave(g, i)
    case LockIdle => CanRetireLock(g, i)
    case SealIdle => CanRetireSeal(g, i)
    case UnlockIdle => CanRetireUnlock(g, i)
  }

  function DoWorker(g: Sys, i: nat, a: WorkerAct): Sys
    requires CanWorker(g, i, a)
  {
    match a
    case Quiet(step) => OnLane(g, i, step)
    case TakeNext => WorkerTake(g, i)
    case CompleteTask => WorkerFinishTask(g, i)
    case CompleteCleanup => WorkerFinishCleanup(g, i)
    case StartHold => WorkerBarrier(g, i)
    case ParkHere => WorkerPark(g, i)
    case LeaveHold => WorkerLeave(g, i)
    case LockIdle => RetireLock(g, i)
    case SealIdle => RetireSeal(g, i)
    case UnlockIdle => RetireUnlock(g, i)
  }

  ghost predicate WorkerStep(g: Sys, i: nat, a: WorkerAct, h: Sys) {
    CanWorker(g, i, a) && h == DoWorker(g, i, a)
  }

  datatype SectionAct =
    | Begin | Install | OffLaneDone | PutBarrier(i: nat) | Await | AllParked | Go | LeaveFn | Withdraw | RunOne
    | RanOne | End

  predicate CanSection(g: Sys, a: SectionAct) {
    match a
    case Begin => CanSecBegin(g)
    case Install => CanSecInstall(g)
    case OffLaneDone => CanSecWaited(g)
    case PutBarrier(i) => CanSecEnqueue(g, i)
    case Await => CanSecAwait(g)
    case AllParked => CanSecParked(g)
    case Go => CanSecGo(g)
    case LeaveFn => CanSecLeave(g)
    case Withdraw => CanSecWithdraw(g)
    case RunOne => CanSecRun(g)
    case RanOne => CanSecRan(g)
    case End => CanSecEnd(g)
  }

  function DoSection(g: Sys, a: SectionAct): Sys
    requires CanSection(g, a)
  {
    match a
    case Begin => SecBegin(g)
    case Install => SecInstall(g)
    case OffLaneDone => SecWaited(g)
    case PutBarrier(i) => SecEnqueue(g, i)
    case Await => SecAwait(g)
    case AllParked => SecParked(g)
    case Go => SecGo(g)
    case LeaveFn => SecLeave(g)
    case Withdraw => SecWithdraw(g)
    case RunOne => SecRun(g)
    case RanOne => SecRan(g)
    case End => SecEnd(g)
  }

  ghost predicate SectionStep(g: Sys, a: SectionAct, h: Sys) {
    CanSection(g, a) && h == DoSection(g, a)
  }

  datatype StopAct =
    | QuietRetirer | Harden | Signal | Mark | CloseOne(i: nat) | AllClosed | WorkersGone | SectionsGone | SealLife
    | Release | TimeOut

  predicate CanStop(g: Sys, s: nat, a: StopAct) {
    match a
    case QuietRetirer => CanStopQuiet(g, s)
    case Harden => CanStopHarden(g, s)
    case Signal => CanStopSignal(g, s)
    case Mark => CanStopMark(g, s)
    case CloseOne(i) => CanStopClose(g, s, i)
    case AllClosed => CanStopClosed(g, s)
    case WorkersGone => CanStopWorkers(g, s)
    case SectionsGone => CanStopSections(g, s)
    case SealLife => CanStopSeal(g, s)
    case Release => StopAt(g, s, Won)
    case TimeOut => CanStopTimeout(g, s)
  }

  function DoStop(g: Sys, s: nat, a: StopAct): Sys
    requires CanStop(g, s, a)
  {
    match a
    case QuietRetirer => StopQuiet(g, s)
    case Harden => StopHarden(g, s)
    case Signal => StopSignal(g, s)
    case Mark => StopMark(g, s)
    case CloseOne(i) => StopClose(g, s, i)
    case AllClosed => SetStop(g, s, AwaitWorkers)
    case WorkersGone => SetStop(g, s, AwaitSections)
    case SectionsGone => SetStop(g, s, AwaitLife)
    case SealLife => StopSeal(g, s)
    case Release => StopRelease(g, s)
    case TimeOut => SetStop(g, s, Over(false))
  }

  ghost predicate StopStep(g: Sys, s: nat, a: StopAct, h: Sys) {
    CanStop(g, s, a) && h == DoStop(g, s, a)
  }

  datatype Move =
    | SubmitCall(key: Key, closing: bool) | CleanCall(p: nat) | StopCall(hard: bool)
    | SubmitMove(p: nat, submit: SubmitAct)
    | CleanMove(c: nat, clean: CleanAct)
    | WorkerMove(i: nat, worker: WorkerAct)
    | SectionMove(section: SectionAct)
    | StopMove(s: nat, stop: StopAct)

  /** A send on a closed channel panics on the submitting goroutine and takes the process down. */
  predicate Alive(g: Sys) {
    forall i :: 0 <= i < |g.lanes| ==> !g.lanes[i].panicked
  }

  predicate Can(g: Sys, m: Move) {
    && Alive(g)
    && match m
       case SubmitCall(key, _) => CanNewSubmit(g, key)
       case CleanCall(p) => CanNewCleanup(g, p)
       case StopCall(_) => true
       case SubmitMove(p, a) => CanSubmit(g, p, a)
       case CleanMove(c, a) => CanClean(g, c, a)
       case WorkerMove(i, a) => CanWorker(g, i, a)
       case SectionMove(a) => CanSection(g, a)
       case StopMove(s, a) => CanStop(g, s, a)
  }

  function Do(g: Sys, m: Move): Sys
    requires Can(g, m)
  {
    match m
    case SubmitCall(key, closing) => NewSubmit(g, key, closing)
    case CleanCall(p) => NewCleanup(g, p)
    case StopCall(hard) => NewStop(g, hard)
    case SubmitMove(p, a) => DoSubmit(g, p, a)
    case CleanMove(c, a) => DoClean(g, c, a)
    case WorkerMove(i, a) => DoWorker(g, i, a)
    case SectionMove(a) => DoSection(g, a)
    case StopMove(s, a) => DoStop(g, s, a)
  }

  // ----- each move is one of the steps above -----

  lemma CleanStepOf(g: Sys, c: nat, a: CleanAct, h: Sys)
    requires CleanStep(g, c, a, h)
    ensures match a
            case HaltClean => CanCleanStop(g, c) && h == CleanStop(g, c)
            case FindClean => CanCleanFind(g, c) && h == CleanFind(g, c)
            case CreateClean => CanCleanCreate(g, c) && h == CleanCreate(g, c)
            case LimitClean => CanCleanLimit(g, c) && h == CleanLimit(g, c)
            case ParkClean => CanCleanPark(g, c) && h == CleanPark(g, c)
            case ResumeClean => CanCleanResume(g, c) && h == SetClean(g, c, Looking, g.cleans[c].place)
            case BeginClean => CanCleanBegin(g, c) && h == CleanBegin(g, c)
            case EnqueueClean => CanCleanEnqueue(g, c) && h == CleanEnqueue(g, c)
            case Guard => CanCleanGuard(g, c) && h == CleanGuard(g, c)
            case GuardDone => CanCleanGuardDone(g, c) && h == CleanGuardDone(g, c)
            case EndClean => CanCleanEnd(g, c) && h == CleanEnd(g, c)
            case TestClean => CanCleanTest(g, c) && h == CleanTest(g, c)
            case LookAfterStop => CanCleanAfter(g, c) && h == CleanAfter(g, c)
            case EnqueueFence => CanCleanFence(g, c) && h == CleanFence(g, c)
            case GoOffLane => CleanAt(g, c, OffLane) && h == CleanLife(g, c)
            case RunDone => CanCleanRunDone(g, c) && h == CleanRunDone(g, c)
  {
  }

  lemma WorkerStepOf(g: Sys, i: nat, a: WorkerAct, h: Sys)
    requires WorkerStep(g, i, a, h)
    ensures match a
            case Quiet(step) => CanQuiet(g, i, step) && h == OnLane(g, i, step)
            case TakeNext => CanWorkerTake(g, i) && h == WorkerTake(g, i)
            case CompleteTask => CanWorkerFinishTask(g, i) && h == WorkerFinishTask(g, i)
            case CompleteCleanup => CanWorkerFinishCleanup(g, i) && h == WorkerFinishCleanup(g, i)
            case StartHold => CanWorkerBarrier(g, i) && h == WorkerBarrier(g, i)
            case ParkHere => CanWorkerPark(g, i) && h == WorkerPark(g, i)
            case LeaveHold => CanWorkerLeave(g, i) && h == WorkerLeave(g, i)
            case LockIdle => CanRetireLock(g, i) && h == RetireLock(g, i)
            case SealIdle => CanRetireSeal(g, i) && h == RetireSeal(g, i)
            case UnlockIdle => CanRetireUnlock(g, i) && h == RetireUnlock(g, i)
  {
  }

  lemma SectionStepOf(g: Sys, a: SectionAct, h: Sys)
    requires SectionStep(g, a, h)
    ensures match a
            case Begin => CanSecBegin(g) && h == SecBegin(g)
            case Install => CanSecInstall(g) && h == SecInstall(g)
            case OffLaneDone => CanSecWaited(g) && h == SecWaited(g)
            case PutBarrier(i) => CanSecEnqueue(g, i) && h == SecEnqueue(g, i)
            case Await => CanSecAwait(g) && h == SecAwait(g)
            case AllParked => CanSecParked(g) && h == SecParked(g)
            case Go => CanSecGo(g) && h == SecGo(g)
            case LeaveFn => CanSecLeave(g) && h == SecLeave(g)
            case Withdraw => CanSecWithdraw(g) && h == SecWithdraw(g)
            case RunOne => CanSecRun(g) && h == SecRun(g)
            case RanOne => CanSecRan(g) && h == SecRan(g)
            case End => CanSecEnd(g) && h == SecEnd(g)
  {
  }

  lemma StopStepOf(g: Sys, s: nat, a: StopAct, h: Sys)
    requires StopStep(g, s, a, h)
    ensures match a
            case QuietRetirer => CanStopQuiet(g, s) && h == StopQuiet(g, s)
            case Harden => CanStopHarden(g, s) && h == StopHarden(g, s)
            case Signal => CanStopSignal(g, s) && h == StopSignal(g, s)
            case Mark => CanStopMark(g, s) && h == StopMark(g, s)
            case CloseOne(i) => CanStopClose(g, s, i) && h == StopClose(g, s, i)
            case AllClosed => CanStopClosed(g, s) && h == SetStop(g, s, AwaitWorkers)
            case WorkersGone => CanStopWorkers(g, s) && h == SetStop(g, s, AwaitSections)
            case SectionsGone => CanStopSections(g, s) && h == SetStop(g, s, AwaitLife)
            case SealLife => CanStopSeal(g, s) && h == StopSeal(g, s)
            case Release => StopAt(g, s, Won) && h == StopRelease(g, s)
            case TimeOut => CanStopTimeout(g, s) && h == SetStop(g, s, Over(false))
  {
  }

  /** Move m is enabled in g and leads to h. */
  ghost predicate Steps(g: Sys, m: Move, h: Sys) {
    Can(g, m) && h == Do(g, m)
  }

  lemma StepOf(g: Sys, m: Move, h: Sys)
    requires Steps(g, m, h)
    ensures Alive(g)
    ensures match m
            case SubmitCall(key, closing) => CanNewSubmit(g, key) && h == NewSubmit(g, key, closing)
            case CleanCall(p) => CanNewCleanup(g, p) && h == NewCleanup(g, p)
            case StopCall(hard) => h == NewStop(g, hard)
            case SubmitMove(p, a) => SubmitStep(g, p, a, h)
            case CleanMove(c, a) => CleanStep(g, c, a, h)
            case WorkerMove(i, a) => WorkerStep(g, i, a, h)
            case SectionMove(a) => SectionStep(g, a, h)
            case StopMove(s, a) => StopStep(g, s, a, h)
  {
  }
}
