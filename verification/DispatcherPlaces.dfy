/** Where every handle release is: each has exactly one place, and each is begun at most once. */
module DispatcherPlaces {
  import opened Sequences
  import opened RoutingKeys
  import opened Queues
  import opened Lanes
  import opened Dispatcher
  import opened DispatcherFrame

  // ----- the section's own shape -----

  /** The section postpones releases exactly from its installation to its withdrawal. */
  ghost predicate ShapeOk(sec: Section) {
    && (sec.active <==> !sec.pc.NoSection? && !sec.pc.Registered? && !sec.pc.Withdrawn?)
    && (!sec.active ==> sec.postponed == [])
  }

  /** Releases the section still has to run. */
  function Deferred(sec: Section): seq<nat> {
    sec.postponed + (if sec.pc.Releasing? || sec.pc.RunningPostponed? then sec.pc.todo else [])
  }

  // ----- places -----

  predicate ForRelease(e: Entry) {
    !IsBarrierKey(e.key)
  }

  ghost predicate EntryPlaced(e: Entry, cleans: seq<Cleaner>, place: Place) {
    e.id < |cleans| && cleans[e.id].place == place && cleans[e.id].key == e.key
  }

  /** What a lane holds is placed on that lane, and its backlog names each release once. */
  ghost predicate LanePlaces(l: Lane, i: nat, cleans: seq<Cleaner>) {
    && (forall j :: 0 <= j < |l.q.backlog| && ForRelease(l.q.backlog[j]) ==>
          EntryPlaced(l.q.backlog[j], cleans, InBacklog(i)))
    && (forall j, k :: 0 <= j < k < |l.q.backlog| && ForRelease(l.q.backlog[j]) && ForRelease(l.q.backlog[k]) ==>
          l.q.backlog[j].id != l.q.backlog[k].id)
    && (l.worker.Cleanup? ==> EntryPlaced(l.worker.entry, cleans, OnWorker(i)))
  }

  ghost predicate QueuedRelease(backlog: seq<Entry>, c: nat) {
    exists j :: 0 <= j < |backlog| && ForRelease(backlog[j]) && backlog[j].id == c
  }

  /** A release has no place while its call is still looking for one. */
  predicate Seeking(pc: CleanPc) {
    match pc
    case Looking => true
    case AwaitGuard(_) => true
    case GotLane(_) => true
    case AtLimit => true
    case RegLane(_) => true
    case RegLimit => true
    case EndingReg(placed) => !placed
    case TestedReg(placed, _) => !placed
    case AfterStop => true
    case FenceLane(_) => true
    case OffLane => true
    case _ => false
  }

  predicate OnCallerPc(pc: CleanPc) {
    pc.Guarding? || pc.Tracked? || pc.Untracked?
  }

  /** The place says where the release can be found. */
  ghost predicate Placed(lanes: seq<Lane>, sec: Section, c: nat, x: Cleaner) {
    && (x.place.Unplaced? <==> Seeking(x.pc))
    && (x.place.OnCaller? <==> OnCallerPc(x.pc))
    && match x.place
       case InBacklog(i) => i < |lanes| && QueuedRelease(lanes[i].q.backlog, c)
       case OnWorker(i) => i < |lanes| && lanes[i].worker.Cleanup? && lanes[i].worker.entry.id == c
       case Postponed => c in Deferred(sec)
       case OnSection => sec.pc.RunningPostponed? && sec.pc.release == c
       case _ => true
  }

  ghost predicate ListOk(sec: Section, cleans: seq<Cleaner>) {
    && NoDup(Deferred(sec))
    && (forall c: nat :: c in Deferred(sec) ==> c < |cleans| && cleans[c].place.Postponed?)
    && (sec.pc.RunningPostponed? ==> sec.pc.release < |cleans| && cleans[sec.pc.release].place.OnSection?)
  }

  predicate HasBegun(p: Place) {
    p.OnWorker? || p.OnSection? || p.OnCaller? || p.Released?
  }

  /** The log of starts names each release that has begun, once, and no other. */
  ghost predicate BegunOk(cleans: seq<Cleaner>, begun: seq<nat>) {
    && NoDup(begun)
    && forall c: nat :: c in begun <==> (c < |cleans| && HasBegun(cleans[c].place))
  }

  ghost predicate LanesPlace(lanes: seq<Lane>, cleans: seq<Cleaner>) {
    forall i :: 0 <= i < |lanes| ==> LanePlaces(lanes[i], i, cleans)
  }

  ghost predicate AllPlaced(lanes: seq<Lane>, sec: Section, cleans: seq<Cleaner>) {
    forall c :: 0 <= c < |cleans| ==> Placed(lanes, sec, c, cleans[c])
  }

  ghost predicate PlacesOk(g: Sys) {
    && ShapeOk(g.sec)
    && LanesPlace(g.lanes, g.cleans)
    && AllPlaced(g.lanes, g.sec, g.cleans)
    && ListOk(g.sec, g.cleans)
    && BegunOk(g.cleans, g.begun)
  }

  // ----- frames -----

  /** Same entries by id and key, and the same release on the worker. */
  ghost predicate SameHolding(l: Lane, m: Lane) {
    && |m.q.backlog| == |l.q.backlog|
    && (forall j :: 0 <= j < |l.q.backlog| ==>
          m.q.backlog[j].id == l.q.backlog[j].id && m.q.backlog[j].key == l.q.backlog[j].key)
    && (m.worker.Cleanup? <==> l.worker.Cleanup?)
    && (m.worker.Cleanup? ==> m.worker.entry == l.worker.entry)
  }

  lemma HoldingFrame(lanes: seq<Lane>, sec: Section, cleans: seq<Cleaner>, i: nat, m: Lane)
    requires LanesPlace(lanes, cleans) && AllPlaced(lanes, sec, cleans)
    requires i < |lanes| && SameHolding(lanes[i], m)
    ensures LanesPlace(lanes[i := m], cleans) && AllPlaced(lanes[i := m], sec, cleans)
  {
  }

  lemma TurnHolding(l: Lane, sig: Signals, a: LoopAct)
    requires CanTurn(l, sig, a)
    ensures SameHolding(l, Turn(l, sig, a))
  {
  }

  lemma ProduceHolding(l: Lane, sig: Signals, p: nat, a: ProducerAct)
    requires CanProduce(l, sig, p, a)
    ensures SameHolding(l, Produce(l, sig, p, a))
  {
  }

  lemma WorkHolding(l: Lane, sig: Signals, a: WorkAct)
    requires CanWork(l, a) && !a.WFinishCleanup?
    ensures SameHolding(l, Work(l, sig, a))
  {
  }

  /** A release that no lane holds may be given any other place the lanes do not hold. */
  lemma LanesIgnore(lanes: seq<Lane>, cleans: seq<Cleaner>, c: nat, x: Cleaner)
    requires LanesPlace(lanes, cleans) && c < |cleans| && x.key == cleans[c].key
    requires x.place == cleans[c].place || (!cleans[c].place.InBacklog? && !cleans[c].place.OnWorker?)
    ensures LanesPlace(lanes, cleans[c := x])
  {
  }

  /** The new section may defer more, and may forget only what moved. */
  lemma PlacedUpdate(lanes: seq<Lane>, s: Section, t: Section, cleans: seq<Cleaner>, c: nat, x: Cleaner)
    requires AllPlaced(lanes, s, cleans) && c < |cleans| && Placed(lanes, t, c, x)
    requires forall d :: d in Deferred(s) && d != c ==> d in Deferred(t)
    requires s.pc.RunningPostponed? && s.pc.release != c ==> t.pc.RunningPostponed? && t.pc.release == s.pc.release
    ensures AllPlaced(lanes, t, cleans[c := x])
  {
  }

  lemma BegunSame(cleans: seq<Cleaner>, begun: seq<nat>, c: nat, x: Cleaner)
    requires BegunOk(cleans, begun) && c < |cleans| && (HasBegun(x.place) <==> HasBegun(cleans[c].place))
    ensures BegunOk(cleans[c := x], begun)
  {
  }

  lemma BegunNow(cleans: seq<Cleaner>, begun: seq<nat>, c: nat, x: Cleaner)
    requires BegunOk(cleans, begun) && c < |cleans| && HasBegun(x.place) && !HasBegun(cleans[c].place)
    ensures BegunOk(cleans[c := x], begun + [c])
  {
  }

  lemma ListSame(sec: Section, cleans: seq<Cleaner>, c: nat, x: Cleaner)
    requires ListOk(sec, cleans) && c < |cleans|
    requires x.place == cleans[c].place || (!cleans[c].place.Postponed? && !cleans[c].place.OnSection?)
    ensures ListOk(sec, cleans[c := x])
  {
  }

  // ----- moves of a release -----

  /** The call moves on and the release stays where it was. */
  lemma PcFrame(g: Sys, c: nat, pc: CleanPc)
    requires PlacesOk(g) && c < |g.cleans| && Seeking(pc) == Seeking(g.cleans[c].pc)
    requires OnCallerPc(pc) == OnCallerPc(g.cleans[c].pc)
    ensures PlacesOk(SetClean(g, c, pc, g.cleans[c].place))
  {
  }

  lemma EnqueuePlaces(g: Sys, c: nat, fence: bool, pc: CleanPc, i: nat)
    requires PlacesOk(g) && KeysPlain(g.subs, g.cleans) && c < |g.cleans| && i < |g.lanes|
    requires Seeking(g.cleans[c].pc) && !Seeking(pc) && !OnCallerPc(pc)
    ensures PlacesOk(SetClean(PutLane(g, i, Enqueue(g.lanes[i], c, g.cleans[c].key, fence)), c, pc, InBacklog(i)))
  {
    var x := g.cleans[c].(pc := pc, place := InBacklog(i));
    assert Placed(g.lanes, g.sec, c, g.cleans[c]);
    var l := g.lanes[i];
    var m := Enqueue(l, c, g.cleans[c].key, fence);
    var after, later := g.lanes[i := m], g.cleans[c := x];
    forall j | 0 <= j < |after| ensures LanePlaces(after[j], j, later) {
      assert LanePlaces(g.lanes[j], j, g.cleans);
    }
    forall c0 | 0 <= c0 < |later| ensures Placed(after, g.sec, c0, later[c0]) {
      assert Placed(g.lanes, g.sec, c0, g.cleans[c0]);
      assert m.q.backlog[|l.q.backlog|].id == c;
      if QueuedRelease(l.q.backlog, c0) {
        var j :| 0 <= j < |l.q.backlog| && ForRelease(l.q.backlog[j]) && l.q.backlog[j].id == c0;
        assert m.q.backlog[j] == l.q.backlog[j];
      }
    }
    ListSame(g.sec, g.cleans, c, x);
    BegunSame(g.cleans, g.begun, c, x);
  }

  /** The section takes the release over. */
  lemma PostponePlaces(g: Sys, c: nat, pc: CleanPc)
    requires PlacesOk(g) && c < |g.cleans| && g.sec.active
    requires Seeking(g.cleans[c].pc) && !Seeking(pc) && !OnCallerPc(pc)
    ensures PlacesOk(SetClean(g.(sec := g.sec.(postponed := g.sec.postponed + [c])), c, pc, Postponed))
  {
    var x := g.cleans[c].(pc := pc, place := Postponed);
    var t := g.sec.(postponed := g.sec.postponed + [c]);
    assert Placed(g.lanes, g.sec, c, g.cleans[c]);
    assert c !in Deferred(g.sec);
    LanesIgnore(g.lanes, g.cleans, c, x);
    assert t.postponed[|g.sec.postponed|] == c;
    PlacedUpdate(g.lanes, g.sec, t, g.cleans, c, x);
    BegunSame(g.cleans, g.begun, c, x);
    assert ListOk(g.sec.(postponed := g.sec.postponed + [c]), g.cleans[c := x]) by {
      var rest := if g.sec.pc.Releasing? || g.sec.pc.RunningPostponed? then g.sec.pc.todo else [];
      assert c !in Deferred(g.sec);
      NoDupInsert(g.sec.postponed, c, rest);
      assert Deferred(g.sec) == g.sec.postponed + rest;
      assert Deferred(g.sec.(postponed := g.sec.postponed + [c])) == g.sec.postponed + [c] + rest;
    }
  }

  /** The caller runs the release itself. */
  lemma CallerPlaces(g: Sys, c: nat, pc: CleanPc)
    requires PlacesOk(g) && c < |g.cleans| && Seeking(g.cleans[c].pc) && OnCallerPc(pc)
    ensures PlacesOk(SetClean(g.(begun := g.begun + [c]), c, pc, OnCaller))
  {
    hide ShapeOk, LanePlaces, BegunOk, Deferred, QueuedRelease, NoDup;
    var x := g.cleans[c].(pc := pc, place := OnCaller);
    assert Placed(g.lanes, g.sec, c, g.cleans[c]);
    LanesIgnore(g.lanes, g.cleans, c, x);
    PlacedUpdate(g.lanes, g.sec, g.sec, g.cleans, c, x);
    ListSame(g.sec, g.cleans, c, x);
    BegunNow(g.cleans, g.begun, c, x);
  }

  lemma CallerDone(g: Sys, c: nat, pc: CleanPc)
    requires PlacesOk(g) && c < |g.cleans| && OnCallerPc(g.cleans[c].pc) && !OnCallerPc(pc) && !Seeking(pc)
    ensures PlacesOk(SetClean(g, c, pc, Released))
  {
  }

  /** A state that differs only in fields the places do not look at. */
  ghost predicate SamePlaces(g: Sys, h: Sys) {
    && h.lanes == g.lanes && h.cleans == g.cleans && h.begun == g.begun
    && h.sec.pc == g.sec.pc && h.sec.active == g.sec.active && h.sec.postponed == g.sec.postponed
  }

  lemma SamePlacesOk(g: Sys, h: Sys)
    requires PlacesOk(g) && SamePlaces(g, h)
    ensures PlacesOk(h)
  {
  }

  lemma CreatePlaces(g: Sys, key: Key)
    requires PlacesOk(g)
    ensures PlacesOk(CreateQueue(g, key))
  {
    var l := FreshLane(g, key);
    var after := g.lanes + [l];
    forall c | 0 <= c < |g.cleans| ensures Placed(after, g.sec, c, g.cleans[c]) {
      assert Placed(g.lanes, g.sec, c, g.cleans[c]);
    }
    SamePlacesOk(g.(lanes := g.lanes + [l]), CreateQueue(g, key));
  }

  lemma GuardDonePlaces(g: Sys, c: nat)
    requires CanCleanGuardDone(g, c) && PlacesOk(g)
    ensures PlacesOk(CleanGuardDone(g, c))
  {
    hide LanesPlace, AllPlaced, ListOk, BegunOk, ShapeOk;
    CallerDone(g, c, EndingReg(true));
    SamePlacesOk(SetClean(g, c, EndingReg(true), Released), CleanGuardDone(g, c));
  }

  lemma RunDonePlaces(g: Sys, c: nat)
    requires CanCleanRunDone(g, c) && PlacesOk(g)
    ensures PlacesOk(CleanRunDone(g, c))
  {
    hide LanesPlace, AllPlaced, ListOk, BegunOk, ShapeOk;
    CallerDone(g, c, Returned);
    SamePlacesOk(SetClean(g, c, Returned, Released), CleanRunDone(g, c));
  }

  lemma CreateCleanPlaces(g: Sys, c: nat)
    requires CanCleanCreate(g, c) && PlacesOk(g)
    ensures PlacesOk(CleanCreate(g, c))
  {
    hide LanesPlace, AllPlaced, ListOk, BegunOk, ShapeOk;
    CreatePlaces(g, g.cleans[c].key);
    PcFrame(CreateQueue(g, g.cleans[c].key), c, GotLane(|g.lanes|));
  }

  lemma PcOnlyPlaces(g: Sys, c: nat, a: CleanAct, h: Sys)
    requires CleanStep(g, c, a, h) && PlacesOk(g)
    requires !a.EnqueueClean? && !a.EnqueueFence? && !a.Guard? && !a.GoOffLane? && !a.GuardDone? && !a.RunDone?
    requires !a.CreateClean?
    ensures PlacesOk(h)
  {
    PcFrame(g, c, h.cleans[c].pc);
    SamePlacesOk(SetClean(g, c, h.cleans[c].pc, g.cleans[c].place), h);
  }

  lemma EnqueueCleanPlaces(g: Sys, c: nat)
    requires CanCleanEnqueue(g, c) && PlacesOk(g) && KeysPlain(g.subs, g.cleans)
    ensures PlacesOk(CleanEnqueue(g, c))
  {
    var i := g.cleans[c].pc.lane;
    if TakesCleanup(g.lanes[i].q) {
      EnqueuePlaces(g, c, false, EndingReg(true), i);
    } else {
      PcFrame(g, c, EndingReg(false));
    }
  }

  lemma EnqueueFencePlaces(g: Sys, c: nat)
    requires CanCleanFence(g, c) && PlacesOk(g) && KeysPlain(g.subs, g.cleans)
    ensures PlacesOk(CleanFence(g, c))
  {
    var i := g.cleans[c].pc.lane;
    if TakesCleanup(g.lanes[i].q) {
      EnqueuePlaces(g, c, true, Returned, i);
    } else {
      PcFrame(g, c, OffLane);
    }
  }

  lemma GuardPlaces(g: Sys, c: nat)
    requires CanCleanGuard(g, c) && PlacesOk(g)
    ensures PlacesOk(CleanGuard(g, c))
  {
    var key := g.cleans[c].key;
    if GuardRefused(g, key) {
      PcFrame(g, c, EndingReg(false));
    } else if g.sec.active {
      PostponePlaces(g, c, EndingReg(true));
    } else {
      CallerPlaces(g, c, Guarding);
      SamePlacesOk(SetClean(g.(begun := g.begun + [c]), c, Guarding, OnCaller), CleanGuard(g, c));
    }
  }

  lemma OffLanePlaces(g: Sys, c: nat)
    requires CleanAt(g, c, OffLane) && PlacesOk(g)
    ensures PlacesOk(CleanLife(g, c))
  {
    if g.life.sealed {
      CallerPlaces(g, c, Untracked);
    } else if g.sec.active {
      PostponePlaces(g, c, Returned);
    } else {
      CallerPlaces(g, c, Tracked);
      SamePlacesOk(SetClean(g.(begun := g.begun + [c]), c, Tracked, OnCaller), CleanLife(g, c));
    }
  }

  // ----- workers -----

  lemma PopPlaces(lanes: seq<Lane>, sec: Section, cleans: seq<Cleaner>, i: nat)
    requires LanesPlace(lanes, cleans) && AllPlaced(lanes, sec, cleans) && i < |lanes|
    requires var l := lanes[i]; l.worker.Top? && l.q.backlog != [] && l.marks != []
    ensures var e := lanes[i].q.backlog[0];
            if ForRelease(e) then
              && EntryPlaced(e, cleans, InBacklog(i))
              && var later := cleans[e.id := cleans[e.id].(place := OnWorker(i))];
                 LanesPlace(lanes[i := Pop(lanes[i])], later) && AllPlaced(lanes[i := Pop(lanes[i])], sec, later)
            else LanesPlace(lanes[i := Pop(lanes[i])], cleans) && AllPlaced(lanes[i := Pop(lanes[i])], sec, cleans)
  {
    var l, m := lanes[i], Pop(lanes[i]);
    var e, after := l.q.backlog[0], lanes[i := m];
    assert LanePlaces(l, i, cleans);
    assert forall j :: 0 <= j < |m.q.backlog| ==> m.q.backlog[j] == l.q.backlog[j + 1];
    var later := if ForRelease(e) then cleans[e.id := cleans[e.id].(place := OnWorker(i))] else cleans;
    forall j | 0 <= j < |after| ensures LanePlaces(after[j], j, later) {
      assert LanePlaces(lanes[j], j, cleans);
    }
    forall c | 0 <= c < |later| ensures Placed(after, sec, c, later[c]) {
      assert Placed(lanes, sec, c, cleans[c]);
      if QueuedRelease(l.q.backlog, c) && !(ForRelease(e) && c == e.id) {
        var j :| 0 <= j < |l.q.backlog| && ForRelease(l.q.backlog[j]) && l.q.backlog[j].id == c;
        assert m.q.backlog[j - 1].id == c;
      }
    }
  }

  lemma ConvertHolding(l: Lane, fence: bool)
    ensures SameHolding(l, ConvertHead(l, fence)) && ConvertHead(l, fence).worker == l.worker
  {
  }

  lemma LookHolding(l: Lane)
    requires l.worker.Top?
    ensures SameHolding(l, LookElsewhere(l))
  {
  }

  lemma FinishPlaces(g: Sys, i: nat)
    requires CanWorkerFinishCleanup(g, i) && PlacesOk(g)
    ensures PlacesOk(WorkerFinishCleanup(g, i))
  {
    var l := g.lanes[i];
    var m, c := FinishCleanup(l), l.worker.entry.id;
    assert LanePlaces(l, i, g.cleans);
    assert Placed(g.lanes, g.sec, c, g.cleans[c]);
    var x := g.cleans[c].(place := Released);
    var after, later := g.lanes[i := m], g.cleans[c := x];
    forall j | 0 <= j < |after| ensures LanePlaces(after[j], j, later) {
      assert LanePlaces(g.lanes[j], j, g.cleans);
    }
    forall d | 0 <= d < |later| ensures Placed(after, g.sec, d, later[d]) {
      assert Placed(g.lanes, g.sec, d, g.cleans[d]);
    }
    ListSame(g.sec, g.cleans, c, x);
    BegunSame(g.cleans, g.begun, c, x);
  }

  lemma WorkerPlaces(g: Sys, i: nat, a: WorkerAct, h: Sys)
    requires WorkerStep(g, i, a, h) && PlacesOk(g)
    ensures PlacesOk(h)
  {
    hide AllPlaced, BegunOk, ConvertHead, LanesPlace, ListOk, SameHolding, ShapeOk;
    WorkerStepOf(g, i, a, h);
    match a
    case TakeNext =>
      assert PlacesOk(WorkerTake(g, i)) by {
        var l, sig := g.lanes[i], Sig(g.ctl);
        ConvertHolding(l, sig.fence);
        var c := ConvertHead(l, sig.fence);
        HoldingFrame(g.lanes, g.sec, g.cleans, i, c);
        var mid := g.lanes[i := c];
        if HeadReady(c.q) && c.marks != [] {
          PopPlaces(mid, g.sec, g.cleans, i);
          assert mid[i := Pop(c)] == g.lanes[i := Pop(c)];
          var e := c.q.backlog[0];
          if ForRelease(e) {
            var x := g.cleans[e.id].(place := OnWorker(i));
            ListSame(g.sec, g.cleans, e.id, x);
            BegunNow(g.cleans, g.begun, e.id, x);
          }
        } else {
          LookHolding(c);
          HoldingFrame(mid, g.sec, g.cleans, i, LookElsewhere(c));
          assert mid[i := LookElsewhere(c)] == g.lanes[i := LookElsewhere(c)];
        }
      }
    case CompleteCleanup => FinishPlaces(g, i);
    case _ => OtherWorkPlaces(g, i, a, h);
  }

  lemma OtherWorkPlaces(g: Sys, i: nat, a: WorkerAct, h: Sys)
    requires WorkerStep(g, i, a, h) && !a.TakeNext? && !a.CompleteCleanup? && PlacesOk(g)
    ensures PlacesOk(h)
  {
    hide CanStep, Step;
    WorkKeys(g, i, a, h);
    WorkLanesAfter(g, i, a, h);
    LaneStepPlaces(g, h, i, WorkStep(a));
  }

  /** Steps that neither queue nor take nor finish a release. */
  predicate HoldsStill(s: LaneStep) {
    !s.SEnqueue? && !s.STake? && s != ByWork(WFinishCleanup)
  }

  /** A move that is one holding-preserving lane step, as far as places are concerned. */
  lemma LaneStepPlaces(g: Sys, h: Sys, i: nat, s: LaneStep)
    requires PlacesOk(g) && HoldsStill(s) && Moved(g, OneLane(i, s), h.lanes)
    requires SamePlaces(g.(lanes := h.lanes), h)
    ensures PlacesOk(h)
  {
    hide CanStep, Step;
    assert SameHolding(g.lanes[i], Step(g.lanes[i], Sig(g.ctl), s)) by {
      hide CanProduce, CanTurn, CanWork, Enqueue, Produce, Take, Turn, Work;
      StepIs(g.lanes[i], Sig(g.ctl), s);
      match s
      case ByProducer(p, a) => ProduceHolding(g.lanes[i], Sig(g.ctl), p, a);
      case ByLoop(a) => TurnHolding(g.lanes[i], Sig(g.ctl), a);
      case ByWork(a) => WorkHolding(g.lanes[i], Sig(g.ctl), a);
      case SPutToken =>
      case ByGate(a) =>
    }
    HoldingFrame(g.lanes, g.sec, g.cleans, i, Step(g.lanes[i], Sig(g.ctl), s));
    SamePlacesOk(g.(lanes := h.lanes), h);
  }

  lemma SubmitPlaces(g: Sys, p: nat, a: SubmitAct, h: Sys)
    requires SubmitStep(g, p, a, h) && PlacesOk(g)
    ensures PlacesOk(h)
  {
    SubmitKeys(g, p, a, h);
    SubmitLanesAfter(g, p, a, h);
    if a.Create? {
      CreatePlaces(g, g.subs[p].key);
      SamePlacesOk(CreateQueue(g, g.subs[p].key), h);
    } else if LaneOf(g, SubmitMove(p, a)).OneLane? {
      LaneStepPlaces(g, h, LaneOf(g, SubmitMove(p, a)).i, LaneOf(g, SubmitMove(p, a)).s);
    } else {
      SamePlacesOk(g, h);
    }
  }

  // ----- section -----

  lemma RunPlaces(g: Sys)
    requires CanSecRun(g) && PlacesOk(g)
    ensures PlacesOk(SecRun(g))
  {
    var c := g.sec.pc.todo[0];
    var t := SecRun(g).sec;
    var x := g.cleans[c].(place := OnSection);
    NoDupInsert(g.sec.postponed, c, g.sec.pc.todo[1..]);
    assert Deferred(g.sec) == g.sec.postponed + [c] + g.sec.pc.todo[1..];
    assert Deferred(t) == g.sec.postponed + g.sec.pc.todo[1..];
    assert Placed(g.lanes, g.sec, c, g.cleans[c]);
    LanesIgnore(g.lanes, g.cleans, c, x);
    PlacedUpdate(g.lanes, g.sec, t, g.cleans, c, x);
    BegunNow(g.cleans, g.begun, c, x);
  }

  lemma BarrierPlaces(g: Sys, i: nat)
    requires CanSecEnqueue(g, i) && PlacesOk(g)
    ensures PlacesOk(SecEnqueue(g, i))
  {
    if TakesCleanup(g.lanes[i].q) {
      var before := g.lanes[i].q.backlog;
      var l := Enqueue(g.lanes[i], g.sec.id, Key(ExclusiveBarrier, 0), false);
      var after := g.lanes[i := l];
      assert LanePlaces(l, i, g.cleans) by {
        assert LanePlaces(g.lanes[i], i, g.cleans);
      }
      forall c | 0 <= c < |g.cleans| ensures Placed(after, g.sec, c, g.cleans[c]) {
        assert Placed(g.lanes, g.sec, c, g.cleans[c]);
        if QueuedRelease(before, c) {
          var j :| 0 <= j < |before| && ForRelease(before[j]) && before[j].id == c;
          assert l.q.backlog[j] == before[j];
        }
      }
      assert PlacesOk(PutLane(g, i, l));
      SamePlacesOk(PutLane(g, i, l), SecEnqueue(g, i));
    } else {
      SamePlacesOk(g, SecEnqueue(g, i));
    }
  }

  lemma RanPlaces(g: Sys)
    requires CanSecRan(g) && PlacesOk(g)
    ensures PlacesOk(SecRan(g))
  {
  }

  lemma SectionLists(g: Sys, a: SectionAct, h: Sys)
    requires SectionStep(g, a, h) && !a.RunOne? && !a.RanOne? && !a.PutBarrier? && ShapeOk(g.sec)
    ensures h.lanes == g.lanes && h.cleans == g.cleans && h.begun == g.begun && Deferred(h.sec) == Deferred(g.sec)
    ensures ShapeOk(h.sec) && !h.sec.pc.RunningPostponed? && !g.sec.pc.RunningPostponed?
  {
    hide Enqueue, CanEnqueue, TakesCleanup, NeedsBarrier, CleanAt;
  }

  lemma OtherSectionPlaces(g: Sys, a: SectionAct, h: Sys)
    requires SectionStep(g, a, h) && !a.RunOne? && !a.RanOne? && !a.PutBarrier? && PlacesOk(g)
    ensures PlacesOk(h)
  {
    hide SectionStep, CanSection, DoSection, LanePlaces, BegunOk, ShapeOk, Deferred, Seeking, OnCallerPc, QueuedRelease;
    SectionLists(g, a, h);
    forall c | 0 <= c < |g.cleans| ensures Placed(h.lanes, h.sec, c, h.cleans[c]) {
      assert Placed(g.lanes, g.sec, c, g.cleans[c]);
    }
  }

  lemma SectionPlaces(g: Sys, a: SectionAct, h: Sys)
    requires SectionStep(g, a, h) && PlacesOk(g)
    ensures PlacesOk(h)
  {
    hide *;
    SectionStepOf(g, a, h);
    match a
    case RunOne => RunPlaces(g);
    case RanOne => RanPlaces(g);
    case PutBarrier(i) => BarrierPlaces(g, i);
    case _ => OtherSectionPlaces(g, a, h);
  }

  lemma StopPlaces(g: Sys, s: nat, a: StopAct, h: Sys)
    requires StopStep(g, s, a, h) && PlacesOk(g)
    ensures PlacesOk(h)
  {
    hide StopStep, CanStop, DoStop, PlacesOk, CanStep, Step;
    StopKeys(g, s, a, h);
    StopLanesAfter(g, s, a, h);
    if a.CloseOne? {
      LaneStepPlaces(g, h, a.i, ByGate(GClose));
    } else {
      SamePlacesOk(g, h);
    }
  }

  lemma NewCleanupPlaces(g: Sys, p: nat)
    requires CanNewCleanup(g, p) && PlacesOk(g)
    ensures PlacesOk(NewCleanup(g, p))
  {
    var h := NewCleanup(g, p);
    forall i | 0 <= i < |h.lanes| ensures LanePlaces(h.lanes[i], i, h.cleans) {
    }
    forall c | 0 <= c < |h.cleans| ensures Placed(h.lanes, h.sec, c, h.cleans[c]) {
      assert c < |g.cleans| ==> Placed(g.lanes, g.sec, c, g.cleans[c]);
    }
  }

  lemma CallPlaces(g: Sys, m: Move, h: Sys)
    requires MoveKeeps(g, m, h) && PlacesOk(g) && (m.SubmitCall? || m.StopCall?)
    ensures PlacesOk(h)
  {
    hide PlacesOk;
    SamePlacesOk(g, h);
  }

  lemma PlacesKept(g: Sys, m: Move, h: Sys)
    requires Steps(g, m, h) && PlacesOk(g) && KeysPlain(g.subs, g.cleans)
    ensures PlacesOk(h)
  {
    hide *;
    StepOf(g, m, h);
    MoveKeys(g, m, h);
    match m
    case SubmitMove(p, a) => SubmitPlaces(g, p, a, h);
    case CleanMove(c, a) =>
      assert PlacesOk(h) by {
        CleanStepOf(g, c, a, h);
        match a
        case EnqueueClean => EnqueueCleanPlaces(g, c);
        case EnqueueFence => EnqueueFencePlaces(g, c);
        case Guard => GuardPlaces(g, c);
        case GoOffLane => OffLanePlaces(g, c);
        case GuardDone => GuardDonePlaces(g, c);
        case RunDone => RunDonePlaces(g, c);
        case CreateClean => CreateCleanPlaces(g, c);
        case _ => PcOnlyPlaces(g, c, a, h);
      }
    case WorkerMove(i, a) => WorkerPlaces(g, i, a, h);
    case SectionMove(a) => SectionPlaces(g, a, h);
    case StopMove(s, a) => StopPlaces(g, s, a, h);
    case CleanCall(p) => NewCleanupPlaces(g, p);
    case _ => CallPlaces(g, m, h);
  }
}
