/** Over whole runs: exactly when the two narrow windows of the engine are hit, and that a stop is never stuck. */
module DispatcherRuns {
  import opened RoutingKeys
  import opened Queues
  import opened Lanes
  import opened LaneFrame
  import opened LaneInvariant
  import LaneTheorems
  import opened Dispatcher
  import opened DispatcherFrame
  import opened DispatcherFence
  import opened DispatcherRegistry
  import opened DispatcherStop
  import opened DispatcherPlaces
  import opened DispatcherSection
  import opened DispatcherFifo
  import opened DispatcherHandoff
  import opened DispatcherTheorems

  // ----- from one state to another -----

  lemma LeadsSelf(g: Sys)
    ensures Leads(g, g)
  {
    hide StepAt;
    var states, moves: seq<Move> := [g], [];
    assert Stretch(states, moves) && g == states[|moves|];
  }

  lemma LeadsStep(g: Sys, m: Move, h: Sys)
    requires Steps(g, m, h)
    ensures Leads(g, h)
  {
    hide Steps;
    var states, moves := [g, h], [m];
    assert StepAt(states, moves, 0);
    assert Stretch(states, moves) && h == states[|moves|];
  }

  lemma Joined(s: seq<Sys>, m: seq<Move>, t: seq<Sys>, n: seq<Move>)
    requires Stretch(s, m) && Stretch(t, n) && s[|m|] == t[0]
    ensures Stretch(s + t[1..], m + n) && (s + t[1..])[0] == s[0] && (s + t[1..])[|m + n|] == t[|n|]
  {
    hide Steps;
    forall i | 0 <= i < |m + n| ensures StepAt(s + t[1..], m + n, i) {
      if i < |m| {
        assert StepAt(s, m, i);
      } else {
        assert StepAt(t, n, i - |m|);
      }
    }
  }

  lemma LeadsOn(g: Sys, k: Sys, h: Sys)
    requires Leads(g, k) && Leads(k, h)
    ensures Leads(g, h)
  {
    hide StepAt;
    var s, m :| Stretch(s, m) && g == s[0] && k == s[|m|];
    var t, n :| Stretch(t, n) && k == t[0] && h == t[|n|];
    Joined(s, m, t, n);
  }

  /** What a reachable state leads to is reachable. */
  lemma LeadsReach(g: Sys, h: Sys)
    requires Reachable(g) && Leads(g, h)
    ensures Reachable(h)
  {
    hide StepAt, Init, GoodConfig;
    var s, m := RunTo(g);
    var t, n :| Stretch(t, n) && g == t[0] && h == t[|n|];
    Joined(s, m, t, n);
    assert IsRun(s + t[1..], m + n);
  }

  lemma {:induction false} StretchInv(states: seq<Sys>, moves: seq<Move>, n: nat)
    requires Stretch(states, moves) && Inv(states[0]) && n < |states|
    ensures Inv(states[n])
  {
    hide Steps, Inv;
    if n > 0 {
      StretchInv(states, moves, n - 1);
      assert StepAt(states, moves, n - 1);
      InvKept(states[n - 1], moves[n - 1], states[n]);
    }
  }

  lemma LeadsInv(g: Sys, h: Sys)
    requires Inv(g) && FromTo(g, h)
    ensures Inv(h)
  {
    hide StepAt, Inv;
    if g != h {
      var s, m :| Stretch(s, m) && g == s[0] && h == s[|m|];
      StretchInv(s, m, |m|);
    }
  }

  // ----- one move further -----

  /** A run leads from g to k, or has not begun. */
  ghost predicate FromTo(g: Sys, k: Sys) {
    g == k || Leads(g, k)
  }

  /** Move m makes h of g: a call comes, or a part of the engine takes one of its steps. */
  ghost predicate Makes(g: Sys, m: Move, h: Sys) {
    match m
    case SubmitCall(key, closing) => CanNewSubmit(g, key) && h == NewSubmit(g, key, closing)
    case CleanCall(p) => CanNewCleanup(g, p) && h == NewCleanup(g, p)
    case StopCall(hard) => h == NewStop(g, hard)
    case SubmitMove(p, a) => SubmitStep(g, p, a, h)
    case CleanMove(c, a) => CleanStep(g, c, a, h)
    case WorkerMove(i, a) => WorkerStep(g, i, a, h)
    case SectionMove(a) => SectionStep(g, a, h)
    case StopMove(s, a) => StopStep(g, s, a, h)
  }

  lemma Then(g: Sys, k: Sys, m: Move, h: Sys)
    requires FromTo(g, k) && Alive(k) && Makes(k, m, h)
    ensures Leads(g, h)
  {
    hide Leads, Alive, CanSubmit, DoSubmit, CanClean, DoClean, CanWorker, DoWorker, CanSection, DoSection, CanStop;
    hide DoStop;
    hide CanNewSubmit, NewSubmit, CanNewCleanup, NewCleanup, NewStop;
    LeadsStep(k, m, h);
    if k != g {
      LeadsOn(g, k, h);
    }
  }

  lemma ReachInit(cfg: Config)
    requires GoodConfig(cfg)
    ensures Reachable(Init(cfg))
  {
    hide StepAt, GoodConfig;
    var states, moves := [Init(cfg)], [];
    assert IsRun(states, moves) && Init(cfg) == states[|moves|];
  }

  /** Every state of a run is reachable. */
  lemma RunReaches(states: seq<Sys>, moves: seq<Move>, n: nat)
    requires IsRun(states, moves) && n < |states|
    ensures Reachable(states[n])
  {
    hide Steps, Init, GoodConfig;
    var s, m := states[..n + 1], moves[..n];
    forall i | 0 <= i < |m| ensures StepAt(s, m, i) {
      assert StepAt(states, moves, i);
    }
    assert IsRun(s, m) && states[n] == s[|m|];
  }

  // ----- guards that never bite -----

  /** A registered call may decrement once its handoff is over, may hand its release over, and finds its lane. */
  ghost predicate CallChecks(g: Sys, p: nat) {
    p < |g.subs| ==>
      && (g.subs[p].pc.Ending? ==> (CanSubmitEnd(g, p) <==> g.subs[p].pc.ok || HandedOff(g, g.subs[p])))
      && (HandsOver(g.subs[p]) ==> CanNewCleanup(g, p))
      && (g.subs[p].pc.Found? ==> g.subs[p].pc.lane < |g.lanes|)
  }

  lemma CallPasses(g: Sys, p: nat)
    requires CtlOk(g.ctl, g.subs, g.cleans) && KeysPlain(g.subs, g.cleans) && SubsOk(g.lanes, g.subs) && RegOk(g)
    ensures CallChecks(g, p)
  {
    hide QueueMapOk, GateOk, GuardsOk, ClosedOk, AimsOk, StopsOk, HandedOff;
    if p < |g.subs| {
      SubmitsInUpdate(g.subs, p, g.subs[p]);
      assert SubOk(g.lanes, p, g.subs[p]);
    }
  }

  /** A release may decrement, end its tracked run, and join the lane that it has been routed to. */
  ghost predicate ReleaseChecks(g: Sys, c: nat) {
    c < |g.cleans| ==>
      && (g.cleans[c].pc.EndingReg? ==> CanCleanEnd(g, c))
      && (g.cleans[c].pc.Tracked? || g.cleans[c].pc.Untracked? ==> CanCleanRunDone(g, c))
      && (g.cleans[c].pc.RegLane? ==> CanCleanEnqueue(g, c))
      && (g.cleans[c].pc.FenceLane? ==> CanCleanFence(g, c))
  }

  lemma ReleasePasses(g: Sys, c: nat)
    requires CtlOk(g.ctl, g.subs, g.cleans) && KeysPlain(g.subs, g.cleans) && LifeOk(g) && RegOk(g) && Alive(g)
    ensures ReleaseChecks(g, c)
  {
    hide QueueMapOk, GateOk, GuardsOk, ClosedOk, StopsOk;
    if c < |g.cleans| {
      CleansAtUpdate(g.cleans, c, g.cleans[c], CleanCounts);
      CleansAtUpdate(g.cleans, c, g.cleans[c], IsTracked);
      assert AimOk(g.lanes, g.cleans[c]);
      assert AfterPc(g.cfg.dynamic, g.cleans[c].pc) ==> g.ctl.stopped;
    }
  }

  /** A worker may look at its backlog and finish its release, and whoever is in mid-send has a ticket of the table. */
  ghost predicate LaneChecks(g: Sys, i: nat) {
    i < |g.lanes| ==>
      && (g.lanes[i].worker.Top? ==> CanWorkerTake(g, i))
      && (g.lanes[i].worker.Cleanup? ==> CanWorkerFinishCleanup(g, i))
      && forall p :: InSending(g.lanes[i], p) ==> 0 < g.lanes[i].inside[p].stage.ticket <= |g.lanes[i].tickets|
  }

  lemma LanePasses(g: Sys, i: nat)
    requires LanesOk(g.cfg, g.lanes) && PlacesOk(g) && Alive(g)
    ensures LaneChecks(g, i)
  {
    if i < |g.lanes| {
      assert LanePlaces(g.lanes[i], i, g.cleans) && LaneInv(g.lanes[i]);
      if g.lanes[i].worker.Top? {
        TakePossible(g, i);
      }
      forall p | InSending(g.lanes[i], p) ensures 0 < g.lanes[i].inside[p].stage.ticket <= |g.lanes[i].tickets| {
        assert SendingWith(g.lanes[i].inside, p, g.lanes[i].inside[p].stage.ticket);
      }
    }
  }

  /** The section finds the releases that it holds. */
  ghost predicate SectionChecks(g: Sys) {
    && (g.sec.pc.Releasing? && g.sec.pc.todo != [] ==> CanSecRun(g))
    && (g.sec.pc.RunningPostponed? ==> CanSecRan(g))
  }

  lemma SectionPasses(g: Sys)
    requires PlacesOk(g)
    ensures SectionChecks(g)
  {
    assert g.sec.pc.Releasing? && g.sec.pc.todo != [] ==> g.sec.pc.todo[0] in Deferred(g.sec);
  }

  /** The moves check some counts and indices before they use them; in a reachable state these checks hold. */
  lemma ChecksDisableNothing(g: Sys)
    requires Reachable(g) && Alive(g)
    ensures forall p :: CallChecks(g, p)
    ensures forall c :: ReleaseChecks(g, c)
    ensures forall i :: LaneChecks(g, i)
    ensures SectionChecks(g)
  {
    hide Reachable, LanesOk, KeysPlain, CtlOk, SubsOk, RegOk, LifeOk, StopOk, PlacesOk, SecOk, LogOk, AcceptedOk;
    hide AbortOk;
    hide PanicOk, HandOk, CallChecks, ReleaseChecks, LaneChecks, SectionChecks, Alive;
    ReachableInv(g);
    forall p ensures CallChecks(g, p) {
      CallPasses(g, p);
    }
    forall c ensures ReleaseChecks(g, c) {
      ReleasePasses(g, c);
    }
    forall i ensures LaneChecks(g, i) {
      LanePasses(g, i);
    }
    SectionPasses(g);
  }

  // ----- the fence -----

  /** endSubmit's test closes the fence although another caller has registered since the decrement. */
  predicate ClosesEarly(g: Sys, m: Move) {
    && g.ctl.stopped && !g.ctl.fence && g.ctl.inFlight > 0
    && ((m.SubmitMove? && m.submit.TestSubmit? && CanSubmitTest(g, m.p) && g.subs[m.p].pc.zero)
        || (m.CleanMove? && m.clean.TestClean? && CanCleanTest(g, m.c) && g.cleans[m.c].pc.zero))
  }

  /** Call p stands between decrement and test after its decrement only, until its test. */
  ghost predicate TidyCall(g: Sys, h: Sys, p: nat, ends: bool, tests: bool) {
    && p < |g.subs| && p < |h.subs|
    && (h.subs[p].pc.Tested? <==> ends || (g.subs[p].pc.Tested? && !tests))
    && (ends ==> (h.subs[p].pc.zero <==> h.ctl.inFlight == 0))
    && (!ends ==> h.ctl.inFlight == g.ctl.inFlight)
    && (h.subs[p].pc.Tested? && !ends ==> h.subs[p].pc == g.subs[p].pc)
  }

  ghost predicate TidyRelease(g: Sys, h: Sys, c: nat, ends: bool, tests: bool) {
    && c < |g.cleans| && c < |h.cleans|
    && (h.cleans[c].pc.TestedReg? <==> ends || (g.cleans[c].pc.TestedReg? && !tests))
    && (ends ==> (h.cleans[c].pc.zero <==> h.ctl.inFlight == 0))
    && (h.cleans[c].pc.TestedReg? && !ends ==> h.cleans[c].pc == g.cleans[c].pc)
  }

  lemma SubmitTests(g: Sys, p: nat, a: SubmitAct, h: Sys)
    requires SubmitStep(g, p, a, h)
    ensures TidyCall(g, h, p, a.EndSubmit?, a.TestSubmit?)
    ensures h.ctl.loose <==> g.ctl.loose || ClosesEarly(g, SubmitMove(p, a))
  {
    hide Enter, Leave, Send, Abandon, CanEnter, CanLeave, CanSend, CanAbandon, CanFind, Target, FreshLane, HandedOff;
  }

  lemma CleanTests(g: Sys, c: nat, a: CleanAct, h: Sys)
    requires CleanStep(g, c, a, h)
    ensures TidyRelease(g, h, c, a.EndClean?, a.TestClean?)
    ensures h.ctl.loose <==> g.ctl.loose || ClosesEarly(g, CleanMove(c, a))
  {
    hide Enqueue, CanEnqueue, TakesCleanup, CanFind, Target, FreshLane, HasLiveQueue, GuardRefused;
  }

  lemma OthersLoose(g: Sys, m: Move, h: Sys)
    requires MoveKeeps(g, m, h) && !m.SubmitMove? && !m.CleanMove?
    ensures h.ctl.loose <==> g.ctl.loose || ClosesEarly(g, m)
  {
  }

  lemma LooseStep(g: Sys, m: Move, h: Sys)
    requires Steps(g, m, h)
    ensures h.ctl.loose <==> g.ctl.loose || ClosesEarly(g, m)
  {
    hide *;
    StepOf(g, m, h);
    MoveKeys(g, m, h);
    match m
    case SubmitMove(p, a) => SubmitTests(g, p, a, h);
    case CleanMove(c, a) => CleanTests(g, c, a, h);
    case _ => OthersLoose(g, m, h);
  }

  /** The fence is loose exactly when some endSubmit of the run tested after another caller had registered. */
  lemma {:induction false} LooseExactlyWhen(states: seq<Sys>, moves: seq<Move>, n: nat)
    requires IsRun(states, moves) && n < |states|
    ensures states[n].ctl.loose <==> exists i :: 0 <= i < n && ClosesEarly(states[i], moves[i])
  {
    hide Steps, StepAt, ClosesEarly;
    if n > 0 {
      LooseExactlyWhen(states, moves, n - 1);
      MoveOfRun(states, moves, n - 1);
      LooseStep(states[n - 1], moves[n - 1], states[n]);
    }
  }

  predicate IsEnd(m: Move) {
    (m.SubmitMove? && m.submit.EndSubmit?) || (m.CleanMove? && m.clean.EndClean?)
  }

  function TestOf(m: Move): Move
    requires IsEnd(m)
  {
    if m.SubmitMove? then SubmitMove(m.p, TestSubmit) else CleanMove(m.c, TestClean)
  }

  /** endSubmit is one step: its test directly follows its decrement. */
  ghost predicate AtomicEnds(moves: seq<Move>) {
    forall i {:trigger moves[i]} :: 0 <= i < |moves| - 1 && IsEnd(moves[i]) ==> moves[i + 1] == TestOf(moves[i])
  }

  /** Nobody but the caller of the last move, if that was a decrement, is between decrement and test. */
  ghost predicate Tidy(g: Sys, last: Option<Move>) {
    && (forall p :: 0 <= p < |g.subs| && g.subs[p].pc.Tested? ==>
          last == Some(SubmitMove(p, EndSubmit)) && (g.subs[p].pc.zero ==> g.ctl.inFlight == 0))
    && (forall c :: 0 <= c < |g.cleans| && g.cleans[c].pc.TestedReg? ==>
          last == Some(CleanMove(c, EndClean)) && (g.cleans[c].pc.zero ==> g.ctl.inFlight == 0))
  }

  /** Whoever has decremented to zero and not yet tested still reads zero: no other caller moves in between. */
  lemma TidyFrame(g: Sys, last: Option<Move>, m: Move, h: Sys)
    requires MoveKeeps(g, m, h) && Tidy(g, last)
    requires last.Some? && IsEnd(last.value) ==> m == TestOf(last.value)
    requires m.SubmitMove? ==> TidyCall(g, h, m.p, m.submit.EndSubmit?, m.submit.TestSubmit?)
    requires m.CleanMove? ==> TidyRelease(g, h, m.c, m.clean.EndClean?, m.clean.TestClean?)
    ensures Tidy(h, Some(m)) && !ClosesEarly(g, m)
  {
    hide SameStop, SameStage, OffLaneShrinks;
  }

  /** m is the test that follows a decrement, if the last move was one. */
  predicate GoesOn(last: Option<Move>, m: Move) {
    last.Some? && IsEnd(last.value) ==> m == TestOf(last.value)
  }

  /** Were endSubmit one step, the fence would never close over a registered caller. */
  lemma {:induction false} AtomicEndKeepsFence(states: seq<Sys>, moves: seq<Move>, n: nat)
    requires IsRun(states, moves) && AtomicEnds(moves) && n < |states|
    ensures !states[n].ctl.loose && Tidy(states[n], if n == 0 then None else Some(moves[n - 1]))
  {
    hide ClosesEarly, Steps;
    if n > 0 {
      AtomicEndKeepsFence(states, moves, n - 1);
      MoveOfRun(states, moves, n - 1);
      assert Tidy(states[n], Some(moves[n - 1])) && !ClosesEarly(states[n - 1], moves[n - 1]) by {
        hide Can, CanClean, CanSection, CanStop, CanSubmit, CanWorker, CleanStep, Do, DoClean, DoSection, DoStop;
        hide DoSubmit, DoWorker, MoveKeeps, SubmitStep, Tidy, TidyCall, TidyRelease;
        StepOf(states[n - 1], moves[n - 1], states[n]);
        MoveKeys(states[n - 1], moves[n - 1], states[n]);
        if moves[n - 1].SubmitMove? {
          SubmitTests(states[n - 1], moves[n - 1].p, moves[n - 1].submit, states[n]);
        } else if moves[n - 1].CleanMove? {
          CleanTests(states[n - 1], moves[n - 1].c, moves[n - 1].clean, states[n]);
        }
        TidyFrame(states[n - 1], (if n == 1 then None else Some(moves[n - 2])), moves[n - 1], states[n]);
      }
      LooseStep(states[n - 1], moves[n - 1], states[n]);
    }
  }

  // ----- sealed lanes -----

  predicate SealsBusy(g: Sys, m: Move, i: nat) {
    m == WorkerMove(i, SealIdle) && i < |g.lanes| && g.lanes[i].q.pending != 0
  }

  lemma LaneLooseStep(l: Lane, sig: Signals, s: LaneStep)
    requires LaneInv(l) && CanStep(l, sig, s)
    ensures Step(l, sig, s).loose <==> l.loose || (s == ByGate(GSeal) && l.q.pending != 0)
  {
    if !s.ByGate? {
      hide LaneInv, CanStep, Step;
      StepFixed(l, sig, s);
    }
  }

  predicate SealsLane(lm: LaneMove, i: nat) {
    lm == OneLane(i, ByGate(GSeal))
  }

  predicate IsLoose(g: Sys, i: nat) {
    i < |g.lanes| && g.lanes[i].loose
  }

  lemma SealIsSealIdle(g: Sys, m: Move, h: Sys, i: nat)
    requires Steps(g, m, h)
    ensures m == WorkerMove(i, SealIdle) <==> SealsLane(LaneOf(g, m), i)
  {
    hide Do, CanStep, Step, CanSubmit, CanClean, CanSection, CanStop;
  }

  lemma LooseLaneStep(g: Sys, m: Move, h: Sys, i: nat)
    requires Steps(g, m, h) && LanesOk(g.cfg, g.lanes)
    ensures IsLoose(h, i) <==> IsLoose(g, i) || SealsBusy(g, m, i)
  {
    hide Steps, Can, Do, CanStep, Step, LaneInv, LaneFits, FreshLane, LaneOf;
    LanesAfter(g, m, h);
    SealIsSealIdle(g, m, h, i);
    if Creates(m) {
      CreationIsNoSeal(g, m, i);
      FreshIsTight(g, CreatedKey(g, m));
    } else if LaneOf(g, m).OneLane? && LaneOf(g, m).i == i {
      LaneLooseStep(g.lanes[i], Sig(g.ctl), LaneOf(g, m).s);
    }
  }

  lemma CreationIsNoSeal(g: Sys, m: Move, i: nat)
    requires Creates(m)
    ensures !SealsLane(LaneOf(g, m), i)
  {
  }

  lemma FreshIsTight(g: Sys, key: Key)
    ensures !FreshLane(g, key).loose
  {
  }

  /** The parts of the invariant that runs are about. */
  ghost predicate PartsAt(states: seq<Sys>, n: nat) {
    && n < |states| && var g := states[n];
    && LanesOk(g.cfg, g.lanes) && KeysPlain(g.subs, g.cleans) && PlacesOk(g) && RegOk(g) && SubsOk(g.lanes, g.subs)
    && AcceptedOk(g.accepted, g.subs)
  }

  lemma RunParts(states: seq<Sys>, moves: seq<Move>, n: nat)
    requires IsRun(states, moves) && n < |states|
    ensures PartsAt(states, n)
  {
    hide IsRun, LanesOk, KeysPlain, CtlOk, SubsOk, RegOk, LifeOk, StopOk, PlacesOk, SecOk, LogOk, AcceptedOk;
    hide AbortOk, PanicOk;
    RunInv(states, moves, n);
  }

  /** A lane was sealed while busy exactly when its pending count was not zero at the moment of its seal. */
  lemma {:induction false} LooseLaneExactlyWhen(states: seq<Sys>, moves: seq<Move>, n: nat, i: nat)
    requires IsRun(states, moves) && n < |states|
    ensures i < |states[n].lanes| && states[n].lanes[i].loose <==>
            exists k :: 0 <= k < n && SealsBusy(states[k], moves[k], i)
  {
    hide StepAt, Steps, LanesOk, SealsBusy, KeysPlain, PlacesOk, RegOk, SubsOk, AcceptedOk;
    if n > 0 {
      LooseLaneExactlyWhen(states, moves, n - 1, i);
      MoveOfRun(states, moves, n - 1);
      RunParts(states, moves, n - 1);
      LooseLaneStep(states[n - 1], moves[n - 1], states[n], i);
    } else {
      InitLanes(states[0].cfg);
    }
  }

  /** In a run that seals only lanes with nothing pending, a section's function runs entirely alone. */
  lemma ExclusiveWhenSealsAreIdle(states: seq<Sys>, moves: seq<Move>)
    requires IsRun(states, moves) && states[|moves|].sec.pc.FnRunning?
    requires forall n, i: nat :: 0 <= n < |moves| ==> !SealsBusy(states[n], moves[n], i)
    ensures var g := states[|moves|];
            && (forall i :: 0 <= i < |g.lanes| ==> !Executing(g.lanes[i]))
            && (forall c :: 0 <= c < |g.cleans| ==> !g.cleans[c].place.OnCaller? && !g.cleans[c].place.OnSection?)
  {
    hide StepAt, Steps, SealsBusy, Executing, AtBarrier, BarrierFirst;
    var g := states[|moves|];
    ExclusiveSafety(g);
    forall i: nat | i < |g.lanes| ensures !Executing(g.lanes[i]) {
      LooseLaneExactlyWhen(states, moves, |moves|, i);
    }
  }

  // ----- releases behind tasks -----

  /** Move n of the run steps lane i by s, and the lane read l before. */
  ghost predicate StepsLane(states: seq<Sys>, moves: seq<Move>, n: nat, i: nat, l: Lane, sig: Signals, s: LaneStep) {
    && n < |states| && n < |moves| && i < |states[n].lanes| && states[n].lanes[i] == l
    && sig == Sig(states[n].ctl) && LaneOf(states[n], moves[n]) == OneLane(i, s)
  }

  /** lanes[k] is what lane i reads in state at[k]; between two of these states the lane does not change. */
  ghost predicate LaneStates(states: seq<Sys>, m: nat, n: nat, i: nat, lanes: seq<Lane>, at: seq<nat>) {
    && |at| == |lanes| > 0 && at[0] == m && n < |states|
    && (forall k :: 0 <= k < |at| ==>
          m <= at[k] <= n && i < |states[at[k]].lanes| && lanes[k] == states[at[k]].lanes[i])
    && (forall j :: at[|at| - 1] <= j <= n ==> i < |states[j].lanes| && states[j].lanes[i] == lanes[|at| - 1])
  }

  /** One move: lane i stands still or takes a step of its own. */
  lemma LaneMoves(states: seq<Sys>, moves: seq<Move>, n: nat, i: nat) returns (s: Option<LaneStep>)
    requires IsRun(states, moves) && n < |moves| && i < |states[n].lanes|
    ensures i < |states[n + 1].lanes|
    ensures s.None? ==> states[n + 1].lanes[i] == states[n].lanes[i]
    ensures s.Some? ==>
              var l, sig := states[n].lanes[i], Sig(states[n].ctl);
              && StepsLane(states, moves, n, i, l, sig, s.value)
              && CanStep(l, sig, s.value) && states[n + 1].lanes[i] == Step(l, sig, s.value)
  {
    hide Steps, StepAt, CanStep, Step, FreshLane, LaneOf;
    MoveOfRun(states, moves, n);
    var g, move := states[n], moves[n];
    LanesAfter(g, move, states[n + 1]);
    s := if !Creates(move) && LaneOf(g, move).OneLane? && LaneOf(g, move).i == i then Some(LaneOf(g, move).s) else None;
  }

  /** The steps of a lane run are moves of the engine, in order. */
  ghost predicate StepsInRun(states: seq<Sys>, moves: seq<Move>, i: nat, lanes: seq<Lane>, sigs: seq<Signals>,
                             steps: seq<LaneStep>, at: seq<nat>) {
    && |lanes| == |at| == |steps| + 1 && |sigs| == |steps|
    && forall k :: 0 <= k < |steps| ==>
         at[k] < at[k + 1] && StepsLane(states, moves, at[k + 1] - 1, i, lanes[k], sigs[k], steps[k])
  }

  lemma OneMoreStep(states: seq<Sys>, moves: seq<Move>, i: nat, lanes: seq<Lane>, sigs: seq<Signals>,
                    steps: seq<LaneStep>, at: seq<nat>, l: Lane, sig: Signals, s: LaneStep, n: nat)
    requires StepsInRun(states, moves, i, lanes, sigs, steps, at) && at[|steps|] < n
    requires StepsLane(states, moves, n - 1, i, lanes[|steps|], sig, s)
    ensures StepsInRun(states, moves, i, lanes + [l], sigs + [sig], steps + [s], at + [n])
  {
    hide Steps;
  }

  lemma OneMoreState(states: seq<Sys>, m: nat, n: nat, i: nat, lanes: seq<Lane>, at: seq<nat>)
    requires n + 1 < |states| && m <= n && LaneStates(states, m, n, i, lanes, at) && i < |states[n + 1].lanes|
    ensures states[n + 1].lanes[i] == states[n].lanes[i] ==> LaneStates(states, m, n + 1, i, lanes, at)
    ensures LaneStates(states, m, n + 1, i, lanes + [states[n + 1].lanes[i]], at + [n + 1])
  {
  }

  lemma LaneStart(states: seq<Sys>, moves: seq<Move>, m: nat, i: nat)
    requires m < |states| && i < |states[m].lanes|
    ensures LaneStates(states, m, m, i, [states[m].lanes[i]], [m])
    ensures StepsInRun(states, moves, i, [states[m].lanes[i]], [], [], [m])
  {
    hide Steps;
  }

  /**
   A lane of the engine goes through steps of the lane protocol only: its states from m to n are a run of the
   lane, every step of which is a move of the engine, taken under the signals that the engine showed then.
   */
  lemma {:induction false} LaneRuns(states: seq<Sys>, moves: seq<Move>, m: nat, n: nat, i: nat)
    returns (lanes: seq<Lane>, sigs: seq<Signals>, steps: seq<LaneStep>, at: seq<nat>)
    requires IsRun(states, moves) && m <= n < |states| && i < |states[m].lanes|
    ensures LaneTheorems.IsRun(lanes, sigs, steps) && LaneStates(states, m, n, i, lanes, at)
    ensures StepsInRun(states, moves, i, lanes, sigs, steps, at)
    ensures lanes[0] == states[m].lanes[i] && i < |states[n].lanes| && lanes[|steps|] == states[n].lanes[i]
    decreases n
  {
    hide Steps, StepAt, CanStep, Step, StepsLane;
    if m == n {
      LaneStart(states, moves, m, i);
      lanes, sigs, steps, at := [states[m].lanes[i]], [], [], [m];
    } else {
      lanes, sigs, steps, at := LaneRuns(states, moves, m, n - 1, i);
      var s := LaneMoves(states, moves, n - 1, i);
      OneMoreState(states, m, n - 1, i, lanes, at);
      if s.Some? {
        var sig := Sig(states[n - 1].ctl);
        OneMoreStep(states, moves, i, lanes, sigs, steps, at, states[n].lanes[i], sig, s.value, n);
        lanes, sigs, steps := LaneTheorems.Extend(lanes, sigs, steps, sig, s.value);
        at := at + [n];
      }
    }
  }

  /** Move m puts release c into the backlog of lane i. */
  predicate QueuesRelease(g: Sys, m: Move, c: nat, i: nat) {
    && m.CleanMove? && m.c == c && (m.clean.EnqueueClean? || m.clean.EnqueueFence?)
    && c < |g.cleans| && i < |g.lanes|
    && LaneOf(g, m) == OneLane(i, SEnqueue(c, g.cleans[c].key, m.clean.EnqueueFence?))
  }

  lemma NotQueuedUnlessPlaced(g: Sys, c: nat, i: nat)
    requires PlacesOk(g) && KeysPlain(g.subs, g.cleans) && c < |g.cleans| && i < |g.lanes|
    requires g.cleans[c].place != InBacklog(i)
    ensures !LaneTheorems.Queued(g.lanes[i], c, g.cleans[c].key)
  {
    assert LanePlaces(g.lanes[i], i, g.cleans);
  }

  lemma UnplacedIsNotQueued(g: Sys, m: Move, c: nat, i: nat)
    requires QueuesRelease(g, m, c, i) && PlacesOk(g) && KeysPlain(g.subs, g.cleans)
    ensures !LaneTheorems.Queued(g.lanes[i], c, g.cleans[c].key)
  {
    assert Placed(g.lanes, g.sec, c, g.cleans[c]);
    NotQueuedUnlessPlaced(g, c, i);
  }

  /** Release c keeps its key, and waits on lane i for what had been sent there before it came. */
  ghost predicate BehindSent(g: Sys, h: Sys, c: nat, i: nat) {
    && c < |g.cleans| && c < |h.cleans| && h.cleans[c].key == g.cleans[c].key && i < |g.lanes| && i < |h.lanes|
    && LaneTheorems.Behind(h.lanes[i], c, g.cleans[c].key, g.lanes[i].sent)
  }

  lemma BehindFromStart(g: Sys, m: Move, h: Sys, c: nat, i: nat)
    requires Steps(g, m, h) && QueuesRelease(g, m, c, i) && PlacesOk(g) && KeysPlain(g.subs, g.cleans)
    requires LanesOk(g.cfg, g.lanes)
    ensures BehindSent(g, h, c, i)
  {
    hide Steps, Can, Do, PlacesOk, LaneInv, LaneFits, LaneOf, LaneTheorems.Behind, LaneTheorems.Queued, Enqueue;
    hide MoveKeeps, SameDuty, SameLog;
    UnplacedIsNotQueued(g, m, c, i);
    LanesAfter(g, m, h);
    MoveKeys(g, m, h);
    KeysStay(g, m, h);
    LaneTheorems.BehindAtOnce(g.lanes[i], c, g.cleans[c].key, m.clean.EnqueueFence?);
  }

  lemma {:induction false} CleanKeyStays(states: seq<Sys>, moves: seq<Move>, m: nat, n: nat, c: nat)
    requires IsRun(states, moves) && m <= n < |states| && c < |states[m].cleans|
    ensures c < |states[n].cleans| && states[n].cleans[c].key == states[m].cleans[c].key
    decreases n
  {
    hide Steps, StepAt, MoveKeeps, SameDuty, SameLog, Creates, IsPark, Visible;
    if m < n {
      CleanKeyStays(states, moves, m, n - 1, c);
      MoveOfRun(states, moves, n - 1);
      MoveKeys(states[n - 1], moves[n - 1], states[n]);
      KeysStay(states[n - 1], moves[n - 1], states[n]);
    }
  }

  /**
   In every run of the engine, a release queued on a lane begins only after every task that had been sent to the
   lane when it was queued has been handled, however many producers give up in between.
   */
  lemma ReleaseFollowsEarlierTasks(states: seq<Sys>, moves: seq<Move>, m: nat, n: nat, c: nat, i: nat)
    requires IsRun(states, moves) && m < n < |states| && QueuesRelease(states[m], moves[m], c, i)
    ensures i < |states[m].lanes| && i < |states[n].lanes|
    ensures c in states[n].begun ==> states[m].lanes[i].sent <= states[n].lanes[i].handled
  {
    hide IsRun, Steps, QueuesRelease, LanesOk, PlacesOk, KeysPlain, RegOk, SubsOk, AcceptedOk, LaneTheorems.Behind;
    StartOfRun(states, moves);
    MoveOfRun(states, moves, m);
    RunParts(states, moves, m);
    BehindFromStart(states[m], moves[m], states[m + 1], c, i);
    FollowsLater(states, moves, m + 1, n, c, i, states[m].cleans[c].key, states[m].lanes[i].sent);
  }

  lemma FollowsLater(states: seq<Sys>, moves: seq<Move>, m: nat, n: nat, c: nat, i: nat, key: Key, before: seq<Msg>)
    requires IsRun(states, moves) && m <= n < |states| && i < |states[m].lanes|
    requires c < |states[m].cleans| && states[m].cleans[c].key == key
    requires LaneTheorems.Behind(states[m].lanes[i], c, key, before)
    ensures i < |states[n].lanes| && (c in states[n].begun ==> before <= states[n].lanes[i].handled)
  {
    hide IsRun, StepAt, LaneFits, LaneInv, RegOk, SubsOk, AcceptedOk, StepsInRun, LaneTheorems.Queued, LanePlaces;
    hide Placed;
    var lanes, sigs, steps, at := LaneRuns(states, moves, m, n, i);
    RunParts(states, moves, m);
    LaneTheorems.BehindLater(lanes, sigs, steps, |steps|, c, key, before);
    CleanKeyStays(states, moves, m, n, c);
    if c in states[n].begun {
      RunParts(states, moves, n);
      NotQueuedUnlessPlaced(states[n], c, i);
    }
  }

  // ----- a stop is never stuck -----

  /** Moves the engine makes by itself: of a worker, or of the section. */
  predicate EngineMove(m: Move) {
    m.WorkerMove? || m.SectionMove?
  }

  lemma NobodyInsideBehindFence(g: Sys, i: nat)
    requires CtlOk(g.ctl, g.subs, g.cleans) && SubsOk(g.lanes, g.subs) && g.ctl.fence && g.ctl.inFlight == 0
    requires i < |g.lanes|
    ensures g.lanes[i].inside == map[]
  {
    NobodyCounted(g.subs);
    assert InsideOk(g.lanes[i], i, g.subs);
    forall p | p in g.lanes[i].inside ensures false {
      assert Counts(g.subs[p].pc);
    }
  }

  /** Behind a fence that closed properly every closed lane winds down by itself. */
  lemma InvLaneWinds(g: Sys, i: nat)
    requires Inv(g) && Alive(g) && g.ctl.fence && !g.ctl.loose && i < |g.lanes| && g.lanes[i].q.closed
    ensures LaneTheorems.Winding(g.lanes[i], Sig(g.ctl)) && g.lanes[i].inside == map[]
  {
    hide LaneFits, KeysPlain, SubsOk, RegOk, LifeOk, StopOk, PlacesOk, SecOk, LogOk, AcceptedOk, AbortOk;
    hide PanicOk, LaneInv;
    NobodyInsideBehindFence(g, i);
    WindsAlone(g.lanes[i], Sig(g.ctl));
  }

  lemma WindsAlone(l: Lane, sig: Signals)
    requires LaneInv(l) && l.inside == map[] && !l.panicked && sig.fence && l.q.closed
    ensures LaneTheorems.Winding(l, sig)
  {
  }

  lemma ClosedLaneWinds(g: Sys, i: nat)
    requires Reachable(g) && Alive(g) && g.ctl.fence && !g.ctl.loose && i < |g.lanes| && g.lanes[i].q.closed
    ensures LaneTheorems.Winding(g.lanes[i], Sig(g.ctl))
  {
    hide Reachable, Inv, LaneTheorems.Winding;
    ReachableInv(g);
    InvLaneWinds(g, i);
  }

  ghost predicate SectionCanMove(g: Sys) {
    exists a :: CanSection(g, a)
  }

  lemma SectionMay(g: Sys, a: SectionAct)
    requires CanSection(g, a)
    ensures SectionCanMove(g)
  {
    hide CanSection;
  }

  ghost predicate WorkerCanMove(g: Sys, i: nat) {
    exists a :: CanWorker(g, i, a)
  }

  lemma WorkerMay(g: Sys, i: nat, a: WorkerAct)
    requires CanWorker(g, i, a)
    ensures WorkerCanMove(g, i)
  {
    hide CanWorker;
  }

  /** Once installed, a section always has a move of its own; cancellation by a stop is one. */
  lemma SectionMoves(g: Sys)
    requires Inv(g) && Alive(g) && g.ctl.stopped && !g.sec.pc.NoSection?
    ensures SectionCanMove(g)
  {
    hide SectionCanMove, LanesOk, KeysPlain, CtlOk, SubsOk, LifeOk, StopOk, LogOk, AcceptedOk, AbortOk, PanicOk;
    hide AllPlaced, LanesPlace;
    hide QueueMapOk, GuardsOk, AimsOk, StopsOk, LanesSec, CanSecEnqueue, BegunOk, DeferredOk;
    match g.sec.pc
    case Registered => SectionMay(g, Install);
    case AwaitOffLane(_, _) => SectionMay(g, LeaveFn);
    case Enqueuing =>
      if i :| i in g.sec.todo {
        PutBarrierPossible(g, i);
        SectionMay(g, PutBarrier(i));
      } else {
        assert g.sec.todo == {};
        SectionMay(g, Await);
      }
    case Parking => SectionMay(g, LeaveFn);
    case Checking => SectionMay(g, LeaveFn);
    case FnRunning => SectionMay(g, LeaveFn);
    case Releasing(todo) =>
      if todo == [] {
        SectionMay(g, Withdraw);
      } else {
        assert todo[0] in Deferred(g.sec);
        SectionMay(g, RunOne);
      }
    case RunningPostponed(c, _) => SectionMay(g, RanOne);
    case Withdrawn => SectionMay(g, End);
  }

  lemma PutBarrierPossible(g: Sys, i: nat)
    requires SetsOk(g.sec, g.lanes) && Alive(g) && g.sec.pc.Enqueuing? && i in g.sec.todo
    ensures CanSecEnqueue(g, i)
  {
  }

  /** A worker that has not exited, and is not held by the section, can move. */
  lemma WorkerMoves(g: Sys, i: nat)
    requires PlacesOk(g) && Alive(g) && i < |g.lanes| && LaneTheorems.Winding(g.lanes[i], Sig(g.ctl))
    requires !g.lanes[i].worker.Exited?
    requires g.lanes[i].worker.Barrier? ==> g.lanes[i].worker.at.Reached? || g.lanes[i].worker.section < g.sec.id
    ensures WorkerCanMove(g, i)
  {
    hide WorkerCanMove, CanWorker, LanePlaces, LaneTheorems.Winding, AllPlaced, ListOk, BegunOk;
    var s := LaneTheorems.WindingLaneMoves(g.lanes[i], Sig(g.ctl));
    assert LanePlaces(g.lanes[i], i, g.cleans);
    match s
    case SPutToken => QuietPossible(g, i, s);
    case STake => TakePossible(g, i);
    case ByLoop(_) => QuietPossible(g, i, s);
    case ByWork(a) => WorkPossible(g, i, a);
  }

  lemma QuietPossible(g: Sys, i: nat, s: LaneStep)
    requires CanOnLane(g, i, s) && IsQuiet(s)
    ensures WorkerCanMove(g, i)
  {
    hide WorkerCanMove, CanOnLane;
    WorkerMay(g, i, Quiet(s));
  }

  lemma TakenExists(g: Sys, i: nat)
    requires i < |g.lanes| && CanTake(g.lanes[i]) && LanePlaces(g.lanes[i], i, g.cleans)
    ensures var w := Take(g.lanes[i], Sig(g.ctl)).worker; w.Cleanup? ==> w.entry.id < |g.cleans|
  {
    hide ConvertHead;
    ConvertHolding(g.lanes[i], g.ctl.fence);
  }

  lemma TakePossible(g: Sys, i: nat)
    requires Alive(g) && i < |g.lanes| && CanTake(g.lanes[i]) && LanePlaces(g.lanes[i], i, g.cleans)
    ensures CanWorkerTake(g, i) && WorkerCanMove(g, i)
  {
    hide WorkerCanMove, ConvertHead, Take, Step, CanStep, CanRetireLock, CanRetireSeal, CanRetireUnlock, CanWorkerPark;
    TakenExists(g, i);
    assert CanWorkerTake(g, i);
    WorkerMay(g, i, TakeNext);
  }

  lemma WorkPossible(g: Sys, i: nat, a: WorkAct)
    requires Alive(g) && i < |g.lanes| && a != WPark && CanWork(g.lanes[i], a) && LanePlaces(g.lanes[i], i, g.cleans)
    requires a.WLeaveBarrier? ==> g.lanes[i].worker.section < g.sec.id
    ensures WorkerCanMove(g, i)
  {
    hide WorkerCanMove, Take, Step;
    match a
    case WStartTask => WorkerMay(g, i, Quiet(ByWork(WStartTask)));
    case WSettle => WorkerMay(g, i, Quiet(ByWork(WSettle)));
    case WFinishTask => WorkerMay(g, i, CompleteTask);
    case WFinishCleanup => WorkerMay(g, i, CompleteCleanup);
    case WStartBarrier => WorkerMay(g, i, StartHold);
    case WLeaveBarrier => WorkerMay(g, i, LeaveHold);
  }

  lemma StopMovesOn(g: Sys, i: nat)
    requires Inv(g) && Alive(g) && g.ctl.fence && !g.ctl.loose && i < |g.lanes| && g.lanes[i].q.closed
    requires !g.lanes[i].q.workerExited
    ensures WorkerCanMove(g, i) || SectionCanMove(g)
  {
    hide WorkerCanMove, SectionCanMove, LaneTheorems.Winding, KeysPlain, SubsOk, RegOk, LifeOk, StopOk, LogOk;
    hide AcceptedOk;
    hide AbortOk, PanicOk, OffLaneOk, DeferredOk, LaneFits, LanesPlace, AllPlaced, ListOk, BegunOk;
    InvLaneWinds(g, i);
    var w := g.lanes[i].worker;
    assert LaneInv(g.lanes[i]);
    if w.Barrier? && !w.at.Reached? && w.section >= g.sec.id {
      assert LaneSec(g.lanes[i], i, g.sec, g.ctl.stopped);
      SectionMoves(g);
    } else {
      WorkerMoves(g, i);
    }
  }

  lemma EngineCanMove(g: Sys, i: nat)
    requires Alive(g) && (WorkerCanMove(g, i) || SectionCanMove(g))
    ensures exists m :: EngineMove(m) && Can(g, m)
  {
    hide CanSubmit, CanClean, CanStop, CanSection, CanWorker;
    if a :| CanSection(g, a) {
      assert EngineMove(SectionMove(a)) && Can(g, SectionMove(a));
    } else {
      var a :| CanWorker(g, i, a);
      assert EngineMove(WorkerMove(i, a)) && Can(g, WorkerMove(i, a));
    }
  }

  /**
   A stop that waits for workers behind a properly closed fence is never stuck: some worker or the section
   can move, and by WindingStepShrinks each worker has only so many moves left.
   */
  lemma StopIsNeverStuck(g: Sys)
    requires Reachable(g) && Alive(g) && g.ctl.fence && !g.ctl.loose && !AllExited(g.lanes)
    requires forall i :: 0 <= i < |g.lanes| ==> g.lanes[i].q.closed
    ensures exists m :: EngineMove(m) && Can(g, m)
  {
    hide Reachable, Inv, Can, EngineMove, WorkerCanMove, SectionCanMove;
    ReachableInv(g);
    var i :| 0 <= i < |g.lanes| && !g.lanes[i].q.workerExited;
    StopMovesOn(g, i);
    EngineCanMove(g, i);
  }
}
