/** Runs that show why the conditions on the theorems are there: a busy seal, and a fence that closes too early. */
module DispatcherTraces {
  import opened RoutingKeys
  import opened Queues
  import opened Lanes
  import opened Dispatcher
  import opened DispatcherTheorems
  import opened DispatcherRuns
  import opened DispatcherScenes
  import DispatcherBusySeal
  import DispatcherExclusive

  // ----- a release outlives the retirement of its lane -----

  function OnDemand(): Config {
    Config(true, true, 1, 0, 0, (k: Key) => 0)
  }

  function Own(key: Key): Entry {
    Entry(0, key, 0, 0, false)
  }

  function QueuedLane(key: Key): Lane {
    OnlyLane(OnDemand(), key).(gateHeld := true, owed := 1, marks := [0],
      q := NewQueue(1, true).(pending := 1, backlog := [Own(key)]))
  }

  function RunningLane(key: Key): Lane {
    OnlyLane(OnDemand(), key).(gateHeld := true, owed := 1, worker := Cleanup(Own(key), false),
      q := NewQueue(1, true).(pending := 1))
  }

  /** The lane is being retired while its release, handed over by the one call, is at `place`. */
  function Retiring(key: Key, l: Lane, place: Place): Sys {
    Scene(OnDemand(), [l], [Submit(key, true, Some(0), Ending(false))], [Cleaner(key, EndingReg(true), place)],
          OpenFor(2),           OneQueue(key).(retiring := Some(0)), [])
  }

  function QueuesIt(key: Key): Sys {
    Retiring(key, QueuedLane(key), InBacklog(0))
  }

  function RunsIt(key: Key): Sys {
    Retiring(key, RunningLane(key), OnWorker(0)).(begun := [0])
  }

  lemma ReleaseIsQueued(key: Key)
    requires !IsBarrierKey(key)
    ensures Leads(Init(OnDemand()), QueuesIt(key))
  {
    hide Leads, SubmitStep, SectionStep, StopStep, Step, CanStep, Take;
    var a := ReleaseComes(OnDemand(), key);
    CallHandsOver(OnDemand(), key);
    assert 0 in a.reg.queues.Values by {
      assert a.reg.queues[key] == 0;
    }
    var b := RetireLock(a, 0);
    Then(Init(OnDemand()), a, WorkerMove(0, LockIdle), b);
    var c := CleanEnqueue(b, 0);
    Then(Init(OnDemand()), b, CleanMove(0, EnqueueClean), c);
    assert c.lanes[0].marks == [0] && c.lanes[0].q.backlog == [Own(key)];
    assert c.lanes == QueuesIt(key).lanes && c.cleans == QueuesIt(key).cleans;
  }

  /** A lane found idle has taken a release before it is sealed. */
  lemma AboutToSeal(key: Key)
    requires !IsBarrierKey(key)
    ensures Leads(Init(OnDemand()), RunsIt(key))
  {
    hide Leads, SubmitStep, CleanStep, SectionStep, StopStep, Step, CanStep;
    ReleaseIsQueued(key);
    var a := QueuesIt(key);
    assert Take(QueuedLane(key), Sig(a.ctl)) == RunningLane(key);
    var b := WorkerTake(a, 0);
    Then(Init(OnDemand()), a, WorkerMove(0, TakeNext), b);
    assert b == RunsIt(key);
  }

  ghost predicate Misses(g: Sys, key: Key) {
    DispatcherBusySeal.MissesRelease(g, 0, key)
  }

  lemma SealMisses(key: Key)
    requires !IsBarrierKey(key)
    ensures Reachable(RunsIt(key)) && Misses(RunsIt(key), key)
  {
    hide Leads, Reachable, Step, CanStep, CanSubmit, CanClean, CanSection, CanStop, Take;
    AboutToSeal(key);
    FromTheStart(OnDemand(), RunsIt(key));
  }

  /** Before any stop, two workers execute something of one key at the same time. */
  lemma SameKeyMayOverlap(key: Key) returns (g: Sys, i: nat, n: nat)
    requires !IsBarrierKey(key)
    ensures Reachable(g) && DispatcherBusySeal.Overlap(g, i, n, key)
  {
    hide Reachable, RunsIt, DispatcherBusySeal.MissesRelease, DispatcherBusySeal.Overlap, DispatcherExclusive.FnBeside;
    SealMisses(key);
    i := 0;
    g, n := DispatcherBusySeal.EveryBusySealMayOverlap(RunsIt(key), i, key);
  }

  /** A release queued between the idle check and the seal still runs while an exclusive section's function runs. */
  lemma SectionMayMissARelease(key: Key) returns (g: Sys, i: nat)
    requires !IsBarrierKey(key)
    ensures Reachable(g) && DispatcherExclusive.FnBeside(g, i, key)
  {
    hide Reachable, RunsIt, DispatcherBusySeal.MissesRelease, DispatcherBusySeal.Overlap, DispatcherExclusive.FnBeside;
    SealMisses(key);
    i := 0;
    g := DispatcherExclusive.EveryBusySealMayRunBesideFn(RunsIt(key), i, key);
  }

  // ----- the fence closes over a registered producer -----

  function OneShard(): Config {
    Config(false, false, 1, 0, 1, (k: Key) => 0)
  }

  function ShardLane(): Lane {
    NewLane(1, false, Shard(0, OneShard().shardOf), false)
  }

  function Plain(key: Key, pc: SubmitPc): Submit {
    Submit(key, false, None, pc)
  }

  /** A Sharded engine with one lane, on which only plain operations are called. */
  function Submitting(l: Lane, subs: seq<Submit>, ctl: Ctl, stops: seq<StopPc>): Sys {
    Scene(OneShard(), [l], subs, [], ctl, Registry(map[], map[], false, None, false), stops)
  }

  function Idle(subs: seq<Submit>): Sys {
    Submitting(ShardLane(), subs, OpenFor(0), [])
  }

  /** One more call has entered the shard. */
  function Entered(key: Key, subs: seq<Submit>): Sys {
    Submitting(Enter(ShardLane(), |subs|, key), subs + [Plain(key, InLane(0))], OpenFor(1), [])
  }

  lemma CallEnters(key: Key, subs: seq<Submit>)
    requires !IsBarrierKey(key)
    ensures Leads(Idle(subs), Entered(key, subs))
  {
    hide Leads, CleanStep, WorkerStep, SectionStep, StopStep;
    var a, p := Idle(subs), |subs|;
    var b := NewSubmit(a, key, false);
    Then(a, a, SubmitCall(key, false), b);
    var c := SubmitFind(b, p);
    Then(a, b, SubmitMove(p, Find), c);
    var d := SubmitEnter(c, p);
    Then(a, c, SubmitMove(p, EnterLane), d);
    assert d.subs == Entered(key, subs).subs && d == Entered(key, subs);
  }

  /** The first submit has left and decremented; its test is still to come. */
  function Decremented(key: Key): seq<Submit> {
    [Plain(key, Tested(false, true))]
  }

  lemma FirstDecrements(key: Key)
    ensures Leads(Entered(key, []), Idle(Decremented(key)))
  {
    hide Leads, CleanStep, WorkerStep, SectionStep, StopStep;
    var a := Entered(key, []);
    var b := SubmitLeave(a, 0, false);
    Then(a, a, SubmitMove(0, LeaveLane(false)), b);
    assert b.lanes[0].inside == map[];
    var c := SubmitEnd(b, 0);
    Then(a, b, SubmitMove(0, EndSubmit), c);
    assert c.lanes == [ShardLane()] && c.subs == Decremented(key) && c == Idle(Decremented(key));
  }

  /** The second submit is in mid-send, and the first stands at pc. */
  function Sending2(key: Key, l: Lane, pc: SubmitPc, ctl: Ctl, stops: seq<StopPc>): Sys {
    Submitting(l, [Plain(key, pc), Plain(key, InLane(0))], ctl, stops)
  }

  function Admitted(key: Key): Lane {
    DispatcherBusySeal.AdmittedOn(ShardLane(), 1, key)
  }

  function BeforeStop(key: Key): Sys {
    Sending2(key, Admitted(key), Tested(false, true), OpenFor(1), [])
  }

  lemma SecondAdmits(key: Key)
    ensures Leads(Entered(key, Decremented(key)), BeforeStop(key))
  {
    hide Leads, SubmitStep, CleanStep, SectionStep, StopStep, Enter, Pass, DispatcherBusySeal.AdmittedOn;
    var a, e := Entered(key, Decremented(key)), Enter(ShardLane(), 1, key);
    DispatcherBusySeal.PassesNew(ShardLane(), 1, key, Sig(a.ctl));
    var b := OnLane(a, 0, ByProducer(1, PPass));
    Then(a, a, WorkerMove(0, Quiet(ByProducer(1, PPass))), b);
    var c := OnLane(b, 0, ByProducer(1, PAdmit));
    Then(a, b, WorkerMove(0, Quiet(ByProducer(1, PAdmit))), c);
    assert c.subs == BeforeStop(key).subs && c == BeforeStop(key);
  }

  /** The first submit's late test has closed the fence over the second. */
  function Loose(): Ctl {
    Ctl(true, false, true, 1, true)
  }

  function MarkedLate(key: Key): Sys {
    Sending2(key, Admitted(key), Done(false), Loose(), [Closing({0})]).(
      reg := Registry(map[], map[], false, None, true))
  }

  lemma LateTest(key: Key)
    ensures Leads(Halted(BeforeStop(key)), MarkedLate(key))
  {
    hide Leads, CleanStep, WorkerStep, SectionStep;
    var a := Halted(BeforeStop(key));
    var b := SubmitTest(a, 0);
    Then(a, a, SubmitMove(0, TestSubmit), b);
    var c := StopMark(b, 0);
    Then(a, b, StopMove(0, Mark), c);
    assert c.stops[0].todo == {0};
    assert c.stops == [Closing({0})] && c.subs == MarkedLate(key).subs && c == MarkedLate(key);
  }

  ghost predicate Panicked(g: Sys) {
    |g.lanes| == 1 && g.lanes[0].panicked
  }

  lemma SecondPanics(key: Key) returns (g: Sys)
    ensures Leads(MarkedLate(key), g) && Panicked(g)
  {
    hide Leads, CleanStep, WorkerStep, SectionStep;
    var a := MarkedLate(key);
    var b := StopClose(a, 0, 0);
    Then(a, a, StopMove(0, CloseOne(0)), b);
    g := SubmitSend(b, 1);
    Then(a, b, SubmitMove(1, SendLane), g);
  }

  /** The two halves of endSubmit, with a submit call and a stop between them, end in a send on a closed channel. */
  lemma LateTestPanics(key: Key) returns (g: Sys)
    requires !IsBarrierKey(key)
    ensures Reachable(g) && Panicked(g)
  {
    hide Reachable, Leads, Halted, Panicked, Entered, MarkedLate;
    assert Init(OneShard()) == Idle([]) by {
      assert Init(OneShard()).lanes == [ShardLane()];
    }
    CallEnters(key, []);
    FirstDecrements(key);
    LeadsOn(Idle([]), Entered(key, []), Idle(Decremented(key)));
    CallEnters(key, Decremented(key));
    LeadsOn(Idle([]), Idle(Decremented(key)), Entered(key, Decremented(key)));
    SecondAdmits(key);
    LeadsOn(Idle([]), Entered(key, Decremented(key)), BeforeStop(key));
    StopComes(BeforeStop(key));
    LeadsOn(Idle([]), BeforeStop(key), Halted(BeforeStop(key)));
    LateTest(key);
    LeadsOn(Idle([]), Halted(BeforeStop(key)), MarkedLate(key));
    g := SecondPanics(key);
    LeadsOn(Idle([]), MarkedLate(key), g);
    FromTheStart(OneShard(), g);
  }
}
