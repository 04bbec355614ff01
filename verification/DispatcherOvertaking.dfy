/** A run in which a call that was registered before stop overtakes an ordinary release, behind a post-stop one. */
module DispatcherOvertaking {
  import opened RoutingKeys
  import opened Queues
  import opened Lanes
  import opened Dispatcher
  import opened DispatcherTheorems
  import opened DispatcherRuns
  import opened DispatcherOrder
  import opened DispatcherScenes

  function Roomy(): Config {
    Config(true, false, 1, 0, 0, (k: Key) => 0)
  }

  function Home(key: Key): Lane {
    OnlyLane(Roomy(), key)
  }

  // ----- the release of the first call is registered, a second call finds the lane, and stop comes -----

  function Found2(key: Key): Sys {
    var g := ReleaseComes(Roomy(), key);
    g.(subs := g.subs + [Submit(key, false, None, Found(0))], ctl := OpenFor(3))
  }

  lemma SecondFinds(key: Key)
    requires !IsBarrierKey(key)
    ensures Leads(ReleaseComes(Roomy(), key), Found2(key)) && Alive(Found2(key)) && MuFree(Found2(key))
  {
    hide Leads, CleanStep, WorkerStep, SectionStep, StopStep;
    var a := ReleaseComes(Roomy(), key);
    var b := NewSubmit(a, key, false);
    Then(a, a, SubmitCall(key, false), b);
    var c := SubmitFind(b, 1);
    Then(a, b, SubmitMove(1, Find), c);
    assert c.subs == Found2(key).subs;
  }

  // ----- a refused closing call queues its release first -----

  /** The three calls after stop: lane l, the second call at pc, and the two releases. */
  function Third(key: Key, l: Lane, pc: SubmitPc, cleans: seq<Cleaner>): Sys {
    Scene(Roomy(), [l],
          [Submit(key, true, Some(0), Ending(false)), Submit(key, false, None, pc),
           Submit(key, true, Some(1), Refused)],
          cleans, Ctl(true, false, false, 3, false), OneQueue(key).(retirerOff := true), [Signalled])
  }

  function OneAhead(key: Key): Lane {
    Enqueue(Home(key), 1, key, true)
  }

  function Ahead2(key: Key): Sys {
    Third(key, OneAhead(key), Found(0), [Cleaner(key, RegLane(0), Unplaced), Cleaner(key, Returned, InBacklog(0))])
  }

  /** The refused call has handed its release over. */
  function Handed3(key: Key): Sys {
    Third(key, Home(key), Found(0), [Cleaner(key, RegLane(0), Unplaced), Cleaner(key, AfterStop, Unplaced)])
  }

  lemma ThirdHandsOver(key: Key)
    requires !IsBarrierKey(key)
    ensures Leads(Halted(Found2(key)), Handed3(key))
  {
    hide Leads, SubmitStep, WorkerStep, SectionStep, StopStep;
    var a := Halted(Found2(key));
    var b := NewSubmit(a, key, true);
    Then(a, a, SubmitCall(key, true), b);
    var c := NewCleanup(b, 2);
    Then(a, b, CleanCall(2), c);
    var d := CleanStop(c, 1);
    Then(a, c, CleanMove(1, HaltClean), d);
    assert d.subs == Handed3(key).subs && d.cleans == Handed3(key).cleans && d.stops == [Signalled];
  }

  lemma LateReleaseIsQueued(key: Key)
    requires !IsBarrierKey(key)
    ensures Leads(Handed3(key), Ahead2(key))
  {
    hide Leads, SubmitStep, WorkerStep, SectionStep, StopStep;
    var a := Handed3(key);
    var b := CleanAfter(a, 1);
    Then(a, a, CleanMove(1, LookAfterStop), b);
    var c := CleanFence(b, 1);
    Then(a, b, CleanMove(1, EnqueueFence), c);
    assert c.cleans == Ahead2(key).cleans && c.lanes == [OneAhead(key)];
  }

  // ----- the first release is queued behind it, and the second call overtakes it -----

  /** Both releases are queued; the second call stands at pc, and its lane is l. */
  function Queued2(key: Key, l: Lane, pc: SubmitPc): Sys {
    Third(key, l, pc, [Cleaner(key, EndingReg(true), InBacklog(0)), Cleaner(key, Returned, InBacklog(0))])
  }

  function BothQueued(key: Key): Lane {
    Enqueue(OneAhead(key), 0, key, false)
  }

  function BothWait(key: Key): Sys {
    Queued2(key, BothQueued(key), Found(0))
  }

  ghost predicate QueuesFirst(g: Sys, m: Move, h: Sys) {
    Steps(g, m, h) && Ordinary(g, m, 0, 0)
  }

  /** The move that queues the first release. */
  lemma ReleaseIsQueuedBehind(key: Key) returns (m: Move)
    requires !IsBarrierKey(key)
    ensures QueuesFirst(Ahead2(key), m, BothWait(key))
  {
    hide CanSubmit, DoSubmit, CanWorker, DoWorker, CanSection, DoSection, CanStop, DoStop;
    m := CleanMove(0, EnqueueClean);
    var h := CleanEnqueue(Ahead2(key), 0);
    assert h.cleans == BothWait(key).cleans && h.lanes == [BothQueued(key)];
  }

  /** The producer of the second call has passed the fence, because a post-stop release of the key stands first. */
  function Past(key: Key): Lane {
    BothQueued(key).(inside := map[1 := Inside(key, Passed)])
  }

  function SecondIsPast(key: Key): Sys {
    Queued2(key, Past(key), InLane(0))
  }

  lemma SecondPasses(key: Key)
    requires !IsBarrierKey(key)
    ensures Leads(BothWait(key), SecondIsPast(key))
  {
    hide Leads, CleanStep, SectionStep, StopStep, Take, Turn, CanTurn, Work, CanWork, Gate, CanGate, Admit, Send;
    hide Abandon, FindFull;
    var a := BothWait(key);
    var b := SubmitEnter(a, 1);
    Then(a, a, SubmitMove(1, EnterLane), b);
    assert FirstFor(b.lanes[0].q.backlog, key) == Some(b.lanes[0].q.backlog[0]) && b.lanes[0].q.backlog[0].fence;
    var c := OnLane(b, 0, ByProducer(1, PPass));
    Then(a, b, WorkerMove(0, Quiet(ByProducer(1, PPass))), c);
    assert c.lanes[0].inside == Past(key).inside;
    assert c.lanes == [Past(key)] && c.subs == SecondIsPast(key).subs;
  }

  /**
   Call p has found lane i but not entered it when release c of its key is queued there, and later its task is
   accepted although the release has not begun.
   */
  ghost predicate Overtakes(g: Sys, h: Sys, c: nat, i: nat, p: nat) {
    && p < |g.subs| && g.subs[p].pc == Found(i) && p < |h.subs| && c < |h.cleans|
    && h.subs[p].key == h.cleans[c].key && Msg(p, h.subs[p].key) in h.accepted && c !in h.begun
  }

  ghost predicate FirstIsOvertaken(g: Sys, h: Sys) {
    Overtakes(g, h, 0, 0, 1)
  }

  lemma SecondSends(key: Key) returns (h: Sys)
    ensures Leads(SecondIsPast(key), h) && FirstIsOvertaken(BothWait(key), h)
  {
    hide Leads, CleanStep, SectionStep, StopStep, Take, Turn, CanTurn, Work, CanWork, Gate, CanGate, Enter, Abandon;
    hide FindFull;
    var a := SecondIsPast(key);
    var b := OnLane(a, 0, ByProducer(1, PAdmit));
    Then(a, a, WorkerMove(0, Quiet(ByProducer(1, PAdmit))), b);
    h := SubmitSend(b, 1);
    Then(a, b, SubmitMove(1, SendLane), h);
  }

  lemma BeforeTheRelease(key: Key)
    requires !IsBarrierKey(key)
    ensures Reachable(Ahead2(key))
  {
    hide Leads, Reachable, Halted, ReleaseComes, Handed3, Ahead2;
    var start, a, b := Init(Roomy()), ReleaseComes(Roomy(), key), Found2(key);
    CallHandsOver(Roomy(), key);
    SecondFinds(key);
    LeadsOn(start, a, b);
    StopComes(b);
    LeadsOn(start, b, Halted(b));
    ThirdHandsOver(key);
    LeadsOn(start, Halted(b), Handed3(key));
    LateReleaseIsQueued(key);
    LeadsOn(start, Handed3(key), Ahead2(key));
    FromTheStart(Roomy(), Ahead2(key));
  }

  /**
   A call registered before stop may overtake an ordinary release of its key: move m queues release c behind one that
   came after stop, and a run leads from there to a state in which the call's task is accepted and c still waits.
   */
  lemma EarlierCallMayOvertake(key: Key) returns (k: Sys, m: Move, g: Sys, h: Sys, c: nat, i: nat, p: nat)
    requires !IsBarrierKey(key)
    ensures Reachable(k) && Ordinary(k, m, c, i) && Steps(k, m, g) && Leads(g, h) && Overtakes(g, h, c, i, p)
  {
    hide Reachable, Leads, Steps, Ordinary, Overtakes, Ahead2, BothWait, SecondIsPast;
    k, g := Ahead2(key), BothWait(key);
    c, i, p := 0, 0, 1;
    BeforeTheRelease(key);
    m := ReleaseIsQueuedBehind(key);
    SecondPasses(key);
    h := SecondSends(key);
    LeadsOn(g, SecondIsPast(key), h);
  }
}
