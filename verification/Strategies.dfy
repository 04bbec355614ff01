/**
 The state that both strategies share: stop and submit fence, tracked releases, and the exclusive section in
 progress. Each method is one locked region, or one loop of the engine. The views of an object are the parts of an
 engine state that it holds, and the methods are proved equal to the functions of the dispatcher model on them.
 */
module Strategies {
  import opened Queues
  import opened Dispatcher

  // ----- what an exclusive section holds back -----

  /** What the drain runs: the releases postponed so far, then those postponed meanwhile, until none was. */
  function DrainOrder(first: seq<nat>, arrivals: seq<seq<nat>>): seq<nat>
    decreases |arrivals|
  {
    if first == [] then []
    else first + (if arrivals == [] then [] else DrainOrder(arrivals[0], arrivals[1..]))
  }

  function Flatten(batches: seq<seq<nat>>): seq<nat> {
    if batches == [] then [] else batches[0] + Flatten(batches[1..])
  }

  /** While every batch finds the next one waiting, the drain runs all of them, each release once and in order. */
  lemma {:induction false} DrainRunsEveryBatch(first: seq<nat>, arrivals: seq<seq<nat>>)
    requires first != [] && forall i :: 0 <= i < |arrivals| ==> arrivals[i] != []
    ensures DrainOrder(first, arrivals) == first + Flatten(arrivals)
    decreases |arrivals|
  {
    if arrivals != [] {
      DrainRunsEveryBatch(arrivals[0], arrivals[1..]);
    }
  }

  /** The drain ends with the first empty hand-over; what comes later is not the section's any more. */
  lemma {:induction false} DrainStopsWhenEmpty(first: seq<nat>, arrivals: seq<seq<nat>>, later: seq<seq<nat>>)
    ensures DrainOrder(first, arrivals + [[]] + later) == DrainOrder(first, arrivals)
    decreases |arrivals|
  {
    if arrivals == [] {
      assert arrivals + [[]] + later == [[]] + later;
    } else {
      assert (arrivals + [[]] + later)[1..] == arrivals[1..] + [[]] + later;
      DrainStopsWhenEmpty(arrivals[0], arrivals[1..], later);
    }
  }

  function FirstPanic(ran: seq<nat>, panics: set<nat>): (r: Option<nat>)
    ensures r.None? <==> forall c :: c in ran ==> c !in panics
    ensures r.Some? ==> r.value in ran && r.value in panics
  {
    if ran == [] then None
    else
      var r := FirstPanic(ran[..|ran| - 1], panics);
      if r.Some? then r
      else if ran[|ran| - 1] in panics then Some(ran[|ran| - 1])
      else None
  }

  lemma NextPanic(ran: seq<nat>, c: nat, panics: set<nat>)
    ensures FirstPanic(ran + [c], panics) ==
            if FirstPanic(ran, panics).Some? then FirstPanic(ran, panics) else if c in panics then Some(c) else None
  {
  }

  /** runRecovered over one batch: a panic does not keep the rest of the batch from running. */
  method RunBatch(batch: seq<nat>, panics: set<nat>, before: seq<nat>, earlier: Option<nat>)
    returns (ran: seq<nat>, raised: Option<nat>)
    requires earlier == FirstPanic(before, panics)
    ensures ran == before + batch && raised == FirstPanic(ran, panics)
  {
    ran, raised := before, earlier;
    var k := 0;
    while k < |batch|
      invariant 0 <= k <= |batch|
      invariant ran == before + batch[..k] && raised == FirstPanic(ran, panics)
    {
      NextPanic(ran, batch[k], panics);
      ran := ran + [batch[k]];
      if batch[k] in panics && raised.None? {
        raised := Some(batch[k]);
      }
      k := k + 1;
    }
  }

  class ExclusiveSection {
    const id: nat
    var expected: nat
    var deferred: seq<nat>
    /** The section as the dispatcher model has it. */
    ghost var view: Section

    ghost predicate Valid()
      reads this
    {
      view.active && view.id == id && view.expected == expected && view.postponed == deferred
    }

    /** A section is published with what installExclusive found: releases off their lanes, and lanes to stop. */
    constructor (id: nat, ghost guards: set<nat>, ghost life: Life, ghost lanes: nat, ghost todo: set<nat>)
      ensures this.id == id && Valid()
      ensures view == Installed(FreshSection(id).(pc := Registered), guards, life, lanes, todo)
    {
      this.id, expected, deferred := id, 0, [];
      view := Installed(FreshSection(id).(pc := Registered), guards, life, lanes, todo);
    }

    method Postpone(c: nat)
      requires Valid()
      modifies this`deferred, this`view
      ensures Valid() && view == Defer(old(view), c)
    {
      deferred := deferred + [c];
      view := Defer(view, c);
    }

    method PostponeAll(cs: seq<nat>)
      requires Valid()
      modifies this`deferred, this`view
      ensures Valid() && deferred == old(deferred) + cs && view == old(view).(postponed := deferred)
    {
      var k := 0;
      while k < |cs|
        invariant 0 <= k <= |cs| && Valid()
        invariant deferred == old(deferred) + cs[..k] && view == old(view).(postponed := deferred)
      {
        Postpone(cs[k]);
        k := k + 1;
      }
    }

    method ExpectLane(ghost n: nat)
      requires Valid()
      modifies this`expected, this`view
      ensures Valid() && view == Expect(old(view), n)
    {
      expected := expected + 1;
      view := Expect(view, n);
    }
  }

  // ----- base -----

  /** What happens while a stop waits for the current epoch of tracked releases. */
  datatype LifeEvent = TimedOut | EpochOver(registered: nat)

  class Base {
    var inFlight: nat
    var stopped: bool
    var hard: bool
    var fence: bool
    ghost var loose: bool
    var count: nat
    var sealed: bool
    /** lifecycleCleanupDone is non-nil exactly while count > 0; `epoch` counts how often one was closed. */
    var epoch: nat
    var activeSection: ExclusiveSection?

    ghost function Control(): Ctl
      reads this
    {
      Ctl(stopped, hard, fence, inFlight, loose)
    }

    ghost function Releases(): Life
      reads this
    {
      Life(count, sealed)
    }

    ghost predicate Valid()
      reads this, activeSection
    {
      activeSection != null ==> activeSection.Valid()
    }

    /** The section in progress; without one, what is left is a section that is not active. */
    ghost function Current(): Section
      reads this, activeSection
    {
      if activeSection == null then FreshSection(0) else activeSection.view
    }

    constructor ()
      ensures Valid() && Control() == Ctl(false, false, false, 0, false) && Releases() == Life(0, false)
      ensures activeSection == null
    {
      inFlight, stopped, hard, fence, loose := 0, false, false, false, false;
      count, sealed, epoch, activeSection := 0, false, 0, null;
    }

    method BeginSubmit() returns (ok: bool)
      modifies this`inFlight
      ensures ok <==> !stopped
      ensures Control() == if ok then Register(old(Control())) else old(Control())
    {
      if stopped {
        return false;
      }
      inFlight := inFlight + 1;
      return true;
    }

    /** The two halves of endSubmit. Between them other callers may run. */
    method Decrement() returns (zero: bool)
      requires inFlight > 0
      modifies this`inFlight
      ensures Control() == Deregister(old(Control())) && (zero <==> inFlight == 0)
    {
      inFlight := inFlight - 1;
      zero := inFlight == 0;
    }

    method TestAfterDecrement(zero: bool)
      modifies this`fence, this`loose
      ensures Control() == TestFence(old(Control()), zero)
    {
      if zero && stopped && !fence {
        fence := true;
        loose := loose || inFlight > 0;
      }
    }

    /** Uninterrupted, endSubmit closes the fence only when nobody is registered any more. */
    method EndSubmit()
      requires inFlight > 0
      modifies this`inFlight, this`fence, this`loose
      ensures inFlight == old(inFlight) - 1 && loose == old(loose)
      ensures fence <==> old(fence) || (stopped && inFlight == 0)
    {
      var zero := Decrement();
      TestAfterDecrement(zero);
    }

    method SignalStopOnce()
      modifies this`stopped, this`fence
      ensures Control() == SignalStopped(old(Control()))
    {
      if !stopped {
        stopped := true;
        if inFlight == 0 {
          fence := true;
        }
      }
    }

    method SignalHardStopOnce()
      modifies this`hard
      ensures Control() == old(Control()).(hard := true)
    {
      hard := true;
    }

    /** How a stop begins: a hard one has tasks aborted from before it is signalled. */
    method SignalStops(asHard: bool)
      modifies this`stopped, this`hard, this`fence
      ensures Control() == SignalStopped(if asHard then old(Control()).(hard := true) else old(Control()))
    {
      if asHard {
        SignalHardStopOnce();
      }
      SignalStopOnce();
    }

    /** beginLifecycleCleanup. */
    method BeginLifecycleCleanup(c: nat) returns (a: Admission)
      requires Valid()
      modifies this`count, activeSection
      ensures Valid() && activeSection == old(activeSection)
      ensures a == AdmissionOf(old(Releases()), old(Current()))
      ensures Releases() == if a.TrackIt? then Track(old(Releases())) else old(Releases())
      ensures Current() == if a.LeaveToSection? then Defer(old(Current()), c) else old(Current())
    {
      if sealed {
        return RunNow;
      }
      if activeSection != null {
        activeSection.Postpone(c);
        return LeaveToSection;
      }
      count := count + 1;
      return TrackIt;
    }

    /** endLifecycleCleanup: the last tracked release ends the epoch that a stop may be waiting for. */
    method EndLifecycleCleanup()
      modifies this`count, this`epoch
      ensures Releases() == if old(count) == 0 then old(Releases()) else Untrack(old(Releases()))
      ensures epoch > old(epoch) <==> old(count) > 0 && Releases().count == 0
    {
      if count == 0 {
        return;
      }
      count := count - 1;
      if count == 0 {
        epoch := epoch + 1;
      }
    }

    /**
     finishLifecycleCleanups: registration is sealed exactly at a moment when nothing is tracked; a wait that
     times out leaves it open for the next stop.
     */
    method FinishLifecycleCleanups(env: seq<LifeEvent>) returns (ok: bool)
      modifies this`count, this`epoch, this`sealed
      ensures ok ==> sealed && count == 0
      ensures !ok ==> sealed == old(sealed) && count > 0
      ensures ok <==> old(count) == 0 || exists i :: 0 <= i < |env| && env[i] == EpochOver(0)
                                                     && forall j :: 0 <= j < i ==> env[j].EpochOver?
    {
      var i := 0;
      while count > 0
        invariant 0 <= i <= |env| && sealed == old(sealed)
        invariant forall j :: 0 <= j < i ==> env[j].EpochOver?
        invariant forall j :: 0 <= j < i ==> env[j] == EpochOver(0) ==> j == i - 1 && count == 0
        invariant i == 0 ==> count == old(count)
        invariant i > 0 ==> count == env[i - 1].registered && old(count) > 0
        decreases |env| - i
      {
        if i == |env| || env[i].TimedOut? {
          return false;
        }
        epoch := epoch + 1;
        count := env[i].registered;
        i := i + 1;
      }
      sealed := true;
      return true;
    }

    /** The part of installExclusive that both strategies have: the section is published, tracked releases are noted. */
    method PublishSection(section: ExclusiveSection) returns (done: Option<nat>)
      requires activeSection == null && section.Valid() && section.view.pc.AwaitOffLane?
      requires section.view.pc.tracked <==> count != 0
      modifies this`activeSection
      ensures Valid() && activeSection == section && Current() == section.view
      ensures Current().pc.tracked <==> done.Some?
      ensures done.Some? ==> done.value == epoch
    {
      activeSection := section;
      done := if count != 0 then Some(epoch) else None;
    }

    /** withdrawExclusive, once the section is releasing what it postponed. */
    method WithdrawExclusive() returns (batch: seq<nat>, withdrawn: bool)
      requires Valid() && activeSection != null && activeSection.view.pc == Releasing([])
      modifies this`activeSection, activeSection`deferred, activeSection`view
      ensures Valid() && activeSection == if withdrawn then null else old(activeSection)
      ensures old(activeSection).view == HandOver(old(Current()))
      ensures old(activeSection).view.pc == if withdrawn then Withdrawn else Releasing(batch)
      ensures batch == old(activeSection.deferred) && old(activeSection).deferred == [] && (withdrawn <==> batch == [])
    {
      batch := activeSection.deferred;
      withdrawn := batch == [];
      activeSection.view := HandOver(activeSection.view);
      if !withdrawn {
        activeSection.deferred := [];
      } else {
        activeSection := null;
      }
    }

    /** One pass of the drain: the batch runs while `arriving` is postponed, and then the section is asked again. */
    method RunAndWithdraw(batch: seq<nat>, arriving: seq<nat>, panics: set<nat>, before: seq<nat>, earlier: Option<nat>)
      returns (ran: seq<nat>, raised: Option<nat>, withdrawn: bool)
      requires Valid() && activeSection != null && activeSection.view.pc == Releasing(batch)
      requires activeSection.deferred == []
      requires earlier == FirstPanic(before, panics)
      modifies this`activeSection, activeSection
      ensures Valid() && activeSection == if withdrawn then null else old(activeSection)
      ensures withdrawn <==> arriving == []
      ensures old(activeSection).view.pc == if withdrawn then Withdrawn else Releasing(arriving)
      ensures old(activeSection).deferred == []
      ensures ran == before + batch && raised == FirstPanic(ran, panics)
    {
      ran, raised := RunBatch(batch, panics, before, earlier);
      activeSection.view := activeSection.view.(pc := Releasing([]));
      activeSection.PostponeAll(arriving);
      var next;
      next, withdrawn := WithdrawExclusive();
    }

    /**
     The deferred part of runExclusive. arrivals[i] is what is postponed while batch i runs. Every batch is run
     to its end even when a release panics; the first panic is raised at the end, unless fn is panicking itself.
     */
    method Drain(arrivals: seq<seq<nat>>, panics: set<nat>, fnPanics: bool) returns (ran: seq<nat>, raised: Option<nat>)
      requires Valid() && activeSection != null && activeSection.view.pc == Releasing([])
      modifies this`activeSection, activeSection
      ensures Valid() && activeSection == null && old(activeSection).view.pc.Withdrawn?
      ensures ran == DrainOrder(old(activeSection.deferred), arrivals)
      ensures raised == if fnPanics then None else FirstPanic(ran, panics)
    {
      ran := [];
      raised := None;
      ghost var section := activeSection;
      var batch, withdrawn := WithdrawExclusive();
      var later := arrivals;
      while !withdrawn
        invariant activeSection == (if withdrawn then null else section) && Valid()
        invariant section.view.pc == if withdrawn then Withdrawn else Releasing(batch)
        invariant (withdrawn <==> batch == []) && (!withdrawn ==> section.deferred == [])
        invariant ran + DrainOrder(batch, later) == DrainOrder(old(activeSection.deferred), arrivals)
        invariant raised == FirstPanic(ran, panics)
        decreases |later|, |batch|
      {
        var arriving := if later != [] then later[0] else [];
        DrainStep(ran, batch, later);
        ran, raised, withdrawn := RunAndWithdraw(batch, arriving, panics, ran, raised);
        batch := arriving;
        later := if later != [] then later[1..] else [];
      }
      if fnPanics {
        raised := None;
      }
    }
  }

  lemma DrainStep(ran: seq<nat>, batch: seq<nat>, later: seq<seq<nat>>)
    requires batch != []
    ensures ran + DrainOrder(batch, later) ==
            (ran + batch) + (if later != [] then DrainOrder(later[0], later[1..]) else DrainOrder([], []))
  {
  }
}
