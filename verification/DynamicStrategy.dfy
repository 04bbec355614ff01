/**
 The map of queues of the Dynamic strategy, with the key guards and the stopping flag that its lock protects.
 Every method is one region under that lock, proved equal to the functions of the dispatcher model on the views.
 */
module DynamicStrategy {
  import opened RoutingKeys
  import opened Queues
  import opened Dispatcher
  import opened KeyQueues
  import opened Strategies

  datatype Lookup = Halted | Live | GuardAhead(release: nat) | LimitHit | Made

  datatype GuardVerdict = Refused | TakenBySection | Guarded

  /** The queues of some keys of a map, each once: as many as there are keys, and none left out. */
  ghost predicate Lists(queues: map<Key, KeyQueue>, all: seq<KeyQueue>, keys: set<Key>) {
    && |all| == |keys|
    && (forall i :: 0 <= i < |all| ==> exists k :: k in keys && k in queues && queues[k] == all[i])
    && (forall k :: k in keys && k in queues ==> queues[k] in all)
  }

  lemma ListsOneMore(queues: map<Key, KeyQueue>, all: seq<KeyQueue>, keys: set<Key>, k: Key)
    requires Lists(queues, all, keys) && k in queues && k !in keys
    ensures Lists(queues, all + [queues[k]], keys + {k})
  {
  }

  method Snapshot(queues: map<Key, KeyQueue>) returns (all: seq<KeyQueue>)
    ensures Lists(queues, all, queues.Keys)
  {
    all := [];
    var rest := queues.Keys;
    ghost var listed: set<Key> := {};
    while rest != {}
      invariant listed !! rest && listed + rest == queues.Keys
      invariant Lists(queues, all, listed)
      decreases |rest|
    {
      var k :| k in rest;
      ListsOneMore(queues, all, listed, k);
      all := all + [queues[k]];
      listed := listed + {k};
      rest := rest - {k};
    }
  }

  ghost predicate Distinct(queues: map<Key, KeyQueue>) {
    forall j, k :: j in queues && k in queues && j != k ==> queues[j] != queues[k]
  }

  /** The index says which of the queues made is a key's. */
  ghost predicate Named(queues: map<Key, KeyQueue>, index: map<Key, nat>, made: seq<KeyQueue>) {
    index.Keys == queues.Keys && forall k :: k in queues ==> index[k] < |made| && made[index[k]] == queues[k]
  }

  lemma NamedLess(queues: map<Key, KeyQueue>, index: map<Key, nat>, made: seq<KeyQueue>, key: Key)
    requires Named(queues, index, made)
    ensures Named(queues - {key}, index - {key}, made)
  {
  }

  lemma NamedMore(queues: map<Key, KeyQueue>, index: map<Key, nat>, made: seq<KeyQueue>, key: Key, q: KeyQueue)
    requires Named(queues, index, made)
    ensures Named(queues[key := q], index[key := |made|], made + [q])
  {
  }

  class DynamicQueues {
    const base: Base
    const capacity: nat
    const tracksIdle: bool
    const maxQueues: nat
    var queues: map<Key, KeyQueue>
    var guards: map<Key, nat>
    var stopping: bool
    /** Every queue ever made, in order, and where those of the map stand among them. */
    ghost var made: seq<KeyQueue>
    ghost var index: map<Key, nat>

    /** The map is in order, and a guarded key has no open queue. */
    ghost predicate Valid()
      reads this, queues.Values, base, base.activeSection
    {
      InOrder() && Named(queues, index, made) && base.Valid()
    }

    ghost predicate InOrder()
      reads this`queues, this`guards, queues.Values
    {
      && (forall k :: k in queues ==> queues[k].Valid() && (k in guards ==> queues[k].closed))
      && Distinct(queues)
      && (maxQueues > 0 ==> |queues| <= maxQueues)
    }

    /** The state under the lock, as the dispatcher model has it while no retirement is in progress. */
    ghost function View(): Registry
      reads this
    {
      Registry(index, guards, stopping, None, false)
    }

    /** The key's queue is mapped and open. */
    ghost predicate Open(key: Key)
      reads this, queues.Values
    {
      key in queues && !queues[key].closed
    }

    constructor (base: Base, capacity: nat, tracksIdle: bool, maxQueues: nat)
      requires base.Valid()
      ensures Valid() && this.base == base && View() == Registry(map[], map[], false, None, false) && made == []
    {
      this.base, this.capacity, this.tracksIdle, this.maxQueues := base, capacity, tracksIdle, maxQueues;
      queues, guards, stopping, made, index := map[], map[], false, [], map[];
    }

    /** One pass of getOrCreate. */
    method GetOrCreate(key: Key, stopped: bool) returns (r: Lookup, q: KeyQueue?)
      requires Valid()
      modifies this`queues, this`made, this`index, base.activeSection
      ensures Valid()
      ensures r.Halted? <==> stopped || (!old(Open(key)) && stopping)
      ensures r.Live? <==> !stopped && old(Open(key))
      ensures r.GuardAhead? <==> !stopped && !old(Open(key)) && !stopping && key in guards
      ensures r.LimitHit? <==>
                && !stopped && !old(Open(key)) && !stopping && key !in guards
                && maxQueues > 0 && |old(queues)| >= maxQueues
      ensures r.GuardAhead? ==> r.release == guards[key]
      ensures r.Live? ==> key in queues && q == queues[key]
      ensures r.Made? ==> q != null && fresh(q) && made == old(made) + [q] && q.View() == Newborn(old(base.Current()))
      ensures View() == if r.Made? then NameQueue(old(View()), key, |old(made)|) else old(View())
      ensures base.Current()
              == if r.Made? && old(base.Current()).active then Expect(old(base.Current()), |old(made)|)
                 else old(base.Current())
    {
      q := null;
      if stopped {
        return Halted, null;
      }
      if key in queues && !queues[key].closed {
        return Live, queues[key];
      }
      if stopping {
        return Halted, null;
      }
      if key in guards {
        return GuardAhead(guards[key]), null;
      }
      if maxQueues > 0 && |queues| >= maxQueues {
        return LimitHit, null;
      }
      q := AddQueue(key);
      return Made, q;
    }

    /** The new queue takes its place in the map. */
    method AddQueue(key: Key) returns (q: KeyQueue)
      requires Valid() && !Open(key) && key !in guards && (maxQueues > 0 ==> |queues| < maxQueues)
      modifies this`queues, this`made, this`index, base.activeSection
      ensures Valid() && fresh(q) && made == old(made) + [q] && q.View() == Newborn(old(base.Current()))
      ensures View() == NameQueue(old(View()), key, |old(made)|)
      ensures base.Current()
              == if old(base.Current()).active then Expect(old(base.Current()), |old(made)|) else old(base.Current())
    {
      q := MakeQueue();
      Place(key, q);
    }

    method Place(key: Key, q: KeyQueue)
      requires Valid() && key !in guards && q.Valid() && (maxQueues > 0 ==> |queues| < maxQueues)
      requires forall k :: k in queues ==> queues[k] != q
      modifies this`queues, this`made, this`index
      ensures Valid() && made == old(made) + [q] && View() == NameQueue(old(View()), key, |old(made)|)
    {
      Name(key, q);
      Map(key, q);
    }

    ghost method Name(key: Key, q: KeyQueue)
      requires Named(queues, index, made)
      modifies this`index, this`made
      ensures Named(queues[key := q], index, made) && index == old(index)[key := |old(made)|] && made == old(made) + [q]
    {
      NamedMore(queues, index, made, key, q);
      index := index[key := |made|];
      made := made + [q];
    }

    method Map(key: Key, q: KeyQueue)
      requires InOrder() && key !in guards && q.Valid() && (maxQueues > 0 ==> |queues| < maxQueues)
      requires forall k :: k in queues ==> queues[k] != q
      modifies this`queues
      ensures InOrder() && queues == old(queues)[key := q]
    {
      queues := queues[key := q];
    }

    method Forget(key: Key)
      requires Valid()
      modifies this`queues, this`index
      ensures Valid() && View() == ForgetQueue(old(View()), key)
    {
      Unname(key);
      assert base.Valid();
      Unmap(key);
      assert Named(queues, index, made);
    }

    ghost method Unname(key: Key)
      requires Named(queues, index, made)
      modifies this`index
      ensures Named(queues - {key}, index, made) && index == old(index) - {key}
    {
      NamedLess(queues, index, made, key);
      index := index - {key};
    }

    method Unmap(key: Key)
      requires InOrder()
      modifies this`queues
      ensures InOrder() && queues == old(queues) - {key}
    {
      var rest := queues - {key};
      assert rest.Keys == queues.Keys - {key};
      queues := rest;
    }

    /** A queue made during a section starts with the section's barrier, and the section waits for it. */
    method MakeQueue() returns (q: KeyQueue)
      requires base.Valid()
      modifies base.activeSection
      ensures base.Valid() && fresh(q) && q.Valid() && !q.closed && q.View() == Newborn(old(base.Current()))
      ensures base.Current()
              == if old(base.Current()).active then Expect(old(base.Current()), |made|) else old(base.Current())
    {
      q := new KeyQueue(capacity, tracksIdle);
      if base.activeSection != null {
        var taken := q.QueueMandatory(base.activeSection.id, Key(ExclusiveBarrier, 0), false);
        if taken {
          base.activeSection.ExpectLane(|made|);
        }
      }
    }

    ghost function Newborn(sec: Section): Queue {
      if sec.active then EnqueueMandatory(NewQueue(capacity, tracksIdle), sec.id, Key(ExclusiveBarrier, 0), false)
      else NewQueue(capacity, tracksIdle)
    }

    /** The first locked region of cleanupWithoutLiveLane. */
    method GuardKey(key: Key, c: nat) returns (v: GuardVerdict)
      requires Valid()
      modifies this`guards, base.activeSection
      ensures Valid()
      ensures v.Refused? <==> stopping || Open(key) || key in old(guards)
      ensures v.TakenBySection? <==> !v.Refused? && old(base.Current()).active
      ensures View() == if v.Guarded? then AddGuard(old(View()), key, c) else old(View())
      ensures base.Current() == if v.TakenBySection? then Defer(old(base.Current()), c) else old(base.Current())
    {
      if stopping || (key in queues && !queues[key].closed) || key in guards {
        return GuardVerdict.Refused;
      }
      if base.activeSection != null {
        base.activeSection.Postpone(c);
        return TakenBySection;
      }
      guards := guards[key := c];
      return Guarded;
    }

    /** Its second one, after the release has run. */
    method DropGuard(key: Key)
      requires Valid()
      modifies this`guards
      ensures Valid() && View() == LiftGuard(old(View()), key)
    {
      guards := guards - {key};
    }

    /**
     retireIfIdle, with what it reads from clocks and the gate as arguments. The queue leaves the map exactly when
     no section is active, it is still the mapped queue, it is empty and idle, and it owes no release.
     */
    method RetireIfIdle(key: Key, q: KeyQueue, idle: bool, gateFree: bool) returns (removed: bool)
      requires Valid() && q.Valid()
      modifies this`queues, this`index, q
      ensures Valid() && q.Valid()
      ensures removed <==> base.activeSection == null && key in old(queues) && old(queues)[key] == q
                           && old(q.pending) == 0 && old(q.ch) == [] && idle && gateFree && old(q.mandatory) == []
      ensures View() == if removed then ForgetQueue(old(View()), key) else old(View())
      ensures q.View() == if removed then MarkRetired(old(q.View())).(closed := true, quit := true) else old(q.View())
    {
      if base.activeSection != null || key !in queues || queues[key] != q {
        return false;
      }
      if q.pending != 0 || q.ch != [] || !idle {
        return false;
      }
      if !gateFree {
        return false;
      }
      var ok := q.Seal();
      if !ok {
        return false;
      }
      Forget(key);
      return true;
    }

    /** markStoppingAndSnapshot: every mapped queue, once, in one locked region with the stopping flag. */
    method MarkStoppingAndSnapshot() returns (all: seq<KeyQueue>)
      requires Valid()
      modifies this`stopping
      ensures Valid() && View() == old(View()).(stopping := true)
      ensures Lists(queues, all, queues.Keys)
    {
      MarkStopping();
      all := Snapshot(queues);
    }

    method MarkStopping()
      requires Valid()
      modifies this`stopping
      ensures Valid() && View() == old(View()).(stopping := true)
    {
      stopping := true;
    }

    /** installExclusive: the open queues, and the channels of the releases that run off their lanes. */
    method InstallExclusive(section: ExclusiveSection)
      returns (lanes: seq<KeyQueue>, running: set<nat>, done: Option<nat>)
      requires Valid() && base.activeSection == null
      requires section.Valid() && section.view.pc == AwaitOffLane(guards.Values, base.count != 0)
      modifies base`activeSection
      ensures Valid() && base.activeSection == section && base.Current() == section.view
      ensures base.Current().pc == AwaitOffLane(running, done.Some?) && running == View().guards.Values
      ensures done == if base.Releases().count != 0 then Some(base.epoch) else None
      ensures Lists(queues, lanes, OpenKeys())
      ensures forall q :: q in lanes <==> exists k :: k in queues && queues[k] == q && !q.closed
    {
      done := base.PublishSection(section);
      lanes := OpenQueues();
      running := guards.Values;
    }

    ghost function OpenKeys(): set<Key>
      reads this, queues.Values
    {
      set k | k in queues && !queues[k].closed
    }

    /** Each open queue is listed once: a queue listed twice would be given two barriers. */
    method OpenQueues() returns (lanes: seq<KeyQueue>)
      ensures Lists(queues, lanes, OpenKeys())
      ensures forall q :: q in lanes <==> exists k :: k in queues && queues[k] == q && !q.closed
    {
      lanes := [];
      var rest := queues.Keys;
      ghost var listed: set<Key> := {};
      while rest != {}
        invariant rest <= queues.Keys && listed == (set k | k in OpenKeys() && k !in rest)
        invariant Lists(queues, lanes, listed)
        decreases |rest|
      {
        var k :| k in rest;
        if !queues[k].closed {
          ListsOneMore(queues, lanes, listed, k);
          lanes := lanes + [queues[k]];
          listed := listed + {k};
        }
        rest := rest - {k};
      }
      assert listed == OpenKeys();
    }
  }
}
