/**
 The keyQueue object and the mutex bodies that update it in place. Each method is proved against the function
 of module Queues that the lane protocol is built from.
 */
module KeyQueues {
  import opened RoutingKeys
  import opened Queues

  /** What a producer of a key is told by one pass of the overtaking fence. */
  datatype Pass = MayPass | WaitFor(epoch: nat)

  /** drainAndAbort settles every task it finds in the channel. */
  function Drained(q: Queue): Queue {
    Bump(q, -|q.ch|).(ch := [], settled := q.settled + |q.ch|)
  }

  /** What one pass of the worker's loop did. */
  datatype Turned = DidTask(msg: Msg) | DidRelease(id: nat) | SawClosed | Left

  class KeyQueue {
    const capacity: nat
    const tracksIdle: bool
    var ch: seq<Msg>
    var chClosed: bool
    var quit: bool
    var mandatory: seq<Entry>
    var mandatoryQueued: bool
    /** mandatoryProgress is non-nil exactly while `progressOpen`; `epoch` counts how often one was closed. */
    var progressOpen: bool
    var epoch: nat
    var wake: bool
    var retired: bool
    var workerExited: bool
    var closed: bool
    var pending: int
    var admitted: nat
    var settled: nat

    ghost predicate Valid()
      reads this
    {
      && (mandatoryQueued <==> mandatory != [])
      && (progressOpen <==> mandatory != [])
    }

    /** The value that the lane protocol works on. */
    ghost function View(): Queue
      reads this
    {
      Queue(capacity, tracksIdle, ch, chClosed, quit, mandatory, wake, retired, workerExited, closed, pending,
            admitted, settled)
    }

    constructor (capacity: nat, tracksIdle: bool)
      ensures Valid() && View() == NewQueue(capacity, tracksIdle)
    {
      this.capacity, this.tracksIdle := capacity, tracksIdle;
      ch, mandatory := [], [];
      chClosed, quit, mandatoryQueued, progressOpen, wake := false, false, false, false, false;
      retired, workerExited, closed := false, false, false;
      pending, admitted, settled, epoch := 0, 0, 0, 0;
    }

    /** admitTask: the ticket is taken before the send. */
    method Reserve() returns (ticket: nat)
      requires Valid()
      modifies this
      ensures Valid() && View() == AdmitTask(old(View())) && ticket == admitted && epoch == old(epoch)
    {
      admitted := admitted + 1;
      ticket := admitted;
      if tracksIdle {
        pending := pending + 1;
      }
    }

    /** The loop of unmarkSent. */
    method RaiseTargets(ticket: nat)
      modifies this`mandatory
      ensures mandatory == Raise(old(mandatory), ticket)
    {
      var i := 0;
      while i < |mandatory|
        invariant 0 <= i <= |mandatory| == |old(mandatory)|
        invariant forall j :: 0 <= j < i ==> mandatory[j] == Raise(old(mandatory), ticket)[j]
        invariant forall j :: i <= j < |mandatory| ==> mandatory[j] == old(mandatory)[j]
      {
        if ticket > mandatory[i].cutoff {
          mandatory := mandatory[i := mandatory[i].(target := mandatory[i].target + 1)];
        }
        i := i + 1;
      }
    }

    /** unmarkSent: the abandoned ticket is settled, and entries it came after wait for one more settlement. */
    method Abandon(ticket: nat) returns (wakeWorker: bool)
      requires Valid()
      modifies this`settled, this`mandatory, this`pending
      ensures Valid() && View() == UnmarkSent(old(View()), ticket)
      ensures wakeWorker <==> mandatory != []
    {
      settled := settled + 1;
      RaiseTargets(ticket);
      wakeWorker := mandatory != [];
      if tracksIdle {
        pending := pending - 1;
      }
    }

    /** enqueueMandatory, up to the release of its mutex. */
    method QueueMandatory(id: nat, key: Key, fence: bool) returns (taken: bool)
      requires Valid()
      modifies this
      ensures Valid() && epoch == old(epoch)
      ensures taken <==> TakesCleanup(old(View()))
      ensures View() == if taken then EnqueueMandatory(old(View()), id, key, fence) else old(View())
    {
      if retired || workerExited {
        return false;
      }
      if tracksIdle {
        pending := pending + 1;
      }
      if !progressOpen {
        progressOpen := true;
      }
      var cutoff := admitted;
      mandatory := mandatory + [Entry(id, key, cutoff, cutoff, fence)];
      mandatoryQueued := true;
      return true;
    }

    /** takeMandatoryCleanup; every removal closes the channel that fenced producers wait on. */
    method TakeCleanup(fenceClosed: bool) returns (r: Taken)
      requires Valid()
      modifies this
      ensures Valid() && (View(), r) == TakeMandatory(old(View()), fenceClosed)
      ensures epoch == old(epoch) + (if r.Ready? then 1 else 0)
    {
      if !mandatoryQueued {
        return NotReady(false);
      }
      var entry := mandatory[0];
      if entry.fence {
        if !fenceClosed {
          return NotReady(true);
        }
        entry := entry.(fence := false, cutoff := admitted, target := admitted);
        mandatory := mandatory[0 := entry];
      }
      if settled < entry.target {
        return NotReady(false);
      }
      mandatory := mandatory[1..];
      mandatoryQueued := mandatory != [];
      epoch := epoch + 1;
      progressOpen := mandatory != [];
      return Ready(entry);
    }

    /** pendingCleanupForLocked. */
    method PendingFor(key: Key) returns (r: Option<Entry>)
      ensures r == FirstFor(mandatory, key)
    {
      var i := 0;
      while i < |mandatory|
        invariant 0 <= i <= |mandatory|
        invariant forall j :: 0 <= j < i ==> mandatory[j].key != key
      {
        if mandatory[i].key == key {
          FirstIs(mandatory, key, i);
          return Some(mandatory[i]);
        }
        i := i + 1;
      }
      return None;
    }

    /** One pass of waitForMandatoryCleanup. A producer told to wait waits for the next removal from the backlog. */
    method CheckFence(key: Key, stopped: bool) returns (r: Pass)
      requires Valid()
      ensures r.MayPass? <==> FenceLetsPass(mandatory, key, stopped)
      ensures r.WaitFor? ==> progressOpen && r.epoch == epoch
    {
      if !mandatoryQueued {
        return MayPass;
      }
      var entry := PendingFor(key);
      if entry.None? || (entry.value.fence && stopped) {
        return MayPass;
      }
      return WaitFor(epoch);
    }

    /** markRetired. */
    method Retire() returns (ok: bool)
      requires Valid()
      modifies this
      ensures Valid() && View() == MarkRetired(old(View())) && epoch == old(epoch)
      ensures ok <==> old(mandatory) == []
    {
      if mandatory != [] {
        return false;
      }
      retired := true;
      return true;
    }

    /** Retirement: sealed against releases, closed to producers, and its worker told to quit. */
    method Seal() returns (ok: bool)
      requires Valid()
      modifies this
      ensures Valid() && epoch == old(epoch) && (ok <==> old(mandatory) == [])
      ensures View() == if ok then MarkRetired(old(View())).(closed := true, quit := true) else old(View())
    {
      ok := Retire();
      if ok {
        closed, quit := true, true;
      }
    }

    /** finishWorker. */
    method ExitWorker() returns (ok: bool)
      requires Valid()
      modifies this
      ensures Valid() && View() == FinishWorker(old(View())) && epoch == old(epoch)
      ensures ok <==> old(mandatory) == []
    {
      if mandatory != [] {
        return false;
      }
      workerExited := true;
      return true;
    }

    /** Nobody is in mid-send, so every admission is settled or still in the channel, and no entry waits for more. */
    ghost predicate Settling()
      reads this
    {
      && admitted == settled + |ch|
      && forall i :: 0 <= i < |mandatory| ==> mandatory[i].target <= admitted
    }

    /** One pass of the worker's loop on a closed lane behind the closed submit fence. */
    method Turn(channelClosed: bool) returns (r: Turned)
      requires Valid() && Settling() && chClosed && !workerExited && (channelClosed ==> ch == [])
      modifies this
      ensures Valid() && Settling() && chClosed && admitted == old(admitted)
      ensures workerExited <==> r.Left?
      ensures r.DidTask? ==> old(ch) == [r.msg] + ch
      ensures !r.DidTask? ==> ch == old(ch)
      ensures r.DidRelease? ==> Ids(old(mandatory)) == [r.id] + Ids(mandatory)
      ensures !r.DidRelease? ==> Ids(mandatory) == Ids(old(mandatory))
      ensures |mandatory| == |old(mandatory)| - (if r.DidRelease? then 1 else 0)
      ensures r.SawClosed? ==> !channelClosed && ch == []
      ensures r.Left? ==> ch == [] && mandatory == []
      ensures tracksIdle ==> pending == old(pending) - (if r.DidTask? || r.DidRelease? then 1 else 0)
    {
      hide TakeMandatory, Ids;
      var t := TakeCleanup(true);
      TakesHead(old(View()), View(), t);
      if t.Ready? {
        HandleDone();
        return DidRelease(t.entry.id);
      }
      if channelClosed {
        var done := ExitWorker();
        return Left;
      }
      if ch == [] {
        return SawClosed;
      }
      r := DidTask(ch[0]);
      ch := ch[1..];
      HandleDone();
      settled := settled + 1;
    }

    /** With nobody else left to touch it, the lane's worker handles all it holds, each kind in order, and exits. */
    method WorkToExit() returns (tasks: seq<Msg>, releases: seq<nat>)
      requires Valid() && Settling() && chClosed && !workerExited
      modifies this
      ensures Valid() && workerExited && ch == [] && mandatory == []
      ensures tasks == old(ch) && releases == Ids(old(mandatory))
      ensures admitted == old(admitted) && settled == admitted
      ensures tracksIdle ==> pending == old(pending) - |old(ch)| - |old(mandatory)|
    {
      tasks, releases := [], [];
      var channelClosed := false;
      while !workerExited
        invariant Valid() && Settling() && chClosed && admitted == old(admitted)
        invariant (channelClosed ==> ch == []) && (workerExited ==> ch == [] && mandatory == [])
        invariant tasks + ch == old(ch) && releases + Ids(mandatory) == Ids(old(mandatory))
        invariant tracksIdle ==> pending == old(pending) - |tasks| - |releases|
        decreases |mandatory| + |ch|, !channelClosed, !workerExited
      {
        ghost var entries, messages := Ids(mandatory), ch;
        var r := Turn(channelClosed);
        match r
        case DidRelease(id) =>
          MovesOver(releases, id, Ids(mandatory), entries);
          releases := releases + [id];
        case DidTask(m) =>
          MovesOver(tasks, m, ch, messages);
          tasks := tasks + [m];
        case SawClosed => channelClosed := true;
        case Left =>
      }
    }

    /** The deferred decrement of handleTask and handleBarrier. */
    method HandleDone()
      requires Valid()
      modifies this`pending
      ensures Valid() && View() == Bump(old(View()), -1)
    {
      if tracksIdle {
        pending := pending - 1;
      }
    }

    /** drainAndAbort: every task left in the channel is aborted, in order. */
    method DrainAndAbort() returns (aborted: seq<Msg>)
      requires Valid()
      modifies this`ch, this`pending, this`settled
      ensures Valid() && View() == Drained(old(View())) && epoch == old(epoch)
      ensures aborted == old(ch)
    {
      aborted := [];
      while ch != []
        invariant aborted + ch == old(ch)
        invariant settled == old(settled) + |aborted|
        invariant pending == old(pending) - (if tracksIdle then |aborted| else 0)
        decreases |ch|
      {
        var m := ch[0];
        ch := ch[1..];
        if tracksIdle {
          pending := pending - 1;
        }
        aborted := aborted + [m];
        settled := settled + 1;
      }
    }
  }

  function Ids(entries: seq<Entry>): (ids: seq<nat>)
    ensures |ids| == |entries|
  {
    seq(|entries|, i requires 0 <= i < |entries| => entries[i].id)
  }

  /** Behind the closed fence the head of the backlog is taken, or waits for an admission that is not settled. */
  lemma TakesHead(q: Queue, r: Queue, t: Taken)
    requires (r, t) == TakeMandatory(q, true) && forall i :: 0 <= i < |q.backlog| ==> q.backlog[i].target <= q.admitted
    ensures r == q.(backlog := r.backlog) && forall i :: 0 <= i < |r.backlog| ==> r.backlog[i].target <= r.admitted
    ensures t.Ready? ==> Ids(q.backlog) == [t.entry.id] + Ids(r.backlog) && |r.backlog| == |q.backlog| - 1
    ensures t.NotReady? ==> Ids(r.backlog) == Ids(q.backlog) && |r.backlog| == |q.backlog|
    ensures t.NotReady? && q.settled == q.admitted ==> r.backlog == []
  {
    hide Convert, Ids;
    var c := Convert(q, true);
    ConvertKeeps(q);
    SameIds(q.backlog, c.backlog);
    if HeadReady(c) {
      IdsOfRest(c.backlog);
    }
  }

  lemma ConvertKeeps(q: Queue)
    requires forall i :: 0 <= i < |q.backlog| ==> q.backlog[i].target <= q.admitted
    ensures Convert(q, true) == q.(backlog := Convert(q, true).backlog)
    ensures var b := Convert(q, true).backlog;
            && |b| == |q.backlog| && (b != [] ==> !b[0].fence)
            && forall i :: 0 <= i < |b| ==> b[i].id == q.backlog[i].id && b[i].target <= q.admitted
  {
    if q.backlog != [] && q.backlog[0].fence {
      var e := q.backlog[0].(fence := false, cutoff := q.admitted, target := q.admitted);
      assert Convert(q, true).backlog == q.backlog[0 := e];
    } else {
      assert Convert(q, true) == q;
    }
  }

  lemma SameIds(a: seq<Entry>, b: seq<Entry>)
    requires |b| == |a| && forall i :: 0 <= i < |a| ==> b[i].id == a[i].id
    ensures Ids(b) == Ids(a)
  {
  }

  lemma IdsOfRest(entries: seq<Entry>)
    requires entries != []
    ensures Ids(entries) == [entries[0].id] + Ids(entries[1..])
  {
  }

  /** What comes first of the rest has been handled. */
  lemma MovesOver<T>(done: seq<T>, x: T, rest: seq<T>, before: seq<T>)
    requires before == [x] + rest
    ensures (done + [x]) + rest == done + before
  {
  }

  lemma FirstIs(backlog: seq<Entry>, key: Key, i: nat)
    requires i < |backlog| && backlog[i].key == key && forall j :: 0 <= j < i ==> backlog[j].key != key
    ensures FirstFor(backlog, key) == Some(backlog[i])
  {
  }

  /** closeQueueChannels: each queue's channel is closed once, however often a queue is listed or closed. */
  method CloseAll(queues: seq<KeyQueue>)
    requires forall q :: q in queues ==> q.Valid()
    modifies set q | q in queues
    ensures forall q :: q in queues ==> q.Valid() && q.View() == CloseChannel(old(q.View())) && q.epoch == old(q.epoch)
  {
    var i := 0;
    while i < |queues|
      invariant 0 <= i <= |queues|
      invariant forall q :: q in queues ==> q.Valid() && q.epoch == old(q.epoch)
      invariant forall q :: q in queues[..i] ==> q.View() == CloseChannel(old(q.View()))
      invariant forall q :: q in queues && q !in queues[..i] ==> q.View() == old(q.View())
    {
      var q := queues[i];
      if !q.closed {
        q.closed, q.chClosed := true, true;
      }
      i := i + 1;
    }
  }

  /** An admission that is given up leaves every queued entry as far from running as it was. */
  lemma AbandonIsNeutral(q: Queue)
    requires forall i :: 0 <= i < |q.backlog| ==> q.backlog[i].cutoff <= q.admitted
    ensures var r := UnmarkSent(AdmitTask(q), q.admitted + 1);
            && r.pending == q.pending && |r.backlog| == |q.backlog|
            && forall i :: 0 <= i < |q.backlog| ==>
                 && r.backlog[i].cutoff == q.backlog[i].cutoff
                 && r.backlog[i].target - r.settled == q.backlog[i].target - q.settled
  {
  }
}
