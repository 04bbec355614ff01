/**
 One keyQueue: the bounded channel, the mandatory backlog and the counters that order the backlog.
 Each function is the effect of one critical section or atomic operation of the engine.
 */
module Queues {
  import opened RoutingKeys

  /** A task sent into the channel; task ids name submit calls, so no two submits share one. */
  datatype Msg = Msg(task: nat, key: Key)

  /** A backlog entry: a queued handle release, or the barrier of exclusive section `id`. */
  datatype Entry = Entry(id: nat, key: Key, cutoff: nat, target: nat, fence: bool)

  datatype Option<+T> = None | Some(value: T)

  datatype Queue = Queue(
    cap: nat,
    tracksIdle: bool,
    ch: seq<Msg>,
    chClosed: bool,
    quit: bool,
    backlog: seq<Entry>,
    wake: bool,
    retired: bool,
    workerExited: bool,
    closed: bool,
    pending: int,
    admitted: nat,
    settled: nat)

  function NewQueue(cap: nat, tracksIdle: bool): Queue {
    Queue(cap, tracksIdle, [], false, false, [], false, false, false, false, 0, 0, 0)
  }

  function Bump(q: Queue, n: int): Queue {
    if q.tracksIdle then q.(pending := q.pending + n) else q
  }

  function AdmitTask(q: Queue): Queue {
    Bump(q, 1).(admitted := q.admitted + 1)
  }

  /** The loop of unmarkSent: entries whose boundary lies before the ticket discount its abandonment. */
  function Raise(backlog: seq<Entry>, ticket: nat): (r: seq<Entry>)
    ensures |r| == |backlog|
    ensures forall i :: 0 <= i < |r| ==>
      r[i] == if ticket > backlog[i].cutoff then backlog[i].(target := backlog[i].target + 1) else backlog[i]
  {
    if backlog == [] then []
    else
      var last := backlog[|backlog| - 1];
      Raise(backlog[..|backlog| - 1], ticket)
      + [if ticket > last.cutoff then last.(target := last.target + 1) else last]
  }

  function UnmarkSent(q: Queue, ticket: nat): Queue {
    Bump(q, -1).(settled := q.settled + 1, backlog := Raise(q.backlog, ticket))
  }

  predicate TakesCleanup(q: Queue) {
    !q.retired && !q.workerExited
  }

  function EnqueueMandatory(q: Queue, id: nat, key: Key, fence: bool): Queue {
    Bump(q, 1).(backlog := q.backlog + [Entry(id, key, q.admitted, q.admitted, fence)])
  }

  datatype Taken = NotReady(waitFence: bool) | Ready(entry: Entry)

  /** A fence entry at the head takes a new admission boundary once the submit fence has closed. */
  function Convert(q: Queue, fenceClosed: bool): Queue {
    if q.backlog != [] && q.backlog[0].fence && fenceClosed then
      q.(backlog := q.backlog[0 := q.backlog[0].(fence := false, cutoff := q.admitted, target := q.admitted)])
    else q
  }

  /** The head may run: it waits for no producer fence, and every admission it is behind has settled. */
  predicate HeadReady(q: Queue) {
    q.backlog != [] && !q.backlog[0].fence && q.settled >= q.backlog[0].target
  }

  function TakeMandatory(q: Queue, fenceClosed: bool): (Queue, Taken) {
    var c := Convert(q, fenceClosed);
    if HeadReady(c) then (c.(backlog := c.backlog[1..]), Ready(c.backlog[0]))
    else (c, NotReady(c.backlog != [] && c.backlog[0].fence))
  }

  /** pendingCleanupForLocked: the first queued cleanup of a key. */
  function FirstFor(backlog: seq<Entry>, key: Key): (r: Option<Entry>)
    ensures r.None? <==> forall i :: 0 <= i < |backlog| ==> backlog[i].key != key
    ensures r.Some? ==> exists i :: 0 <= i < |backlog| && backlog[i] == r.value && backlog[i].key == key
                                    && forall j :: 0 <= j < i ==> backlog[j].key != key
  {
    if backlog == [] then None
    else if backlog[0].key == key then Some(backlog[0])
    else
      var r := FirstFor(backlog[1..], key);
      assert forall i :: 0 < i < |backlog| ==> backlog[i] == backlog[1..][i - 1];
      assert r.Some? ==> exists i :: 0 <= i < |backlog| && backlog[i] == r.value && backlog[i].key == key
                                     && forall j :: 0 <= j < i ==> backlog[j].key != key by {
        if r.Some? {
          var i :| 0 <= i < |backlog[1..]| && backlog[1..][i] == r.value && backlog[1..][i].key == key
                   && forall j :: 0 <= j < i ==> backlog[1..][j].key != key;
          assert backlog[i + 1] == r.value;
          assert forall j :: 0 <= j < i + 1 ==> backlog[j].key != key;
        }
      }
      r
  }

  /** waitForMandatoryCleanup lets a producer through in exactly these cases. */
  predicate FenceLetsPass(backlog: seq<Entry>, key: Key, stopped: bool) {
    match FirstFor(backlog, key)
    case None => true
    case Some(e) => e.fence && stopped
  }

  /**
   markRetired refuses a lane that still owes a release; on success the caller closes the lane and its quit channel.
   */
  function MarkRetired(q: Queue): Queue {
    if q.backlog != [] then q else q.(retired := true)
  }

  function FinishWorker(q: Queue): Queue {
    if q.backlog != [] then q else q.(workerExited := true)
  }

  function CloseChannel(q: Queue): Queue {
    if q.closed then q else q.(closed := true, chClosed := true)
  }
}
