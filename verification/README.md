# The asynchronous engine, modelled and proved

The asynchronous engine runs calls of a trading engine on worker lanes: one bounded channel and one worker for
each routing key (the Dynamic strategy), or for each shard of a fixed pool (Sharded). Handle releases that no
caller is left to make go into an unbounded backlog of the lane, ordered behind the work accepted before them. An
exclusive section stops every lane while a function runs alone; idle lanes are retired and created again; a stop
closes everything down and then releases the underlying engine. On top of this stand the handles that callers own
(reservations, drop-copy operations, requests) and chains, which are validated lists of steps run inside one lane
task.

This project models that protocol as a state machine over its critical sections and atomic operations, and proves
what holds in every state that any interleaving reaches. The objects that the engine updates in place are classes:
their views are the parts of an engine state, and their methods are proved equal to the functions on those parts that
the state machine is made of.

## Modules

| modules | what they hold |
|---|---|
| `RoutingKeys`, `Sequences`, `Tickets` | keys, sequences without repetition, the ticket table of a lane |
| `Queues`, `KeyQueues` | one keyQueue as a value, and as the object with its mutex bodies |
| `Lanes`, `LaneInvariant`, `LaneFrame`, `LaneTheorems` | one lane with its worker and producers, its invariant, what each step leaves alone, its promises over runs |
| `Dispatcher`, `DispatcherFrame` | the whole engine as a state machine; what each move does to the lanes, and what it leaves alone |
| `DispatcherFence`, `DispatcherRegistry`, `DispatcherStop`, `DispatcherPlaces`, `DispatcherSection`, `DispatcherFifo`, `DispatcherHandoff` | one invariant each: submit fence, map of lanes, stop, places of releases, exclusive section, FIFO per key, handoff of failed closing calls |
| `DispatcherTheorems`, `DispatcherRuns`, `DispatcherOrder` | the promises for every reachable state, exact conditions over runs, the overtaking fence over runs |
| `DispatcherHardStop`, `DispatcherErrors`, `DispatcherDestinations`, `DispatcherBarriers` | over runs: what a hard stop aborts, why a call fails, where a release goes and in what turn, which lanes a section stops |
| `DispatcherFenceWait`, `DispatcherFenceBound` | a stop's wait for the submit fence, who waits for whom and for how long |
| `DispatcherProgress`, `DispatcherShutdown` | the rest of a stop, how long it waits, and that it can always be brought to its end |
| `DispatcherExclusive` | that an exclusive section can always get to run its function, also beside a release that a busy seal missed |
| `DispatcherAcceptance`, `DispatcherRetirement` | that before a stop every submit call under way can still be accepted, and every lane retired |
| `DispatcherScenes`, `DispatcherTraces`, `DispatcherLateStop`, `DispatcherOvertaking`, `DispatcherBusySeal` | states given field by field, and runs that show the conditions are needed |
| `Strategies`, `DynamicStrategy`, `ShardRouting` | the objects under the strategies' locks; shard arithmetic |
| `Handles`, `HandleReleases`, `ReaderFinalizer` | handles and requests; what the engine makes of a handle's calls; snapshot reads beside finalization |
| `Chains`, `ChainTraces`, `ChainOutcomes`, `ChainDecisions`, `ChainScripts`, `ChainTasks` | the chain interpreter, its accepted traces, its outcome and validation, the exact script of every run, its object |

Some fields record what happened and decide nothing: in a lane `loose`, `sent` and `handled`; in the engine `accepted`,
`finished`, `begun` and the `place` of a release. The lane's `marks` and `tickets` are tables beside the
backlog and the ticket counter; steps look at their lengths only, which by the lane's invariant are those of the
backlog and the counter. Two lane fields stand for what the engine has outside its queue: `owed` for the wake tokens
that callers are about to put, and `panicked` for a process that a send on a closed channel has ended. Where a lemma
says that a run leads from one state to another, that is `DispatcherTheorems.Leads`: a sequence of states with an
enabled move between each two neighbours. Context cancellation, clocks, idle age and everything a hook or a driver
returns are arbitrary.

## Where the code does less than its comments say or suggest

Each of these is proved: a run that shows it, and the exact condition under which the promise holds.

1. `endSubmit` (asyncengine/strategy.go:345-349) decrements the count and tests it in two steps. A submit that
   registers between them and a stop that is signalled between them let the late test close the submit fence over
   the registered caller, so a Sharded lane can be sent to after its channel was closed
   (`DispatcherTraces.LateTestPanics`), against the comment at asyncengine/strategy.go:368-373, and a Dynamic engine can
   be released while a guarded release of another key still runs (`DispatcherLateStop.ReleasedBesideAGuard`). The fence
   is sound exactly when no late test finds another caller registered (`DispatcherRuns.LooseExactlyWhen`), which holds
   when the two steps are one (`DispatcherRuns.AtomicEndKeepsFence`). The Dynamic strategy never sends on a closed
   channel either way (`LaneTheorems.GatedLaneNeverPanics`).
2. `retireIfIdle` (asyncengine/dynamic.go:438-446) reads the pending count before it seals the lane, and queuing a
   release does not take the gate. A release can be queued and taken in between; then the retired lane's worker
   still runs it, beside an exclusive section's function (`DispatcherTraces.SectionMayMissARelease`, against
   asyncengine/dynamic.go:519-520) and beside a new lane of the same key (`DispatcherTraces.SameKeyMayOverlap`). A
   lane is sealed with an idle worker exactly when its pending count is still zero at the seal
   (`LaneTheorems.SealedIdleExactlyWhenPendingIsZero`, `DispatcherRuns.LooseLaneExactlyWhen`); both promises hold
   when every seal is such (`DispatcherRuns.ExclusiveWhenSealsAreIdle`, `DispatcherTheorems.SameKeyExclusion`). After
   every other seal a run leads on to two workers on the key (`DispatcherBusySeal.EveryBusySealMayOverlap`), and another
   to a section's function beside the release (`DispatcherExclusive.EveryBusySealMayRunBesideFn`).
3. The overtaking fence looks at the first queued release of a key only. A task whose submit was called after an
   ordinary release of its key had been queued never overtakes it (`DispatcherOrder.NoEngineOvertaking`). A call
   registered before the release was queued can reach the lane later than it: behind a release queued after stop, such
   a call overtakes an ordinary release (`DispatcherOvertaking.EarlierCallMayOvertake`; on one lane
   `LaneTheorems.FenceEntryAheadLetsOvertake`). `LaneTheorems.PassesExactlyWhen` says when the fence lets a producer
   through, and `LaneTheorems.NoOvertaking` holds when no such release stands ahead.
4. The defensive drain of a retired lane (asyncengine/strategy.go:750-772) never finds a task
   (`LaneTheorems.RetiredLaneIsEmpty`).

5. A stop does not wake every registered caller. One that finds its key guarded waits for that guard alone
   (asyncengine/dynamic.go:139-142 and 154-157), and a failed closing call waits for the handoff of its release while it
   is still registered (asyncengine/dynamic.go:186-240); `DispatcherLateStop.GuardHoldsUpCalls` is a run that ends with
   one of each. A registered call can move by itself exactly when it waits for neither
   (`DispatcherFenceWait.RegisteredSubmitMoves`); what it waits for can move, and the wait is finite
   (`DispatcherFenceBound.CallerRunIsBounded`). No such wait traps a stop: as long as the fence has not closed too
   early, every stop call can still be brought to its end (`DispatcherShutdown.StopCanEnd`).

## Model

| member | source | states |
|---|---|---|
| `Tickets.TallyTotal` | asyncengine/strategy.go:98-105 | every admission is in mid-send, sent or given up, exactly one of them |
| `Queues.FirstFor` | asyncengine/strategy.go:176-185 | finds the first queued entry of a key, and nothing exactly when the key has none |
| `Queues.Raise` | asyncengine/strategy.go:934-938 | an abandonment raises exactly the targets of the entries whose boundary lies before its ticket |
| `KeyQueues.KeyQueue.Reserve` | asyncengine/strategy.go:909-915 | the ticket is the new admission count, and an idle-tracking queue is pending from then on |
| `KeyQueues.KeyQueue.RaiseTargets` | asyncengine/strategy.go:934-938 | the in-place loop computes Raise |
| `KeyQueues.KeyQueue.Abandon` | asyncengine/strategy.go:931-950 | one settlement, raised targets, one pending less, and a wake-up exactly when something is queued |
| `KeyQueues.KeyQueue.QueueMandatory` | asyncengine/strategy.go:617-647 | refuses exactly retired lanes and lanes without worker; otherwise appends behind every admission so far |
| `KeyQueues.KeyQueue.TakeCleanup` | asyncengine/strategy.go:669-704 | pops the head exactly when it may run, re-dates a fence entry once the fence is closed, and wakes fenced producers exactly on a removal |
| `KeyQueues.KeyQueue.PendingFor` | asyncengine/strategy.go:176-185 | the search loop finds the first entry of the key |
| `KeyQueues.KeyQueue.CheckFence` | asyncengine/strategy.go:485-515 | passes exactly when the fence lets the key through; otherwise the producer waits for the next removal |
| `KeyQueues.KeyQueue.Retire` | asyncengine/strategy.go:163-171 | refuses exactly while a release is queued, and changes nothing then |
| `KeyQueues.KeyQueue.Seal` | asyncengine/dynamic.go:443-448 | retires, closes and quits together or not at all |
| `KeyQueues.KeyQueue.ExitWorker` | asyncengine/strategy.go:659-667 | the worker is recorded as gone exactly when the backlog is empty |
| `KeyQueues.KeyQueue.DrainAndAbort` | asyncengine/strategy.go:755-772 | aborts every buffered task in order, settles each, and leaves the channel empty |
| `KeyQueues.KeyQueue.Turn` | asyncengine/strategy.go:533-574 | one pass of the worker loop on a closed lane handles the next release, or the next task, or leaves |
| `KeyQueues.KeyQueue.WorkToExit` | asyncengine/strategy.go:528-575 | the worker of a closed lane handles all tasks and all releases, each kind in order, settles every admission and exits |
| `KeyQueues.CloseAll` | asyncengine/strategy.go:882-890 | every listed queue ends closed, its channel closed at most once, nothing else changed |
| `KeyQueues.AbandonIsNeutral` | asyncengine/strategy.go:906-950 | an admission that is given up brings no queued entry nearer to running |
| `Lanes.TakeIsTakeMandatory` | asyncengine/strategy.go:533-551 | the head of the worker loop is one call of takeMandatoryCleanup |
| `LaneInvariant.StepKeeps` | asyncengine/strategy.go:75-133 | every step of producer, worker, backlog, retirement and stop keeps the lane's invariant |
| `LaneInvariant.BacklogAbandon` | asyncengine/strategy.go:926-938 | the settle target stays the boundary plus the abandonments beyond it |
| `LaneTheorems.RunKeepsInv` | asyncengine/strategy.go:88-105 | the counters account for every admission in every state of every run of a lane |
| `LaneTheorems.HeadFollowsItsMark` | asyncengine/strategy.go:692-703 | a head that may run has every task sent before it was queued handled |
| `LaneTheorems.BacklogOrder` | asyncengine/strategy.go:609-652 | over every run, an entry leaves the backlog only after all tasks sent when it was queued were handled, however many producers gave up |
| `LaneTheorems.AdmittedIsConserved` | asyncengine/strategy.go:100-105 | admitted equals settled plus buffered plus in hand plus mid-send |
| `LaneTheorems.HeadIsRunnable` | asyncengine/strategy.go:669-704 | with the channel drained and nobody in mid-send the head runs, a fence entry once the fence is closed |
| `LaneTheorems.NoLostWakeUp` | asyncengine/strategy.go:555-589 | a worker parked on a lane whose head deserves another look can always be woken |
| `LaneTheorems.WindingLaneMoves` | asyncengine/strategy.go:539-551 | a closed lane never stops short of its worker's exit |
| `LaneTheorems.WindingStepShrinks` | asyncengine/strategy.go:528-575 | each own step of a closed lane leaves less work |
| `LaneTheorems.WindingRunIsBounded` | asyncengine/strategy.go:528-575 | the worker of a closed lane exits after boundedly many steps |
| `LaneTheorems.RetiredLaneIsEmpty` | asyncengine/dynamic.go:419-454 | a retired lane has an empty channel and backlog, nobody inside, takes nothing, and its drain finds nothing |
| `LaneTheorems.RetirementIsFinal` | asyncengine/dynamic.go:441-448 | no step revives a retired lane, sends to it or gives its worker work |
| `LaneTheorems.SealedIdleExactlyWhenPendingIsZero` | asyncengine/dynamic.go:438-446 | a lane is sealed with an idle worker if and only if pending is zero at that moment |
| `LaneTheorems.RetiredLaneMayStillRun` | asyncengine/dynamic.go:438-446 | a run of a lane that ends retired with a release still running |
| `LaneTheorems.PanicIsSendAfterClose` | asyncengine/strategy.go:433-438 | a lane panics if and only if a producer sends after its channel was closed |
| `LaneTheorems.GatedLaneNeverPanics` | asyncengine/strategy.go:355-367 | a Dynamic lane never sends on a closed channel, whatever the submit fence does |
| `LaneTheorems.PassesExactlyWhen` | asyncengine/strategy.go:479-515 | a producer passes if and only if no release of its key is queued, or the first one is a fence entry and stop was signalled |
| `LaneTheorems.NoOvertaking` | asyncengine/strategy.go:475-515 | on one lane, a producer that comes while a release of its key guards the lane sends nothing as long as it does; the engine-wide form is NoEngineOvertaking |
| `LaneTheorems.FenceEntryAheadLetsOvertake` | asyncengine/strategy.go:500-504 | a run in which a producer overtakes an ordinary release that stands behind a post-stop one |
| `DispatcherFence.CtlKept` | asyncengine/strategy.go:257-262 | the in-flight count is the number of registered callers, and a closed fence has none of them unless it closed too early; a fence still open after stop has somebody registered or about to test |
| `DispatcherFence.SubsKept` | asyncengine/strategy.go:351-367 | a producer is inside a lane exactly when its submit call is, with the key of that call |
| `DispatcherRegistry.RegKept` | asyncengine/dynamic.go:121-176 | a key has at most one live lane, which the map names; a guarded key has none; channels close only behind the fence, after creation and retirement ended |
| `DispatcherStop.LifeKept` | asyncengine/strategy.go:827-876 | the count is exactly the number of tracked releases running, and zero once sealed |
| `DispatcherStop.StopKept` | asyncengine/dynamic.go:472-503 | each stage of a stop is reached only with what it waited for shut down, and stays so |
| `DispatcherStop.RefusingLaneIsShut` | asyncengine/strategy.go:592-596 | a lane refuses a release only once retired or closed by a stop |
| `DispatcherPlaces.PlacesKept` | asyncengine/dynamic.go:242-351 | every release has exactly one place, found there and nowhere else, and the log of starts names it at most once; which place it takes is in ReleaseGoesToItsLane |
| `DispatcherSection.SecKept` | asyncengine/exclusive.go:167-251 | the section's bookkeeping of barriers, parked lanes, off-lane releases and postponed releases |
| `DispatcherSection.FirstBarrierIsReady` | asyncengine/dynamic.go:165-170 | the barrier of a lane born during a section can always be taken first |
| `DispatcherFifo.RefinesFifoMap` | asyncengine/dynamic.go:186-240 | every move of the engine is one step of a plain map from key to FIFO, or none |
| `DispatcherFifo.SendSim` | asyncengine/strategy.go:433-446 | a successful send appends to the FIFO of its key and to no other |
| `DispatcherFifo.FinishSim` | asyncengine/strategy.go:710-733 | finishing a task takes the head of the FIFO of its key |
| `DispatcherFifo.SealSim` | asyncengine/dynamic.go:441-453 | retirement removes a lane that holds nothing |
| `DispatcherFifo.AcceptedKept` | asyncengine/strategy.go:36-50 | the accepted tasks are those of the submit calls that return nil, one each |
| `DispatcherTheorems.InvKept` | asyncengine/dynamic.go:121-351 | every move keeps the whole invariant |
| `DispatcherRuns.ChecksDisableNothing` | asyncengine/strategy.go:345-349 | in every reachable state the counts that a step takes down are positive and the lanes and releases it names exist, so no step of the model is held back by such a check |
| `DispatcherTheorems.ExclusiveSafety` | asyncengine/exclusive.go:63-80 | while the function runs each worker is at the barrier, has it ahead of everything, or belongs to a retired lane; no task runs, and a release only on a lane sealed while busy |
| `DispatcherTheorems.SameKeyExclusion` | asyncengine/dynamic.go:312-351 | before stop, lane worker, guarded off-lane release and postponed release of one key never run at the same time, if no lane was sealed while busy |
| `DispatcherTheorems.LaneCounters` | asyncengine/strategy.go:88-105 | in every reachable state both counters of every lane account for everything on it |
| `DispatcherTheorems.FifoPerKey` | asyncengine/dynamic.go:178-240 | per key, tasks finish in the order of their sends; the rest is queued in order on the key's one lane |
| `DispatcherTheorems.TaskFate` | asyncengine/strategy.go:36-50 | a nil return means finished once or still queued once, an error return means never run nor aborted; aborts only under a hard stop |
| `DispatcherTheorems.StopSafety` | asyncengine/engine.go:784-814 | the engine is released at most once, and only with no worker, section or tracked release left; behind a sound fence no guarded release is left either |
| `DispatcherTheorems.StopSettlesEveryTask` | asyncengine/engine.go:774-791 | after a successful stop every accepted task has been run or aborted exactly once, all run if no hard stop was signalled |
| `DispatcherTheorems.ReleasedAtMostOnce` | asyncengine/dynamic.go:242-351 | no release is begun twice, and a call that returned has placed its release |
| `DispatcherTheorems.StopReleasesEveryHandle` | asyncengine/strategy.go:854-876 | after a successful stop every release whose call returned was begun exactly once and is over |
| `DispatcherTheorems.ClosedFence` | asyncengine/strategy.go:335-349 | behind a closed fence stop is signalled, nobody is registered and nobody registers again, unless it closed too early |
| `DispatcherTheorems.ChannelSafety` | asyncengine/strategy.go:368-392 | a send on a closed channel happens only in a Sharded engine whose fence closed too early |
| `DispatcherRuns.LooseExactlyWhen` | asyncengine/strategy.go:345-349 | over every run, the fence closed too early if and only if some late test found another caller registered |
| `DispatcherRuns.AtomicEndKeepsFence` | asyncengine/strategy.go:345-349 | were decrement and test one step, the fence would never close too early |
| `DispatcherRuns.LooseLaneExactlyWhen` | asyncengine/dynamic.go:438-448 | over every run, a lane was sealed while busy if and only if pending was not zero at its seal |
| `DispatcherRuns.ExclusiveWhenSealsAreIdle` | asyncengine/exclusive.go:26-34 | if every seal finds pending zero, the section's function runs with no task and no release beside it |
| `DispatcherRuns.LaneRuns` | asyncengine/strategy.go:106-133 | the states a lane of the engine goes through are a run of the lane protocol, each step of it a move of the engine under the signals shown then |
| `DispatcherRuns.ReleaseFollowsEarlierTasks` | asyncengine/strategy.go:609-652 | in every run of the engine a queued release begins only after every task sent to its lane before it was handled |
| `DispatcherOrder.FenceFreeRun` | asyncengine/strategy.go:595-596 | before stop is signalled no queued release waits for the submit fence |
| `DispatcherOrder.NoEngineOvertaking` | asyncengine/strategy.go:475-515 | in every run of the engine, a task whose submit call came after an ordinary release of its key was queued is accepted only once that release has begun |
| `DispatcherHardStop.HardStopAbortsTheRest` | asyncengine/strategy.go:706-733 | over every run, once a hard stop has been raised, a successful stop has run exactly those accepted tasks that a worker had started by then, and has aborted every other one, each once |
| `DispatcherHardStop.HardStopHoldsUpSections` | asyncengine/exclusive.go:219-235 | over every run, a section runs its function under a hard stop only if the lanes it counts, of those it found, had all come to their barriers when the hard stop was raised |
| `DispatcherHardStop.HeldLaneTellsItsSection` | asyncengine/exclusive.go:141-148 | in every state of a run, a worker that a hard stop holds at the barrier of the section in progress has told that section, and no section is told without a hard stop |
| `DispatcherHardStop.HardStopRaisesIt` | asyncengine/dynamic.go:488-503 | over every run, a hard stop call that goes past its first two stages has raised the hard stop |
| `DispatcherHardStop.StopsOnlyWhenAsked` | asyncengine/strategy.go:895-904 | over every run, the engine stops only after a stop call, and hard only after a hard one |
| `DispatcherErrors.EveryErrorHasACause` | asyncengine/dynamic.go:186-240 | over every run, a submit call fails only because stop had been signalled, the limit left no room for a lane that its key lacked, or it was cancelled inside a lane; a lane retired under it sends it back to look again |
| `DispatcherErrors.GivesUpOnlyWhenFull` | asyncengine/strategy.go:426-472 | over every run, a call gives up in mid-send only in an attempt that has found the channel of its lane full |
| `DispatcherErrors.ChannelsStayBounded` | asyncengine/strategy.go:430-455 | over every run, no channel ever holds more tasks than its capacity |
| `DispatcherDestinations.ReleaseGoesToItsLane` | asyncengine/dynamic.go:242-307 | over every run of either strategy, before stop and after it: as long as the key of a handed-over release has a lane that takes releases, the release is queued on that lane and nowhere else, and begins only after every task sent there before it was handed over |
| `DispatcherDestinations.PostponedInTurn` | asyncengine/exclusive.go:191-208 | over every run, releases that a section holds back begin in the order in which it took them |
| `DispatcherBarriers.SectionStopsTheOpenLanes` | asyncengine/dynamic.go:508-535 | over every run, when a section's function runs, the section has stopped exactly those of the lanes it found that were open at its installation |
| `DispatcherRuns.ClosedLaneWinds` | asyncengine/dynamic.go:475-482 | behind a sound fence every closed lane winds down by itself |
| `DispatcherRuns.StopIsNeverStuck` | asyncengine/dynamic.go:472-503 | while a stop waits for workers behind a sound fence, a worker or the section can move |
| `DispatcherTheorems.ReachableHands` | asyncengine/drop_copy_operation.go:285-300 | in every reachable state a failed closing call has ended only after its one release, of its own key and no other call's, has returned |
| `DispatcherFenceWait.RegisteredSubmitMoves` | asyncengine/dynamic.go:139-157 | after stop a registered submit call can move by itself if and only if it waits neither at a held guard, whose holder can then lift it, nor for the release it handed over, which can then move or waits at such a guard |
| `DispatcherFenceWait.RegisteredReleaseMoves` | asyncengine/dynamic.go:242-288 | after stop every registered call of a release can move by itself |
| `DispatcherFenceWait.FenceWaitIsNeverStuck` | asyncengine/strategy.go:774-783 | while a stop waits for the submit fence, a call or release that the fence waits for can move (one that is registered or about to test, or one that a registered call waits for), and without closing the fence too early |
| `DispatcherFenceBound.CallerMoveShrinks` | asyncengine/dynamic.go:121-176 | during that wait each move of a call, of its producer or of a release leaves the callers less to do |
| `DispatcherFenceBound.CallerRunIsBounded` | asyncengine/strategy.go:774-783 | over every run of the engine that leaves the fence open after stop, callers make boundedly many moves, plus a fixed number for each call that comes meanwhile |
| `DispatcherFenceBound.FenceCloses` | asyncengine/strategy.go:345-349 | from every reachable state after stop a run leads to the closed fence, and does not close it over a registered caller |
| `DispatcherProgress.EngineMoveShrinks` | asyncengine/exclusive.go:167-251 | once every lane is closed behind a sound fence, each move of a worker or of the section leaves less to do |
| `DispatcherProgress.EngineRunIsBounded` | asyncengine/strategy.go:785-800 | however everything interleaves then, short of a new lane, workers and section make at most the moves they had left, plus 44 for each release queued meanwhile and 3 for each one postponed |
| `DispatcherProgress.WorkersExit` | asyncengine/strategy.go:785-800 | from every such state a run leads to one in which every worker has exited |
| `DispatcherShutdown.WaitingStopIsShut` | asyncengine/dynamic.go:456-470 | a stop that waits for workers, sections or releases has left no lane open, and none is made any more |
| `DispatcherShutdown.StopWaitIsBounded` | asyncengine/strategy.go:785-800 | over every run from such a wait, whatever else moves, workers and section make at most the moves they had left, plus 44 for each release queued meanwhile and 3 for each one postponed |
| `DispatcherShutdown.StopCanEnd` | asyncengine/dynamic.go:472-503 | from every reachable state whose fence has not closed too early, and for every stop call that is not over, a run leads to that call's successful return with the engine released once |
| `DispatcherTraces.SectionMayMissARelease` | asyncengine/dynamic.go:438-448 | a run in which a release runs beside a section's function |
| `DispatcherTraces.SameKeyMayOverlap` | asyncengine/dynamic.go:438-453 | a run in which two workers execute something of one key before stop |
| `DispatcherTraces.LateTestPanics` | asyncengine/strategy.go:345-349 | a run of the Sharded engine that ends in a send on a closed channel |
| `DispatcherLateStop.ReleasedBesideAGuard` | asyncengine/strategy.go:345-349 | a run in which the engine is released while a guarded release still runs |
| `DispatcherLateStop.GuardHoldsUpCalls` | asyncengine/dynamic.go:139-157 | a run after which, with stop signalled, two registered calls cannot move: one waits at a guard, one for its handoff |
| `DispatcherOvertaking.EarlierCallMayOvertake` | asyncengine/strategy.go:498-502 | an ordinary release is queued behind a post-stop one while a registered call of its key has yet to enter the lane, and a run leads on to that call's task accepted with the release still waiting |
| `DispatcherBusySeal.EveryBusySealMayOverlap` | asyncengine/dynamic.go:438-453 | from every state in which a lane can be sealed while busy, the seal and a run after it lead to two workers executing something of its key before stop |
| `DispatcherExclusive.ReachableHolds` | asyncengine/exclusive.go:127-150 | in every reachable state a lane that a section counts has its barrier queued or in hand, a parked worker is counted as parked, and only a hard stop keeps a worker from parking |
| `DispatcherExclusive.SectionCanRun` | asyncengine/exclusive.go:167-251 | from every reachable state before a stop a run leads to the function of an exclusive section, the one in progress unless it has given up or is over, with no call having to give up |
| `DispatcherExclusive.SectionIgnoresTheRelease` | asyncengine/dynamic.go:516-526 | from every state before a stop in which a release outlives its lane, whatever else goes on, a run leads to a section's function beside it |
| `DispatcherExclusive.EveryBusySealMayRunBesideFn` | asyncengine/dynamic.go:438-453 | from every state in which a lane can be sealed while busy, the seal and a run after it lead to a section's function beside the release |
| `DispatcherAcceptance.SubmitCanBeAccepted` | asyncengine/dynamic.go:186-240 | from every reachable state before a stop, and for every submit call that has neither failed nor been accepted, a run leads to its acceptance, in which no call gives up, if its key has a lane or the limit leaves room for one; sections, guards, retired lanes and full lanes on its way notwithstanding |
| `DispatcherRetirement.LaneCanRetire` | asyncengine/dynamic.go:419-454 | from every reachable state before a stop, and for every lane of an engine that retires idle lanes, a run leads to that lane retired, and so empty, in which no call gives up |
| `Strategies.Base.BeginSubmit` | asyncengine/strategy.go:335-343 | refuses exactly after stop, otherwise registers the caller |
| `Strategies.Base.Decrement` | asyncengine/strategy.go:346-346 | first half of endSubmit: one caller fewer, and whether none is left |
| `Strategies.Base.TestAfterDecrement` | asyncengine/strategy.go:346-348 | second half of endSubmit: closes the fence after stop when the decrement had reached zero |
| `Strategies.Base.EndSubmit` | asyncengine/strategy.go:345-349 | uninterrupted, closes the fence exactly when stop was signalled and nobody is left |
| `Strategies.Base.SignalStopOnce` | asyncengine/strategy.go:895-904 | stops once, and closes the fence at once exactly when nobody is registered |
| `Strategies.Base.SignalStops` | asyncengine/sharded.go:132-134 | a hard stop is raised before stop is signalled, and the control state is that of the steps StopHarden and StopSignal |
| `Strategies.Base.BeginLifecycleCleanup` | asyncengine/strategy.go:827-842 | the admission and the new count and section are those of the step CleanLife of the dispatcher model |
| `Strategies.Base.EndLifecycleCleanup` | asyncengine/strategy.go:844-855 | the count is that of the step CleanRunDone, and the epoch ends exactly when nothing is tracked any more |
| `Strategies.Base.FinishLifecycleCleanups` | asyncengine/strategy.go:857-876 | seals exactly when some epoch ends with nothing registered before the wait times out; a timeout leaves registration open |
| `Strategies.DrainRunsEveryBatch` | asyncengine/exclusive.go:191-208 | the drain runs every batch that is waiting, each release once and in order |
| `Strategies.DrainStopsWhenEmpty` | asyncengine/exclusive.go:193-197 | the drain ends with the first empty hand-over |
| `Strategies.RunBatch` | asyncengine/exclusive.go:198-202 | a panic keeps no other release of the batch from running, and the first one is remembered |
| `Strategies.ExclusiveSection.Postpone` | asyncengine/exclusive.go:114-118 | the section is that of the dispatcher model with one more release deferred |
| `Strategies.Base.PublishSection` | asyncengine/sharded.go:154-165 | the section is in progress, and the channel of the tracked releases is handed back exactly when there are some |
| `Strategies.Base.WithdrawExclusive` | asyncengine/sharded.go:167-179 | the section is that of the step SecWithdraw: it hands over what was postponed, or goes |
| `Strategies.Base.RunAndWithdraw` | asyncengine/exclusive.go:193-203 | one pass of the drain runs its batch to the end and leaves the section exactly when nothing was postponed meanwhile |
| `Strategies.Base.Drain` | asyncengine/exclusive.go:187-208 | the section ends withdrawn after everything postponed was run, and the first panic is raised unless fn is panicking |
| `DynamicStrategy.DynamicQueues.GetOrCreate` | asyncengine/dynamic.go:121-176 | exactly when each of its five results is given; map and section change as in the step CreateQueue of the dispatcher model |
| `DynamicStrategy.DynamicQueues.MakeQueue` | asyncengine/dynamic.go:160-170 | a queue made during a section holds the barrier and is expected by the section |
| `DynamicStrategy.DynamicQueues.GuardKey` | asyncengine/dynamic.go:312-338 | exactly when a release without a lane is refused, postponed or guarded; guards and section change as in the step CleanGuard |
| `DynamicStrategy.DynamicQueues.RetireIfIdle` | asyncengine/dynamic.go:419-454 | removes the queue exactly under all its conditions, as in the step RetireSeal, and otherwise changes nothing |
| `DynamicStrategy.Snapshot` | asyncengine/dynamic.go:465-469 | every queue of the map, each once |
| `DynamicStrategy.DynamicQueues.MarkStoppingAndSnapshot` | asyncengine/dynamic.go:461-470 | the stopping flag and every mapped queue, each once, in one locked region |
| `DynamicStrategy.DynamicQueues.DropGuard` | asyncengine/dynamic.go:341-346 | the guards are those of the step CleanGuardDone |
| `DynamicStrategy.DynamicQueues.OpenQueues` | asyncengine/dynamic.go:520-527 | the loop lists exactly the mapped queues that are not closed, each once |
| `DynamicStrategy.DynamicQueues.InstallExclusive` | asyncengine/dynamic.go:511-535 | the open queues, each once, the releases that hold a guard, and the channel of the tracked releases exactly when there are some |
| `ShardRouting.HashIsBijective` | asyncengine/sharded.go:41-73 | for a fixed kind the hash is a bijection on 64-bit values |
| `ShardRouting.KindsAreMixedIn` | asyncengine/sharded.go:46-50 | one id hashes differently under different kinds, and yet every hash of one kind is also a hash of each other kind |
| `ShardRouting.HashConstants` | asyncengine/sharded.go:41-71 | the hash of an account is its id times the Fibonacci constant; the kind of a group contributes the other constant |
| `ShardRouting.IndexByEdges` | asyncengine/sharded.go:65-73 | a shard owns exactly the hashes between its edge and the next |
| `ShardRouting.EveryShardGetsItsShare` | asyncengine/sharded.go:41-50 | each of n shards serves 2^64/n ids of a kind, rounded down or up |
| `ShardRouting.ShardInRange` | asyncengine/sharded.go:65-73 | the multiply-shift index is below the shard count |
| `ShardRouting.EveryKeyIsServed` | asyncengine/sharded.go:52-73 | the configuration of the Sharded engine gives every key a lane |
| `Handles.HandleHistory` | pretrade/reservation.go:127-157 | over every sequence of operations the first one decides, and the handle is destroyed once if any of them closes it |
| `Handles.PendingHandle.CommitIt` | pretrade/reservation.go:127-133 | commits natively once, on a live undecided handle only |
| `Handles.PendingHandle.RollbackIt` | pretrade/reservation.go:135-146 | rolls back natively once, on a live undecided handle only |
| `Handles.PendingHandle.CloseIt` | pretrade/drop_copy_operation.go:155-166 | destroys a live handle once, and nothing otherwise |
| `Handles.PendingHandle.Perform` | pretrade/reservation.go:79-157 | each operation makes exactly the native calls its state allows |
| `Handles.ClosingCallReleases` | asyncengine/drop_copy_operation.go:278-325 | whether calls run, are aborted or fail to submit, the native log is that of the first call that acts: commit or rollback if that call ran and asks for it, and one destroy exactly when one of the calls was a closing one |
| `HandleReleases.ClosingCallIsDoneOnce` | asyncengine/drop_copy_operation.go:278-325 | after a successful stop every closing call that returned has had its work done once: by its task, run or aborted, or by the release its failure handed over, which is over |
| `HandleReleases.StopDestroysEveryHandleOnce` | asyncengine/reservation.go:246-297 | after a successful stop, what the finished tasks and begun releases of a handle's calls did to it is exactly what the calls' fates promise: the native log holds the commit or rollback of the first call that acts, if that call ran and asks for it, and one destroy if one of the calls was a closing one |
| `Handles.ShapeAccepted` | asyncengine/engine.go:71-96 | a driver result is well formed if and only if it is exactly a live handle, rejects or an error |
| `Handles.ResolveDriverResult` | asyncengine/engine.go:193-222 | the caller gets the live handle untouched, or the handle is released |
| `Handles.RequestHistory` | asyncengine/request.go:48-166 | a request is executed natively by its first call at most, and destroyed exactly once as soon as it has had a call |
| `Handles.Request.Run` | pretrade/request.go:79-101 | a closed request makes no native call; an accepted one yields a fresh handle |
| `Handles.Request.CloseIt` | pretrade/request.go:62-68 | destroys a live request once, and nothing otherwise |
| `Handles.Request.ExecuteInner` | asyncengine/request.go:54-59 | the request is closed after the main stage, whatever it returned; rejects and error are those of the native call on a live request, and an error alone on a closed one |
| `Handles.Request.ExecuteTask` | asyncengine/request.go:111-117 | a reservation reaches the caller live and untouched, or none was made; rejected exactly on rejects of a live request, and a transport error exactly on a closed request or a native failure |
| `ReaderFinalizer.NextKeeps` | asyncengine/reservation.go:68-140 | every mutex body of readers and finalizers keeps the protocol's invariant |
| `ReaderFinalizer.FinalizationIsAlone` | asyncengine/reservation.go:68-108 | native finalization runs with no reader, one finalizer at a time, and no read is admitted beside one |
| `ReaderFinalizer.ReadsExactlyWhen` | asyncengine/reservation.go:110-130 | a read is admitted if and only if no finalizer is at work and nothing has closed, and it finds a live handle |
| `ReaderFinalizer.RefusedForGood` | asyncengine/drop_copy_operation.go:84-128 | after a closing operation every read is refused for good |
| `ReaderFinalizer.NoLostWait` | asyncengine/reservation.go:132-140 | each wait has its channel closed at most once, and no finalizer waits for readers that have left |
| `ReaderFinalizer.FinalizedOnce` | asyncengine/drop_copy_operation.go:66-106 | however calls interleave, at most one commit or rollback and at most one destroy reach the native handle |
| `ReaderFinalizer.AsyncHandle.BeginReading` | asyncengine/reservation.go:110-130 | the verdict of a read, and the one reader more exactly when it is admitted |
| `ReaderFinalizer.AsyncHandle.EndReading` | asyncengine/reservation.go:132-140 | the last reader wakes the finalizer, once |
| `ReaderFinalizer.AsyncHandle.BeginFinalizing` | asyncengine/reservation.go:68-82 | a finalizer waits exactly when readers are left |
| `ReaderFinalizer.AsyncHandle.EndFinalizing` | asyncengine/reservation.go:85-97 | the wrapper is shut once a closing operation has run, and open again otherwise |
| `ReaderFinalizer.AsyncHandle.AwaitReaders` | asyncengine/reservation.go:78-81 | the reads in progress end, and their wait is closed once |
| `ReaderFinalizer.AsyncHandle.RunInner` | asyncengine/reservation.go:68-108 | runs the operation after the reads in progress, and the wrapper is closed exactly when the handle has been released |
| `ChainTraces.ChainIsAccepted` | asyncengine/scenario.go:687-740 | every run of a validated plan is a word of the automaton: one handle at a time, decided once, then destroyed; steps in order; terminal hook and outcome last |
| `ChainTraces.HandlesFinalizedOnce` | asyncengine/scenario.go:754-858 | each accepted handle gets one commit or rollback and one destroy |
| `ChainTraces.StepsArePrefix` | asyncengine/scenario.go:727-739 | a step begins only after every earlier one |
| `ChainDecisions.CommittedExactlyWhenDecided` | asyncengine/scenario.go:791-804 | a handle is committed if and only if the driver returned it alone and its hook returned and asked for it; otherwise it is rolled back |
| `ChainOutcomes.OutcomeIsSound` | asyncengine/scenario.go:742-752 | RetryUnsafe if and only if a state-changing call was entered; an error if and only if the status is Failed; a failed retry-unsafe chain says so in its error |
| `ChainOutcomes.FinallyRunsOnce` | asyncengine/scenario.go:706-717 | the terminal hook runs once if and only if it was supplied and begin succeeded; the outcome is resolved last |
| `ChainOutcomes.CompletedRunsEveryStep` | asyncengine/scenario.go:727-739 | a completed chain has begun every step |
| `ChainOutcomes.ValidPlansAreProper` | asyncengine/scenario.go:439-472 | a validated plan uses no missing hook, order or group, and acts only on the id behind its routing key |
| `ChainOutcomes.ValidationIsExact` | asyncengine/scenario_admin.go:85-292 | a plan is accepted if and only if its ending can run, its source has a routing key, and no world can make it use something missing or act outside that key |
| `ChainOutcomes.RefusalNamesFirstFault` | asyncengine/scenario.go:439-472 | a refused plan names its first fault: ending, begin hook, source, then the first step that lacks its source or a hook |
| `ChainScripts.ChainFollowsScript` | asyncengine/scenario.go:687-858 | every run of a validated plan is the begin hook, then the script of each step that is reached, what its answers make it do and nothing else, then the terminal hook told the outcome of the steps, and the outcome; status, error, its retry-unsafe tag and the retry-unsafe mark of both outcomes are read off plan and world exactly |
| `ChainScripts.ChainGoesExactly` | asyncengine/scenario.go:726-752 | a step begins if and only if begin succeeded and every earlier step was let go on; completed, rejected and failed exactly as the answers of plan and world say |
| `ChainTasks.ChainTask.FinalizePending` | asyncengine/scenario.go:978-1010 | the pending handle is finalized and forgotten |
| `ChainTasks.ChainTask.Decide` | asyncengine/scenario.go:787-804 | results readable during the hook only, then the decision, which goes on after a commit only (ChainGoesExactly); an error or panic leaves the handle pending |
| `ChainTasks.ChainTask.Operate` | asyncengine/scenario.go:754-858 | executePreTrade and applyDropCopy, on every driver result and panic |
| `ChainTasks.ChainTask.CheckTheOrder` | asyncengine/scenario.go:860-904 | the order check, with its report closed on every path |
| `ChainTasks.ChainTask.Verdict` | asyncengine/scenario.go:868-903 | every way a check report can be unusable, and the hook when it is usable |
| `ChainTasks.ChainTask.CallEngine` | asyncengine/scenario_admin.go:294-418 | the account and group steps: input hook, retry-unsafe mark, engine call, result hook |
| `ChainTasks.ChainTask.Steps` | asyncengine/scenario.go:727-739 | the loop stops at the first step that does not let the chain go on, with nothing pending between steps |
| `ChainTasks.ChainTask.Finish` | asyncengine/scenario.go:695-719 | cleanup, retry-unsafe mark, terminal hook and resolution, in that order |
| `ChainTasks.ChainTask.Execute` | asyncengine/scenario.go:687-740 | the object's run is the run that the chain theorems are about |

## Left out

- Observers, tickers, slow-submit notifications, clocks and queue statistics; idle age is arbitrary.
- Panics inside worker tasks, which end the process, and runtime.Goexit. Hook, driver and section panics are modelled.
- Wall-clock liveness and scheduler fairness: progress is enabledness and decreasing measures.
- Goroutines of one call that only wait (waitWorkers, waitSections) are the conditions of the steps that follow them.
- Same-key exclusion among releases tracked after stop, which the engine does not serialize per key.
- The mutexes lifecycleMu and methodMu of the wrappers beyond the order they impose; the values that reads return.
- Futures: that each is resolved once is modelled for chains only.
- Which error a chain ends with: the model says whether there is one and whether it carries the retry-unsafe mark.
- Native calls are a log; that one of them panics halfway is not modelled.
- Getters, builders, error texts, model, configure, accounts, marketdata, param and the native loader.
- Chain hooks may read results from other goroutines; the model says which results are readable while a hook runs.
- The memory order of the lane's atomics: admitted and pending change in one step of admitTask and of unmarkSent,
  because whoever reads pending for retirement holds the gate exclusively; a send and the release of the gate's
  read side are one step.
- getOrCreate's two lookups under the read lock and under the lock are one step each time, as the second repeats the
  first.
- StopIsNeverStuck: assumes a fence that did not close too early, because a producer left behind it may hold a lane.
- StopCanEnd: assumes a fence that has not closed too early; a panic behind a loose fence ends the process.
- EngineRunIsBounded: excludes the making of a lane, which StopWaitIsBounded shows impossible once a stop waits for
  workers.
- SubmitCanBeAccepted: is for states before a stop, which turns calls away.
- LaneCanRetire: is for states before a stop, which ends retirement; idle age is arbitrary.
- SectionCanRun: is for states before a stop, which ends a section that has not begun its function.
- ClosingCallReleases: takes the fate of each call as given; what the engine does is in StopDestroysEveryHandleOnce.
- StopDestroysEveryHandleOnce: is about reservations and drop-copy operations; of requests only RequestHistory speaks.
- WorkToExit: is the worker alone with its lane; the interleaved worker is the step machine of Lanes.
- LaneCounters: does not bound the counters, which are 64-bit in the engine and unbounded here.
