# KryhtaJS: a verified model of its runtime

KryhtaJS is a deterministic interpreter whose machine has explicit
continuations and is run by a fuel-metered fiber scheduler, with calls that
suspend to a host, a write-ahead log for replay, whole-machine snapshots and a
mark-sweep collector. This project models those parts in Dafny and proves what
they promise. `dafny verify dfyconfig.toml` checks all of it.

Each part has two layers. The operations are functions on immutable state, and
the theorems are about those. The source's mutable objects are classes whose
methods are proved to compute the same functions, field by field.

| files | what they hold |
|---|---|
| `Values`, `KeyOrder` | machine values, frames, heap; the order of property keys |
| `Boundary` | values crossing to and from the host |
| `Fuel`, `FuelLaws` | the tree of meters; conservation and subtree budgets over runs |
| `Fibers`, `Placement`, `Scheduler`, `Runs`, `Termination`, `Entries`, `Results`, `Lone` | the scheduler, its invariant, its termination, what its outcomes mean, slicing |
| `Fairness`, `Holders`, `Delivery` | whose turn it is, who pays and who is refunded, what each party receives |
| `Runtime` | the runtime object and its loop |
| `Bytes`, `HostCodec`, `Log` | byte readers and writers, the host-value codec, the log format |
| `Replay`, `Divergence`, `Recovery`, `Sessions` | recorded sessions, crashes at any byte, what recovery checks, recovery |
| `Arena`, `Reachability`, `Gc`, `Reuse`, `Environments`, `Retention` | arenas, marking, sweeping, slot reuse, environment chains, what a program still sees after a collection |
| `FrameLists`, `Continuations`, `ContMachine` | frame lists and the destructive arena that refines them |
| `Language`, `Evaluator`, `Completeness`, `Interpreter`, `Variables`, `Programs` | a language fragment: machine, evaluator, agreement both ways, the machine object; what variables, scopes and tests mean; programs under the scheduler |
| `SnapshotCodec`, `Image`, `SnapshotLaws`, `SnapshotWriter`, `SnapshotReader`, `Restore` | the snapshot format, its readers and writers, transparency |
| `Format` | the bytes of a log and of a snapshot, spelled out |
| `Witnesses` | inputs on which a promise fails |

## What the code does that its promises do not say

Some promises hold only under a condition. Each is proved with its condition; for
all but the last `Witnesses` has an input on which it fails.

- A run that is done and is continued again changes nothing, but the host may get
  another result: a join on the root consumes its record, so the second result
  is undefined. It is the same exactly when the record is still there or the
  result is undefined (`Replay.DoneThenContinue`, `Witnesses.ResultForgotten`).
- A refuel accepted after the run has finished is logged after the Done record,
  and such a log is rejected on recovery. It happens exactly when the root meter
  is empty (`Replay.LateRefuelBreaksLog`, `Witnesses.LateRefuelHappens`).
- A host value nested more than 256 deep can be written to a log or a snapshot
  but not read back. A log is readable exactly when no recorded value is that
  deep (`Log.ParseRecorded`, `Witnesses.DeepResultBreaksLog`), a snapshot exactly
  when no pending argument is that deep (`Image.RuntimeBack`,
  `Witnesses.DeepCallBreaksSnapshot`).
- Resuming a captured continuation loses the frames between a non-matching inner
  handler and the handler that matched. Nothing is lost exactly when the
  innermost handler is the one that matched (`FrameLists.PerformThenResume`,
  `Witnesses.InnerHandlerLosesFrames`).
- Every iteration that goes on makes the remaining fuel or the unfinished fibers
  fewer, except one: a root whose host call was refused is left current and
  suspended with its arguments taken, and the next entry performs that call again
  without them (`Termination.TurnLowers`, `Termination.RefusedHostCall`).

Others need care in reading.

- A host value survives materialisation and conversion back exactly when its
  objects have strictly sorted keys (`Boundary.HostRoundTrip`).
- Done does not mean finished: every fiber left unfinished leads, through join
  targets, into a cycle of fibers waiting on each other
  (`Entries.DoneMeansFinishedOrCycle`).
- A for loop evaluates its test twice before every round but the first, and before
  the first too when it has no initialiser (`Evaluator.ForAgrees`); `for (;;)`
  fails at once (`Witnesses.EmptyForFails`).

One more state is worth knowing when reading the invariant: a fiber blocked in a
join keeps status Ready though it is in no queue.

## Model

| member | source | states |
|---|---|---|
| `Scheduler.TurnKeepsInv` | src/runtime.rs:504-611 | one scheduler iteration (select, slice, preempt, fork, join, host block, failure, completion, out-of-fuel pause) keeps the invariant: unique ids below the next id, existing meters, every unfinished fiber in exactly one place. Every iteration is defined under it, so none of the scheduler's asserts and expects can fire |
| `Scheduler.SelectKeepsInv` | src/runtime.rs:613-632 | the front of a non-empty queue is a live, ready fiber (the expect and the assert hold), and selecting it keeps the invariant |
| `Scheduler.FinishKeepsInv` | src/runtime.rs:648-709 | completing or failing the current fiber finds it and all its joiners live, and waking them and consuming it keeps the invariant |
| `Scheduler.EffectKeeps` | src/runtime.rs:717-832 | every effect handler, from any current fiber, leaves the tables sound whether it resumes, blocks, spawns or errors |
| `Scheduler.JoinSound` | src/runtime.rs:834-874 | a join either consumes a finished target or puts the joiner on exactly one waiter list of an unfinished live target, its status still Ready |
| `Placement.DeliverPlaced` | src/runtime.rs:648-668 | waking the joiners of an ended fiber and dropping it leaves every other fiber in exactly one place |
| `Placement.JoinBlockPlaced` | src/runtime.rs:864-872 | a joiner leaves the running position for one waiter list and is in no queue |
| `Fibers.DeliverKeeps` | src/runtime.rs:660-666 | waking a list of joiners appends exactly them to the queue, gives each a value, and changes no other fiber |
| `Fibers.SliceBounds` | src/cekh.rs:127-153 | a slice never overspends its allowance, a preempted one spends all of it, and a suspended one has had its arguments taken |
| `Runs.ExactlyOnePlace` | src/runtime.rs:613-709 | in every state of every run of iterations, answers and refuels, an unfinished fiber is exactly once current, queued, waiting on one unfinished live fiber, or blocked on the host |
| `Runs.StartInv` | src/runtime.rs:296-331 | a fresh run satisfies the invariant |
| `Runs.AnswerKeepsInv` | src/runtime.rs:422-482 | answering a pending call keeps the invariant and makes the fiber runnable |
| `Runs.MoveKeepsInv` | src/runtime.rs:204-226 | iterations, answers and refuels, accepted or rejected, keep the invariant |
| `RuntimeObject.Runtime.RunScheduler` | src/runtime.rs:504-611 | the mutating loop over the runtime's fields computes exactly the iterated scheduler function, returning the same outcome or error |
| `RuntimeObject.Runtime.OneTurn` | src/runtime.rs:507-609 | one pass of the loop is one `Turn`, on every field; `Fairness`, `Holders` and `Delivery` say what a turn means |
| `RuntimeObject.Runtime.HandleJoin` | src/runtime.rs:834-874 | the in-place join does to every field what the join function does |
| `RuntimeObject.Runtime.HandleFork` | src/runtime.rs:777-832 | the in-place fork allocates, carves and enqueues as the fork function does, including each error's partial effects |
| `RuntimeObject.Runtime.RemoveFiber` | src/runtime.rs:670-686 | swap-removal with the last holder's refund, on every field; what that does to the meters is `Holders.RemoveSettles` |
| `RuntimeObject.Runtime.WakeJoiners` | src/runtime.rs:660-666 | the loop over joiners delivers to each in order, a fresh result object each time |
| `RuntimeObject.Runtime.RunCurrentFiber` | src/cekh.rs:127-153 | the stepping loop computes the slice function |
| `Fairness.PreemptedGoesLast` | src/runtime.rs:586-589 | a fiber whose slice runs out goes behind everybody who was waiting, saved as its slice left it; no other record and no waiter list changes |
| `Fairness.TurnMovesUp` | src/runtime.rs:504-632 | the current fiber and the queue form one line: a turn runs its front, which keeps its place or gives way, and whoever is spawned, woken or preempted joins at the end |
| `Fairness.FirstComeFirstServed` | src/runtime.rs:504-632 | over any run of iterations, answers and refuels: the fibers that have given way, in order, followed by the line at the end, are the line at the start followed by newcomers |
| `Fairness.NobodyOvertakes` | src/runtime.rs:613-632 | so turns are taken in the order of the line, and until everybody in it has had one nobody takes two |
| `Fairness.PreemptedWaits` | src/runtime.rs:586-589 | a preempted fiber takes no further turn before everybody who was then waiting has taken one, in order |
| `Fairness.SliceLength` | src/runtime.rs:526-552 | no slice exceeds the quantum or the fuel there is; one that runs out below the quantum has emptied its meter |
| `Holders.RemoveSettles` | src/runtime.rs:670-686 | consuming a fiber leaves a meter that another live fiber holds, and the root's, as it is; otherwise that meter ends empty, exactly the meter it was carved from gets the leftover, saturating, and no other meter changes |
| `Holders.TurnSettles` | src/runtime.rs:526-598 | besides charging the running fiber's slice to its own meter, an iteration does nothing to the meters, or carves one out of that same meter, or settles the meter of a fiber it consumes; nobody changes meter |
| `Holders.FallsOnlyByUse` | src/runtime.rs:670-686 | over any run, a meter that some fiber still holds at the end was held at the start and has lost no more than the slices of its own holders and what they carved from it |
| `Holders.CarveExact` | src/fuel.rs:73-91 | a carve succeeds exactly when the meter is unlimited or has the amount, and then takes exactly it |
| `Delivery.JoinTells` | src/runtime.rs:848-862 | joining a fiber that has ended: the joiner goes on with an object in a slot not in use, whose only property is `ok` with the result or `err` with the displayed error, and the fiber is gone |
| `Delivery.JoinWaits` | src/runtime.rs:863-873 | joining one that has not: the joiner is saved as it stands and comes last among those who wait for it |
| `Delivery.DeliverTells` | src/runtime.rs:660-666 | every joiner of a fiber that ends goes on from where it stood with such an object of its own; no two share one, and none is a slot in use |
| `Delivery.TurnTells` | src/runtime.rs:526-571 | a turn whose slice ends its fiber, with a value, with a fault unless it is the root, or for want of fuel unless it runs on the root meter, tells exactly its joiners, or records how it ended |
| `Delivery.ForkSucceeds` | src/runtime.rs:777-816 | a fork succeeds exactly when given a function, options that ask for no fuel or for a non-negative whole amount, and a meter that can spare it |
| `Delivery.ForkStarts` | src/runtime.rs:785-831 | the new fiber runs the function's expression body if it has one and else its statement body, in the captured environment, with a continuation slot of its own, on the parent's meter or the carved one, last in the queue; nobody else's record changes |
| `Delivery.ForkedIsJoinable` | src/runtime.rs:574-582 | the number a fork returns is the one by which a join finds the fiber |
| `Delivery.HostBlocks` | src/runtime.rs:749-775 | a host call blocks the caller, saved as it stands, on exactly that effect and the unfoldings of its arguments in order; it fails, changing nothing, exactly when an argument cannot cross |
| `Delivery.PendingCallsAre` | src/runtime.rs:484-502 | the host is shown every blocked fiber once, in table order, with the call it is blocked on, and no other |
| `Delivery.AnswerDelivers` | src/runtime.rs:474-482 | an answer wakes its fiber where it stood, last in the queue, with a value that converts back to the answer exactly when the answer is one a program could have sent |
| `Delivery.GrantOverrides` | src/runtime.rs:103-157 | a granted name is the host's, even a built-in one; the five built-in names not granted keep their meaning and no further name has any |
| `Delivery.EffectMeans` | src/runtime.rs:717-747 | an effect first collects exactly when over a thousand slots were allocated since the last collection; printing and collecting then go on with undefined, a collection leaves what the collector makes of the heap, and a name neither built in nor granted fails |
| `Delivery.SnapshotMeans` | src/runtime.rs:905-940 | a snapshot that can be written goes on with "saved", and the record it wrote would go on with "restored"; without a path it fails, changing nothing |
| `Fuel.Meters.Charge` | src/fuel.rs:57-62 | in place: subtract, saturating at zero; an unlimited meter is untouched |
| `Fuel.Meters.Add` | src/fuel.rs:64-68 | in place: add, saturating at the 64-bit maximum |
| `Fuel.Meters.Carve` | src/fuel.rs:73-91 | in place: deduct from the parent and append a child, or fail changing nothing |
| `Fuel.Meters.RefundIntoParent` | src/fuel.rs:93-101 | in place: move the leftover to the parent and leave the meter empty |
| `Fuel.RefundTotal` | src/fuel.rs:93-101 | a refund never creates fuel, and with finite meters conserves the total |
| `FuelLaws.TurnAccounted` | src/runtime.rs:526-553 | an iteration charges the fiber's own meter, never more than it holds, and otherwise only carves or refunds |
| `FuelLaws.TurnConserves` | src/runtime.rs:526-553 | with finite meters an iteration keeps remaining fuel plus steps constant; no charge saturates |
| `FuelLaws.FuelIsConserved` | src/runtime.rs:204-226 | with a finite root budget, in every state of every run, the fuel left in all meters plus the steps taken is the budget plus all refuels; so the steps never exceed what was granted |
| `FuelLaws.StepsWithinGrants` | src/runtime.rs:204-226 | with a finite root budget the steps of any run never exceed the budget plus all refuels, also where a refuel saturates a meter |
| `FuelLaws.SubtreeBudget` | src/fuel.rs:70-100 | from any reachable state, the steps later charged to a carved meter and to every meter carved from it at any depth never exceed what its subtree held, despite refunds, shared meters, refuels and an unlimited root |
| `FuelLaws.FreshSubtree` | src/fuel.rs:70-91 | at the moment of a carve that subtree holds exactly the amount carved |
| `FuelLaws.MoveWithinBudget` | src/runtime.rs:803-816 | one move's charges below a meter plus what its subtree still holds never exceed what it held |
| `FuelLaws.CarveBudget` | src/runtime.rs:803-816 | from the very turn that carves, in every later run, the steps charged to the new meter and to every meter below it never exceed the amount carved |
| `Termination.TurnProgress` | src/runtime.rs:504-611 | an iteration that goes on has finished a fiber, or spent fuel, perhaps spawning one; only a turn that re-enters a suspended root may do neither |
| `Termination.TurnLowers` | src/runtime.rs:504-611 | with finite meters, whatever their total: twice the remaining fuel plus the number of unfinished fibers never rises on an iteration that goes on, and strictly drops exactly when the fiber run is not a root suspended with its arguments taken; with one more for such a root it always drops |
| `Termination.StaleHostCall` | src/runtime.rs:574-584 | a root left suspended with its arguments taken is run again: it spends nothing and blocks on the same call with no arguments |
| `Termination.RefusedHostCall` | src/runtime.rs:574-584 | where that state comes from: a root's host call whose arguments cannot cross raises, leaves the root current and suspended on the same effect with its arguments gone, and the next entry, if any fuel is left, performs it without them |
| `Entries.FiniteBudgetReturns` | src/runtime.rs:504-611 | from any reachable state with finite meters every scheduler entry returns, within as many iterations as the measure says, whatever refuels came before |
| `Entries.LoopEnds` | src/runtime.rs:507-541 | what each outcome says of the state: Done has nothing queued or pending, Pending lists exactly the blocked fibers, OutOfFuel has an empty root meter, an error leaves the root current |
| `Entries.DoneMeansFinishedOrCycle` | src/runtime.rs:508-523 | when an entry returns Done, following join targets from any unfinished fiber leads into a cycle of fibers waiting on each other |
| `Results.TurnReports` | src/runtime.rs:640-709 | a finished fiber keeps its record until a join consumes it, no fiber takes its id again, and the result an entry will report is that of a root that finished and is finished still or consumed |
| `Results.DoneAgain` | src/runtime.rs:505-523 | at Done, what the table says of the root is what the entry reports exactly when no join consumed the root's record, or the result is undefined |
| `Lone.SliceSplits` | src/cekh.rs:127-153 | a slice of a+b steps is a slice of a steps followed, if preempted, by one of b |
| `Lone.TurnAlone` | src/runtime.rs:504-611 | a scheduler iteration over a lone fiber, its joins included, only moves it along its own computation |
| `Lone.PlayAlone` | src/runtime.rs:526-598 | however it is paced, a run shows only points of that computation |
| `Lone.LoopAlone` | src/runtime.rs:504-541 | a lone fiber's entry that is Done reports the fiber's own result, unless the fiber waits for itself |
| `Lone.SlicingIsInvisible` | src/runtime.rs:876-888 | two runs of a fiber that never forks, from the same point, with any quanta, budgets, pauses and refuels, that both come to rest have the same result, heap, registers and step count |
| `Lone.UndyingNeverRaises` | src/runtime.rs:504-611 | a lone fiber whose own computation never dies makes no scheduler entry raise |
| `Lone.AnswerAlone` | src/runtime.rs:422-482 | two runs that agree at a question still agree after the host answers both alike |
| `Lone.ConversationsAgree` | src/runtime.rs:422-482 | over a whole sequence of host answers: two conversations with the same answers, each phase paced in any way up to a rest, come to the same |
| `Boundary.Converter.ConvertOut` | src/host.rs:53-101 | conversion with the visiting set terminates, and succeeds with the tree unfolding exactly when the value has one that meets no object already on the path |
| `Boundary.ToHostValue` | src/host.rs:48-51 | conversion returns the unfolding with sorted keys, or fails when there is none |
| `Boundary.CrossesIffAcyclic` | src/host.rs:53-101 | it succeeds exactly when what the value reaches is cycle-free and code-free; shared objects are allowed |
| `Boundary.UnfoldingUnique` | src/host.rs:53-101 | a value has at most one unfolding, whatever was being visited |
| `Boundary.Materializer.FromHostValue` | src/host.rs:109-141 | materialising into the arena in place computes the function `FromHost` |
| `Boundary.HostRoundTrip` | src/host.rs:109-141 | materialising a host value and converting it back gives the same value exactly when every object inside has strictly sorted keys |
| `Boundary.ScalarsCross` | src/host.rs:53-60 | each kind of scalar crosses both ways as the same kind and content, and functions, handlers and continuations do not cross |
| `KeyOrder.SortSorts` | src/host.rs:74-88 | sorting distinct keys gives strictly increasing keys |
| `KeyOrder.SortedUnique` | src/host.rs:74-88 | strictly sorted pairs are determined by the mapping |
| `KeyOrder.LessIsLexicographic` | src/host.rs:74-88 | the order of keys is byte by byte: a proper prefix first, otherwise the first difference decides |
| `HostCodec.HostValueRoundTrip` | src/snapshot.rs:226-311 | decoding an encoding followed by any bytes returns exactly that value and those bytes if it is nested at most 256 deep, and fails as too deep otherwise |
| `HostCodec.EqualBytesIffBitEq` | src/replay.rs:236-256 | two values have equal encodings exactly when they are bit-equal, NaN and negative zero included |
| `HostCodec.WriteHostValue` | src/snapshot.rs:226-264 | the recursive writer appends exactly the encoding |
| `HostCodec.ReadHostValueAt` | src/snapshot.rs:270-311 | the recursive reader over a position computes the decoder, including which error |
| `Format.HostValueBytes` | src/snapshot.rs:226-264 | the bytes of a host value of each scalar kind |
| `Format.ContainerBytes` | src/snapshot.rs:226-264 | and of an array and an object |
| `Bytes.ReadStrBack` | src/snapshot.rs:68-71 | a length-prefixed string is read back |
| `Bytes.ByteReader.Take` | src/snapshot.rs:89-97 | taking bytes advances the position or fails as truncated without moving |
| `Log.ParseRecorded` | src/replay.rs:58-231 | parsing a header, any events with Done only last, and any proper prefix of one more record returns exactly that header, those stamped events and the offset of the last complete record, if no recorded value is nested beyond the cap; otherwise the log is rejected as corrupt |
| `Log.FirstRecordOf` | src/replay.rs:203-212 | a length-framed record is split off whatever follows it |
| `Log.TornIsNoRecord` | src/replay.rs:203-212 | an incomplete record is end of log, not an error |
| `Log.PayloadRoundTrip` | src/replay.rs:80-164 | an event's payload decodes to the event and its step stamp, or fails when nested too deep |
| `Log.ParsePastDone` | src/replay.rs:199-226 | a record after Done makes the log corrupt |
| `Log.CutRecords` | src/replay.rs:199-226 | cutting the records at any byte leaves whole records and a proper prefix of one more |
| `Log.ParseRecords` | src/replay.rs:199-226 | the offset loop computes the record parser |
| `Log.ParseFile` | src/replay.rs:166-231 | the whole in-place parse computes the parser function |
| `Format.HeaderBytes` | src/replay.rs:58-78 | the bytes of a log header: magic, version, source, grants, fuel, quantum |
| `Format.RecordBytes` | src/replay.rs:80-120 | the bytes of a record: length, stamp, kind, fields |
| `Format.AnswerBytes` | src/replay.rs:80-120 | and the fields of an answered call in order |
| `Replay.ReplayFidelity` | src/replay.rs:349-455 | recovering from the log of any recorded session raises no divergence and rebuilds its fibers, queue, waiters, meters, step index, recorded outcome and log; trailing answers or refuels give the session that then continued once. The host is handed the outcome it last received exactly when it did not continue a run already sealed, or the root's record is still in the table, or the result is undefined |
| `Replay.SessionFaithful` | src/runtime.rs:332-472 | after every host call, what is on disk re-executes to the live runtime |
| `Replay.CrashRecovers` | src/replay.rs:285-299 | losing any number of records recovers to a moment of the session, continued at most once; the healed log extends what survived and a second recovery reaches the same state |
| `Replay.CrashAtAnyByte` | src/replay.rs:438-454 | the same for a cut at any byte after the header: the file still parses, truncating to the good length and appending what recovery wrote is exactly the healed log |
| `Replay.OverIsStable` | src/runtime.rs:507-523 | once a run is over, continuing changes nothing and returns Done with the root's recorded result (undefined if its record is gone), and no call is pending |
| `Replay.DoneThenContinue` | src/runtime.rs:505-523 | after an entry that returned Done, continuing returns the same result exactly when the root's record is still in the table or the result is undefined: a join on the root consumes the record (src/runtime.rs:660-667) |
| `Replay.SessionTold` | src/runtime.rs:339-361 | after any sequence of host calls the outcome the host last received is the one recorded, or that of a continue after the end |
| `Replay.LateRefuelBreaksLog` | src/runtime.rs:217-223 | a refuel after Done leaves a log that no longer parses exactly when the root meter is empty, the guard under which the runtime accepts it |
| `Sessions.LoneProgramsRecord` | src/runtime.rs:386-416 | every lone program that neither dies nor forks gives, on a finite budget, a recorded session |
| `Recovery.Recorder.ResumeWith` | src/runtime.rs:422-482 | the record reaches the log before the answer reaches the fiber; an unknown call id changes nothing |
| `Recovery.Recorder.AddFuel` | src/runtime.rs:204-226 | a refuel is logged before the meter is topped up, and refused unless the root meter is empty |
| `Recovery.Recorder.FinishRun` | src/runtime.rs:363-384 | Done is recorded once, with the result if it can cross the boundary |
| `Recovery.Recorder.RunHostedContinue` | src/runtime.rs:339-361 | Continue is recorded before the scheduler runs, unless Done was |
| `Recovery.ReplayOne` | src/replay.rs:383-436 | one event of the log re-applied to the live runtime does what the replay function does, or reports the divergence |
| `Recovery.VerifyPendingMatches` | src/replay.rs:458-490 | a logged answer is accepted exactly when the fiber with its call id is blocked on exactly that effect with exactly those arguments, bit for bit |
| `Recovery.ResumeFromLog` | src/replay.rs:349-455 | the recovery loop parses, re-executes, verifies, auto-continues and re-seals as the function `Recover` does, when the replayed entries return; the file is then the bytes up to the good length followed by exactly the records recovery added; when it returns a runtime, every record of the log is borne out by the run rebuilt up to it |
| `Divergence.RecoveryVerifies` | src/replay.rs:385-436 | the converse of fidelity: recovery gives a runtime only from a log whose every record the run rebuilt so far bears out: its stamp is the step index modulo 2^64, an answered call is one that fiber is blocked on with that effect and equal arguments, and a recorded result is the replayed one |
| `Divergence.AcceptedIffBorneOut` | src/replay.rs:385-436 | one record is accepted exactly when the run so far bears it out and, for a continue, the entry returns an outcome |
| `Divergence.SessionBorneOut` | src/replay.rs:303-324 | every record of a session's own log is borne out |
| `Divergence.TamperedIsRejected` | src/replay.rs:458-490 | a session's log with one record changed is rejected if the change is in the stamp, in the effect or an argument of an answered call, or in the recorded result; a changed call id passes only if another fiber was then blocked on the very same call |
| `Divergence.DoneRecorded` | src/runtime.rs:363-384 | a session is sealed exactly when its run is done, and its last record is then Done with the result, or with none exactly when the result cannot cross to the host |
| `Recovery.FiniteTerminates` | src/replay.rs:376-455 | with a fuel budget in the header every entry that recovery replays returns, whatever the program and the records |
| `Recovery.CrashThenResume` | src/replay.rs:349-455 | a session on a finite budget, its file cut at any byte after the header: recovery ends, gives a moment of the session continued at most once, and leaves the file exactly that runtime's log |
| `ArenaObject.Arena.Allocate` | src/arena.rs:76-88 | pop the free list or grow; the slot handed out is clear of marks |
| `ArenaObject.Arena.Take` | src/arena.rs:98-105 | move a slot's value out, leaving the default behind |
| `ArenaObject.Arena.Sweep` | src/arena.rs:121-129 | the free list becomes exactly the unmarked slots and every mark is clear |
| `ArenaObject.UnmarkedIsComplement` | src/arena.rs:121-129 | the swept free list is the complement of the marks, each slot once |
| `Gc.Collector.Mark` | src/gc.rs:143-149 | from clear marks on a heap with no dangling ids the worklist terminates with the marked slots of all four arenas being exactly the least set closed from the roots |
| `Gc.Collector.TraceItem` | src/gc.rs:160-181 | popping one item keeps the marking invariant and either marks a new slot or makes the remaining work lighter |
| `Gc.Collector.TraceObject` | src/gc.rs:381-425 | tracing an unmarked object of any kind marks it and pushes exactly what it holds: property values, prototype, elements, captured environment, or a bound function's target, receiver and arguments |
| `Gc.Collector.TraceEnv` | src/gc.rs:183-197 | tracing an unmarked environment marks it and pushes its parent and bindings |
| `Gc.Collector.TraceCont` | src/gc.rs:199-379 | tracing an unmarked frame of any of the 41 kinds marks it and pushes its values, environment and outer link |
| `Gc.Collector.TraceHandler` | src/gc.rs:427-439 | tracing an unmarked handler marks it and pushes its environment |
| `Gc.Collector.Collect` | src/gc.rs:53-158 | marking from the root set of registers, globals and fibers and then sweeping keeps exactly the reachable slots, frees every other once, changes no content and clears all marks; in terms of registers, globals and fibers, `Retention.CollectKeepsRoots` |
| `Gc.PopTraced` | src/gc.rs:143-149 | marking a slot and queueing what it holds keeps every closed set that covers the roots above the marks and the worklist |
| `Retention.CollectKeepsRoots` | src/gc.rs:75-141 | after a collection, every slot named by the machine's registers, a global, a fiber's registers or a completed fiber's result is not free and holds what it held |
| `Retention.FrameItemsAre` | src/gc.rs:199-379 | tracing a frame of any kind pushes every value and the environment occurring in it and its outer link, and nothing else |
| `Retention.ObjectHoldsAre` | src/gc.rs:381-425 | tracing an object pushes its property values, its prototype and what its kind refers to, and nothing else |
| `Retention.CrossingKept` | src/gc.rs:53-63 | after a collection and any number of allocations, a value reachable at the collection converts to the same host value, or to none, as before |
| `Retention.EnvChainKept` | src/gc.rs:183-197 | and an environment reachable then has the same chain with the same bindings |
| `Retention.FramesKept` | src/gc.rs:199-379 | and a continuation reachable then has the same frames out to its end, what occurs in them kept too |
| `Retention.JoinAfterCollection` | src/gc.rs:118-123 | a fiber that had completed at a collection and is joined after it and any allocations: the joiner gets a new object, apart from everything reachable then, holding the result, which converts as it did before the collection |
| `Reuse.CollectThenReuse` | src/arena.rs:76-88 | after a collection any number of allocations in the four arenas leaves every reachable slot unchanged and never hands one out |
| `Reuse.HistoriesKeepLive` | src/gc.rs:183-197 | over every history of allocations, in-place writes and collections from the empty heap, nothing a program can name is free or dangling and environment chains are well-founded although indices are reused |
| `Reuse.ChainsAcyclic` | src/env.rs:285-353 | in every such history no live environment is its own ancestor, so chain walks end |
| `Environments.Bindings.Insert` | src/env.rs:50-75 | inline slots then a map: inserting is map update, before, at and after the overflow |
| `Environments.Bindings.Get` | src/env.rs:36-48 | reading inline or map storage is map lookup |
| `Environments.EnvArena.Lookup` | src/env.rs:319-332 | the chain walk returns the nearest binding and terminates on well-founded chains |
| `Environments.EnvArena.Assign` | src/env.rs:336-353 | the walk overwrites the nearest binding, or reports false and changes nothing |
| `Environments.LookupLive` | src/env.rs:319-332 | in every history of allocations, writes and collections, looking a name up from an environment the program can name ends, and finds the nearest binding or, when no ancestor binds it, nothing |
| `Environments.AssignLive` | src/env.rs:336-353 | likewise an assignment overwrites the nearest binding, or changes nothing when there is none |
| `Environments.AssignMeans` | src/env.rs:336-353 | after an assignment exactly the environments that share that binding see the new value; every other name and every shadowed or unrelated binding means what it did |
| `ContMachine.Machine.Push` | src/cont.rs:448-451 | allocating a frame is consing on a list, whatever slot it reuses |
| `ContMachine.Machine.Pop` | src/cekh.rs:753-760 | a destructive take of the innermost frame is the tail of a list; no other chain and no captured prefix changes |
| `ContMachine.Machine.Perform` | src/cekh.rs:2119-2165 | capturing at the innermost matching handler leaves the captured frames, out to the first handler, to the continuation value and the rest to the fiber; unmatched, nothing changes |
| `ContMachine.Machine.Resume` | src/cekh.rs:2173-2225 | rebasing copies the captured frames in front of the call site's and leaves the originals intact |
| `ContMachine.Machine.Return` | src/cekh.rs:1376-1402 | return drops frames through the innermost call, or none |
| `ContMachine.Machine.Break` | src/cekh.rs:1404-1436 | break drops frames through the innermost while or for loop, or none |
| `ContMachine.Machine.Continue` | src/cekh.rs:1438-1529 | continue drops through the innermost loop and puts back its head: a while's test, or a for's update, or its test when it has no update |
| `ContMachine.Machine.Fork` | src/runtime.rs:800-800 | a forked fiber's chain is a Halt slot of its own |
| `ContMachine.Machine.Collect` | src/gc.rs:199-206 | a collection that reaches every fiber and a set of continuation values frees no slot any of them depends on |
| `ContMachine.Machine.Run` | src/cekh.rs:753-760 | any run of these operations on the arena is the run on immutable frame lists, one list per fiber and per captured continuation |
| `Continuations.Agree` | src/arena.rs:98-105 | changing or freeing slots that no live chain and no captured prefix owns changes no list |
| `Continuations.Cut` | src/cekh.rs:2140-2160 | a captured prefix is disjoint from every live chain from the moment of its capture |
| `FrameLists.CapturesPersist` | src/cekh.rs:1554-1565 | whatever runs in between, a captured continuation keeps its frames while the program can still name it |
| `FrameLists.ResumeAnyNumberOfTimes` | src/cekh.rs:1554-1565 | so every resumption, however often, runs the same frames and then the call site's |
| `FrameLists.PerformThenResume` | src/cekh.rs:2137-2140 | resuming at once restores the frames exactly when the innermost handler is the one that matched: the cut drops the frames between a non-matching inner handler and the matching one |
| `FrameLists.PerformSplits` | src/cekh.rs:2119-2190 | performing an effect captures exactly the frames out to and with the innermost handler of any effect, and goes on exactly outside the innermost handler of this one |
| `FrameLists.LoopExits` | src/cekh.rs:1404-1529 | break leaves exactly what is outside the innermost loop; continue puts that loop's head back in front of it: its test, or its update if it has one |
| `FrameLists.ReturnLeaves` | src/cekh.rs:1373-1402 | return leaves exactly what is outside the innermost call |
| `Evaluator.ExprAgrees` | src/cekh.rs:172-280 | if the evaluator gives an expression a value and a store, increments included, the machine reaches that value with the continuation it started on and that store |
| `Evaluator.StmtAgrees` | src/cekh.rs:556-726 | if the evaluator says how a statement of the fragment ends, the absent statement included, the machine ends there: at the value on the same continuation, or wherever break, continue or return leads from it |
| `Evaluator.ListAgrees` | src/cekh.rs:1240-1269 | statement lists run in order on their own environment, stopping at the first break, continue or return |
| `Evaluator.LoopAgrees` | src/cekh.rs:952-967 | a while loop runs as the recursive evaluator says, with break and continue caught by it |
| `Evaluator.ForAgrees` | src/cekh.rs:630-668 | a for loop runs in an environment of its own as the evaluator says, with break and continue caught; going round again evaluates the test twice, dropping the first value |
| `Completeness.ExprCompletes` | src/cekh.rs:127-153 | if the machine halts from an expression under any continuation, the expression evaluates |
| `Completeness.StmtCompletes` | src/cekh.rs:127-153 | likewise for statements |
| `Completeness.ProgramAgrees` | src/cekh.rs:104-125 | a program halts in the machine with a value and store exactly when it evaluates to them |
| `InterpreterObject.Interpreter.Step` | src/cekh.rs:154-170 | one step over the mutable registers, frame arena and environment arena is one step on immutable frame lists, errors included, and keeps every environment chain well-founded |
| `InterpreterObject.Interpreter.Run` | src/cekh.rs:127-153 | the run loop spends at most its allowance, stops early only when halted or suspended, and is that many steps |
| `InterpreterObject.Interpreter.StepExpr` | src/cekh.rs:172-280 | each expression form of the fragment pushes the frame and sets the control the list machine does |
| `InterpreterObject.Interpreter.StepStmt` | src/cekh.rs:556-726 | each statement form of the fragment likewise, the absent statement giving undefined |
| `InterpreterObject.Interpreter.ApplyCont` | src/cekh.rs:750-1076 | taking the innermost frame and giving it the value does what the frame means, all six loop frames included |
| `InterpreterObject.StepKeepsAnchored` | src/cekh.rs:679-698 | every environment the registers and frames name keeps a chain that ends; a block's environment ranks above its parent |
| `Variables.IncrementMeans` | src/cekh.rs:215-244 | x++ and x-- evaluate to what x read as, ++x and --x to the number one above or below it, and all four leave x reading as that number |
| `Variables.ReadIsNearest` | src/cekh.rs:199-207 | a name reads as its nearest binding, else as the global, else as undefined |
| `Variables.WriteIsNearest` | src/env.rs:336-354 | an assignment overwrites exactly the nearest binding, or else the global of that name |
| `Variables.BlockScope` | src/cekh.rs:679-698 | in a block every name first means what it did outside; a declaration there hides the outer name inside and is not seen outside |
| `Variables.FalsyValues` | src/cekh.rs:1864-1881 | exactly undefined, null, false, zeros of either kind and sign, NaN and the empty string count as false |
| `Variables.ReturnRestores` | src/cekh.rs:1373-1402 | a return goes on outside the innermost call in the environment that call was made in; outside any call it ends the program |
| `Programs.EntryEvaluates` | src/cekh.rs:127-153 | for any interpreter whose steps are the language's: a scheduler entry over a program of the fragment that returns Done gives the value the program evaluates to, and one that raises means that it has none |
| `Programs.PacedRunEvaluates` | src/runtime.rs:526-598 | the same over any pacing with slices, starvation and refuels: a run that comes to rest rests on the program's value |
| `Programs.LoadedProgramRuns` | src/runtime.rs:296-331 | a program loaded into a fresh runtime with any budget and quantum: its first entry returns, with the program's value, with an error when it has none, or out of fuel having taken no more steps than the budget |
| `Programs.ValueIsUnique` | src/cekh.rs:104-125 | a program evaluates to at most one value |
| `SnapshotCodec.PutValue` | src/snapshot.rs:143-206 | a value put in front of any bytes is read back, and those bytes after it |
| `SnapshotCodec.PutControl` | src/snapshot.rs:518-562 | likewise for the control register |
| `SnapshotCodec.PutKont` | src/snapshot.rs:717-1362 | likewise for a continuation slot, for each of its 41 kinds |
| `Format.ScalarBytes` | src/snapshot.rs:143-185 | the bytes of a saved scalar of each kind |
| `Format.ReferenceBytes` | src/snapshot.rs:143-185 | and of a reference of each kind |
| `Format.ControlBytes` | src/snapshot.rs:518-546 | the bytes of the control register in each of its forms |
| `SnapshotCodec.SeqBack` | src/snapshot.rs:208-222 | a counted sequence is read back element by element |
| `SnapshotCodec.ReinternKeepsIds` | src/snapshot.rs:639-657 | re-interning a pool in index order into a new pool keeps every string's id |
| `Image.PutObj` | src/snapshot.rs:343-471 | an object of any kind is read back, in whatever order its properties were visited, function names and parameters, native ids and bound arguments included |
| `Image.PutEnv` | src/snapshot.rs:473-493 | an environment is read back |
| `Image.ArenasBack` | src/snapshot.rs:1987-2017 | the four arenas are read back: slots, free lists, allocation counts |
| `Image.StatusBack` | src/snapshot.rs:564-611 | a status is read back with a failure reduced to its message, exactly when no host argument is nested beyond the cap |
| `Format.StatusBytes` | src/snapshot.rs:564-587 | the bytes of a status |
| `Image.FibersBack` | src/snapshot.rs:613-637 | likewise the fiber table |
| `Image.RuntimeBack` | src/snapshot.rs:2047-2292 | reading a written runtime succeeds exactly when no pending host argument is nested beyond the cap, and gives back the pool and the state with no fiber selected and failures reduced to their messages |
| `SnapshotWriter.WriteRuntime` | src/snapshot.rs:2047-2122 | writing section by section into the buffer produces those bytes, for any state |
| `SnapshotWriter.WriteCounted` | src/snapshot.rs:208-213 | the counted loop behind every list and table appends the count and each element's encoding, for any encoder that only appends |
| `SnapshotWriter.WriteControl` | src/snapshot.rs:518-546 | the in-place writer of the control register appends what is put |
| `SnapshotLaws.FrameAppends` | src/snapshot.rs:717-1111 | what follows a frame's encoding plays no part in it, for every frame kind |
| `SnapshotReader.ReadRuntime` | src/snapshot.rs:2127-2292 | reading section by section at a position computes the decoder, including which error |
| `SnapshotReader.ReadCounted` | src/snapshot.rs:215-222 | the counted loop behind every list and table computes the counted decoder, for any element decoder that moves forward through its input |
| `SnapshotLaws.FrameForward` | src/snapshot.rs:1113-1362 | decoding a frame, whatever its tag and bytes, leaves a suffix of its input |
| `SnapshotReader.ReadPool` | src/snapshot.rs:649-657 | the interning loop rebuilds the pool |
| `SnapshotReader.SaveAndRestore` | src/snapshot.rs:2047-2292 | running the writer and then the reader on its bytes returns the pool and the restored runtime, or fails as too deep exactly when some pending host argument is nested beyond the cap |
| `Restore.TurnTwin` | src/runtime.rs:504-611 | two runtimes that differ only in the wording of failures take the same iteration to the same outcome and still differ only so |
| `Restore.ServeAllTwin` | src/runtime.rs:333-361 | and answer every sequence of host calls alike |
| `Restore.SnapshotIsTransparent` | src/runtime.rs:242-252 | a runtime saved at a pause and restored from the bytes gives, to every later sequence of answers, refuels and continues, the same outcomes, pending calls, errors and step indices as the original |
| `Restore.WrittenWakes` | src/runtime.rs:905-940 | the runtime `Snapshot!` writes, with its fiber at the front of the queue, is sound, and its first iteration is the live fiber's own, the effect having returned "restored" |
| `Restore.ProgramSnapshotIsTransparent` | src/runtime.rs:905-940 | and the bytes restore a runtime that answers every sequence of host calls as that one does |
| `Witnesses.ResultForgotten` | src/runtime.rs:505-523 | a root that ends with 7 and is then joined: a host that continues the finished run is told undefined, and recovering from its log tells it 7 |
| `Witnesses.LateRefuelHappens` | src/runtime.rs:217-223 | a finished session whose root meter is empty takes a refuel, and its log no longer parses |
| `Witnesses.DeepResultBreaksLog` | src/replay.rs:80-164 | a log with a result nested 257 deep is rejected as too deep |
| `Witnesses.DeepCallBreaksSnapshot` | src/snapshot.rs:226-311 | a runtime waiting for the host with such an argument is saved and cannot be restored |
| `Witnesses.InnerHandlerLosesFrames` | src/cekh.rs:2137-2140 | an inner handler that does not name the effect: performing and resuming at once drops the handler that does |
| `Witnesses.EmptyForFails` | src/cekh.rs:630-668 | a for loop with neither initialiser nor test fails with an invalid expression id |

## Left out

- The lexer, parser, command line, REPL, wasm bindings and printing: a program is what a loader returns for a source text.
- The scheduler's interpreter is a parameter: any deterministic step function over heap and registers, beside the collector and whether a snapshot file can be written. `Programs` takes it to be any whose steps are those of the fragment below.
- Lone.TurnAlone: says nothing of a fiber that forks, and takes a collector that changes nothing a program sees.
- Lone.PlayAlone: likewise.
- Lone.SlicingIsInvisible: likewise.
- Lone.UndyingNeverRaises: likewise.
- Restore.SnapshotIsTransparent: takes a collector that changes nothing a program sees, because restoring resets the point at which the next collection is due; that the real one keeps exactly the reachable slots is proved separately.
- Image.RuntimeBack: without the syntax-tree section of the image (src/snapshot.rs:1364-1985), the same tag-and-fields form as the frames; the restored runtime is taken to have the same program.
- SnapshotWriter.WriteRuntime: likewise.
- SnapshotReader.ReadRuntime: likewise; where several sanity checks fail at once, which of them is reported first is not modelled.
- Image.PutObj: without the three attribute flags of a property, which the code writes, reads back and nowhere else looks at.
- InterpreterObject.Interpreter.Step: covers the fragment of literals, variables, unary, update, binary and short-circuit operators, conditional, assignment to a variable, let, const, var, blocks, if, while, for, break, continue and return; calls, objects, arrays, block expressions, match, handlers and perform are outside it and stop the model with an error.
- InterpreterObject.Interpreter.StepExpr: likewise.
- InterpreterObject.Interpreter.StepStmt: likewise, without function declarations.
- InterpreterObject.Interpreter.ApplyCont: likewise.
- Evaluator.StmtAgrees: likewise.
- Recovery.ResumeFromLog: takes the replayed entries to return, which `Recovery.FiniteTerminates` shows for a finite budget; with no budget a program may run for ever.
- Runs that start from an empty program: the code keeps stale control there (src/cekh.rs:104-108), so a program has at least one statement.
- Fiber ids and steps are unbounded numbers; the stamp in a log record is taken modulo 2^64, a join's target is converted as `as u32` does and a fork's result as `as i32` does.
- File operations: a file is a byte sequence, appending is atomic up to a torn prefix, truncation is slicing; a failed append and a snapshot write that fails while recording are not part of sessions.
- Error texts keep their kind but not the names and numbers they mention; the several host-boundary failures are one, because which is met first depends on hash-map order.
- Hash-map iteration order: finite maps, with an arbitrary listing where bytes are written.
- String ids: a string is its content, written through a pool as an index; reading an index outside the pool fails here, while the code accepts it until use.
- String marks: strings are never swept.
- Floating-point arithmetic and the strict operators' results: any functions of the operands; floats are 64-bit patterns.
- The environment register after an expression or statement: the evaluator does not promise it, because blocks leave theirs behind.
- The halt slot 0 surviving once the root fiber is done: it is no root of its own, and live chains keep only the Halt slot they end in.
- Object prototypes in property reads, match guards and the never-built Blocked status.
