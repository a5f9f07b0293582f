# CPU-scheduling simulator — a verified Dafny model

This project models the simulation engine of a CPU-scheduling visualiser.
The engine lives in `services/schedulingService.ts`. Given a list of
processes (arrival time, burst time, priority), a scheduling discipline and
an optional time quantum, `runSimulation` plays out the schedule on an
integer clock. It returns four things:

- the Gantt chart;
- each process's record, with completion, turnaround, waiting and response times;
- the overall metrics: the three averages, CPU utilization, throughput and total time;
- a replay log of snapshots.

The disciplines are FCFS, non-preemptive SJF, SRTF, non-preemptive and
preemptive priority, round robin, HRRN, and a two-level queue. The
two-level queue runs round robin for priorities below 3 and FCFS for the
rest.

## How the model is built

- **`Types`** holds the record shapes of `types.ts`:
  - Processes are indexed by their position in the list.
  - A Gantt segment is `(pid, start, end)`.
  - A log event is a snapshot of the engine plus an `EventKind` carrying the numeric fields of its message.
- **`Clone`** (`cloneProcesses`) resets a process's progress fields.
- **`Metrics`** (`calculateMetrics`) writes the per-process times onto the completed records in a loop. It also computes the aggregates. The totals, the utilization and the throughput are defined as functions, and the method is proved against them.
- **`Selection`** models the sorts before dispatch:
  - Each `Array.sort` followed by `shift` is a stable insertion sort by the discipline's order (`Precedes`), and the head is taken.
  - The head is proved to be the first best process, and the sorted remainder is what stays queued.
  - HRRN ratios are compared by cross-multiplication, which is proved equivalent to comparing the ratios.
  - The preemption test is `ShouldPreempt`.
- **`Engine`** holds the engine's mutable locals as one value, `State`:
  - the clock;
  - the two queues as `seq<nat>`;
  - the running process;
  - the open segment's start;
  - the quantum slice;
  - the counters, the chart and the log.
  
  `Inv` is the loop invariant, and there is one lemma per kind of state change that preserves it. Under `Inv`:
  - each process is queued or running at most once;
  - an uncompleted, unqueued process has not arrived yet;
  - a process's closed segments plus its open one add up to the CPU time it consumed;
  - the chart is ordered;
  - no quantum-bounded segment is longer than the quantum;
  - the idle counter equals the idle time plus one unit per fast-forward (see below).
- **`Admission`**, **`Tick`** and **`Simulation`** hold the phases of one loop iteration as methods from state to state:
  - admission of this tick's arrivals;
  - preemption;
  - dispatch;
  - execution of one unit (idle, completion, quantum expiry or continuation);
  - the watchdog;
  - the idle fast-forward.
  
  Each method's postcondition ties its result to a specification function or predicate and re-establishes `Inv`. `RunSimulation` runs the loop and proves what the result promises.

Two properties of the source are captured as written rather than as one
might expect:

- **Idle time is overcounted.** The fast-forward (`services/schedulingService.ts:311-327`) runs after the clock has already advanced past the tick just executed, and adds `next - (now - 1)` idle units: it measures from the start of that elapsed tick, whatever the tick did, while the clock moves only from `now` to `next`. So each fast-forward counts one idle unit more than elapses. The invariant states the exact relation, `idle + busy == now + fast-forwards`. The utilization `RunSimulation` reports for a completed run is therefore `(total burst − fast-forwards) / total time`, clamped, and not busy time over total time.
- **The "stuck" branch cannot be reached.** This is the branch that ends the run when nothing is left to arrive (`services/schedulingService.ts:328-333`). The invariant shows that an unfinished process with the CPU idle and both queues empty has not yet arrived. So a next arrival always exists, and `FastForwardIdle` proves the `None` case impossible. The model therefore never produces a result without a final summary event.

The settings form clamps the quantum to at least 1
(`components/ControlsPanel.tsx:95`). The engine itself only replaces a missing
or zero quantum (`timeQuantumArg || 1`, `services/schedulingService.ts:99`), so
a negative quantum passed to it directly stays negative. The model follows the
engine (`EffectiveQuantum`).

## Model

| member | source | states |
|---|---|---|
| Clone.Fresh | services/schedulingService.ts:7-16 | The copy keeps the input fields, has remaining time equal to the burst, and has start, completion, metric and queue-level fields unset. |
| Clone.CloneProcesses | services/schedulingService.ts:6-16 | One fresh working copy per input process, in input order; the input list is a value and is never modified. |
| Selection.CrossMultiply | services/schedulingService.ts:222-226 | For positive denominators, `x*b > y*a` holds iff `x/a > y/b`. |
| Selection.HigherRatioMeaning | services/schedulingService.ts:222-226 | The integer comparison used for HRRN holds iff the response ratio `(waited + burst) / burst` of one process exceeds the other's. |
| Selection.PrecedesTotal | services/schedulingService.ts:189-227 | Every discipline's order relates any two processes one way or the other. |
| Selection.PrecedesTransitive | services/schedulingService.ts:189-227 | Every discipline's order is transitive, for HRRN as well (positive bursts). |
| Selection.Insert | services/schedulingService.ts:189-228 | Inserting into a queue adds exactly that process (multiset), and the new head is the process exactly when it precedes the old head (ties included, as the order's `<=` comparisons admit). |
| Selection.Sort | services/schedulingService.ts:189-228 | The sorted queue is a permutation of the queue. |
| Selection.InsertSorted | services/schedulingService.ts:189-228 | Insertion keeps a queue sorted. |
| Selection.SortSorted | services/schedulingService.ts:189-228 | The sorted queue is sorted by the discipline's order. |
| Selection.FirstBest | services/schedulingService.ts:189-228 | The first position whose process precedes every queued process; no earlier process is as good (stability). |
| Selection.SortHead | services/schedulingService.ts:189-228 | The head of the stable sort is the first best process of the queue. |
| Selection.SortedHeadBest | services/schedulingService.ts:189-228 | The dispatched head is best-first, and the remaining queue is the queue less that one occurrence. |
| Selection.OrderFor | services/schedulingService.ts:183-229 | Every discipline except round robin sorts before taking the head; round robin takes the plain head. |
| Selection.MinKey | services/schedulingService.ts:150-153 | The `reduce` from an Infinity seed: none iff the queue is empty; otherwise a key of the queue that is at most every queued key. |
| Selection.ShouldPreempt | services/schedulingService.ts:147-159 | Preempt iff (SRTF) some queued remaining time is strictly smaller, or (preemptive priority) some queued priority is strictly smaller, or (two-level queue) a low-level process runs while the high queue is non-empty. |
| Metrics.Max0 | services/schedulingService.ts:41 | `Math.max(0, x)`: non-negative, at least x, and either 0 or x. |
| Metrics.Clamp | services/schedulingService.ts:64 | The result lies in [0, 100] and equals the input when the input already does. |
| Metrics.CompletedCount | services/schedulingService.ts:19 | The number of completed processes is at most the list length. |
| Metrics.Utilization | services/schedulingService.ts:64 | Utilization lies in [0, 100], is 0 when total time is not positive, and is `(total − idle) / total · 100` when idle time is between 0 and the total. |
| Metrics.Throughput | services/schedulingService.ts:65 | Throughput is non-negative for a non-negative count and positive total time. |
| Metrics.WithMetrics | services/schedulingService.ts:38-49 | The record with turnaround = completion − arrival, waiting = max(0, turnaround − burst), response = start − arrival, or the waiting value when there is no start; all other fields kept. |
| Metrics.CompletedOf | services/schedulingService.ts:19 | The filter keeps one entry per completed record, and every entry has a completion time. |
| Metrics.CompletedMembers | services/schedulingService.ts:19 | A record is in the filtered list iff it is in the list and has a completion time. |
| Metrics.FindById | services/schedulingService.ts:71 | `find` by id: a found record is in the list with that id; none means no record has that id. |
| Metrics.FindFirst | services/schedulingService.ts:71 | `find` returns the first match: when position i holds the id and no earlier record does, the result is the record at i. |
| Metrics.MapMetrics | services/schedulingService.ts:38-49 | Writing metrics onto each completed record keeps the length. |
| Metrics.WithTurnaroundOfAll | services/schedulingService.ts:52 | The second filter keeps every record once all have a turnaround. |
| Metrics.SumsMatch | services/schedulingService.ts:52-56 | The three `reduce` sums over the updated records equal the totals of the metric definitions over the completed processes. |
| Metrics.FindCompleted | services/schedulingService.ts:70-73 | With unique ids, looking a process up among the updated records finds it with its metrics iff it completed. |
| Metrics.NotFoundAmongOthers | services/schedulingService.ts:70-73 | An id no record carries is not found among the updated records. |
| Metrics.CalculateMetrics | services/schedulingService.ts:18-76 | The list keeps order and length. With unique ids, completed records get their metrics and the others pass unchanged. The averages are the totals over the completed count. Utilization and throughput are as defined. All metrics are zero when nothing completed and total time is 0. |
| Metrics.SameTotals | services/schedulingService.ts:54-56 | The totals depend only on input fields, start and completion times. |
| Tally.GanttAppend | services/schedulingService.ts:162-166 | Appending a segment that starts at or after the chart's end keeps the chart ordered and credits its length to its process alone. |
| Tally.FastForwardsAppend | services/schedulingService.ts:324 | Appending an event raises the fast-forward count exactly when it is a fast-forward. |
| Tally.NoSegments | services/schedulingService.ts:162-166 | In an ordered chart, a process's executed time is non-negative, and zero only if it has no segment. |
| Tally.UpdateTallies | services/schedulingService.ts:255-268 | Replacing one record changes busy time and completed count by that record's difference only. |
| Tally.FreshTallies | services/schedulingService.ts:84-89 | Fresh copies have no busy time and no completed process. |
| Tally.EveryCompleted | services/schedulingService.ts:121 | A completed count equal to the length means every process has a completion time. |
| Tally.SomeUncompleted | services/schedulingService.ts:121 | One uncompleted process makes the completed count smaller than the length. |
| Tally.BusyWhenFinished | services/schedulingService.ts:255 | With no time left anywhere, busy time is the total burst. |
| Tally.SameProgress | services/schedulingService.ts:255-268 | Records with equal bursts, remaining times and completion status give equal tallies. |
| Tally.CountAll | services/schedulingService.ts:121 | Every process completed means the completed count is the length. |
| Tally.SameBursts | services/schedulingService.ts:6-16 | Equal bursts give equal total burst. |
| Engine.EffectiveQuantum | services/schedulingService.ts:99 | `timeQuantumArg \|\| 1`: a missing or zero quantum becomes 1; any other value, negative too, is kept. |
| Engine.LevelFor | constants.ts:28 | A process goes to the high level iff its priority is below 3. |
| Engine.Records | services/schedulingService.ts:106 | The queue's records, position by position. |
| Engine.Snapshot | services/schedulingService.ts:102-116 | An event copies the time, the running record, the ready queue's records, under the two-level queue the high queue's records (and no high queue otherwise), the completion filter of the records (`CompletedOf`), and the chart; the CPU shows idle iff nothing runs or the override is set. |
| Engine.LogEvent | services/schedulingService.ts:102-116 | Logging appends one snapshot; the fast-forward count rises only for a fast-forward, and the log stays well-formed for other events. |
| Engine.CountAppend | services/schedulingService.ts:133-140 | Pushing onto a queue adds one occurrence of that process only. |
| Engine.CountConcat | services/schedulingService.ts:133-140 | Occurrences in a concatenation add up. |
| Engine.CountMultiset | services/schedulingService.ts:186-190 | The occurrence count is the multiset multiplicity. |
| Engine.CountMember | services/schedulingService.ts:125-126 | A process occurs in a queue iff `find` would find it there. |
| Engine.EnqueueCounts | services/schedulingService.ts:133-140 | Admitting a process adds one occurrence of it, and changes no other count. |
| Engine.RequeueCounts | services/schedulingService.ts:166-174 | Putting the running process back in a queue keeps every occurrence count. |
| Engine.SameCounts | services/schedulingService.ts:233-240 | Unchanged queues and running process keep every count. |
| Engine.RetireCounts | services/schedulingService.ts:271 | A completed process leaves the CPU, so its count drops by one and the others are kept. |
| Engine.DequeueCounts | services/schedulingService.ts:186-228 | Taking a queued process out and running it keeps every count. |
| Engine.InitialOk | services/schedulingService.ts:84-119 | The initial state (fresh copies, empty queues, clock 0, start event logged) satisfies the loop invariant. |
| Engine.LogOnlyOk | services/schedulingService.ts:102-116 | Logging an ordinary event preserves the invariant. |
| Engine.DescheduleProcOk | services/schedulingService.ts:161-176 | Preemption preserves each process's part of the invariant. |
| Engine.DescheduledOk | services/schedulingService.ts:161-176 | Preemption preserves the preempted process's part of the invariant. |
| Engine.DescheduleCoreOk | services/schedulingService.ts:161-176 | Preemption preserves the global part (queues, chart, slice, tallies, log). |
| Engine.DescheduleAllOk | services/schedulingService.ts:161-176 | Preemption preserves the per-process part for all processes. |
| Engine.DescheduleOk | services/schedulingService.ts:161-176 | Closing the open segment and requeueing the running process preserves the invariant. |
| Engine.StampOk | services/schedulingService.ts:219-221 | Overwriting waiting fields (HRRN) preserves the invariant. |
| Engine.TakeOut | services/schedulingService.ts:186-228 | Taking one process out of a queue leaves every other member in it. |
| Engine.DispatchProcOk | services/schedulingService.ts:233-240 | Dispatch preserves each process's part of the invariant; the start time is set only at the first dispatch. |
| Engine.DispatchCoreOk | services/schedulingService.ts:180-240 | Dispatch preserves the global part, with a fresh slice for a quantum-bounded process. |
| Engine.DispatchAllOk | services/schedulingService.ts:180-240 | Dispatch preserves the per-process part. |
| Engine.DispatchOk | services/schedulingService.ts:180-240 | Dispatching a queued process preserves the invariant. |
| Engine.IdleTickOk | services/schedulingService.ts:244-253 | An idle unit (idle counter and clock up by one) preserves the invariant. |
| Engine.ContinueProcOk | services/schedulingService.ts:255-289 | Running one more unit preserves each process's part. |
| Engine.ContinueCoreOk | services/schedulingService.ts:255-289 | Running one more unit preserves the global part. |
| Engine.ContinueAllOk | services/schedulingService.ts:255-289 | Running one more unit preserves the per-process part. |
| Engine.ContinueOk | services/schedulingService.ts:255-289 | A unit after which the process keeps the CPU preserves the invariant. |
| Engine.ExpireProcOk | services/schedulingService.ts:274-282 | Quantum expiry preserves each process's part. |
| Engine.ExpireCoreOk | services/schedulingService.ts:274-282 | Quantum expiry preserves the global part; the closed segment lasts at most the quantum. |
| Engine.ExpireAllOk | services/schedulingService.ts:274-282 | Quantum expiry preserves the per-process part. |
| Engine.ExpireOk | services/schedulingService.ts:274-282 | Expiry (segment closed at now + 1, process to the tail of its own queue) preserves the invariant. |
| Engine.CompleteProcOk | services/schedulingService.ts:264-273 | Completion preserves each process's part; the completed process ran exactly its burst. |
| Engine.CompleteCoreOk | services/schedulingService.ts:264-273 | Completion preserves the global part; the completed count rises by one. |
| Engine.CompleteAllOk | services/schedulingService.ts:264-273 | Completion preserves the per-process part. |
| Engine.CompleteOk | services/schedulingService.ts:264-273 | Completion at now + 1 (segment closed, count up) preserves the invariant. |
| Engine.JumpOk | services/schedulingService.ts:320-327 | Jumping the clock to the next arrival and adding `next - (now - 1)` idle units preserves the invariant. |
| Engine.QueuedBursts | services/schedulingService.ts:189-228 | Every queued process has a positive burst, so HRRN's ratios are defined. |
| Engine.PendingRemains | services/schedulingService.ts:312-333 | With the CPU idle, both queues empty and a process unfinished, some unfinished process has yet to arrive. |
| Engine.ExecutedWithinBurst | services/schedulingService.ts:255-276 | Under the invariant, no process has more chart time than its burst: its segments and its open segment make up the time it has run. |
| Engine.FinishedOk | services/schedulingService.ts:264-273 | When every process has completed, each arrived before its first dispatch, ran exactly its burst (its segments sum to it), and completed at least its burst after that dispatch; busy time is the total burst. |
| Admission.Arrivals | services/schedulingService.ts:123-144 | The processes admission takes, among a prefix of the list. |
| Admission.ArrivalsMeaning | services/schedulingService.ts:123-144 | A process is among the arrivals iff it arrives on this tick and is not completed, queued or running; they come in list order. |
| Admission.AdmitOne | services/schedulingService.ts:124-142 | Admitting one process keeps the state's shape. |
| Admission.AdmitPass | services/schedulingService.ts:123-144 | The pass over the whole list keeps the state's shape. |
| Admission.AdmitPassStep | services/schedulingService.ts:123-144 | The pass is the previous pass followed by one admission. |
| Admission.AdmitOneEffect | services/schedulingService.ts:124-142 | An admissible process is pushed to the high queue iff the two-level queue puts it there (priority < 3), else to the ready queue; its level is set under the two-level queue; one event is logged. Otherwise nothing changes. |
| Admission.AdmitPassRecords | services/schedulingService.ts:123-144 | The pass changes only records, queues and log; a record changes only under the two-level queue, by getting its level. |
| Admission.AdmitPassLow | services/schedulingService.ts:123-144 | The ready queue gains exactly the arrivals bound for it, in list order. |
| Admission.AdmitPassHigh | services/schedulingService.ts:123-144 | The high queue gains exactly the high-level arrivals, only under the two-level queue. |
| Admission.AdmitPassTakes | services/schedulingService.ts:123-144 | Earlier admissions do not change whether a later process is admissible. |
| Admission.AdmitPassLog | services/schedulingService.ts:123-144 | The pass keeps the old log and appends one event per arrival. |
| Admission.AdmitPassEvents | services/schedulingService.ts:123-144 | The pass logs no fast-forward, stop or summary. |
| Admission.ArrivalsCount | services/schedulingService.ts:123-144 | Each process occurs once among the arrivals if taken, else not at all. |
| Admission.AdmitPassAll | services/schedulingService.ts:123-144 | The whole pass relates the two states as the admission relation says. |
| Admission.AdmittedCounts | services/schedulingService.ts:123-144 | Each process gains one queue occurrence exactly when taken. |
| Admission.AdmittedQueuesOk | services/schedulingService.ts:123-144 | A process is admitted at most once, never while queued, running or completed. |
| Admission.AdmittedGanttOk | services/schedulingService.ts:123-144 | Admission keeps the chart ordered and every quantum-bounded segment within the quantum. |
| Admission.AdmittedTalliesOk | services/schedulingService.ts:123-144 | Admission keeps the tallies. |
| Admission.AdmittedProcOk | services/schedulingService.ts:123-144 | An admitted process arrived on this tick and is unfinished; an unadmitted, unqueued one arrives later. |
| Admission.AdmittedOk | services/schedulingService.ts:123-144 | Admission preserves the invariant. |
| Admission.Admit | services/schedulingService.ts:122-144 | The admission step is the pass over the whole list; the new-arrivals flag is true iff some process was taken. |
| Tick.Preempt | services/schedulingService.ts:146-177 | Preemption fires only with a new arrival and a running process, when the preemption test holds. The two-level queue logs it first. The open segment `[segStart, now)` is closed if non-empty, and the process rejoins the tail of its own queue. Otherwise the state is unchanged. |
| Tick.Stamped | services/schedulingService.ts:219-221 | Every queued record's waiting field is now − arrival; arrival and burst are kept. |
| Tick.StampedStep | services/schedulingService.ts:219-221 | Stamping one more queued process updates only that record. |
| Tick.StampWaits | services/schedulingService.ts:219-221 | The `forEach` loop computes the stamped records. |
| Tick.HeadTaken | services/schedulingService.ts:186-190 | `shift` removes exactly one occurrence of the head. |
| Tick.ServeOk | services/schedulingService.ts:233-240 | Serving a queued process preserves the invariant. |
| Tick.ServeHeadOk | services/schedulingService.ts:184-216 | Serving the high-queue head (two-level queue) or the ready-queue head (round robin) with a fresh quantum preserves the invariant. |
| Tick.ServeBestOk | services/schedulingService.ts:189-228 | Serving the head of the sorted queue preserves the invariant, and that head is best-first. |
| Tick.ServeRecords | services/schedulingService.ts:219-228 | Serving depends on the records it is given, not on the state's. |
| Tick.ServeSorted | services/schedulingService.ts:189-228 | The sorted dispatch: HRRN stamps waits first; the head of the stable sort runs and the sorted remainder stays queued. |
| Tick.Dispatch | services/schedulingService.ts:179-241 | A free CPU takes the high-queue head (two-level queue), else the ready-queue head (round robin) or the best-first process (other disciplines); a busy CPU or empty queues leave the state unchanged. |
| Tick.IdleUnit | services/schedulingService.ts:244-253 | An idle unit logs the idle event unless the last event is one, and raises the idle counter and the clock by one. |
| Tick.Completion | services/schedulingService.ts:264-273 | The last unit: completion at now + 1, segment closed at now + 1, count up by one, CPU freed, completion logged. |
| Tick.Expiry | services/schedulingService.ts:274-282 | The slice's last unit with work left: segment closed at now + 1, process to the tail of its own queue, expiry logged. |
| Tick.Continuation | services/schedulingService.ts:283-289 | The process keeps the CPU with one unit less; the continue event is logged unless the last event already shows it running. |
| Tick.Unfinished | services/schedulingService.ts:274-289 | An unfinished unit is the expiry when the slice runs out under a quantum, else the continuation. |
| Tick.Execute | services/schedulingService.ts:243-292 | One unit: idle, completion, expiry or continuation, chosen as the source does; remaining time drops by exactly one; the clock advances by one; the completed count changes only when the running process completes at the new time; the invariant holds after. |
| Simulation.Stopped | services/schedulingService.ts:298-306 | The watchdog's record: an uncompleted process completes at the stop time, takes its arrival as start if it had none and had arrived, and gets the defined metrics; a completed one is unchanged. |
| Simulation.ForceStop | services/schedulingService.ts:298-306 | The watchdog loop stops every process as above; all end up completed. |
| Simulation.NextArrival | services/schedulingService.ts:313-318 | None iff no uncompleted process arrives after now − 1; otherwise the least such arrival. |
| Simulation.FastForwardIdle | services/schedulingService.ts:311-334 | An idle CPU with nothing queued jumps to the next arrival, logs the jump and adds `next - (now - 1)` idle units; the stuck case cannot arise; otherwise nothing changes. |
| Simulation.LatestCompletion | services/schedulingService.ts:341 | The largest completion time (absent ones read as 0), and 0. |
| Simulation.RunTick | services/schedulingService.ts:121-292 | Admission, preemption, dispatch and execution keep the invariant and advance the clock by one; if the completed count changed, some process completed exactly at the new time. |
| Simulation.LatestIsNow | services/schedulingService.ts:264-265 | Under the invariant, when a process has just completed at the current time, the latest completion time equals the current time. |
| Simulation.SameLatest | services/schedulingService.ts:341 | Records with the same completion times have the same latest completion time. |
| Simulation.ForcedStopAppend | services/schedulingService.ts:297 | The log records a watchdog stop after an append iff it did before or the new event is one. |
| Simulation.FinishedFacts | services/schedulingService.ts:121 | A state satisfying the invariant with every process completed is halted and finished: each process ran exactly its burst between arrival and the end of the run. |
| Simulation.Watchdog | services/schedulingService.ts:294-309 | The stop is logged at the current time; every unfinished process completes at now − 1; the count becomes the number of processes; the run is then halted. |
| Simulation.StopHalts | services/schedulingService.ts:294-309 | After the watchdog every record is completed, the chart keeps its order, its quantum bound and its per-process bound by the burst, and the log holds no summary yet. |
| Simulation.EndTick | services/schedulingService.ts:294-334 | The watchdog fires iff the clock passed 2000 with work left; otherwise the fast-forward keeps the invariant. |
| Simulation.Iteration | services/schedulingService.ts:121-335 | One loop iteration: a stop leaves a halted state past the limit, with the stop as last event; otherwise the invariant holds and the clock strictly advanced, and if every process is now complete the clock equals the latest completion time. |
| Simulation.Simulate | services/schedulingService.ts:84-335 | The loop terminates. Every process then has a completion time. A run not stopped by the watchdog is finished, with the clock at the latest completion time; a stopped one ended past the limit. |
| Simulation.Summary | services/schedulingService.ts:346-356 | The summary event: all processes completed, total time, nothing running, both queues empty, every record listed as completed. Its time is the largest of 0, the last event's time and the last completion − 1. |
| Simulation.BusyShare | services/schedulingService.ts:322-325 | Total burst less one unit per fast-forward, as a clamped percentage of total time. |
| Simulation.SameBusy | services/schedulingService.ts:322-325 | When total − idle equals burst − fast-forwards, the reported utilization is that busy share. |
| Simulation.SameIds | services/schedulingService.ts:6-16 | Working records keep the input's unique ids. |
| Simulation.Reported | services/schedulingService.ts:70-73 | The reported records are the final records with their metrics: same input fields, start and completion; the chart bounds and the totals read the same from them. |
| Simulation.ReportedFinished | services/schedulingService.ts:361 | For a finished run, the reported records show each process ran exactly its burst, after its arrival and by the total time. |
| Simulation.Conclude | services/schedulingService.ts:337-358 | Total time is now − 1 after a stop, carried by the stop event just before the summary, and now otherwise. The summary event is guarded, as in the source, by the completed-count test and the last-event test; both are proved to pass, so the summary is always appended and is the log's only one. The log records a stop iff the watchdog fired. For a finished run, utilization is the busy share. |
| Simulation.Measure | services/schedulingService.ts:361 | calculateMetrics on the final records: every record completed with its defined metrics; chart segments name listed processes and respect the quantum; averages over all processes; throughput and utilization as defined for the total time; no process has more chart time than its burst; for a finished run, each process ran exactly its burst and the total is the latest completion time. |
| Simulation.Report | services/schedulingService.ts:337-363 | The result of a halted run, stated as for `RunSimulation`. |
| Simulation.RunSimulation | services/schedulingService.ts:79-364 | Every input process is reported, in order, completed, with turnaround, waiting and response as defined. The chart is ordered, names listed processes, and keeps quantum-bounded segments within the quantum. The log opens with the start event and ends with the only summary. The total time is the latest completion time (0 for no processes) without a watchdog stop, and after a stop it is the time the stop event carries, the event just before the summary. The averages are over all processes, throughput is the count of all processes over the total time, and utilization lies between 0 and 100. No process has more chart time than its burst, stopped or not. Without a watchdog stop, each process ran exactly its burst after arriving and by the total time, and utilization is the busy share. With a stop, the total is at least 2000. |

## Left out

- Log message text, the Gantt entries' names and colours, and the process colour are not modelled (process names are copied as part of each record). Events carry a kind with the message's numeric fields. The text comparisons of the source become comparisons of kind and running id: the idle-event check at services/schedulingService.ts:246 and the continue check at 285-286.
- Floating point is not modelled. Averages, utilization and throughput are `real`, and the `Infinity` seeds become `Option`.
- Every object in the model is a value. So the aliasing between the working records and the queues, the copies made by logEvent, and the record replacement at services/schedulingService.ts:270 do not arise. A process is referred to by its position in the list.
- Simulation.RunSimulation: requires every burst to be positive and every arrival non-negative; the configuration form enforces these. With a zero burst the source lets remaining time go negative and runs on until the watchdog. The model does not describe that.
- Simulation.RunSimulation: requires distinct ids. The source finds queued and running processes by id, so duplicate ids change admission, which the model does not follow.
- Simulation.RunSimulation: after a watchdog stop it claims no bound on completion times. A process that completes on the last tick before the stop can carry a completion time of total + 1.
- Simulation.RunTick: states only that the invariant is kept, the clock advances by one and a change in the completed count comes from a completion at the new time. Each phase's exact effect is stated by `Admission.Admit`, `Tick.Preempt`, `Tick.Dispatch` and `Tick.Execute`.
- Metrics.CalculateMetrics: says nothing about the per-record result when two records share an id. In that case the source's `find` returns the first completed record with that id (`Metrics.FindFirst` states that `find` returns the first match).
- The stuck branch (services/schedulingService.ts:328-333) is proved unreachable, so its effect is not modelled.
- The React front end, the playback timer and the display arithmetic are not part of this model.
