# CPU scheduling simulator: verified model of the scheduling core

This project models the scheduling core of the single-file simulator `Project.cpp`. The simulator runs one batch of processes under one of three policies. Each policy fills in the start and finish time of every process, and a metrics pass then derives waiting and turnaround times and the batch totals.

The three policies are:
- **FCFS** (first come, first served);
- **SRT** (preemptive shortest remaining time);
- **Round Robin**.

Everything is integer arithmetic on a vector of `Process` records that the engines update in place. The model keeps that form:
- the batch is an `array<Process>`;
- `Process` is a datatype;
- pointers into the vector become indices;
- each engine is a method whose loops carry their invariants.

The modules are:

- `Records` (`records.dfy`): the `Process` and `Scheduler` records, the record the `Process` constructor builds, and the shape of a freshly loaded batch (`Loaded`):
  - remaining work equal to the burst;
  - no start time (`-1`);
  - finish time 0.
- `FcfsEngine` (`fcfs.dfy`): the sort by arrival time and the run-to-completion loop. The result is tied to the timing recurrence `StartAt`/`FinishAt`. Lemmas prove:
  - intervals do not overlap;
  - no process starts before it arrives;
  - without idle gaps, the finish time is the sum of the bursts plus the switches.
- `SrtEngine` (`srt.dfy`): the priority queue is the set of queued indices, and the heap's top is any element that no other queued element outranks under the source's comparator. The admission cursor, the slice "until finish or next arrival" and the completion-time context switch are modelled as written. The model proves:
  - each dispatch pops a top, and on a batch in arrival order that top is the shortest arrived process with work left;
  - each admission compares the newcomer with the queue's top and switches to it exactly when the top is another process and the newcomer's burst plus one switch beats the top's remaining work;
  - with a non-negative switch cost and a batch as loaded, that switch can never fire, so the admission pass then changes neither the clock nor any record;
  - every process ends with no work left;
  - the run terminates for every input.
- `RoundRobinEngine` (`round_robin.dfy`): the ready queue is a sequence of indices, `hasStarted` is a `bool` array indexed by `id - 1`, and slices last at most one quantum. The arrivals check of lines 209-215 has a reference definition `Pass` (the indices it enqueues and the flags afterwards), with `Started` and `AdmitAll` for the start times it sets and the admission times it records. One pass of the dispatcher loop also has a reference definition, the step function `RrStep` on the run's state (batch, flags, queue, clock, last process run), starting from `InitialConfig`, the state the initial load leaves. A ghost map `admittedAt` records when each process was enqueued, and the run returns its trace of states, one mark per step saying whether and when it looked for arrivals, and the clock readings `checks` those marks give. This makes the following statable:
  - the arrivals pass does exactly what `Pass`, `Started` and `AdmitAll` say, and with distinct ids `Pass` enqueues exactly the arrived processes whose id is unflagged;
  - the initial load builds exactly `InitialQueue`, the arrived processes in batch order, gives each of them its admission start time and flags exactly their ids;
  - each pass of the loop takes exactly the step `RrStep` takes, so the trace a run returns is a run of `RrStep` from `InitialConfig` that ends with the queue empty and the batch as the engine leaves it; such a run is unique, so the batch left behind and the readings `checks` are determined by the input;
  - the queue never holds an index twice, and an id is flagged exactly when an admitted process has it;
  - the start time is the clock at admission, and the first-dispatch block never runs;
  - with distinct ids, a process is admitted exactly when it had arrived by one of the readings `checks`, which are 0 and the end of every slice that left work, as the trace records them; every other process is left exactly as it was. This is the source's stranding of processes that arrive after the queue has drained or only after finishing slices.
- `Metrics` (`metrics.dfy`): the integer part of the metrics pass:
  - per-process turnaround and waiting time;
  - total waiting, turnaround and idle time;
  - total switch cost;
  - latest finish and active time.

  Each is tied to a recursive definition over the batch, with lemmas relating the totals and connecting the metrics to an FCFS schedule.

Where the specification of the simulator and its code disagree, the model follows the code:

- The specification calls the FCFS sort stable. The code uses `std::sort`, which is not stable (`Project.cpp:100-102`), so `FcfsEngine.Fcfs` promises only a permutation sorted by arrival. Its concrete sort (`SortByArrival`) is one admissible order among those.
- The specification's SRT walk-through charges a context switch when a short newcomer arrives. In the code, the newcomer is itself the queue's top at that point, so the admission-time branch (`Project.cpp:131-135`) never fires with a non-negative switch cost. `SrtEngine.NoAdmissionSwitch` proves this, and `SrtEngine.AdmitNext` and `SrtEngine.AdmitArrivals` state that, with a non-negative switch cost and a batch as loaded, admission leaves the clock and every record unchanged. `SrtEngine.AdmitNext` also states when the branch fires for any switch cost and batch.
- The specification describes ids as unique. The code only needs every id in `1..n`, so that `hasStarted[id - 1]` is defined; that is the one precondition `RoundRobinEngine.RoundRobin` places on ids.

## Model

| member | source | states |
|---|---|---|
| Records.NewProcess | Project.cpp:21-22 | the constructor copies id, arrival and burst; the record is freshly loaded (remaining = burst, no start, finish 0) exactly when the burst is positive |
| FcfsEngine.SortByArrival | Project.cpp:100-102 | the batch ends sorted by non-decreasing arrival and is a permutation of the input |
| FcfsEngine.Fcfs | Project.cpp:99-115 | the batch ends as a permutation of the input sorted by arrival, and every record is that permutation's record with start and finish given by the recurrence: first start max(arrival, 0), later start max(arrival, previous finish + cs), finish = start + burst; all other fields are untouched |
| FcfsEngine.NoOverlap | Project.cpp:103-113 | with non-negative bursts and switch cost, every later process starts at least one switch after an earlier one finishes |
| FcfsEngine.StartBounds | Project.cpp:106-111 | every process starts no earlier than its arrival and no earlier than 0, and finishes no earlier than it starts |
| FcfsEngine.Makespan | Project.cpp:103-113 | when no process arrives after the CPU is free for it, the i-th finish is the sum of the first i+1 bursts plus i switches |
| FcfsEngine.ThreeProcessExample | Project.cpp:99-115 | for P1(0,5), P2(1,3), P3(2,1) with switch cost 1 the schedule is P1 [0,5], P2 [6,9], P3 [10,11] |
| SrtEngine.TopExists | Project.cpp:118-121 | a non-empty queue always has a top under the comparator (no queued process outranks it) |
| SrtEngine.SliceLength | Project.cpp:152-153 | the slice never exceeds the remaining work, never runs past the next arrival, ends exactly at the finish or at the next arrival, and is positive when work remains |
| SrtEngine.NoAdmissionSwitch | Project.cpp:126-135 | with a non-negative switch cost, a newcomer with its whole burst left never triggers the admission-time switch, because it would itself outrank the top |
| SrtEngine.TopIsShortest | Project.cpp:145-146 | on a batch in arrival order, once every arrived process is admitted, the queue's top has the least (remaining, arrival) key among all arrived processes with work left |
| SrtEngine.SliceKeeps | Project.cpp:155-165 | after a slice, every queued process is still waiting with its remaining work accounted for, and every admitted process off the queue has completed |
| SrtEngine.DispatchKeeps | Project.cpp:145-165 | putting the sliced process back (work left) or retiring it (no work left) keeps SRT's state invariant |
| SrtEngine.AdmitNext | Project.cpp:127-136 | pushing an arrived process adds exactly its index to the queue and keeps the state; the returned top is a top of the new queue; when the top is another process and the newcomer's burst plus one switch is less than the top's remaining work, the clock moves on by one switch and the newcomer alone gets the new clock as start time, and otherwise nothing but the queue changes; with a non-negative switch cost and a loaded batch the switch never fires |
| SrtEngine.AdmitArrivals | Project.cpp:126-138 | the cursor only moves forward and stops at the first process that has not arrived by the clock; the queue gains exactly the indices the cursor passed, each of which had arrived (when the switch cost is non-negative); only those records may change, and only in their start time; with a non-negative switch cost and a loaded batch neither the clock nor any record changes |
| SrtEngine.PeekTop | Project.cpp:145 | the chosen index is a top of the queue under the comparator, and on a batch in arrival order it is the shortest arrived process with work left |
| SrtEngine.RunSlice | Project.cpp:147-165 | one slice of SliceLength units: the start time is set at the first dispatch only, remaining work drops by the slice, a finished process gets the clock as finish time, and one switch is charged exactly when the previous dispatch ran another process and the finish is not at the next arrival |
| SrtEngine.Dispatch | Project.cpp:145-166 | the popped process is a top of the queue, and on a batch in arrival order the shortest arrived process with work left; only its record changes, as RunSlice's Slice says; on finishing it leaves the queue, otherwise it goes back; the state invariant is kept and the run makes progress |
| SrtEngine.Srt | Project.cpp:117-168 | the run terminates with every process's remaining work 0 and no id, arrival, burst, waiting or turnaround field changed; with a non-negative switch cost and a loaded batch every process completed (arrival <= start, start + burst <= finish) |
| RoundRobinEngine.QuantumSlice | Project.cpp:202-203 | a dispatch runs at most one quantum and at most the remaining work, exactly one of the two, and a positive amount when work remains |
| RoundRobinEngine.PassMonotone | Project.cpp:209-215 | the arrivals check only sets flags, and every process it enqueues has its id flagged afterwards |
| RoundRobinEngine.PassOwner | Project.cpp:210-212 | every flag the check sets belongs to a process it enqueued |
| RoundRobinEngine.PassFlags | Project.cpp:210-212 | after the check an id is flagged exactly when it was flagged before or belongs to a process the check enqueued |
| RoundRobinEngine.PassSound | Project.cpp:209-214 | everything the check enqueues had arrived and had an unflagged id when the check began; the indices increase and carry distinct ids |
| RoundRobinEngine.PassComplete | Project.cpp:209-214 | every arrived process is enqueued unless its id was flagged before the check or an earlier enqueued process has the same id |
| RoundRobinEngine.PassExact | Project.cpp:209-214 | with distinct ids the check enqueues exactly the arrived processes whose id was unflagged |
| RoundRobinEngine.StartedAt | Project.cpp:211 | the check gives every enqueued process the clock as start time and changes nothing else |
| RoundRobinEngine.AdmitAllAt | Project.cpp:213 | every enqueued process gets the clock as admission time; earlier admissions keep theirs |
| RoundRobinEngine.AdmitOne | Project.cpp:210-214 | admitting a never-admitted, arrived process (flag its id, set its start time, append it) keeps the run's invariant: no duplicates in the queue, every admitted id flagged, start time fixed at admission |
| RoundRobinEngine.Admit | Project.cpp:179-184 | admission appends exactly that index to the queue, records the clock as its admission time, sets that process's start time and nothing else, and flags exactly its id |
| RoundRobinEngine.InitialQueueSound | Project.cpp:178-186 | the initial queue holds only processes that arrived by time 0, in increasing batch order |
| RoundRobinEngine.InitialQueueComplete | Project.cpp:178-186 | the initial queue holds every process that arrived by time 0 |
| RoundRobinEngine.LoadStep | Project.cpp:179-184 | admitting an arrived process during the load keeps the load's state one process further on |
| RoundRobinEngine.LoadOne | Project.cpp:178-185 | a process that arrived by 0 is appended at the tail, flagged, admitted at 0 and gets start time 0 unless it has one; otherwise nothing changes; the load's state moves on |
| RoundRobinEngine.LoadInitial | Project.cpp:177-186 | after the load the run's state holds at clock 0; the queue is exactly InitialQueue of the batch; every process that arrived by 0 gets its admission start time (0 unless it has one) and every other record is unchanged; the flags are exactly InitialFlags, those of the arrived processes' ids; the run's history starts with one look for arrivals at time 0 |
| RoundRobinEngine.Unflagged | Project.cpp:210-212 | a process whose id is not flagged was never admitted and is as handed in, so admitting it gives it the current clock as start time |
| RoundRobinEngine.PassAdmit | Project.cpp:210-214 | admitting process j during an arrivals pass appends j after all earlier newcomers, keeps the pass tied to Pass, Started and AdmitAll, leaves the preempted process untouched and keeps the remaining work |
| RoundRobinEngine.PassStep | Project.cpp:210-214 | admitting an arrived, unflagged process keeps both the run's state and the pass's bookkeeping one process further on |
| RoundRobinEngine.AdmitIfArrived | Project.cpp:210-214 | process j is appended, flagged, admitted at the clock and given the clock as start time exactly when it has arrived and its id is unflagged; otherwise nothing changes |
| RoundRobinEngine.HistoryPass | Project.cpp:209-215 | a complete arrivals pass at time c keeps the run's history with c added: every flag owned, every admission at a recorded reading, every never-admitted process stranded |
| RoundRobinEngine.StrandedPass | Project.cpp:209-215 | after a complete arrivals pass at time c, every process never admitted had, at each earlier look for arrivals and at c, either not arrived or its id taken by an admitted process |
| RoundRobinEngine.PassFinished | Project.cpp:209-215 | a pass over the whole batch has enqueued what Pass enqueues, set the flags Pass sets, the start times Started sets and the admission times AdmitAll records |
| RoundRobinEngine.AdmitArrivals | Project.cpp:209-215 | the queue gains exactly Pass's newcomers, in batch order; the flags become Pass's, the batch Started's and the admission times AdmitAll's; the preempted process and the remaining work are untouched |
| RoundRobinEngine.PopHead | Project.cpp:189-194 | taking the head off the queue and charging a non-negative switch keeps the invariant, and the head's id is flagged |
| RoundRobinEngine.SliceContinues | Project.cpp:203-206 | a slice that leaves work keeps the invariant at the advanced clock |
| RoundRobinEngine.SliceFinishes | Project.cpp:217-222 | a slice that exhausts the work finishes the process at the advanced clock and keeps the invariant |
| RoundRobinEngine.PushBack | Project.cpp:217 | re-enqueueing the preempted process at the tail keeps the invariant (it is not already queued) |
| RoundRobinEngine.Requeue | Project.cpp:202-217 | the process loses exactly one slice of work and nothing else in it changes; the clock advances by the slice; the batch, flags and admission times are Started's, Pass's and AdmitAll's at the new clock; the queue is the old one, then Pass's newcomers, then the process |
| RoundRobinEngine.Retire | Project.cpp:202-222 | the finished process gets remaining 0 and the clock as finish time, and no other record changes |
| RoundRobinEngine.Dispatch | Project.cpp:188-224 | the head is dispatched; one switch is charged exactly when the previous dispatch ran another process; it runs QuantumSlice; its id was already flagged, so its start time does not change (the first-dispatch block never runs); it finishes at the clock with every other record unchanged and leaves the queue, or the arrivals pass runs as Pass, Started and AdmitAll say and the process goes to the tail after the newcomers; the new state is the one Dispatched describes; the invariant holds and the run makes progress |
| RoundRobinEngine.StepRequeues | Project.cpp:188-217 | from a state whose head is flagged, a slice that leaves work is the step RrStep takes: the arrivals pass at the new clock, then the head at the tail |
| RoundRobinEngine.StepFinishes | Project.cpp:188-222 | from a state whose head is flagged, a slice that exhausts the work is the step RrStep takes: the head finishes at the new clock and leaves the queue |
| RoundRobinEngine.StepOf | Project.cpp:188-224 | every dispatch of the shape Dispatch ensures is exactly the step RrStep takes from the same state, with a mark at the new clock exactly when the slice left work |
| RoundRobinEngine.RunExtends | Project.cpp:188-224 | one more step from the last state of a run, whose queue is not empty, extends the run, and its mark extends the readings |
| RoundRobinEngine.RunTakesDispatch | Project.cpp:188-224 | a dispatch from the last state of a run extends the run by the step RrStep takes, and the readings by the new clock exactly when the slice left work |
| RoundRobinEngine.RunsAgree | Project.cpp:188-224 | two runs on the same batch have the same state and the same mark at every step both reach (the loop is deterministic) |
| RoundRobinEngine.RunUnique | Project.cpp:188-225 | two runs on the same batch that both end with the queue empty are the same run, so the final batch and readings are determined |
| RoundRobinEngine.RunStarts | Project.cpp:177-186 | the state the initial load leaves is the start of a run: InitialConfig with no step taken |
| RoundRobinEngine.Turn | Project.cpp:188-224 | one pass of the loop keeps the run's state and history and extends the run's trace by the state it reaches; the readings grow by the new clock exactly when the slice left work; admissions only grow and the run makes progress |
| RoundRobinEngine.RunOver | Project.cpp:188 | once the queue is empty the run's outcome holds, and with distinct ids a process was admitted exactly when it had arrived by one of the readings |
| RoundRobinEngine.Drain | Project.cpp:188-225 | the loop from the loaded state terminates; its trace is a run of RrStep that ends with the queue empty and the batch as left; the readings are 0 and the trace's marks; the run's outcome and history hold |
| RoundRobinEngine.FlagsExact | Project.cpp:173-215 | during a run an id is flagged exactly when some admitted process has it |
| RoundRobinEngine.Drained | Project.cpp:188 | once the queue is empty the run's outcome holds: admitted processes have no work left and their admission start time, unadmitted ones are unchanged |
| RoundRobinEngine.UnadmittedShrinks | Project.cpp:188-224 | admissions only shrink the set of never-admitted processes, strictly when a new one is admitted (the outer termination measure) |
| RoundRobinEngine.AdmittedIffChecked | Project.cpp:178-215 | with distinct ids a process was admitted exactly when it had arrived by one of the run's looks for arrivals |
| RoundRobinEngine.RoundRobin | Project.cpp:171-226 | with quantum > 0 the run terminates; the returned trace is a run of RrStep from InitialConfig of the input that ends with the queue empty and exactly the batch the engine leaves, and the readings are 0 followed by the clock of every step that looked for arrivals (RunUnique makes that run the only one); no id, arrival, burst, waiting or turnaround changes; every admitted process has no work left and start time equal to its admission clock (0, or its earlier start, for the initial load); every admission happened at time 0 or at the end of a slice that left work; a never-admitted process is left exactly as handed in and had its id taken at every look for arrivals by which it had arrived, so with distinct ids it is admitted exactly when it arrived by one of those looks; with a non-negative switch cost and a loaded batch every admitted process completed |
| Metrics.WithMetrics | Project.cpp:68-69 | turnaround = finish - arrival, waiting = turnaround - burst, no other field changes, and a completed process waited at least as long as it took to start |
| Metrics.RunningStep | Project.cpp:67-86 | visiting one process adds its waiting and turnaround time and the idle stretch before it, charges a switch unless it is the first, and updates the latest finish |
| Metrics.CalculateMetrics | Project.cpp:56-96 | every record gets its turnaround and waiting time and nothing else; the totals are the batch's total waiting, turnaround and idle time, the scheduler's switch time times (n - 1) as switch cost, the latest finish, and latest finish minus the first process's arrival as active time |
| Metrics.WaitingIsTurnaroundLessBursts | Project.cpp:67-71 | total waiting time = total turnaround time - total burst |
| Metrics.LastFinishBounds | Project.cpp:85 | the latest finish is at least 0 and every finish time, and is 0 or one of the finish times |
| Metrics.CompletedWaiting | Project.cpp:67-71 | when every process completed, total waiting time is non-negative and total turnaround is at least total burst |
| Metrics.FcfsWaiting | Project.cpp:68-69 | after FCFS each process waits exactly its start minus its arrival, which is non-negative |
| Metrics.FcfsLastFinish | Project.cpp:85 | after FCFS with non-negative bursts and switch cost, the latest finish is the finish of the last process in arrival order |

## Left out

- `readInput` (file I/O and `exit(1)`), `printGanttChart`, `main` with its menu and `cin`, and every console output in `calculateMetrics`: I/O only. A batch as read is modelled by the predicate `Records.Loaded`.
- The `double` averages and the CPU-utilisation percentage: floating-point division. The integer numerators are returned as `Metrics.Totals`, and the metrics pass requires a non-empty batch, as `processes.front()` does.
- The `Scheduler&` parameter of the three engines, which they never read: they take the switch cost and quantum as separate arguments, as in the source. The scheduler's `processes` vector is the array each engine and the metrics pass are handed. The constructor's defaults (both 1) are overwritten by the two reads in `main` (Project.cpp:232-234) before any use, so they are not modelled.
- The state that `main` carries over between runs on the same batch. This belongs to the driver, not to an engine; each engine is modelled on whatever batch it is handed.
- 32-bit `int` overflow: all times are unbounded integers, so sums that would wrap in C++ do not wrap here. `INT_MAX` as "no further arrival" is `None` in `SrtEngine.SliceLength`.
- Pointer identity: `priority_queue<Process*>` and `queue<Process*>` hold indices, and `last_process` is an `Option` of an index.
- SrtEngine.Dispatch: among queued processes with equal keys the heap's choice depends on its internal layout. The model lets Dispatch pop any top, and AdmitNext compare the newcomer with any top, so it does not fix the tie order.
- SrtEngine.AdmitArrivals: the pass states which records may change and, with a non-negative switch cost and a loaded batch, that none does; the exact switch rule, which top each newcomer is compared with and when the switch fires, is stated per newcomer by SrtEngine.AdmitNext, not over the whole pass.
- SrtEngine.Srt: start times are stated only through `Completed` (arrival <= start, start + burst <= finish), not as the exact clock of each first dispatch. That, and the shortest-first choice of each dispatch, are stated per step by SrtEngine.Dispatch, not over the whole run.
- RoundRobinEngine.RoundRobin: requires `quantum > 0`, because with a quantum of 0 the source re-enqueues the same process forever. It also requires ids in `1..n`, because `hasStarted[id - 1]` is out of bounds otherwise.
- `total_idle_time` is computed by `Metrics.CalculateMetrics` as in the source, although the source never uses it.
