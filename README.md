# CPU scheduling calculator: a verified model of its scheduling engine

The calculator (`script.js`) offers three CPU-scheduling disciplines over a
batch of processes. Each process has an arrival time, a burst time and a
priority.

- **Round Robin** (`roundRobin`): the processes are sorted by arrival. They join
  a FIFO queue as they arrive, and each runs for at most one `quantum` at a time.
- **Non-Preemptive Priority** (`priorityNonPreemptive`): among the arrived,
  unfinished processes, the one with the smallest priority value runs to completion.
- **Preemptive Priority** (`priorityPreemptive`): the same choice is made again
  at every time unit. A Gantt entry opens when the running process changes, and
  it is closed only when its owner completes.

Each scheduler returns the completed process records, with completion,
turnaround and waiting times, in completion order, plus a Gantt timeline. The
click handler checks the parsed form fields, builds the process records
`P1..Pn` and calls the selected scheduler.

## Structure

Each scheduler is modelled twice:

- **A specification.** A `State` datatype holds the loop's local variables. A
  function `Step` is one iteration of the JavaScript loop, and `Run` iterates
  `Step` until the loop condition fails; termination is proved by a
  lexicographic measure. `Final(ps)` is the state the loop ends in, and
  `XSchedule(ps) = Output(Final(ps))` is the returned value.
- **An imperative method** with the structure of the JavaScript loop. The loop
  body is a helper method proved equal to `Step`. The loop invariant is
  `Run(current state) == Final(processes)`, so the method's `ensures` says it
  returns exactly the specification's value.

The JavaScript objects the loops mutate are copies held in a sequence (`jobs`,
`cands`). `ready`, `queue` and `completed` hold indices into that sequence,
just as the JavaScript arrays hold references to the copies. A process label
`Pk` is represented by the number `k`.

The properties are proved in the `...Facts` modules. Each one defines an
invariant `Inv`, proves that every `Step` preserves it, and derives the
theorems about the final state and the returned schedule from it. Concrete
runs of the calculator's worked examples are computed one iteration at a
time in the `...Scenarios` modules.

| file | module | models |
|---|---|---|
| `wrappers.dfy` | `Wrappers` | `Option`, `Result` |
| `processes.dfy` | `Processes` | records, timelines, shared predicates (`MetricsHold`, `EachOnce`, `Gantt`, `Served`) |
| `selection.dfy` | `Selection` | the `reduce` that picks the minimal priority |
| `arrival_sort.dfy` | `ArrivalSort` | `processes.sort((a, b) => a.arrival - b.arrival)` |
| `round_robin.dfy`, `round_robin_facts.dfy`, `round_robin_scenarios.dfy` | `RoundRobin`, `RoundRobinFacts`, `RoundRobinScenarios` | `roundRobin` |
| `priority_non_preemptive.dfy`, `priority_non_preemptive_facts.dfy` | `PriorityNonPreemptive`, `PriorityNonPreemptiveFacts` | `priorityNonPreemptive` |
| `priority_preemptive.dfy`, `priority_preemptive_facts.dfy` | `PriorityPreemptive`, `PriorityPreemptiveFacts` | `priorityPreemptive` |
| `priority_scenarios.dfy` | `PriorityScenarios` | worked examples of both priority schedulers |
| `simulator.dfy` | `Simulator` | the click handler after parsing: guards, record construction, dispatch |

Three points about what the code does, which the model follows:

- **Tie-break.** `reduce((a, b) => a.priority < b.priority ? a : b)` keeps
  the accumulator only when it is strictly smaller. On equal priorities it
  therefore keeps the LATER candidate, not the first one
  (`Selection.ReduceMinIsLastMin`, `Selection.ReduceMinTie`).
- **Round Robin example.** For arrivals 0, 1, 2, bursts 5, 3, 1 and quantum 2,
  the code produces P1 [0,2) P2 [2,4) P3 [4,5) P1 [5,7) P2 [7,8) P1 [8,9).
  P3 runs before P1's second slice. Arrivals during a slice are admitted
  (script.js:83) before the preempted process rejoins the queue
  (script.js:85), so P2 and P3 both queue ahead of P1 after its first slice
  (`RoundRobinScenarios.RoundRobinScenario`).
- **Validation.** The handler does validate its input before calling a
  scheduler: a length mismatch, an empty input or a bad quantum are all
  rejected (`Simulator.Solve`).

## Model

| member | source | states |
|---|---|---|
| Processes.Copies | script.js:63 | each copy has the input record, `remaining = burst`, and no metrics yet |
| Processes.EachOnceByIndex | script.js:90-94 | records taken from a rearrangement of the input with distinct ids, one index of each, return every input record exactly once |
| ArrivalSort.SortByArrival | script.js:64 | the result is sorted by arrival and is a permutation of the input |
| ArrivalSort.SortByArrivalStable | script.js:64 | for every arrival time, the records with that arrival keep their input order (the sort is stable) |
| ArrivalSort.SortByArrivalDistinctIds | script.js:64 | sorting keeps ids distinct |
| ArrivalSort.SortByArrivalRunnable | script.js:64 | sorting keeps ids distinct and bursts positive |
| Selection.ReduceMin | script.js:109 | the fold returns one of the candidates |
| Selection.ReduceMinIsLastMin | script.js:109 | the fold returns a candidate of minimal priority such that every later candidate has a strictly larger priority |
| Selection.LastMinUnique | script.js:109 | at most one candidate is the last minimal one |
| Selection.ReduceMinCharacterized | script.js:109 | a candidate is the fold's result if and only if it is the last minimal one |
| Selection.ReduceMinTie | script.js:109 | with two equal priorities, the fold picks the second candidate |
| RoundRobin.Init | script.js:62-65 | definition of the state before the loop (sorted copies, all of them in the backlog); described by `RoundRobinFacts.InitInv` |
| RoundRobin.Admit | script.js:68 | definition of the admission loop as a function; described by `RoundRobin.AdmitWf`, `RoundRobin.AdmitLoop` and `RoundRobinFacts.AdmitNonEmpty` |
| RoundRobin.RunSlice | script.js:75-81 | definition of one slice of the head of the queue; described by `RoundRobinFacts.DispatchTimeline`, `RoundRobinFacts.SliceLeavesUnarrived` and `RoundRobinFacts.FinalWork` |
| RoundRobin.Dispatch | script.js:75-91 | definition of a slice, the admission after it, and the re-enqueue or retirement; described by `RoundRobinFacts.DispatchTimeline` and `RoundRobinFacts.PreemptedAfterArrivals` |
| RoundRobin.Step | script.js:67-92 | definition of one iteration of the outer loop; described by `RoundRobinFacts.StepInv`, `RoundRobinFacts.SliceAtNow` and `RoundRobinFacts.IdleJump` |
| RoundRobin.Complete | script.js:87-89 | the record keeps its process and remaining time; its metrics are described by `RoundRobinFacts.RoundRobinMetrics` |
| RoundRobin.RoundRobinSchedule | script.js:61-95 | definition of the returned value as the output of the final state; described by `RoundRobinFacts.RoundRobinEachOnce`, `RoundRobinFacts.RoundRobinMetrics`, `RoundRobinFacts.RoundRobinSlices`, `RoundRobinFacts.RoundRobinOwners` and `RoundRobinFacts.RoundRobinBusy` |
| RoundRobin.Admitted | script.js:68 | every backlog job before position `k` has arrived, and the job at `k`, if any, has not |
| RoundRobin.AdmitWf | script.js:68 | admission keeps the state well formed, moves no more than the backlog, and only adds backlog jobs to the queue |
| RoundRobin.AdmitLoop | script.js:68 | the inner `while` moves exactly the arrived prefix of the backlog to the end of the queue |
| RoundRobin.StepWf | script.js:67-92 | an iteration keeps the state well formed and lowers (work left, pending idle jump) |
| RoundRobin.Run | script.js:67-92 | the loop ends with an empty backlog and an empty queue |
| RoundRobin.RunHead | script.js:75-91 | one dispatch of the loop body equals `Dispatch` of the admitted state |
| RoundRobin.Tick | script.js:68-91 | one pass of the loop body equals `Step` of the state before it |
| RoundRobin.RoundRobin | script.js:61-95 | the method returns exactly `RoundRobinSchedule(processes, quantum)` |
| RoundRobinFacts.InitInv | script.js:62-65 | the state before the loop satisfies the invariant |
| RoundRobinFacts.StepInv | script.js:67-92 | every iteration keeps the invariant: sorted copies, queue/completed/in-hand partition, progress, completion metrics and order, slice bounds, per-job accounts |
| RoundRobinFacts.RunInv | script.js:67-92 | the invariant holds when the loop ends |
| RoundRobinFacts.FinalState | script.js:67-94 | when the loop ends every job is completed, backlog and queue are empty, and the invariant holds |
| RoundRobinFacts.FinalOrder | script.js:90-94 | the returned records are the sorted copies in the order recorded by `completed`, which lists each index once |
| RoundRobinFacts.RoundRobinEachOnce | script.js:61-95 | every input record is returned exactly once |
| RoundRobinFacts.RoundRobinMetrics | script.js:87-90 | `turnaround = completion - arrival`, `waiting = turnaround - burst >= 0`, and the records are in completion order |
| RoundRobinFacts.RoundRobinSlices | script.js:76-81 | every entry is closed with `start < end <= start + quantum`, and the entries are in order without overlap |
| RoundRobinFacts.RoundRobinOwners | script.js:81 | every entry names an input process |
| RoundRobinFacts.FinalWork | script.js:76-81 | when the loop ends the last entry is closed and every sorted record has been served its burst |
| RoundRobinFacts.RoundRobinBusy | script.js:76-81 | the slices of each process add up to its burst |
| RoundRobinFacts.SliceLeavesUnarrived | script.js:75-83 | after a dispatch the clock has advanced by `min(remaining, quantum)`, and a backlog job stays in the backlog exactly when it has not arrived by then |
| RoundRobinFacts.PreemptedAfterArrivals | script.js:83-85 | a preempted process rejoins the queue last, behind every process admitted during its slice |
| RoundRobinFacts.AdmitNonEmpty | script.js:68-70 | after admission the queue is non-empty exactly when it was non-empty before or the head of the backlog has arrived |
| RoundRobinFacts.DispatchTimeline | script.js:76-81 | a dispatch advances the clock by `min(remaining, quantum)` and appends exactly one entry: the head's id, from the current time to the new time |
| RoundRobinFacts.SliceAtNow | script.js:68-81 | whenever the queue or an arrived backlog job is waiting, the iteration appends exactly one entry, which starts at the current time; otherwise `IdleJump` applies. So the timeline has gaps only where the CPU is idle |
| RoundRobinFacts.IdleJump | script.js:70-73 | with nothing queued after admission, the clock jumps to the next arrival and nothing else changes |
| RoundRobinScenarios.RoundRobinScenario | script.js:61-95 | arrivals 0, 1, 2, bursts 5, 3, 1, quantum 2 give the exact timeline above, and P3, P2, P1 complete at 5, 8, 9 |
| RoundRobinScenarios.RoundRobinIdleScenario | script.js:61-95 | a process arriving at 3 with burst 2 runs [3,5) and waits 0 |
| PriorityNonPreemptive.Init | script.js:99-100 | definition of the state before the loop; described by `PriorityNonPreemptiveFacts.InitInv` |
| PriorityNonPreemptive.Serve | script.js:111-119 | the candidate keeps its process and is marked completed; its fields are described by `PriorityNonPreemptiveFacts.NonPreemptiveMetrics` and `PriorityNonPreemptiveFacts.NonPreemptiveChoice` |
| PriorityNonPreemptive.Step | script.js:102-120 | definition of one iteration; described by `PriorityNonPreemptiveFacts.StepInv`, `PriorityNonPreemptiveFacts.NonPreemptiveChoice` and `PriorityNonPreemptiveFacts.NonPreemptiveIdle` |
| PriorityNonPreemptive.PriorityNonPreemptiveSchedule | script.js:98-124 | definition of the returned value as the output of the final state; described by `PriorityNonPreemptiveFacts.NonPreemptiveEachOnce`, `PriorityNonPreemptiveFacts.NonPreemptiveMetrics` and `PriorityNonPreemptiveFacts.NonPreemptiveTimeline` |
| PriorityNonPreemptive.Fresh | script.js:100 | each copy has the input record and is not completed |
| PriorityNonPreemptive.AvailableUpTo | script.js:103 | the kept indices are ascending, and an index is kept exactly when its candidate has arrived and is not completed |
| PriorityNonPreemptive.Available | script.js:103 | the same, over all candidates |
| PriorityNonPreemptive.Pick | script.js:109 | the chosen candidate is available |
| PriorityNonPreemptive.StepWf | script.js:102-120 | an iteration keeps the state well formed and either completes one more candidate or shortens the idle gap before the last arrival |
| PriorityNonPreemptive.Run | script.js:102-121 | the loop ends with every candidate completed |
| PriorityNonPreemptive.Tick | script.js:103-120 | one pass of the loop body equals `Step` of the state before it |
| PriorityNonPreemptive.PriorityNonPreemptive | script.js:98-124 | the method returns exactly `PriorityNonPreemptiveSchedule(processes)` |
| PriorityNonPreemptiveFacts.InitInv | script.js:99-100 | the state before the loop satisfies the invariant |
| PriorityNonPreemptiveFacts.StepInv | script.js:102-120 | every iteration keeps the invariant: marks, fields of served candidates, timeline entries, sequential runs |
| PriorityNonPreemptiveFacts.RunInv | script.js:102-121 | the invariant holds when the loop ends |
| PriorityNonPreemptiveFacts.FinalState | script.js:102-121 | when the loop ends every index occurs in `completed` and the invariant holds |
| PriorityNonPreemptiveFacts.NonPreemptiveEachOnce | script.js:120-123 | every input record is returned exactly once |
| PriorityNonPreemptiveFacts.NonPreemptiveMetrics | script.js:111-114 | `start >= arrival`, `completion = start + burst`, `turnaround = completion - arrival`, `waiting = turnaround - burst >= 0`, and the records are in completion order |
| PriorityNonPreemptiveFacts.NonPreemptiveTimeline | script.js:116 | one entry per returned record, exactly `[start, completion)` of that record, and each entry ends no later than the next starts |
| PriorityNonPreemptiveFacts.NonPreemptiveChoice | script.js:109-120 | a candidate is completed by the iteration if and only if it is the last available one of minimal priority; it then runs from now to now plus its burst |
| PriorityNonPreemptiveFacts.NonPreemptiveIdle | script.js:103-107 | nothing is available exactly when no candidate is ready; then only the clock advances by 1, and otherwise one more record is completed |
| PriorityScenarios.NonPreemptiveScenario | script.js:98-124 | arrivals 0, 0, 0, bursts 4, 2, 6, priorities 2, 1, 3 run P2, P1, P3, completing at 2, 6, 12 |
| PriorityScenarios.NonPreemptiveIdleScenario | script.js:98-124 | a process arriving at 3 with burst 2 starts at 3, completes at 5 and waits 0 |
| PriorityPreemptive.Init | script.js:128-129 | definition of the state before the loop; described by `PriorityPreemptiveFacts.InitInv` |
| PriorityPreemptive.Complete | script.js:152-155 | definition of the fields set at completion; described by `PriorityPreemptiveFacts.PreemptiveMetrics` |
| PriorityPreemptive.Step | script.js:131-158 | definition of one iteration; described by `PriorityPreemptiveFacts.StepInv`, `PriorityPreemptiveFacts.PreemptiveChoice`, `PriorityPreemptiveFacts.PreemptiveOpens` and `PriorityPreemptiveFacts.PreemptiveIdle` |
| PriorityPreemptive.PriorityPreemptiveSchedule | script.js:127-161 | definition of the returned value as the output of the final state; described by `PriorityPreemptiveFacts.PreemptiveEachOnce`, `PriorityPreemptiveFacts.PreemptiveMetrics`, `PriorityPreemptiveFacts.PreemptiveChart`, `PriorityPreemptiveFacts.PreemptiveEnds` and `PriorityPreemptiveFacts.PreemptiveBusy` |
| PriorityPreemptive.AvailableUpTo | script.js:132 | the kept indices are ascending, and an index is kept exactly when its job has arrived and has work left |
| PriorityPreemptive.Available | script.js:132 | the same, over all jobs |
| PriorityPreemptive.Pick | script.js:139 | the chosen job is available |
| PriorityPreemptive.Open | script.js:141-146 | afterwards the last entry belongs to the chosen process |
| PriorityPreemptive.Close | script.js:156 | only the last entry changes, and it gets an end |
| PriorityPreemptive.StepWf | script.js:131-158 | an iteration keeps the state well formed and lowers (work left, idle gap) |
| PriorityPreemptive.Run | script.js:131-158 | the loop ends with every job completed |
| PriorityPreemptive.RunUnit | script.js:141-157 | one unit of the chosen job equals `Step` of the state before it |
| PriorityPreemptive.Tick | script.js:132-157 | one pass of the loop body equals `Step` of the state before it |
| PriorityPreemptive.PriorityPreemptive | script.js:127-161 | the method returns exactly `PriorityPreemptiveSchedule(processes)` |
| PriorityPreemptiveFacts.InitInv | script.js:128-129 | the state before the loop satisfies the invariant |
| PriorityPreemptiveFacts.IdleInv | script.js:134-137 | an idle unit keeps the invariant |
| PriorityPreemptiveFacts.UnitInv | script.js:139-157 | a unit of work keeps the invariant: marks, progress, completion metrics and order, accounts, Gantt order, alternation, owners, closed entries |
| PriorityPreemptiveFacts.StepInv | script.js:131-158 | every iteration keeps the invariant |
| PriorityPreemptiveFacts.RunInv | script.js:131-158 | the invariant holds when the loop ends |
| PriorityPreemptiveFacts.FinalState | script.js:131-158 | when the loop ends every job is completed and the invariant holds |
| PriorityPreemptiveFacts.PreemptiveEachOnce | script.js:155-160 | every input record is returned exactly once |
| PriorityPreemptiveFacts.PreemptiveMetrics | script.js:152-155 | `turnaround = completion - arrival`, `waiting = turnaround - burst >= 0`, no start field, and the records are in completion order |
| PriorityPreemptiveFacts.PreemptiveChart | script.js:141-146 | the timeline is an ordered, non-overlapping chart whose neighbouring entries belong to different processes and whose entries name input processes |
| PriorityPreemptiveFacts.PreemptiveEnds | script.js:156 | an entry has an end only at its owner's completion, and every returned process has such an entry |
| PriorityPreemptiveFacts.PreemptiveBusy | script.js:145-149 | the timeline gives every process exactly its burst |
| PriorityPreemptiveFacts.PreemptiveChoice | script.js:139-149 | the unit goes to a job if and only if it is the last available one of minimal priority; that job's remaining time and the clock move by 1, and no other job changes |
| PriorityPreemptiveFacts.PreemptiveOpens | script.js:141-146 | a new entry is opened exactly when the chosen process does not own the last one; the last entry is then the chosen process's and is open |
| PriorityPreemptiveFacts.PreemptiveIdle | script.js:132-137 | nothing is available exactly when no job is ready; then only the clock advances by 1, and otherwise the work left drops by 1 |
| PriorityScenarios.PreemptiveScenario | script.js:127-161 | arrivals 0, 1, bursts 5, 3, priorities 2, 1: P1 [0,1), P2 [1,4), P1 [4,8); P2 completes at 4 and P1 at 8 |
| PriorityScenarios.PreemptiveIdleScenario | script.js:127-161 | a process arriving at 3 with burst 2 has the single entry [3,5), completes at 5 and waits 0 |
| Simulator.MakeProcesses | script.js:36-41 | record `i` has id `i+1`, the `i`-th arrival and burst, and the `i`-th priority or 0 when too few were entered; ids are distinct |
| Simulator.Solve | script.js:31-55 | the input is rejected for missing times exactly on a length mismatch or an empty input; for an invalid quantum exactly when Round Robin is chosen with a missing or non-positive quantum; otherwise the result is exactly the selected scheduler's schedule of the built records (`RoundRobinSchedule` with the quantum, `PriorityNonPreemptiveSchedule` or `PriorityPreemptiveSchedule`), and every record is returned exactly once with correct metrics, in completion order |

## Left out

- Reading the form, splitting and `Number`-parsing the text fields (script.js:24-29), the visibility toggle (script.js:6-21), the alerts' display, and `displayResults` with its averages and chart drawing (script.js:164 onward) are presentation code. They are not modelled. `Simulator.Solve` takes the parsed numbers as parameters and returns the alert as a `Failure` value.
- NaN, fractional and negative arrival or burst times are not modelled: arrival and burst are `nat`, and priorities are `int`. An unparsable quantum is `None`.
- An algorithm value other than the three options is not modelled. `result` then stays `undefined`, and reading `result.processes` at script.js:56 throws a `TypeError` before `displayResults` runs. The selector is a closed datatype here.
- Simulator.Solve: requires every burst to be positive. With a zero burst the preemptive loop of script.js:131-158 never ends, because a job with `remaining` 0 is never available and is therefore never completed. Round Robin with a zero burst would push an empty slice.
- RoundRobin.RoundRobin and PriorityPreemptive.PriorityPreemptive: require `Runnable` (distinct ids and positive bursts). The handler always builds distinct ids `P1..Pn`. The non-preemptive scheduler needs neither condition, and its model requires nothing.
- ArrivalSort.SortByArrival: the engine's `Array.prototype.sort` is modelled by an insertion sort. Only what the standard guarantees since ECMAScript 2019 is relied on: the result is sorted, a permutation, and stable (`ArrivalSort.SortByArrivalStable`).
- The mutation of the caller's array is not modelled. The JavaScript copies objects with spread before mutating them, so the caller's records never change. The model works on values, and the input sequence is immutable.
- Process labels `P<k>` are represented by the number `k`. The string form of labels is not modelled.
- The times are JavaScript numbers (IEEE doubles). They are modelled as unbounded integers. That is exact only while every value stays below 2^53. Above that, `Number` parsing rounds the input, and `time++` no longer advances the clock, so the idle loops would not end. Those inputs are not modelled.
- The returned records also carry constant fields: `remaining: 0` for Round Robin and preemptive priority, and `completed: true` for non-preemptive priority. The model's records (`Finished`) leave these constant fields out.
- The `at.length === 0` guard of script.js:31 cannot be reached from the form. An empty field gives `"".split(/\s+/)`, which is `[""]`, and mapping `Number` over it gives `[0]`. So empty fields yield one process with arrival 0 and burst 0. `Simulator.Solve` models the guard as written. Its requirement of positive bursts leaves out this zero-burst process, on which the preemptive loop never ends.
