# Process scheduler: FCFS and Round Robin, modelled in Dafny

This project models the scheduling engine of a small process-scheduling
simulator, the class `SchedulerService` in `src/app/services/scheduler.ts`.
The engine takes a list of processes. Each process has an id, a name, a CPU
burst and an arrival time. It runs one of two policies over that list:

- **`fcfs`** runs the processes one after another in input order.
- **`roundRobin`** is preemptive. It keeps a FIFO ready queue, a clock, and a
  `remaining` counter on a clone of each process. Before every dispatch it
  admits the processes that have arrived. When nothing is ready it jumps
  the clock to the next arrival. Otherwise it runs the head of the queue for
  `min(quantum, remaining)` and re-queues it at the tail if work is left.

Both policies return the same result shape:

- a Gantt list of slices `[start, end)`, each coloured by `hashColor`;
- a waiting-time map and a turnaround-time map, both keyed by process id;
- the average waiting time.

Files and modules:

- `shapes.dfy` (`Shapes`): the records `Process`, `GanttItem` and
  `SchedulerResult`, and the arithmetic the contracts are written in. This
  covers sums of bursts, the slices of one process, and the sum of a map's
  values taken in any order.
- `colors.dfy` (`Colors`): `hashColor`, as a function and as its loop.
- `fcfs.dfy` (`FcfsModel`): `IsFcfsResult`, a closed-form description of
  what `fcfs` returns, and the properties that follow from it.
- `round_robin.dfy` (`RoundRobinModel`): the loop of `roundRobin` as a state
  machine.
  - `Admit` is the admission pass.
  - `Accrue` is the waiting-time pass.
  - `Dispatch` is one slice.
  - `Step` is one loop iteration.
  - `Run` is the loop until it stops.

  `RoundRobinSpec` is the result of the whole run. The termination measure
  is (total remaining work, latest arrival minus clock).
- `round_robin_invariants.dfy` (`RoundRobinInvariants`): the loop invariant
  `Good`, its preservation, and `RoundRobinGuarantees`. The guarantees hold
  of every result:
  - slices last between 1 and `quantum` units and never overlap;
  - no process runs before its arrival;
  - every process receives exactly its burst, in full quanta but the last;
  - turnaround is the completion time, and waiting is completion minus
    burst;
  - the average is the mean over the processes.
- `round_robin_scenarios.dfy` (`RoundRobinScenarios`):
  - Round Robin degenerates to FCFS when every process arrives at 0 and
    fits in one quantum;
  - two concrete runs, worked out slice by slice.
- `scheduler_service.dfy` (`SchedulerService`): the methods `Fcfs` and
  `RoundRobin` as loops.
  - `RoundRobin` keeps `remaining` in an array and updates it in place.
  - Each method is proved to return exactly what its specification
    describes.
- `undefined_arrival.dfy` (`UndefinedArrival`): the Round Robin loop when
  `arrival` is absent (see Findings).
- `wrappers.dfy` (`Wrappers`): `Option`.

Modelling choices:

- Integers are unbounded, and bursts and arrivals are `nat`.
- The ready queue holds indices into the cloned process list. This is the
  object identity that `queue.includes(p)` tests.
- A JavaScript `NaN` average, which is 0/0 on an empty list, is `None`.

## Model

| member | source | states |
|---|---|---|
| Colors.HashColor | src/app/services/scheduler.ts:35-41 | the colour index is always between 1 and 6 |
| Colors.ComputeHashColor | src/app/services/scheduler.ts:35-41 | the loop returns the sum of the id's character codes, mod 6, plus 1 |
| Colors.CharCodeSumPermutation | src/app/services/scheduler.ts:36-39 | the code sum depends only on which characters occur, not on their order |
| Colors.HashColorPermutation | src/app/services/scheduler.ts:35-41 | ids that are permutations of each other (`P12`, `P21`) get the same colour |
| Shapes.Mean | src/app/services/scheduler.ts:111 | the average is defined (not NaN) exactly when the count is positive, and then it times the count equals the sum |
| Shapes.SumValuesRemove | src/app/services/scheduler.ts:111 | the sum of `Object.values` is the same whichever entry is visited first |
| Shapes.SumValuesByProcess | src/app/services/scheduler.ts:151-152 | with distinct ids covering the keys, the map's value sum is the per-process sum in input order |
| SchedulerService.AverageWaitingTime | src/app/services/scheduler.ts:111 | the reduce-then-divide returns the mean of the map's values over the process count, for any enumeration order |
| SchedulerService.Fcfs | src/app/services/scheduler.ts:124-160 | the result satisfies `IsFcfsResult`: one slice per process, in input order; slice i is `[sum of earlier bursts, that + burst)` with its `hashColor`; both maps have exactly the input ids; with distinct ids waiting = start and turnaround = end; the average is the mean of the waiting map |
| FcfsModel.FcfsItem | src/app/services/scheduler.ts:134-143 | definition of slice i of `fcfs`: `[sum of earlier bursts, that + burst)` with the process's id, name and `hashColor`; its properties are stated by FcfsChained and FcfsTimeline |
| FcfsModel.IsFcfsResult | src/app/services/scheduler.ts:124-160 | definition of what `fcfs` returns (closed form); `SchedulerService.Fcfs` is proved to meet it, and FcfsTimeline, FcfsAverage and FcfsTwoProcesses state its consequences |
| FcfsModel.FcfsWaiting | src/app/services/scheduler.ts:145 | definition of the waiting map after the first k processes, each id mapped to the sum of the bursts before it; FcfsRecordKeys and FcfsWaitingValues state its properties |
| FcfsModel.FcfsTurnaround | src/app/services/scheduler.ts:146 | definition of the turnaround map after the first k processes, each id mapped to the sum of the bursts up to and including it; FcfsRecordKeys and FcfsTurnaroundValues state its properties |
| FcfsModel.FcfsRecordKeys | src/app/services/scheduler.ts:145-146 | after k processes both maps have exactly the ids of the first k |
| FcfsModel.FcfsWaitingValues | src/app/services/scheduler.ts:145 | with distinct ids the waiting time of process j is the sum of the bursts before it |
| FcfsModel.FcfsTurnaroundValues | src/app/services/scheduler.ts:146 | with distinct ids the turnaround of process j is the sum of the bursts up to and including it |
| FcfsModel.FcfsChained | src/app/services/scheduler.ts:130-149 | consecutive FCFS slices meet; the first starts at 0; the last ends at the total burst |
| FcfsModel.FcfsTimeline | src/app/services/scheduler.ts:130-149 | every slice lasts exactly its burst, the slices are contiguous from 0 to the total burst, and turnaround = waiting + burst |
| FcfsModel.FcfsAverage | src/app/services/scheduler.ts:151-152 | the average is the mean of the per-process waiting times, taken in input order |
| FcfsModel.FcfsTwoProcesses | src/app/services/scheduler.ts:124-160 | bursts 5 then 3 run in [0,5) and [5,8); they wait 0 and 5 and turn around at 5 and 8 |
| FcfsModel.FcfsTwoProcessesAverage | src/app/services/scheduler.ts:151-152 | bursts 5 then 3 average a waiting time of 2.5 |
| RoundRobinModel.Init | src/app/services/scheduler.ts:51-60 | definition of the state before the loop: counters = bursts, empty queue, clock 0, every waiting time 0; InitGood states that it satisfies the invariant |
| RoundRobinModel.Admit | src/app/services/scheduler.ts:65-70 | definition of the admission pass; its properties are stated by AdmitExtends, AdmitQueueOk, AdmitArrived and AdmitComplete |
| RoundRobinModel.Accrue | src/app/services/scheduler.ts:104-108 | definition of the waiting-time pass; its properties are stated by AccrueKeys, AccrueFrame and AccrueCharges |
| RoundRobinModel.Done | src/app/services/scheduler.ts:63 | definition of the loop's exit condition: every counter is 0 and the queue is empty; Run states that the loop reaches it and RoundRobinInvariants.AllFinished what holds there |
| RoundRobinModel.Dispatch | src/app/services/scheduler.ts:79-108 | definition of one slice; DispatchWf and RoundRobinInvariants.DispatchGood state its properties |
| RoundRobinModel.RoundRobinSpec | src/app/services/scheduler.ts:49-119 | definition of the result of `roundRobin`: `Run` from `Init`, read as a result with the line 111 average; RoundRobinInvariants.RoundRobinSpecGuarantees states its properties |
| RoundRobinModel.TotalUpdate | src/app/services/scheduler.ts:83 | decrementing one counter lowers the total remaining work by exactly that amount |
| RoundRobinModel.AdmitExtends | src/app/services/scheduler.ts:65-70 | admission only appends to the queue |
| RoundRobinModel.AdmitQueueOk | src/app/services/scheduler.ts:65-70 | admission keeps the queue free of duplicates and of finished processes |
| RoundRobinModel.AdmitArrived | src/app/services/scheduler.ts:65-70 | every process admitted has arrived by the current time |
| RoundRobinModel.AdmitComplete | src/app/services/scheduler.ts:65-70 | after admission every unfinished, arrived process is queued, and nothing queued is dropped |
| RoundRobinModel.AccrueKeys | src/app/services/scheduler.ts:104-108 | the waiting pass adds and removes no key |
| RoundRobinModel.AccrueFrame | src/app/services/scheduler.ts:104-108 | the waiting pass leaves every process outside the queue unchanged |
| RoundRobinModel.AccrueCharges | src/app/services/scheduler.ts:104-108 | with distinct queued ids, each unfinished queued process is charged the slice exactly once |
| RoundRobinModel.MaxArrival | src/app/services/scheduler.ts:72-77 | the latest arrival bounds every arrival, so the clock cannot jump past it |
| RoundRobinModel.EarliestArrival | src/app/services/scheduler.ts:74 | `Math.min` over the unfinished arrivals: it is defined exactly when a process is unfinished, it is one of their arrivals, and it is at most each of them |
| RoundRobinModel.DispatchWf | src/app/services/scheduler.ts:79-108 | a slice keeps the loop state well formed and strictly lowers the total remaining work |
| RoundRobinModel.Step | src/app/services/scheduler.ts:63-108 | an iteration keeps the state well formed, and it either consumes work or moves the clock forward to no later than the latest arrival |
| RoundRobinModel.Run | src/app/services/scheduler.ts:63-109 | the loop terminates, in a state where every counter is 0 and the queue is empty |
| RoundRobinInvariants.InitGood | src/app/services/scheduler.ts:51-60 | the initial state (counters = bursts, waiting all 0, clock 0) satisfies the invariant |
| RoundRobinInvariants.AdmitGood | src/app/services/scheduler.ts:65-70 | admission preserves the invariant, and only processes that have arrived join the queue |
| RoundRobinInvariants.IdleGood | src/app/services/scheduler.ts:72-77 | a forward idle jump preserves the invariant |
| RoundRobinInvariants.SliceWaiting | src/app/services/scheduler.ts:99-108 | after a slice a finished process's waiting time is completion − burst if it just finished, and is untouched by the accrual otherwise |
| RoundRobinInvariants.FinishedAfterSlice | src/app/services/scheduler.ts:96-101 | a slice finishes at most the process it ran |
| RoundRobinInvariants.DispatchGood | src/app/services/scheduler.ts:79-108 | a slice preserves the invariant: slices stay short and ordered, each slice belongs to its owner and starts after its arrival, service equals burst − remaining, all but the last slice are full quanta, and finished records are complete |
| RoundRobinInvariants.StepGood | src/app/services/scheduler.ts:63-108 | every loop iteration preserves the invariant |
| RoundRobinInvariants.RunGood | src/app/services/scheduler.ts:63-109 | the invariant holds when the loop ends |
| RoundRobinInvariants.FinishedProcess | src/app/services/scheduler.ts:96-101 | a finished process received exactly its burst, in full quanta but the last; if its burst is positive its turnaround is its last slice's end and its waiting time that minus its burst |
| RoundRobinInvariants.AllFinished | src/app/services/scheduler.ts:63 | when the loop stops, every process has been fully served and its records are complete |
| RoundRobinInvariants.FinalGuarantees | src/app/services/scheduler.ts:109-118 | the final loop state, read as a result, satisfies `RoundRobinGuarantees` |
| RoundRobinInvariants.RoundRobinSpecGuarantees | src/app/services/scheduler.ts:49-119 | with distinct ids, the result of `roundRobin` satisfies `RoundRobinGuarantees`: slices last 1..quantum and do not overlap; no slice starts before its process arrives; each process gets exactly its burst, in full quanta but the last; turnaround = completion; waiting = completion − burst; zero-burst processes get no slice and waiting 0; the average is the per-process mean |
| SchedulerService.ZeroWaiting | src/app/services/scheduler.ts:57-58 | every input id starts with waiting time 0, and there are no other keys |
| SchedulerService.AdmitPass | src/app/services/scheduler.ts:65-70 | the admission loop computes `Admit` |
| SchedulerService.AccrueWaiting | src/app/services/scheduler.ts:104-108 | the waiting-time loop computes `Accrue` |
| SchedulerService.RunHead | src/app/services/scheduler.ts:79-108 | dequeue, run, record, re-queue or complete, accrue: the new loop variables, with `remaining` updated in place, are `Dispatch` of the old ones |
| SchedulerService.Iterate | src/app/services/scheduler.ts:64-108 | one pass of the while body takes the loop variables to `Step` of the old ones |
| SchedulerService.RoundRobin | src/app/services/scheduler.ts:49-119 | the method returns `RoundRobinSpec`, and with distinct ids it satisfies `RoundRobinGuarantees` |
| RoundRobinScenarios.RoundRobinDegeneratesToFcfs | src/app/services/scheduler.ts:49-160 | with distinct ids, every arrival 0 and every burst in 1..quantum, Round Robin returns exactly the FCFS result |
| RoundRobinScenarios.ZeroBurstNotDegenerate | src/app/services/scheduler.ts:67 | a zero burst is never admitted: it gets no slice and no turnaround record, so the FCFS equivalence needs bursts of at least 1 |
| RoundRobinScenarios.RoundRobinTwoProcesses | src/app/services/scheduler.ts:49-119 | bursts 5 and 3 with quantum 2 give P1[0,2) P2[2,4) P1[4,6) P2[6,7) P1[7,8), waiting P1 = 3 and P2 = 4, and turnaround P1 = 8 and P2 = 7 |
| RoundRobinScenarios.RoundRobinTwoProcessesAverage | src/app/services/scheduler.ts:111 | that run averages 3.5 |
| RoundRobinScenarios.RoundRobinOneProcess | src/app/services/scheduler.ts:49-119 | a single process of burst 4 with quantum 2 gets the slices [0,2) and [2,4), waits 0 and turns around at 4 |
| RoundRobinScenarios.RoundRobinOneProcessAverage | src/app/services/scheduler.ts:111 | that run averages 0 |
| UndefinedArrival.ArrivedBy | src/app/services/scheduler.ts:67 | definition of `p.arrival! <= time` under JavaScript's rules: false when the arrival is undefined or the clock is NaN; RawAdmitNone and UndefinedArrivalStalls state its consequences |
| UndefinedArrival.RawAdmit | src/app/services/scheduler.ts:65-70 | definition of the admission pass as written, over processes whose arrival may be absent and a clock that may be NaN; RawAdmitNone and UndefinedArrivalStalls state its properties |
| UndefinedArrival.MinClock | src/app/services/scheduler.ts:74 | definition of two-operand `Math.min` under JavaScript's rules: NaN when either operand is undefined or NaN; RawNextArrivalNaN states its consequence |
| UndefinedArrival.RawNextArrival | src/app/services/scheduler.ts:74 | definition of `Math.min(...arrivals)` over the unfinished processes, `Infinity` for none; RawNextArrivalNaN and UndefinedArrivalStalls state its properties |
| UndefinedArrival.Default | src/app/home/home.page.ts:50 | reads each process the page builds without `arrival` as one arriving at 0, keeping id, name and burst; DefaultArrivalAdmitsAll states what admission then does |
| UndefinedArrival.UndefinedArrivalStalls | src/app/services/scheduler.ts:63-77 | as written, with no arrivals set and work left, admission queues nothing and the idle jump sets the clock to NaN; at NaN the same happens again, so the loop never ends |
| UndefinedArrival.DefaultArrivalAdmitsAll | src/app/services/scheduler.ts:65-70 | reading an absent arrival as 0, admission queues every unfinished process, so the queue is non-empty while work remains |

## Left out

- `parseRows` (src/app/services/scheduler.ts:165-197) is not modelled. It looks up fields by localized names and coerces them with `Number(...) || 0`, and those dynamic conversions have no counterpart here.
- src/app/home/home.page.ts is user-interface code and is not part of this model. That covers the form state, the dialogs, list editing and renumbering, and the recolouring by name. Its only role here is as the caller that fixes `quantum >= 1`, non-empty input, ids `P1, P2, ...`, and bursts that are whole numbers of at least 0. It rejects an entered burst `<= 0` before rounding (lines 42-43) and stores `Math.round(burst)` (lines 50, 54), so a positive entry below 0.5 reaches the scheduler as 0. The model covers burst 0; the FCFS equivalence below does not.
- The optional `priority` field is not modelled, because neither algorithm reads it.
- Floating point is not modelled. The average is an exact `real`, `None` stands for NaN, and slice times are exact integers.
- Colors.HashColor agrees with `charCodeAt` only for ids inside the Basic Multilingual Plane. An id is a sequence of Unicode scalar values, so a character outside that plane counts as one code point rather than as the two UTF-16 surrogates `charCodeAt` adds up (for `😀` the source sums 0xD83D + 0xDE00, the model 0x1F600). Every id the page builds (`P<n>`, src/app/home/home.page.ts:49,76) lies inside the plane.
- Object key order is not modelled. A map has no order, and every result about the average holds for every order in which `Object.values` could list the entries.
- Non-integer, negative or undefined bursts and arrivals are not modelled. Bursts and arrivals are `nat`; the absent arrival is treated separately in `UndefinedArrival`.
- `SchedulerService.RoundRobin` requires `quantum >= 1`. The page guarantees this (`Math.max(1, Math.round(quantum))`). With quantum 0 and an empty list, or with every burst 0, the loop condition at line 63 is false at once and the source returns an empty Gantt list, empty maps and a NaN average. With quantum 0 and some positive burst, the source loops forever once that process is admitted: line 80 gives `exec = 0`, so neither `time` nor `remaining` changes.
- RoundRobinInvariants.RoundRobinSpecGuarantees assumes distinct ids. The same holds for the FCFS per-process values. The page numbers processes `P1, P2, ...`. With a repeated id the maps merge entries and the per-process statements do not hold.
- No input is rejected. Neither algorithm checks for an empty list, a zero burst or a zero quantum. An empty list gives an empty timeline, empty maps and a NaN average (`None`), and the model follows the code.
- Textbook Round Robin queues the processes that arrive during a slice ahead of the preempted process. The code re-queues the preempted process immediately (line 97), before the next admission pass, so newcomers queue behind it. The model follows the code.
- Round Robin with every arrival at 0 and a quantum at least every burst gives the FCFS result only when every burst is at least 1 (`ZeroBurstNotDegenerate`). A zero burst gets an FCFS slice but no Round Robin slice, and the page can pass one (see the home page line above).
- Object identity of the cloned records is modelled by indices into the input list. No aliasing between the clones and the caller's objects is modelled; the caller's list is never written.

## Findings

| source | as written | input that shows it | evidently intended | confidence | as-written member | corrected member |
|---|---|---|---|---|---|---|
| src/app/services/scheduler.ts:67-76 | `p.arrival! <= time` and `Math.min(...arrivals)` on processes whose `arrival` is never set: `undefined <= 0` is false, so nothing is admitted, the clock becomes NaN, and the loop repeats forever | the page's Round Robin run on `[{id: "P1", name: "A", burst: 3}]` with quantum 2 (src/app/home/home.page.ts:95 passes processes without `arrival`) | an absent arrival counts as 0, so every process is ready at time 0 | high; not executed | UndefinedArrival.UndefinedArrivalStalls | UndefinedArrival.DefaultArrivalAdmitsAll |

