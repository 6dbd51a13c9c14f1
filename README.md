# SimOS CPU scheduler, modelled in Dafny

SimOS is a multi-CPU operating-system simulator. The simulator engine calls
the scheduler through five event handlers:

- `idle`: a CPU has nothing to run;
- `preempt`: a quantum expired;
- `yield`: a process started an I/O request;
- `terminate`: a process finished;
- `wake_up`: a NEW process is admitted, or a WAITING one finished its I/O.

The scheduler keeps a ready structure of process control blocks (PCBs)
threaded through their `next` links. It also keeps the table `current`,
which records the process running on each CPU.

This project models two versions of that scheduler:

- **The completed scheduler** (`SimOS-Solution/sched.c`, module
  `SolutionSched`). It has four policies:
  - FIFO and round-robin share one `head`/`tail` list.
  - Static priority scans that list for the first maximal `static_priority`
    and unlinks it from the head, the middle or the tail.
  - Multi-level feedback keeps four lists indexed by `temp_priority`
    (0..3). It dequeues from the highest non-empty level. It ages
    `temp_priority` down on a quantum expiry and up on an I/O request, and
    sets it to 3 when a NEW process is admitted.
  - Under static priority, `wake_up` also decides which CPU, if any, to
    preempt.
- **The starter scheduler** (`SimOS-Materials/sched.c`, module
  `StarterSched`). It has a single FIFO list, the basic state transitions,
  quantum -1 and an empty `preempt`.

## How the program is represented

- **`pcb_t*` references are pids.** A pid is an index into the fixed process
  table, and `NULL` is `NIL` (-1).
- **PCB fields are arrays indexed by pid.** `state`, `temp_priority` and
  `next` are such arrays. `static_priority`, which the scheduler never
  writes, is an immutable sequence.
- **The linked lists are real `next` links.** Each class holds
  `head`/`tail`, the link array and the four-entry arrays
  `multi_level_heads`/`multi_level_tails`. A ghost value records the lists
  those links spell out (module `Links`). The methods are proved against
  value-level specification functions (module `ReadyQueue`):
  - `Enqueue` for `addReadyProcess`;
  - `Dequeue` for `getReadyProcess`;
  - `IsEmpty` for `should_idle`.
- **Each process is in exactly one place.** The class invariant (module
  `Placement`) states:
  - READY processes are exactly the queued ones;
  - RUNNING processes are exactly the ones in `current`;
  - `current` and a ghost CPU-of-process map are inverse;
  - under multi-level feedback, an admitted process has `temp_priority`
    in 0..3.
- **`context_switch(cpu, proc, quantum)` is an output.** It becomes the
  returned `Dispatch` value.
- **`force_preempt(cpu)` is an output.** It becomes the returned
  `Option<nat>` victim.
- **`idle` is one test of its wait loop.** The result is `None` when the CPU
  would keep waiting, and otherwise the result of `schedule`.
- **The aging rule alone is in module `Feedback`.** Module `Preemption`
  holds the wake-up preemption decision, both as intended and as written.

## Model

| member | source | states |
|---|---|---|
| ReadyQueue.MaxScan | SimOS-Solution/sched.c:357-369 | the scan's position holds a maximal static priority in the list, and every earlier position a strictly lower one (the strict `>` keeps the first maximum) |
| ReadyQueue.RemoveAt | SimOS-Solution/sched.c:376-396 | unlinking position i leaves the list one shorter, with the elements before i and after i in their old order |
| ReadyQueue.TopFrom | SimOS-Solution/sched.c:413-422 | the level found by scanning down from k is non-empty and every level above it up to k is empty; NIL means all of them are empty |
| ReadyQueue.Pop | SimOS-Solution/sched.c:424-437 | the definition of head removal: NULL and the list unchanged when it is empty, otherwise the head and the list after it (`StarterSched.StarterScheduler.GetReadyProcess` is proved equal to it) |
| ReadyQueue.PopLevel | SimOS-Solution/sched.c:424-437 | the definition of head removal from the single list (MAIN) or from one feedback level, the other lists untouched (`SolutionSched.Scheduler.PopFront` is proved equal to it) |
| ReadyQueue.Enqueue | SimOS-Solution/sched.c:304-334 | the definition of `addReadyProcess`'s effect: p appended to the list of its `temp_priority` under multi-level feedback, otherwise to the single list; its properties are `EnqueueEffect` and `EnqueueKeepsLayout` |
| ReadyQueue.Dequeue | SimOS-Solution/sched.c:346-441 | the definition of `getReadyProcess`'s selection per algorithm: the first maximal static priority, the head of the highest non-empty level, or the head of the single list; its properties are `DequeueEffect`, `StaticPicksFirstMaximum`, `FeedbackPicksHighestLevel` and `FifoDequeueIsPop` |
| ReadyQueue.IsEmpty | SimOS-Solution/sched.c:114-129 | the definition of `should_idle`: the single list is empty and, under multi-level feedback, so are all four levels; `IdleIffNothingReady` proves it agrees with `Dequeue` |
| ReadyQueue.EnqueueEffect | SimOS-Solution/sched.c:304-334 | adding p queues exactly p more; under multi-level feedback only list `level` grows, by p at its tail, and the other three are unchanged; otherwise the single list becomes old + [p] |
| ReadyQueue.EnqueueKeepsLayout | SimOS-Solution/sched.c:312-316 | a process enqueued under multi-level feedback lands in the list of its own `temp_priority`; the lists stay duplicate-free and inside the process table |
| ReadyQueue.DequeueEffect | SimOS-Solution/sched.c:346-441 | when nothing is ready the result is NULL and nothing changes; otherwise the returned process was queued, is no longer queued, and every other process keeps its membership; the layout is preserved |
| ReadyQueue.SingleRemoval | SimOS-Solution/sched.c:371-401 | taking position i out of a duplicate-free single list (feedback levels empty) removes exactly that process and no other |
| ReadyQueue.LevelRemoval | SimOS-Solution/sched.c:424-437 | taking the head of a feedback level removes exactly that process and leaves the other levels unchanged |
| ReadyQueue.StaticPicksFirstMaximum | SimOS-Solution/sched.c:350-405 | static priority returns a queued process of maximal static priority, every earlier one having a strictly lower priority, and the rest of the list keeps its relative order |
| ReadyQueue.FirstMaximumUnique | SimOS-Solution/sched.c:364 | the tie rule fixes the choice: a position that is maximal with all earlier ones strictly lower is the one the scan returns |
| ReadyQueue.FeedbackPicksHighestLevel | SimOS-Solution/sched.c:411-440 | multi-level feedback returns the head of the highest non-empty level, all levels above it being empty, or NULL when all four are empty |
| ReadyQueue.IdleIffNothingReady | SimOS-Solution/sched.c:114-129 | the emptiness test holds exactly when `getReadyProcess` would return NULL, and exactly when no process is queued |
| ReadyQueue.FifoOrder | SimOS-Solution/sched.c:407-440 | for any interleaving of `Enqueue` and head removals under FIFO, the processes handed out followed by those still queued are exactly the initial list followed by every appended process, so they come out in the order they went in |
| ReadyQueue.FifoDequeueIsPop | SimOS-Solution/sched.c:407-440 | under FIFO and round-robin, `getReadyProcess` removes and returns the head of the single list (NULL when empty) and `addReadyProcess` appends at its tail |
| ReadyQueue.Replay | SimOS-Solution/sched.c:304-334 | the definition of a run of appends (`Enqueue` under FIFO) and head removals (`PopLevel` of the single list), collecting what is handed out; `FifoOrder` is proved about it |
| ReadyQueue.StaticTieExample | SimOS-Solution/sched.c:364 | with priorities [5, 9, 9, 3] queued in that order, the first process of priority 9 is chosen |
| ReadyQueue.FeedbackLevelExample | SimOS-Solution/sched.c:413-437 | with levels 0 and 2 occupied, the head of level 2 is returned |
| Feedback.StepInRange | SimOS-Solution/sched.c:187-221 | any one event keeps a `temp_priority` in 0..3 inside 0..3; a preemption lowers it by one with a floor of 0 and an I/O request raises it by one with a cap of 3 |
| Feedback.AgeStaysInRange | SimOS-Solution/sched.c:187-221 | a `temp_priority` in 0..3 stays in 0..3 after any history of admissions, preemptions and I/O requests |
| Feedback.AdmittedStaysInRange | SimOS-Solution/sched.c:253-255 | whatever the table's initial `temp_priority`, after admission it lies in 0..3 forever |
| Feedback.PreemptionsLower | SimOS-Solution/sched.c:192-193 | n consecutive preemptions lower the priority by n, down to 0 |
| Feedback.YieldsRaise | SimOS-Solution/sched.c:215-216 | n consecutive I/O requests raise the priority by n, up to 3 |
| Feedback.AgeOnPreempt | SimOS-Solution/sched.c:192-193 | the definition of the quantum-expiry rule: lower by one unless already 0 |
| Feedback.AgeOnYield | SimOS-Solution/sched.c:215-216 | the definition of the I/O-request rule: raise by one unless already 3 |
| Feedback.Step | SimOS-Solution/sched.c:253-255 | the definition of one event: admission of a NEW process sets 3, preemption and I/O request apply the two rules; `StepInRange` is proved about it |
| Feedback.Age | SimOS-Solution/sched.c:187-255 | the definition of a history of events applied in order; `AgeStaysInRange`, `PreemptionsLower` and `YieldsRaise` are proved about it |
| Preemption.LowestScan | SimOS-Solution/sched.c:267-281 | the scan over busy CPUs keeps the lowest-indexed CPU running a process of minimal static priority |
| Preemption.Victim | SimOS-Solution/sched.c:260-289 | a preemption is requested exactly when no CPU is idle and some running process has static priority lower than the waking process's; the victim is the first CPU holding the minimum |
| Preemption.SentinelCounterexample | SimOS-Solution/sched.c:264-288 | with one CPU running priority 12 and a priority-13 process waking, the code as written requests `force_preempt(-1)`, while the intended decision preempts CPU 0 |
| Preemption.WrittenLoopAgrees | SimOS-Solution/sched.c:267-288 | once the loop's running minimum is no longer the sentinel, the loop as written makes the intended decision |
| Preemption.AsWrittenAgreesBelowSentinel | SimOS-Solution/sched.c:264-288 | while every running process has static priority below 11, the decision as written equals the intended one |
| Preemption.Example7And9 | SimOS-Solution/sched.c:260-289 | CPUs running priorities 7 and 9: waking priority 10 preempts the CPU running 7 |
| Preemption.WrittenLoop | SimOS-Solution/sched.c:264-289 | the loop as written, sentinel included: stop at the first idle CPU with no request, keep the first strictly lower priority and its index, and request the recorded index when its priority is below the waking one |
| Preemption.VictimAsWritten | SimOS-Solution/sched.c:264-265 | the loop as written started from priority 11 and index -1; `SentinelCounterexample` and `AsWrittenAgreesBelowSentinel` are proved about it |
| Placement.InitiallyPlaced | SimOS-Solution/sched.c:88-91 | all processes NEW, all CPUs idle and nothing queued satisfies the placement invariant |
| Placement.DispatchPlaced | SimOS-Solution/sched.c:161-173 | putting the dequeued process (or NULL) on the CPU and marking it RUNNING restores the invariant |
| Placement.ReleasePlaced | SimOS-Solution/sched.c:187-236 | the process leaving a CPU as READY (queued), WAITING or TERMINATED (not queued) keeps the invariant, with that CPU's slot pending |
| Placement.WakePlaced | SimOS-Solution/sched.c:251-258 | a NEW or WAITING process that becomes READY and is queued keeps the invariant |
| Placement.NothingQueuedIffNoneReady | SimOS-Solution/sched.c:114-129 | no process is queued exactly when no process is READY |
| Placement.PlacementConsequences | SimOS-Solution/sched.c:161-173 | no process runs on two CPUs, and a TERMINATED process is neither queued nor on any CPU |
| Common.Dispatched | SimOS-Solution/sched.c:168-170 | the state table after `schedule`: same length, the dispatched process (if not NULL) RUNNING, every other process unchanged |
| SolutionSched.AppendSingle | SimOS-Solution/sched.c:318-331 | relinking the tail to p and clearing `p.next` spells the single list extended by p |
| SolutionSched.AppendFeedback | SimOS-Solution/sched.c:312-331 | the same append on the list of level `temp_priority` leaves the other levels' links intact |
| SolutionSched.PopSingle | SimOS-Solution/sched.c:424-437 | advancing `head` spells the single list without its head, with `tail` NULL once it is empty |
| SolutionSched.PopFeedback | SimOS-Solution/sched.c:424-437 | the same on one level of the feedback lists |
| SolutionSched.UnlinkSingle | SimOS-Solution/sched.c:376-401 | bypassing a middle or tail element spells the list without it, with `tail` moved back to the previous element when the tail was removed |
| SolutionSched.Scheduler.constructor | SimOS-Solution/sched.c:36-91 | the results of `main`: the chosen algorithm, quantum `time_slice` (-1 except under round-robin and multi-level feedback), every CPU idle, every process NEW, all lists empty |
| SolutionSched.Scheduler.AddReadyProcess | SimOS-Solution/sched.c:304-334 | the ready structure becomes `Enqueue` of the old one: the tail of the single list or of the process's feedback level, and `next` cleared |
| SolutionSched.Scheduler.PopFront | SimOS-Solution/sched.c:424-437 | removing and returning the head of the named list, with that list's tail cleared when it empties |
| SolutionSched.Scheduler.ScanHighest | SimOS-Solution/sched.c:357-369 | the loop returns the list element `MaxScan` picks, i.e. the first of maximal static priority |
| SolutionSched.Scheduler.UnlinkAfterHead | SimOS-Solution/sched.c:376-401 | the second loop unlinks exactly the chosen non-head element, preserving the others' order and patching `tail` |
| SolutionSched.Scheduler.HeadUnlinked | SimOS-Solution/sched.c:373-375 | when the head is chosen, moving `head` to its successor removes position 0 |
| SolutionSched.Scheduler.TakeHighestPriority | SimOS-Solution/sched.c:350-405 | the static-priority branch removes and returns exactly what `Dequeue` selects |
| SolutionSched.Scheduler.HighestLevel | SimOS-Solution/sched.c:411-422 | the level loop stops at the highest non-empty level (0 when all are empty), the level whose head `Dequeue` takes |
| SolutionSched.Scheduler.GetReadyProcess | SimOS-Solution/sched.c:346-441 | for each algorithm, the result and the remaining lists are exactly `Dequeue` of the old state |
| SolutionSched.Scheduler.LevelsEmpty | SimOS-Solution/sched.c:119-126 | the loop over the four feedback heads reports empty exactly when all four are NULL |
| SolutionSched.Scheduler.ShouldIdle | SimOS-Solution/sched.c:114-129 | `should_idle` is true exactly when the active structure is empty, and exactly when no process is READY |
| SolutionSched.Scheduler.ReadyFacts | SimOS-Solution/sched.c:114-129 | the active structure is empty exactly when its heads are NULL and exactly when no process is READY |
| SolutionSched.Scheduler.Schedule | SimOS-Solution/sched.c:161-173 | `current[cpu]` becomes the dequeued process or NULL; only a real process becomes RUNNING; the dispatch carries `time_slice`; the invariant is restored |
| SolutionSched.Scheduler.DispatchEffect | SimOS-Solution/sched.c:161-173 | dispatching what `Dequeue` selects leaves every process in exactly one place |
| SolutionSched.Scheduler.Idle | SimOS-Solution/sched.c:136-147 | with nothing ready nothing changes and the CPU keeps waiting; otherwise a ready process is dispatched on the CPU with `time_slice` |
| SolutionSched.Scheduler.ReleaseEffect | SimOS-Solution/sched.c:187-236 | the running process leaving its CPU with a new state and dynamic priority keeps lists, aging and placement consistent |
| SolutionSched.Scheduler.Requeue | SimOS-Solution/sched.c:187-197 | the running process becomes READY, its `temp_priority` drops by one with a floor of 0 under multi-level feedback, and it is enqueued |
| SolutionSched.Scheduler.Preempt | SimOS-Solution/sched.c:187-199 | `preempt`: requeue as above, then schedule from the updated structure |
| SolutionSched.Scheduler.Block | SimOS-Solution/sched.c:209-219 | the running process becomes WAITING, its `temp_priority` rises by one with a cap of 3 under multi-level feedback, and it is not queued |
| SolutionSched.Scheduler.Yield | SimOS-Solution/sched.c:209-221 | `yield`: block as above, then schedule from the unchanged ready structure |
| SolutionSched.Scheduler.Terminate | SimOS-Solution/sched.c:230-236 | the running process becomes TERMINATED, is not queued, and the CPU is rescheduled |
| SolutionSched.Scheduler.WakeEffect | SimOS-Solution/sched.c:251-258 | waking a NEW or WAITING process with its new dynamic priority keeps lists, aging and placement consistent |
| SolutionSched.Scheduler.WakeUp | SimOS-Solution/sched.c:251-291 | the process becomes READY with `temp_priority` 3 if it was NEW under multi-level feedback, it is enqueued, and under static priority the returned victim is `Victim` of `current` |
| SolutionSched.Scheduler.PreemptionTarget | SimOS-Solution/sched.c:260-289 | the scan over `current` returns exactly the intended decision `Victim` |
| StarterSched.HeadRemoved | SimOS-Materials/sched.c:277-297 | taking the head of a duplicate-free list removes exactly the head |
| StarterSched.StarterScheduler.constructor | SimOS-Materials/sched.c:53-102 | all CPUs idle, all processes NEW, an empty ready list |
| StarterSched.StarterScheduler.AddReadyProcess | SimOS-Materials/sched.c:243-264 | the list becomes old + [p], `tail` is p, `p.next` is NULL, and `head` is p exactly when the list was empty |
| StarterSched.StarterScheduler.GetReadyProcess | SimOS-Materials/sched.c:277-297 | returns and removes the head, NULL on an empty list, and `tail` is NULL once the list is empty |
| StarterSched.StarterScheduler.Schedule | SimOS-Materials/sched.c:139-150 | `current[cpu]` becomes the head or NULL, only a real process becomes RUNNING, and the quantum is always -1 |
| StarterSched.StarterScheduler.DispatchEffect | SimOS-Materials/sched.c:139-150 | dispatching the head leaves every process in exactly one place |
| StarterSched.StarterScheduler.Idle | SimOS-Materials/sched.c:111-119 | with an empty list nothing changes; otherwise the head is dispatched with quantum -1 |
| StarterSched.StarterScheduler.Preempt | SimOS-Materials/sched.c:165 | `preempt` changes nothing |
| StarterSched.StarterScheduler.ReleaseEffect | SimOS-Materials/sched.c:177-200 | the running process leaving as WAITING or TERMINATED keeps every process in exactly one place |
| StarterSched.StarterScheduler.Yield | SimOS-Materials/sched.c:177-183 | the running process becomes WAITING, is not queued, and the head is dispatched |
| StarterSched.StarterScheduler.Terminate | SimOS-Materials/sched.c:194-200 | the running process becomes TERMINATED, is not queued, and the head is dispatched |
| StarterSched.StarterScheduler.WakeEffect | SimOS-Materials/sched.c:228-231 | waking a NEW or WAITING process keeps every process in exactly one place |
| StarterSched.StarterScheduler.WakeUp | SimOS-Materials/sched.c:228-231 | the process becomes READY and is appended to the list |

## Left out

- `main` in both versions is left out: its command-line parsing, usage message, `printf` logging and `malloc`. Only its results are modelled, as the constructors' parameters. The completed scheduler's constructor takes the algorithm, `time_slice`, `cpu_count` and the process table. The starter's constructor takes only `cpu_count` and the number of processes: its `alg` and `time_slice` are dropped because no starter handler reads them (`schedule` always passes -1, SimOS-Materials/sched.c:149).
- Locks and condition variables (`pthread_mutex_*`, `pthread_cond_*`) are left out; every handler runs as one atomic step.
- Interleavings are left out. This includes the unlocked window between `idle`'s wait loop and `schedule`, and the signal in `addReadyProcess`.
- `idle` is modelled as one test of its wait loop. Blocking on the condition variable, and being woken, are not modelled.
- `context_switch`, `force_preempt` and `start_simulator` belong to the simulator engine, which is not part of this model. The first two become the values the handlers return; the third is not modelled.
- The process tables (`proc.c`) and the headers (`sched.h`, `proc.h`) hold only data and declarations. Static priorities and initial `temp_priority` values are parameters instead.
- `pcb_t*` identity is modelled by pids into the fixed process table; references outside the table are excluded by the preconditions.
- `preempt`, `yield` and `terminate` require `current[cpu]` to hold a process, and every handler requires `cpu < cpu_count`. These are assumptions taken from the handlers' comments (SimOS-Solution/sched.c:176-186, 202-208, 224-229: each is called for the process running on `cpu_id`), not facts about the simulator engine, whose code is not part of this model. In particular the model does not cover a `preempt` that arrives after its CPU has gone idle, which `force_preempt` could cause since it only asks the engine to call `preempt` later (SimOS-Solution/sched.c:248-249).
- StarterSched.StarterScheduler.constructor: the starter's `current` array is allocated but never initialised. The model starts it with every CPU idle, as in the completed version.
- SolutionSched.Scheduler.PreemptionTarget: this models the corrected scan (see Findings), not the sentinel-11 loop as written. The loop as written is `Preemption.VictimAsWritten`.
- Static priorities are `unsigned int` in the source. In the model they are unbounded naturals, because the scheduler does no arithmetic on them.
- `temp_priority` is an `int` in the model. Its 32-bit width is not modelled, because it only moves between 0 and 3.

## Findings

| source | as written | input that shows it | evidently intended | confidence | as-written member | corrected member |
|---|---|---|---|---|---|---|
| SimOS-Solution/sched.c:264-288 | the wake-up scan starts from the sentinel `lowest_priority = 11` with index -1, and calls `force_preempt(lowest_priority_index)` whenever the minimum found is below the waking priority | no CPU idle, every running process of static priority 11 or more (say one CPU running 12), and a waking process of priority 13: the scan never updates the index, so `force_preempt(-1)` is called | the minimum is taken over the running processes themselves, so the first CPU holding the minimum static priority is preempted (CPU 0 in the example) | not executed | Preemption.VictimAsWritten, Preemption.SentinelCounterexample | Preemption.Victim, SolutionSched.Scheduler.PreemptionTarget |
