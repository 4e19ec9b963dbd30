# A verified model of a discrete-time CPU-scheduling simulator

The simulator runs processes read from traces over a number of cores. A
process is a list of CPU and I/O bursts. It arrives at a given tick and
becomes a PCB. The PCB waits for the CPU on the ready list, or on the
levels of a multi-level policy. It waits for I/O on the waiting list, or
runs on a core. Every tick the engine does four things in order:

1. It admits the processes that arrive.
2. It counts down the I/O and CPU bursts in progress. A PCB whose burst is
   over is routed by its next burst, or terminates.
3. It calls the installed policy once per core while a core is free.
4. It advances the run counters and the clock.

The policies are the following:

- FCFS.
- Round robin.
- Shortest job first, pure or predictive, each optionally preemptive, plus SRTF.
- Priority with aging.
- A multi-level queue that serves its round-robin group about 80% of the
  time.
- A multi-level feedback queue.

They all share an intrusive doubly-linked list and a few helpers: the
first free core, the quantum split and the burst comparator.

There are two revisions of the engine, modelled separately:

- **`scheduler/src/`** is the newer one. It is `FakeOs.FakeOS`, with
  `Sjf`, `Priority`, `Mlq` and `Mlfq`. It shares `src/linked_list.c`,
  `src/sched_FCFS.c`, `src/sched_RR.c` and `src/sched_MLQ.c` with the
  older tree.
- **`src/`** is the older one. It is `LegacyOs.LegacyOS`, with
  `LegacySjf`, `LegacyPriority` and `LegacyMlfq`.

The helpers of src/sched_utils.c (schedule, sched_preemption, cmp) are the same code as dispatcher, sched_preemption and cmp in scheduler/src/sched_utils.c. Each is modelled once, by `SchedUtils.Dispatcher`, `SchedUtils.Preempt` and `SchedUtils.Cmp`.

Lists are sequences of PCB handles. The PCBs live in an arena, a
`seq<Pcb>` indexed by handle. The cores are an `array<Option<Handle>>`.

Each engine class keeps a ghost place for every PCB:

- queued for the CPU;
- waiting for I/O;
- on core `i`;
- in transit inside a step;
- done.

Every method keeps the lists, the levels and the cores consistent with
those places (`Places.Consistent`). Each method is also specified by value
functions (`Places.Routed`, `Scans.WaitingPass`, `Scans.RunningPass`,
`Admission.Admitted`). The loops are proved against these functions.

The per-process policy state behind `pcb->args` is the tagged union
`ProcessModel.ProcArgs`.

## Model

| member | source | states |
|---|---|---|
| LinkedList.Init | src/linked_list.c:6-11 | the new list is empty: size 0, no first, no last |
| LinkedList.Find | src/linked_list.c:13-24 | returns the item exactly when it is in the list, nothing otherwise |
| LinkedList.Insert | src/linked_list.c:26-63 | an item whose links are set (`linked`) is refused and nothing changes; otherwise the item is placed right after `prev` (at the front when prev is null), the size grows by one, and first and last are fixed |
| LinkedList.InsertAdds | src/linked_list.c:46-62 | insertion adds exactly the item and keeps a list free of repeats |
| LinkedList.Detach | src/linked_list.c:65-91 | requires membership; removes exactly that occurrence, keeps the others in order, and the size drops by one |
| LinkedList.DetachRemoves | src/linked_list.c:65-91 | detaching removes exactly one copy of the item, and from a list without repeats the item is gone |
| LinkedList.DetachAfterInsert | src/linked_list.c:26-91 | detaching an item just inserted gives back the original list |
| LinkedList.InsertAfterDetach | src/linked_list.c:26-91 | re-inserting a detached item after its old predecessor restores the list |
| LinkedList.PushBack | src/linked_list.c:93-96 | appends: the list grows by one, ends with the item and keeps its prefix; a linked item is refused |
| LinkedList.PushBackIsInsertAfterLast | src/linked_list.c:93-96 | pushBack is insert after `last` |
| LinkedList.PushFront | src/linked_list.c:98-101 | prepends the item; a linked item is refused |
| LinkedList.PopFront | src/linked_list.c:103-106 | requires a non-empty list; returns the first item and the rest |
| LinkedList.Split | src/linked_list.c:126-148 | the two halves concatenate to the list, and the left one has size/2 items |
| LinkedList.Merge | src/linked_list.c:154-177 | merging two sorted halves gives a sorted permutation of both, and for every key the items with that key appear left half first, in order |
| LinkedList.Drain | src/linked_list.c:167-177 | the leftover half is appended in order |
| LinkedList.StableSortUnique | src/linked_list.c:115-178 | two lists that are both sorted, stable permutations of the same list under one key are equal, so a stable sort's result is fully determined |
| LinkedList.Sort | src/linked_list.c:115-178 | a list of size at most 1 is unchanged; otherwise the result is sorted by the key, a permutation of the input, and stable (items with equal keys keep their order) |
| LinkedList.SortedHeadIsFirstMinimum | src/linked_list.c:157-160 | the head of the stable sort is the earliest item with the smallest key |
| SchedUtils.FirstNull | scheduler/src/sched_utils.c:18-22 | the first free core: free, and every core before it is taken |
| SchedUtils.OccupyAdds | scheduler/src/sched_utils.c:18-22 | taking the first free core adds exactly that PCB to the running ones |
| SchedUtils.FreeRemoves | scheduler/src/fake_os.c:496 | freeing a core removes exactly its PCB from the running ones |
| SchedUtils.TakeFreeCore | src/sched_FCFS.c:21-25 | the PCB goes into the first free core and the other cores are unchanged |
| SchedUtils.Dispatcher | scheduler/src/sched_utils.c:16-24 | the PCB goes into the first free core and its WAITING_TIME stats are recorded; a free core must exist |
| SchedUtils.Preempt | scheduler/src/sched_utils.c:41-64 | requires a CPU head. A head longer than the quantum becomes a burst of exactly the quantum followed by the rest, and quantum_used is set. Otherwise nothing changes. The CPU demand is kept either way |
| SchedUtils.Cmp | scheduler/src/sched_utils.c:74-91 | requires CPU heads; returns headA - headB, negative, zero or positive as A's burst is shorter, equal or longer |
| SchedUtils.FirstMin | scheduler/src/sched_SJF.c:67-76 | the first index of the smallest value: no value is smaller, and every earlier one is strictly larger |
| SchedUtils.FirstMinStep | scheduler/src/sched_Priority.c:69-79 | a scan keeping a strict minimum moves to a new item exactly when that item is strictly smaller |
| SchedUtils.FirstMinReal | scheduler/src/sched_SJF.c:67-76 | the same first minimum over real estimates |
| SchedUtils.FirstMinRealStep | scheduler/src/sched_SJF.c:67-72 | the estimate scan moves to a new item exactly when its estimate is strictly smaller |
| ProcessModel.InitStats | include/fake_process.h:64-73 | every statistic starts at zero, with no response recorded |
| ProcessModel.UpdateStats | scheduler/src/fake_os.c:348-371 | the newer procUpdateStats falls through: COMPLETE_TIME also sets the turnaround, and WAITING_TIME also sets the response (only the first time); each request changes only the fields it names |
| ProcessModel.LegacyUpdateStats | src/fake_os.c:412-433 | the older procUpdateStats sets complete and turnaround together, and waiting and response together; a TURNAROUND_TIME or RESPONSE_TIME request reaches the illegal-type assert and is an error exactly then |
| ProcessModel.LegacyUpdateStatsAgrees | src/fake_os.c:412-433 | both revisions agree on every request the older one accepts |
| ProcessModel.ResponseCapturedOnce | scheduler/src/fake_os.c:363-367 | a second dispatch leaves the response time alone |
| ProcessModel.LifecycleStats | scheduler/src/fake_os.c:348-371 | arrival, enqueue, dispatch and completion give turnaround c-a, waiting d-e and response d-a |
| ProcessModel.ElapsedU32 | scheduler/src/sched_Priority.c:54-55 | a difference of unsigned 32-bit timestamps always lies in [0, 2^32) |
| ProcessModel.ElapsedU32Congruent | scheduler/src/sched_Priority.c:54-55 | the unsigned difference is the plain one modulo 2^32 |
| ProcessModel.ElapsedU32Plain | scheduler/src/sched_Priority.c:54-55 | for timestamps in order and in range it equals the plain difference |
| ProcessModel.ElapsedU32Future | scheduler/src/sched_Priority.c:54-55 | a timestamp later than now reads as a huge elapsed time |
| Engine.CpuFull | scheduler/src/fake_os.c:119-128 | 1 exactly when every core holds a PCB with a non-zero pid |
| Engine.NotFullHasFreeCore | scheduler/src/sched_utils.c:18-22 | with pids starting at 1, cpuFull failing means exactly that some core is free, which is all dispatch needs |
| Engine.PidZeroLooksFree | scheduler/src/fake_os.c:124 | a PCB with pid 0 makes cpuFull report a free core when there is none |
| Engine.GapFrom | scheduler/src/fake_os.c:107 | the first free core from `i` on, with every core before it taken |
| Engine.IncreaseDuration | scheduler/src/fake_os.c:102-112 | the scan stops at the first free core; every PCB with a non-zero pid before it runs one tick longer, and nothing else changes |
| Engine.NoGapReachesAll | scheduler/src/fake_os.c:107-111 | with no free core, exactly the running PCBs with non-zero pids advance |
| Engine.GapHidesLaterCore | scheduler/src/fake_os.c:107 | a free first core hides the PCB on the second core |
| Engine.Summed | scheduler/src/fake_os.c:539-550 | the sums count one record per terminated process |
| Engine.SummedAppend | scheduler/src/fake_os.c:539-550 | sums over two lists add up |
| Engine.SummedOneMore | scheduler/src/fake_os.c:544-547 | one more record adds its complete - arrival, waiting and response times |
| Engine.CalculateStatistics | scheduler/src/fake_os.c:530-550 | the loop computes the integer sums and the count over terminated_stats |
| Fcfs.SchedFCFS | src/sched_FCFS.c:10-25 | an empty ready list changes nothing. Otherwise exactly the front PCB is removed, its duration is reset to 0, and it takes the first free core, with no split and no stats |
| RoundRobin.RRArgs | src/sched_RR.c:9-18 | the quantum is kept only when the scheduler is RR, otherwise 0 |
| RoundRobin.SchedRR | src/sched_RR.c:20-45 | an empty ready list changes nothing. Otherwise the front PCB is popped, its duration is reset, its burst is cut at the quantum, and it takes the first free core |
| RoundRobin.RRDispatchBounded | src/sched_RR.c:38 | the dispatched burst is at most the quantum, and no CPU time is lost |
| Sjf.SJFArgs | scheduler/src/sched_SJF.c:24-45 | prediction only for SJF_PREDICT/SJF_PREDICT_PREEMPTIVE; preemption and the quantum only for SJF_PREDICT_PREEMPTIVE/SRTF |
| Sjf.CapBurst | scheduler/src/sched_SJF.c:60-64 | the observed burst is min(head, quantum) for a non-zero quantum, else the head |
| Sjf.NewPrediction | scheduler/src/sched_SJF.c:60-66 | the estimate `W*curr + (1-W)*old`: with a weight between 0 and 1 it lies between the observed burst and the previous prediction; a weight of 1 gives the burst, a weight of 0 the previous prediction |
| Sjf.Predictions | scheduler/src/sched_SJF.c:60-66 | one estimate per candidate, in list order |
| Sjf.RecordedFrame | scheduler/src/sched_SJF.c:67-72 | after `n` candidates only the previousPrediction of those candidates may have changed; every other field and every other PCB is untouched |
| Sjf.Prediction | scheduler/src/sched_SJF.c:47-76 | null only for an empty list; otherwise the first candidate with the strictly smallest estimate, with exactly the improving estimates stored |
| Sjf.ScanAdvance | scheduler/src/sched_SJF.c:54-73 | the candidate being read is still untouched, and storing its estimate exactly when it is strictly below the shortest so far keeps the scan's state: the candidate is the first smallest estimate seen, with every improving estimate stored |
| Sjf.ScanDone | scheduler/src/sched_SJF.c:47-76 | once every candidate is read, the candidate is the first one with the smallest estimate, and null only for an empty list |
| Sjf.RecordedStep | scheduler/src/sched_SJF.c:67-72 | one more candidate changes the arena only when it improves on every earlier estimate |
| Sjf.ImprovesIffBelowMin | scheduler/src/sched_SJF.c:67-72 | a candidate improves exactly when it is below the first smallest earlier estimate |
| Sjf.HeadLengths | scheduler/src/sched_SJF.c:110-115 | the next-burst length of each ready PCB, in list order |
| Sjf.SjfPick | scheduler/src/sched_SJF.c:94-115 | the PCB schedSJF picks is on the ready list; that it is the first shortest is Sjf.PickIsFirstShortest |
| Sjf.PickIsFirstShortest | scheduler/src/sched_SJF.c:67-76 | with prediction the pick has the smallest estimate, and every PCB before it a strictly larger one |
| Sjf.Chosen | scheduler/src/sched_SJF.c:94-115 | choosing changes only the policy state and run counters |
| Sjf.Choose | scheduler/src/sched_SJF.c:94-115 | the pick is SjfPick's. By prediction the ready order is kept; in pure mode the list is a stable sort of ready by next burst (sorted, a permutation, equal keys in their old order), hence by LinkedList.StableSortUnique exactly the order List_sort leaves, with the pick at its head |
| Sjf.SchedSJF | scheduler/src/sched_SJF.c:90-126 | an empty ready list changes nothing. Otherwise the winner is detached and dispatched, and it is split only if preemptive; in pure mode the winner followed by the new ready list is the stable sort of the old ready list by next burst |
| Sjf.ChosenShape | scheduler/src/sched_SJF.c:118-125 | choosing and dispatching keep every PCB's pid and next-burst kind |
| Sjf.DispatchChosen | scheduler/src/sched_SJF.c:118-125 | the winner takes the first free core with its dispatch recorded, and is split when preemptive |
| Sjf.SortedTail | scheduler/src/sched_SJF.c:110-118 | taking the head off the sorted list leaves it sorted, and putting the head back in front gives the list again |
| LegacySjf.LegacyPrediction | src/sched_SJF.c:71-72 | the older estimate: with a weight between 0 and 1 it lies between the run counter capped at the quantum and the previous prediction; a weight of 0 gives the previous prediction |
| LegacySjf.EstimatesCompared | src/sched_SJF.c:71-72 | the older estimate observes the run counter, not the next burst: with a non-zero quantum it equals the newer one when the two coincide, and with a zero quantum it is (1-w) times the previous prediction |
| LegacySjf.Split | src/sched_SJF.c:142-150 | the inline split: a head longer than the quantum becomes the quantum followed by the rest, a shorter one is kept; nothing else changes (quantum_used is not set), and the CPU demand is kept |
| LegacySjf.SchedSJF | src/sched_SJF.c:97-151 | an empty ready list changes nothing. Otherwise the pick is detached, takes the first free core with no stats, and is split in the preemptive form; in pure mode the pick followed by the new ready list is the stable sort of the old ready list by next burst |
| LegacySjf.SplitShape | src/sched_SJF.c:128-150 | the older dispatch keeps every PCB's pid and next-burst kind |
| Priority.PriorArgs | scheduler/src/sched_Priority.c:25-34 | preemptive, keeping the quantum, only for PRIORITY_PREEMPTIVE; the aging threshold is kept |
| Priority.ResetAging | scheduler/src/sched_Priority.c:36-40 | curr_priority goes back to the base priority, and nothing else changes |
| Priority.Aged | scheduler/src/sched_Priority.c:42-61 | one step better, with last_aging set, exactly when it is below HIGH and both unsigned elapsed times reach the threshold; otherwise unchanged |
| Priority.AgingOncePerTick | scheduler/src/sched_Priority.c:52-59 | with a positive threshold a PCB ages at most once per tick |
| Priority.PriorityPick | scheduler/src/sched_Priority.c:63-80 | the pick is a ready PCB; that it is the first best after aging is Priority.PickIsFirstBest |
| Priority.PickIsFirstBest | scheduler/src/sched_Priority.c:69-79 | after aging no ready PCB has a smaller curr_priority, and every earlier one has a strictly larger one |
| Priority.Dispatched | scheduler/src/sched_Priority.c:94-105 | the chosen PCB has its waiting time recorded, is split when preemptive, and has its priority reset |
| Priority.Scheduled | scheduler/src/sched_Priority.c:82-105 | the arena keeps its size |
| Priority.ScheduledEffect | scheduler/src/sched_Priority.c:82-105 | the chosen PCB is dispatched and reset, every other ready PCB is aged once, and the rest are untouched |
| Priority.SchedPriority | scheduler/src/sched_Priority.c:82-105 | an empty ready list changes nothing. Otherwise exactly the chosen PCB is detached and takes the first free core, and the arena is as Scheduled states |
| Priority.DispatchChosen | scheduler/src/sched_Priority.c:94-105 | the chosen PCB takes the first free core and is dispatched |
| LegacyPriority.PriorArgs | src/sched_Priority.c:10-20 | preemptive, keeping the quantum, only for PRIORITY_PREEMPTIVE |
| LegacyPriority.ResetAging | src/sched_Priority.c:22-26 | curr_priority goes back to the base priority, and nothing else changes |
| LegacyPriority.Aged | src/sched_Priority.c:28-38 | one step better, with last_aging set, exactly when timer - last_aging reaches the threshold and it is below HIGH |
| LegacyPriority.AgingBounded | src/sched_Priority.c:33-37 | aging never makes a PCB worse and never lifts it past HIGH |
| LegacyPriority.AgingOncePerTick | src/sched_Priority.c:33-37 | with a positive threshold a PCB ages at most once per tick |
| LegacyPriority.PriorityPick | src/sched_Priority.c:40-57 | the pick is a ready PCB; that it is the first best after aging is LegacyPriority.PickIsFirstBest |
| LegacyPriority.PickIsFirstBest | src/sched_Priority.c:46-56 | after aging, the pick is the first PCB with the strictly smallest curr_priority |
| LegacyPriority.Dispatched | src/sched_Priority.c:66-82 | schedule records the waiting time; the burst is split when preemptive and the priority reset |
| LegacyPriority.Scheduled | src/sched_Priority.c:59-82 | the arena keeps its size |
| LegacyPriority.ScheduledEffect | src/sched_Priority.c:59-82 | the chosen PCB is dispatched and reset, every other ready PCB is aged once, and the rest are untouched |
| LegacyPriority.SchedPriority | src/sched_Priority.c:59-82 | an empty ready list changes nothing. Otherwise the chosen PCB is detached and scheduled, is split if preemptive, and has its priority reset |
| LegacyPriority.DispatchChosen | src/sched_Priority.c:66-82 | the chosen PCB takes the first free core and is dispatched |
| PriorityScan.AgedUpTo | scheduler/src/sched_Priority.c:69-79 | aging the first `n` ready PCBs keeps the arena's size |
| PriorityScan.AgedUpToAt | scheduler/src/sched_Priority.c:69-79 | after `n` items exactly those have been aged, each once |
| PriorityScan.AgedEverywhere | src/sched_Priority.c:46-56 | once the scan is over each listed PCB is aged once and the rest are untouched |
| PriorityScan.AgedPriorities | scheduler/src/sched_Priority.c:69-79 | the aged current priority of each item, in list order |
| PriorityScan.PriorityPick | scheduler/src/sched_Priority.c:63-80 | getByPriority's answer is a listed PCB; that it is the first best is PriorityScan.PickIsFirstBest |
| PriorityScan.PickIsFirstBest | scheduler/src/sched_Priority.c:69-79 | no listed PCB is better than the pick, and every earlier one is strictly worse |
| PriorityScan.GetByPriority | scheduler/src/sched_Priority.c:63-80 | null only for an empty list; otherwise the first best after aging every listed PCB in order |
| PriorityScan.Visit | scheduler/src/sched_Priority.c:70-76 | one pass of the loop body (age the item, take it when strictly better) keeps the scan's state one item further on: the first `i + 1` items aged once each, and the candidate the first best of them |
| PriorityScan.AgedStep | src/sched_Priority.c:46-56 | the item read at step `i` is still unaged |
| PriorityScan.BestStillAged | src/sched_Priority.c:46-56 | the candidate keeps its aged priority for the rest of the scan |
| Levels.HighLevels | src/sched_MLQ.c:53-57 | (int)(N*0.7), decremented when it would cover every level: always below N |
| Levels.HighLevelsOfConstants | src/sched_MLQ.c:53-57 | 3 of the MAX_PRIORITY=5 levels, and 2 of the MLFQ_QUEUES=3 levels, are round robin |
| Levels.Grow | scheduler/src/sched_MLFQ.c:65-66 | `quantum += quantum*0.40` is 1.4 times the quantum, truncated toward zero: 5 times the result is within 5 of 7 times the quantum, on the side of zero |
| Levels.GrowTruncates | src/sched_MLQ.c:60-68 | `quantum += quantum*0.40` is 1.4 times the quantum truncated; it never shrinks a non-negative quantum, and grows one of 3 or more |
| Levels.LevelPolicies | src/sched_MLQ.c:60-74 | one policy per level |
| Levels.Layout | src/sched_MLQ.c:53-74 | levels [0, high) run round robin with the grown quanta, and levels [high, N) run FCFS |
| Levels.LayoutIsLevelPolicies | scheduler/src/sched_MLFQ.c:52-74 | the loops build exactly LevelPolicies |
| Levels.QuantaGrow | scheduler/src/sched_MLFQ.c:60-68 | lower levels never get a shorter quantum |
| Levels.LevelDispatched | src/sched_MLQ.c:119-121 | a level dispatch resets the run counter, and a round-robin level cuts the burst at its quantum |
| Levels.BottomLevelKeepsMark | scheduler/src/sched_MLFQ.c:56-74 | the bottom level of every layout is FCFS, so a dispatch from it leaves quantum_used as it was |
| Levels.RunPolicy | src/sched_MLQ.c:119-121 | the level, swapped into `os->ready`, loses its head to the first free core |
| Levels.FirstNonEmpty | src/sched_MLQ.c:113-126 | the first non-empty level of the range, or none when all are empty |
| Levels.QueuedEmpty | scheduler/src/sched_MLFQ.c:200-215 | nothing is queued exactly when every level is empty |
| Levels.MoveKeepsQueued | scheduler/src/sched_MLFQ.c:108-113 | moving a PCB between levels keeps the count |
| Levels.MembersMove | scheduler/src/sched_MLFQ.c:108-113 | moving a PCB between levels keeps the members |
| Mlq.ChosenGroup | src/sched_MLQ.c:143-171 | none exactly when every level is empty; the group chosen always has work; when both groups have work, the high group is chosen exactly on its turn (no dispatch yet, or hpq_time below 80% of the total) |
| Mlq.ShareStaysNearEightyPercent | src/sched_MLQ.c:143-171 | while both groups have work, 5*hpq - 4*total stays in [-4, 1] |
| Mlq.EnqueueKeepsPlaced | src/sched_MLQ.c:103-109 | the PCB is queued only at the level its args name, and is the only one added |
| Mlq.DispatchKeepsPlaced | src/sched_MLQ.c:113-126 | dispatch removes exactly the head of the level |
| Mlq.MlqState.constructor | src/sched_MLQ.c:38-82 | MAX_PRIORITY empty levels with the Levels layout, and both counters at zero |
| Mlq.MlqState.Enqueue | src/sched_MLQ.c:103-109 | appends to ready[queue] and leaves every other level unchanged |
| Mlq.MlqState.RunLevel | src/sched_MLQ.c:117-123 | the level's head takes the first free core under the level's policy, the rest of the level is stored back and shown in `os->ready`, and the counter of the group rises by 1 while the other stays |
| Mlq.MlqState.Dispatch | src/sched_MLQ.c:113-132 | the first non-empty level of [start, end) runs its policy, is stored back, and that group's counter rises by 1; nothing happens on an empty range |
| Mlq.MlqState.GroupsEmpty | src/sched_MLQ.c:143-155 | each group is reported empty exactly when all its levels are |
| Mlq.MlqState.Schedule | src/sched_MLQ.c:134-171 | serves the group ChosenGroup names; with every level empty nothing happens, and hpq + lpq rises by exactly 1 per dispatching call |
| Mlfq.AtLevel | scheduler/src/sched_MLFQ.c:108-113 | only the level index changes |
| Mlfq.Promoted | scheduler/src/sched_MLFQ.c:103-120 | above level 0 the PCB moves to the tail of level q-1 and its index drops by one; at level 0 nothing changes; no PCB is lost |
| Mlfq.PromotedKeepsAll | scheduler/src/sched_MLFQ.c:108-113 | promotion keeps the number of queued PCBs |
| Mlfq.FirstDue | scheduler/src/sched_MLFQ.c:150-166 | the first PCB of the level qualifying for aging, with none before it qualifying |
| Mlfq.AgeLevel | scheduler/src/sched_MLFQ.c:146-166 | aging one level keeps every PCB placed at its level, keeps the members and their count, and changes only queued PCBs |
| Mlfq.AgedFrom | scheduler/src/sched_MLFQ.c:141-168 | aging over the levels from i on keeps the count and the members queued, leaves every PCB below level i where it is, and raises any other PCB by at most one level |
| Mlfq.AgeLevelRaisesOne | scheduler/src/sched_MLFQ.c:144-166 | aging one level i moves at most the PCB found due, from level i to level i-1, and no other PCB changes level |
| Mlfq.RaisedCompose | scheduler/src/sched_MLFQ.c:141-168 | a pass over level i followed by passes over the levels above i still raises each PCB by at most one level |
| Mlfq.AgingRisesAtMostOneLevel | scheduler/src/sched_MLFQ.c:141-168 | in one aging pass every queued PCB ends one level higher or where it was, and a PCB at the top level stays there: a PCB moved up lands on a level the pass has already visited |
| Mlfq.TopLevelNeverDue | scheduler/src/sched_MLFQ.c:144-156 | level 0 is never aged |
| Mlfq.PromotedOnceThisTick | scheduler/src/sched_MLFQ.c:158-165 | the first due PCB of a level rises exactly one level to the tail of level i-1 with last_aging set and, with a positive threshold, does not qualify again in the same tick |
| Mlfq.MlfqState.constructor | scheduler/src/sched_MLFQ.c:38-82 | MLFQ_QUEUES empty levels with the Levels layout, and the threshold stored |
| Mlfq.MlfqState.Promote | scheduler/src/sched_MLFQ.c:103-120 | promote_process as Promoted states |
| Mlfq.MlfqState.AgeOneLevel | scheduler/src/sched_MLFQ.c:146-166 | the levels and the arena become AgeLevel's for the stored threshold |
| Mlfq.MlfqState.Aging | scheduler/src/sched_MLFQ.c:141-168 | the levels and the arena become AgedFrom's from level 1 up |
| Mlfq.Enqueued | scheduler/src/sched_MLFQ.c:176-188 | the corrected enqueue keeps the number of levels and PCBs; where the PCB goes is stated by Mlfq.EnqueuedPlaces |
| Mlfq.EnqueuedPlaces | scheduler/src/sched_MLFQ.c:176-188 | the corrected enqueue adds exactly that PCB, once, at the level its state names, clears quantum_used, changes no other PCB, and keeps every PCB placed |
| Mlfq.MlfqState.Enqueue | scheduler/src/sched_MLFQ.c:176-188 | the corrected MLFQ_enqueue: demotion moves the PCB one level down unless at the bottom, the flag is cleared, and it is queued exactly once |
| Mlfq.MlfqState.Schedule | scheduler/src/sched_MLFQ.c:196-215 | ages first, then the lowest-index non-empty level runs its policy and is written back; with every level empty only the aging happens |
| Mlfq.MlfqState.ServeFirst | scheduler/src/sched_MLFQ.c:200-215 | the first non-empty level is served and stored back |
| MlfqAsWritten.DetachAsWritten | src/linked_list.c:65-91 | List_detach on an unlinked non-member leaves the items alone but still decrements size |
| MlfqAsWritten.PushBackSized | src/linked_list.c:93-96 | pushBack appends and increments size |
| MlfqAsWritten.EnqueueAsWritten | scheduler/src/sched_MLFQ.c:122-139 | MLFQ_enqueue and demote_process as written keep the number of levels and PCBs |
| MlfqAsWritten.DemoteMiscountsLevel | scheduler/src/sched_MLFQ.c:127-129 | demoting a PCB that came off a core leaves its old level with a size one less than its items |
| MlfqAsWritten.FirstSized | scheduler/src/sched_MLFQ.c:200-211 | the first level whose size field is positive |
| MlfqAsWritten.MiscountHidesPcb | scheduler/src/sched_MLFQ.c:200-211 | on a concrete state, a PCB still at level 0 is passed over because that level's size reads 0 |
| MlfqAsWritten.BottomLevelLosesPcb | scheduler/src/sched_MLFQ.c:181-185 | at the bottom level, a PCB with quantum_used set is pushed nowhere |
| LegacyMlfq.MlfqLayout | src/sched_MLFQ.c:28-48 | two round-robin levels with the quantum grown by 40%, then one FCFS level |
| LegacyMlfq.Promote | src/sched_MLFQ.c:54-61 | only under MLFQ and above level 0: the priority drops by one and the promotion count is cleared |
| LegacyMlfq.Demote | src/sched_MLFQ.c:63-74 | under MLFQ the priority rises by one, bounded by N-1, and the promotion count is cleared |
| LegacyMlfq.LevelStaysInRange | src/sched_MLFQ.c:54-74 | promotion and demotion keep the level in range |
| LegacyMlfq.PromoteUndoesDemote | src/sched_MLFQ.c:54-74 | away from the edges, promotion undoes demotion and vice versa |
| LegacyMlfq.Aged | src/sched_MLFQ.c:78-92 | a PCB is promoted exactly when the unsigned timer - last_enqueued_time is strictly above AGING |
| LegacyMlfq.AgedRisesOneLevel | src/sched_MLFQ.c:78-92 | aging lifts a due PCB exactly one level, never past 0 |
| LegacyMlfq.AgingProc | src/sched_MLFQ.c:76-94 | under MLFQ every PCB listed at some level is aged once, where it is, and every other PCB is untouched; under any other policy nothing changes |
| LegacyMlfq.AgeLevel | src/sched_MLFQ.c:80-91 | one level's walk ages each of its PCBs once |
| LegacyMlfq.StaleLevel | src/sched_MLFQ.c:99-106 | without write-back, the served level is left listing only the served PCB, with its old size |
| LegacyMlfq.LegacyMlfqState.constructor | src/sched_MLFQ.c:9-52 | empty levels with the MlfqLayout policies |
| LegacyMlfq.LegacyMlfqState.ScheduleAsWritten | src/sched_MLFQ.c:96-108 | the first level with a positive size is served through the ready copy and is not written back |
| LegacyMlfq.LegacyMlfqState.Schedule | src/sched_MLFQ.c:96-108 | the corrected schedMLFQ: the served level is written back with one less in size |
| LegacyMlfq.StaleLevelServedAgain | src/sched_MLFQ.c:99-106 | without write-back, the next call serves the same PCB again while it is on a core |
| LegacyMlfq.WriteBackKeepsCount | src/sched_MLFQ.c:99-106 | with write-back, a counted level stays counted and no longer lists the served PCB |
| Places.Destination | scheduler/src/fake_os.c:380-413 | where the next burst sends a PCB: done with none, waiting with I/O, queued with CPU |
| Places.Stamped | src/fake_os.c:412-433 | the statistics update of the revision routing: COMPLETE_TIME sets the completion and the turnaround, READY_ENQUEUE the enqueue time |
| Places.EnqueueStamp | src/fake_os.c:376-391 | the older admission records no ready enqueue; every other router does |
| Places.Routed | scheduler/src/fake_os.c:380-413 | done: stats appended to terminated with completion; I/O: tail of waiting (the older engine resets aging after a CPU burst); CPU: tail of ready, or the MLQ/MLFQ level, with the enqueue time |
| Places.RoutedLists | scheduler/src/fake_os.c:380-413 | routing only appends the PCB: to waiting exactly for an I/O head, to ready for a CPU head under a ready-list policy |
| Places.RoutedKeeps | src/fake_os.c:493-519 | routing a PCB in transit puts it where its next burst says, keeping every list, level and core consistent |
| Places.RoutedDone | scheduler/src/fake_os.c:406-412 | a finished PCB becomes done and only adds a terminated record |
| Places.RoutedToWaiting | src/fake_os.c:569-575 | a PCB facing I/O waits at the back of the waiting list |
| Places.RoutedToReady | src/fake_os.c:564-568 | a PCB facing the CPU is queued at the back of the ready list |
| Places.RoutedToLevel | scheduler/src/fake_os.c:387-394 | under MLQ or MLFQ it is queued at the back of its level |
| Places.WaitingToTransit | scheduler/src/fake_os.c:459-461 | a waiting PCB, changed as given, leaves the waiting list for transit with every list, level and core still consistent |
| Places.CoreToTransit | scheduler/src/fake_os.c:489-496 | a running PCB, changed as given, leaves its core for transit with every list, level and core still consistent |
| Places.ReadyDispatchKeeps | scheduler/src/sched_utils.c:16-24 | a ready-list dispatch moves the PCB from ready to the first free core, keeping consistency |
| Places.LevelDispatchKeeps | src/sched_MLQ.c:113-126 | a level dispatch moves the head of its level to the first free core |
| Scans.Ticked | scheduler/src/fake_os.c:456 | the head burst drops by one tick |
| Scans.Popped | scheduler/src/fake_os.c:459 | the finished burst is dropped |
| Scans.WaitingPass | scheduler/src/fake_os.c:448-465 | the value of the waiting scan over the PCBs still to visit; it keeps the arena's size and the number of levels (its effect is stated by the lemmas that follow) |
| Scans.WaitingPassFrame | scheduler/src/fake_os.c:448-465 | the scan changes only the PCBs it visits, and only adds to ready and terminated |
| Scans.WaitingPassTicks | scheduler/src/fake_os.c:456 | a waiting PCB with ticks left is ticked once and stays waiting |
| Scans.WaitingPassReadies | src/fake_os.c:486-503 | a PCB whose I/O ends before a CPU burst ends up on the ready list |
| Scans.NextIoBurstTickedAtOnce | scheduler/src/fake_os.c:450-465 | an I/O burst following one that just ended is decremented again in the same tick when the PCB was not last |
| Scans.FirstWaitsAgain | scheduler/src/fake_os.c:450-465 | such a PCB is pushed back to waiting and visited again |
| Scans.NextIoBurstWaitsWhenLast | src/fake_os.c:479-521 | when the PCB was last in the list, its next I/O burst is not ticked in that step |
| Scans.CoreVisit | scheduler/src/fake_os.c:475-498 | one core's visit keeps the engine consistent with the cores, and keeps the core count and the arena size (its effect is Scans.CoreVisitEffect) |
| Scans.RunningPass | scheduler/src/fake_os.c:473-499 | the running scan from core `i` on keeps the core count and the arena size (its effect is stated by the lemmas that follow) |
| Scans.ScanFrom | scheduler/src/fake_os.c:470-499 | the scan from core `i` with cpu_using already `busy`: it keeps the sizes, never lowers cpu_using, and from past the last core changes nothing |
| Scans.CoreVisitEffect | scheduler/src/fake_os.c:475-498 | one visit changes only the PCB on core `i`, keeping its pid, and only core `i`; a burst with ticks left is ticked once and keeps its core, a burst that ends frees it |
| Scans.ScanFromStep | scheduler/src/fake_os.c:473-499 | the scan from core `i` is the visit of core `i` followed by the scan from core `i + 1`, with cpu_using raised when core `i` was in use |
| Scans.RunningPassShape | scheduler/src/fake_os.c:469-499 | the running scan from core `i` on keeps every pid, and changes a core only by freeing it, and only from `i` on |
| Scans.RunningPassBusy | scheduler/src/fake_os.c:471-485 | cpu_using is set exactly when some core visited is in use |
| Scans.RunningPassFrame | scheduler/src/fake_os.c:469-499 | the scan changes no PCB that is on no visited core |
| Scans.RunningPassAt | src/fake_os.c:536-591 | a core's burst with ticks left is ticked and the PCB stays; one that ends frees the core |
| Scans.BusyIffOccupied | scheduler/src/fake_os.c:501-503 | with pids from 1, the busy time rises exactly when some core held a PCB |
| Steps.FreeCount | scheduler/src/fake_os.c:511-518 | the number of free cores, at most the core count |
| Steps.OccupyFrees | scheduler/src/fake_os.c:511-518 | taking a free core leaves one fewer |
| Steps.BacklogByPlaces | scheduler/src/fake_os.c:511-518 | there is a backlog exactly when some PCB is queued |
| Steps.ServedProgress | scheduler/src/fake_os.c:514-516 | a policy call takes one more core when a PCB waits, and leaves nothing waiting otherwise |
| Steps.StoppedMeansDone | scheduler/src/fake_os.c:668-674 | when the main loop stops after a step that kept every core busy while any PCB waited, every PCB has terminated |
| Steps.Arriving | scheduler/src/fake_os.c:424-444 | the processes due now, no more than the list holds (which ones is ArrivalMembers) |
| Steps.Staying | scheduler/src/fake_os.c:424-444 | the processes not yet due, no more than the list holds (which ones is ArrivalMembers) |
| Steps.ArrivalMembers | scheduler/src/fake_os.c:431-439 | the processes due are exactly those whose arrival is the timer |
| Steps.ArrivalsSplit | scheduler/src/fake_os.c:424-444 | every process arrives or stays, none lost or doubled |
| Steps.AdmitVerdict | scheduler/src/fake_os.c:284-324 | the abort of createPcb, checked in order: time mismatch, pid taken, no events |
| Steps.PidOnCores | scheduler/src/fake_os.c:287-292 | true exactly when some core holds a PCB with that pid |
| Steps.PidListed | scheduler/src/fake_os.c:294-308 | true exactly when a listed PCB has that pid |
| Steps.AdmitChecks | scheduler/src/fake_os.c:284-324 | the checks of createPcb, in their order, give exactly AdmitVerdict; src/fake_os.c:335-372 makes the same checks in the same order, and both engines call this |
| Steps.DurationsKeep | scheduler/src/fake_os.c:102-112 | advancing run counters keeps consistency |
| Admission.NewPcb | scheduler/src/fake_os.c:311-322 | the new PCB has the process's pid, events and priority, duration 0, quantum_used 0, the installed kind's args, and the arrival time recorded |
| Admission.NewPcbFits | src/fake_os.c:362-370 | an admissible process gives a PCB with pid > 0 and the state its policy reads |
| Admission.Admitted | scheduler/src/fake_os.c:424-444 | the admissions of one step: each process due becomes the next PCB and is routed |
| Admission.AdmittedNew | src/fake_os.c:451-472 | the existing PCBs are untouched, and the new ones take the next handles in arrival order with the processes' pids and bursts |
| Admission.AdmittedStep | scheduler/src/fake_os.c:431-443 | one more process: one not due changes nothing, one due becomes NewPcb at the next handle and is routed |
| Admission.ScanAdvance | scheduler/src/fake_os.c:424-444 | the arrival scan's invariant holds after one more process: the list is the staying processes then the unvisited ones, and the queues are Admitted's |
| Admission.ScanOne | scheduler/src/fake_os.c:435-439 | one more process either arrives or stays |
| FakeOs.PolicyFor | scheduler/src/fake_os.c:156-202 | the policy each kind installs (Installs): SJF kinds get SJFArgs of the quantum, priority kinds PriorArgs of the quantum and the aging threshold, RR the quantum |
| FakeOs.SjfOutcome | scheduler/src/sched_SJF.c:90-126 | schedSJF's result, read into the engine, keeps consistency and makes progress |
| FakeOs.PriorityOutcome | scheduler/src/sched_Priority.c:82-105 | schedPriority's result, read into the engine, keeps consistency and makes progress |
| FakeOs.MlqLevel | src/sched_MLQ.c:143-171 | the level schedMLQ serves is the first non-empty one of the chosen group |
| FakeOs.MlqOutcome | src/sched_MLQ.c:134-171 | schedMLQ's result, read into the engine, keeps consistency and makes progress |
| FakeOs.MlfqOutcome | scheduler/src/sched_MLFQ.c:196-215 | schedMLFQ's result, read into the engine, keeps consistency and makes progress |
| FakeOs.FakeOS.constructor | scheduler/src/fake_os.c:135-148 | free cores, empty lists, no scheduler yet, the timer and busy time at zero |
| FakeOs.FakeOS.SetScheduler | scheduler/src/fake_os.c:156-202 | installs the policy PolicyFor names, with its levels for MLQ/MLFQ |
| FakeOs.FakeOS.Install | scheduler/src/fake_os.c:200-201 | the field updates of setScheduler |
| FakeOs.FakeOS.AddProcess | scheduler/src/fake_os.c:210-279 | a traced process joins the processes to come |
| FakeOs.FakeOS.EnqueueProcess | scheduler/src/fake_os.c:380-413 | the state becomes Routed for the newer engine, and the PCB's place becomes its Destination |
| FakeOs.FakeOS.Route | scheduler/src/fake_os.c:382-404 | the state becomes Routed for the newer engine: by the next burst to MLFQ_enqueue, MLQ_enqueue, the ready list or the waiting list; the MLQ counters are kept |
| FakeOs.FakeOS.RouteList | scheduler/src/fake_os.c:392-411 | routing without levels |
| FakeOs.FakeOS.RouteMlq | scheduler/src/fake_os.c:390-394 | MLQ_enqueue, then the enqueue time |
| FakeOs.FakeOS.RouteMlfq | scheduler/src/fake_os.c:388-394 | the corrected MLFQ_enqueue, then the enqueue time |
| FakeOs.FakeOS.CreatePcb | scheduler/src/fake_os.c:281-327 | an abort is returned as AdmitVerdict's error and changes nothing; otherwise the new PCB joins the arena and is routed as Routed states |
| FakeOs.FakeOS.AdmitAndRoute | scheduler/src/fake_os.c:321-326 | the PCB joins the arena and is routed |
| FakeOs.FakeOS.Admit | scheduler/src/fake_os.c:311-322 | the PCB joins the arena in transit |
| FakeOs.FakeOS.Arrivals | scheduler/src/fake_os.c:424-444 | the processes due leave the list, in order, and are admitted as Admitted states; the first abort stops the scan |
| FakeOs.FakeOS.ScanProcess | scheduler/src/fake_os.c:427-443 | one round of the arrival scan |
| FakeOs.FakeOS.AdmitNext | scheduler/src/fake_os.c:436-442 | the process is detached and createPcb admits it |
| FakeOs.FakeOS.TakeProcess | scheduler/src/fake_os.c:439 | List_detach on the processes to come |
| FakeOs.FakeOS.ScanWaiting | scheduler/src/fake_os.c:448-465 | the state becomes WaitingPass |
| FakeOs.FakeOS.VisitWaiting | scheduler/src/fake_os.c:452-464 | one visit keeps WaitingPass's result and shrinks the work left |
| FakeOs.FakeOS.TickWaiting | scheduler/src/fake_os.c:456 | the I/O burst ticks and has time left |
| FakeOs.FakeOS.FinishWaiting | scheduler/src/fake_os.c:457-464 | the PCB leaves waiting and is routed |
| FakeOs.FakeOS.LeaveWaitingList | scheduler/src/fake_os.c:459-461 | the PCB leaves the waiting list, changed as given |
| FakeOs.FakeOS.ScanRunning | scheduler/src/fake_os.c:469-499 | the state, the cores and cpu_using become RunningPass |
| FakeOs.FakeOS.VisitCore | scheduler/src/fake_os.c:475-498 | the state and the cores become Scans.CoreVisit of core `i`, and the flag says whether core `i` held a PCB with a nonzero pid; the scan position advances by one |
| FakeOs.FakeOS.TickCore | scheduler/src/fake_os.c:486-488 | the CPU burst ticks and has time left |
| FakeOs.FakeOS.FinishCore | scheduler/src/fake_os.c:489-497 | the PCB is routed and its core freed |
| FakeOs.FakeOS.LeaveCore | scheduler/src/fake_os.c:491-496 | the PCB leaves its core, changed as given |
| FakeOs.FakeOS.FreeSlot | scheduler/src/fake_os.c:496 | `*running = 0`: core `i` becomes free and no other core changes |
| FakeOs.FakeOS.Store | scheduler/src/fake_os.c:486-496 | the PCBs and waiting list a step computes become the engine's, with the places given, keeping the engine consistent |
| FakeOs.FakeOS.RunFcfs | src/sched_FCFS.c:10-25 | the head of ready takes the first free core with duration 0; nothing happens on an empty list |
| FakeOs.FakeOS.RunRR | src/sched_RR.c:20-45 | the head of ready takes the first free core with duration 0 and its burst cut at the quantum |
| FakeOs.FakeOS.RunSjf | scheduler/src/sched_SJF.c:90-126 | schedSJF as the engine calls it; in pure mode the dispatched PCB followed by the new ready list is the stable sort of the old one by next burst |
| FakeOs.FakeOS.RunPriority | scheduler/src/sched_Priority.c:82-105 | schedPriority as the engine calls it |
| FakeOs.FakeOS.RunMlq | src/sched_MLQ.c:134-171 | schedMLQ as the engine calls it, the served level becoming the ready copy |
| FakeOs.FakeOS.RunMlfq | scheduler/src/sched_MLFQ.c:196-215 | schedMLFQ as the engine calls it |
| FakeOs.FakeOS.Schedule | scheduler/src/fake_os.c:516 | one policy call keeps consistency and makes progress |
| FakeOs.FakeOS.Commit | scheduler/src/fake_os.c:516 | the lists a policy returns are written back |
| FakeOs.FakeOS.ScheduleRound | scheduler/src/fake_os.c:511-518 | at most `cores` calls, each only while cpuFull fails; afterwards every core is busy or nothing waits |
| FakeOs.FakeOS.IncreaseRunning | scheduler/src/fake_os.c:521 | increaseDuration on the engine's state |
| FakeOs.FakeOS.CountBusy | scheduler/src/fake_os.c:502-503 | cpu_busy_time rises by one exactly when a core was in use |
| FakeOs.FakeOS.Tick | scheduler/src/fake_os.c:522 | the timer rises by one |
| FakeOs.FakeOS.ScanCores | scheduler/src/fake_os.c:446-503 | the new queues and cores are exactly WaitingPass followed by RunningPass from core 0, with the busy time rising exactly when some core held a PCB |
| FakeOs.FakeOS.EndStep | scheduler/src/fake_os.c:520-522 | increaseDuration and the clock; when the loop test then fails every PCB is done |
| FakeOs.FakeOS.SimStep | scheduler/src/fake_os.c:420-523 | a step: an abort of createPcb ends it with the clock and busy time unchanged; otherwise the processes due leave the list, the timer rises by 1, the busy time by 1 exactly when a core was occupied, afterwards every core is busy or nothing waits, and a failing loop test means every PCB is done |
| FakeOs.FakeOS.Continues | scheduler/src/fake_os.c:668-671 | the loop goes on exactly while some core holds a PCB or ready, waiting or processes is non-empty |
| LegacyOs.PolicyFor | src/fake_os.c:201-241 | MLFQ is refused; otherwise the policy, with PriorArgs for the priority kinds and the quantum for RR |
| LegacyOs.SjfOutcome | src/sched_SJF.c:97-151 | the older schedSJF's result, read into the engine, keeps consistency and makes progress |
| LegacyOs.PriorityOutcome | src/sched_Priority.c:59-82 | the older schedPriority's result, read into the engine, keeps consistency and makes progress |
| LegacyOs.LegacyOS.constructor | src/fake_os.c:100-112 | free cores, empty lists, the timer and busy time at zero, no schedule_fn |
| LegacyOs.LegacyOS.SetScheduler | src/fake_os.c:201-241 | MLFQ fails and changes nothing; any other kind installs the policy of PolicyFor |
| LegacyOs.LegacyOS.AddProcess | src/fake_os.c:304-330 | a traced process joins the processes to come |
| LegacyOs.LegacyOS.Reroute | src/fake_os.c:493-519 | the state becomes Routed for the older engine, and the PCB's place becomes its Destination |
| LegacyOs.LegacyOS.Route | src/fake_os.c:559-586 | done: stats with COMPLETE_TIME appended to terminated; I/O: resetAging after a CPU burst, then the waiting tail; CPU: the ready tail, with READY_ENQUEUE except at admission |
| LegacyOs.LegacyOS.CreatePcb | src/fake_os.c:332-392 | an abort is returned as AdmitVerdict's error and changes nothing; otherwise the PCB joins the arena and is routed with no ready-enqueue time |
| LegacyOs.LegacyOS.AdmitAndRoute | src/fake_os.c:376-391 | the new PCB joins the arena and goes where its first burst sends it |
| LegacyOs.LegacyOS.Admit | src/fake_os.c:362-370 | the PCB joins the arena in transit |
| LegacyOs.LegacyOS.Arrivals | src/fake_os.c:451-472 | the processes due leave the list, in order, and are admitted as Admitted states |
| LegacyOs.LegacyOS.ScanProcess | src/fake_os.c:454-471 | one round of the arrival scan |
| LegacyOs.LegacyOS.AdmitNext | src/fake_os.c:463-471 | the process is detached and createPcb admits it |
| LegacyOs.LegacyOS.TakeProcess | src/fake_os.c:466 | List_detach on the processes to come |
| LegacyOs.LegacyOS.ScanWaiting | src/fake_os.c:477-521 | the state becomes WaitingPass for the older router |
| LegacyOs.LegacyOS.VisitWaiting | src/fake_os.c:481-520 | one visit keeps WaitingPass's result and shrinks the work left |
| LegacyOs.LegacyOS.TickWaiting | src/fake_os.c:483-485 | the I/O burst ticks and has time left |
| LegacyOs.LegacyOS.FinishWaiting | src/fake_os.c:486-520 | the PCB leaves waiting and is routed |
| LegacyOs.LegacyOS.LeaveWaitingList | src/fake_os.c:488-492 | the PCB leaves the waiting list, changed as given |
| LegacyOs.LegacyOS.ScanRunning | src/fake_os.c:532-591 | the state, the cores and cpu_using become RunningPass for the older router |
| LegacyOs.LegacyOS.VisitCore | src/fake_os.c:539-590 | the state and the cores become Scans.CoreVisit of core `i` for the older router, skipping free cores and pid 0; the scan position advances by one |
| LegacyOs.LegacyOS.TickCore | src/fake_os.c:550-552 | the CPU burst ticks and has time left |
| LegacyOs.LegacyOS.FinishCore | src/fake_os.c:553-589 | the PCB is routed and its core set to 0 |
| LegacyOs.LegacyOS.LeaveCore | src/fake_os.c:555-588 | the PCB leaves its core, changed as given |
| LegacyOs.LegacyOS.RunFcfs | src/sched_FCFS.c:10-25 | the head of ready takes the first free core with duration 0 |
| LegacyOs.LegacyOS.RunRR | src/sched_RR.c:20-45 | the head of ready takes the first free core with duration 0 and its burst cut |
| LegacyOs.LegacyOS.RunSjf | src/sched_SJF.c:97-151 | the older schedSJF as the engine calls it; in pure mode the dispatched PCB followed by the new ready list is the stable sort of the old one by next burst |
| LegacyOs.LegacyOS.RunPriority | src/sched_Priority.c:59-82 | the older schedPriority as the engine calls it, the arena becoming Scheduled |
| LegacyOs.LegacyOS.Schedule | src/fake_os.c:619 | one policy call keeps consistency and makes progress |
| LegacyOs.LegacyOS.Commit | src/fake_os.c:619 | the lists a policy returns are written back |
| LegacyOs.LegacyOS.ScheduleRound | src/fake_os.c:613-621 | with no schedule_fn nothing changes; with one, afterwards every core is busy or nothing waits |
| LegacyOs.LegacyOS.IncreaseRunning | src/fake_os.c:66-76 | increaseDuration on the engine's state |
| LegacyOs.LegacyOS.CountBusy | src/fake_os.c:594-595 | cpu_busy_time rises by one exactly when a core was in use |
| LegacyOs.LegacyOS.Tick | src/fake_os.c:625 | the timer rises by one |
| LegacyOs.LegacyOS.ScanCores | src/fake_os.c:474-595 | the new queues and cores are exactly the older WaitingPass followed by the older RunningPass (completion after the burst) from core 0, with the busy time rising exactly when some core held a PCB |
| LegacyOs.LegacyOS.EndStep | src/fake_os.c:624-625 | increaseDuration and the clock; when the loop test then fails every PCB is done |
| LegacyOs.LegacyOS.SimStep | src/fake_os.c:441-626 | a step: an abort of createPcb ends it with the clock and busy time unchanged; otherwise the processes due leave the list, the timer rises by 1, the busy time by 1 exactly when a core was occupied, and with a policy installed every core is busy or nothing waits afterwards |

## Left out

- Trace, histogram and command-line input are not modelled: FakeOS_loadHistogram, FakeOS_createEventProc, FakeOS_createProcess, argument parsing and the directory walks. The processes they build are given to `AddProcess`.
- The histogram quantum computed by weightedMeanQuantum is the `quantum` parameter of `SetScheduler`.
- PREDICTION_WEIGHT and AGING_FACTOR are defined in no file of this model. The prediction weight is the parameter `w`. AGING_FACTOR is the `agingFactor` parameter of the `FakeOs.FakeOS` constructor. The threshold `quantum * AGING_FACTOR` is an integer, while the source computes a float, so a fractional factor is not modelled. MLFQ_QUEUES is 3, as include/fake_os.h defines it.
- FCFSArgs is defined in no file of this model. schedFCFS never reads its arguments, so FCFS_PREEMPTIVE installs plain FCFS.
- SJFArgs of the older engine is not defined in src/, so `LegacyOs.LegacyOS.SetScheduler` takes the SJF configuration as a parameter.
- The older agingProc reads `args->agingThreshold` from the PCB's priority state, but no definition of that state among these files has such a field, and nothing sets it. The model stores the threshold in that state (`ProcLegacyPrior`). `Admission.LegacyArgsFor` fills it from the threshold `LegacyOs.LegacyOS` takes as a constructor parameter, with curr_priority the trace priority and last_aging 0.
- src/fake_process.c setArgs is not modelled: for SJF it stores the address of a local variable. Admission gives every PCB the policy state its policy reads (`Admission.ArgsFor`, `Admission.LegacyArgsFor`). The stat setters FakeProcess_arrivalTime, lastEnqueuedTime, waitingTime, completeTime, turnaroundTime and responseTime are only declared (include/fake_process.h:102-107); no file of this model defines them. `ProcessModel` gives them the meaning their names and the statistics document: `AddWaiting` adds the time since the last ready enqueue to the waiting time, `SetResponse` records the time since arrival at the first dispatch only, and the others store the timer or the time since arrival.
- The older createPcb never sets quantum_used, so it holds whatever malloc returned. The model starts it false.
- The older sources use PCB fields that the header include/fake_process.h does not declare: curr_priority, base_priority, promotion, previousPrediction and last_enqueued_time. `ProcessModel.Pcb` carries `promotion` and `lastEnqueued`; curr_priority and the prediction live in the policy state `args`.
- Printing, the float averages, utilisation and throughput of calculateStatistics, and the histogram statistics (calculateWeightedMean, calculateAgingThreshold) are not modelled. Only the integer sums are kept.
- ProcessModel follows the ProcessPriority order of include/fake_process.h: REALTIME 0, HIGH 1, NORMAL 2, IDLE 3, BATCH 4, MAX_PRIORITY 5. include/fake_os.h:37-44 declares the same enum in reverse (IDLE 0, NORMAL 1, HIGH 2, REALTIME 3, MAX_PRIORITY 4), and it cannot be compiled together with fake_process.h, which it includes. The order fixes the number of MLQ levels (5, 3 of them round robin), the HIGH bound of both aging rules and the priorities `Admission.Admissible` accepts. Under the fake_process.h order the schedulers' rule "smaller curr_priority wins" and aging's decrement towards HIGH both make a priority better, which is what aging is for; under the reverse order aging would make a priority worse.
- Admission.Admissible: `AddProcess` and `CreatePcb` of both engines require every process's priority to lie in [0, MAX_PRIORITY), while the trace reader of scheduler/src/fake_os.c:243 accepts any `Priority %d`. Only MLQ indexes a level by the priority; a process outside that range is not modelled under any policy.
- The SJF estimate is computed in `real`, not in double-precision rounding.
- Memory management (malloc, free, memset, destroy functions) is replaced by the arena; handles are never reused.
- An `assert` of the source that aborts is modelled as an error result (`Steps.AdmitError`, `ProcessModel.StatError`, `SetScheduler` returning false), or as a precondition where the engine's own invariant guarantees it.
- The `_SBS_DEBUG_` pause, the generator/ and test/ trees are not modelled.
- The older main loop (src/fake_os.c:746-749) has the same test as the newer one. It is modelled once, by `FakeOs.FakeOS.Continues` over the newer engine's state, and `LegacyOs.LegacyOS.EndStep` states what its failing means.
- FakeOs.FakeOS.Schedule and LegacyOs.LegacyOS.Schedule state only consistency and progress; what each policy does is in the per-policy Run method they dispatch to.
- FakeOs.FakeOS.FinishCore and LegacyOs.LegacyOS.FinishCore free the core before routing, while the source nulls the slot after the enqueue. Nothing in between reads the slot, so the resulting state is the same.
- LegacyOs.LegacyOS.Route resets aging only for PCBs carrying priority state. In the source, resetAging under any other policy writes through a null or foreign `args` pointer, which has no model.
- LegacyOs.LegacyOS.SetScheduler refuses MLFQ, as the source's assertion does. The older MLFQ policy (`LegacyMlfq`) is therefore modelled on its own, not reached from the older engine.
- Under MLQ/MLFQ the ready list is only the copy of the last level served (`os->ready = level` aliasing). The model keeps that copy, but the levels are the real queue.
- FakeOs.FakeOS.SetScheduler and LegacyOs.LegacyOS.SetScheduler require that no PCB exists yet, as the main program calls them. Changing the policy mid-run would leave PCBs with the wrong args, which the source does not handle.

## Findings

| source | as written | input that shows it | evidently intended | confidence | as-written member | corrected member |
|---|---|---|---|---|---|---|
| scheduler/src/sched_MLFQ.c:129 | demote_process detaches a PCB that has just come off a core from ready[queue], where it is not a member; List_detach still decrements that level's size | PCB 0 comes off a core with quantum_used while PCB 1 waits at level 0 (size 1): afterwards level 0 lists PCB 1 but reads size 0, and schedMLFQ skips it | move the PCB to the next level without touching the level it is not in | not executed | MlfqAsWritten.DemoteMiscountsLevel | Mlfq.MlfqState.Enqueue |
| scheduler/src/sched_MLFQ.c:181-185 | at the bottom level a PCB with quantum_used set goes through demote_process, which does nothing there, and is never pushed | latent, not reachable as the program is configured: a PCB at level MLFQ_QUEUES-1 that returned from a core with quantum_used would be listed at no level afterwards. The bottom level always runs FCFS, which never sets quantum_used, and every demotion clears it (Levels.BottomLevelKeepsMark) | queue it at the back of the bottom level | not executed | MlfqAsWritten.BottomLevelLosesPcb | Mlfq.MlfqState.Enqueue |
| src/sched_MLFQ.c:99-106 | schedMLFQ runs the level's policy on the copy in `os->ready` and never writes it back, so the level still starts with the dispatched PCB | any call with a non-empty first level: the next call serves the same PCB again while it is on a core | store the rest of the level back, as scheduler/src/sched_MLFQ.c does | not executed | LegacyMlfq.StaleLevelServedAgain | LegacyMlfq.LegacyMlfqState.Schedule |
