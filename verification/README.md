# AffinityGraph: a verified model of its control loop

AffinityGraph watches the threads of a process, builds a sliding graph of who works with whom,
plans where threads should run, and writes CPU affinity masks. This project models that control
loop in Dafny and proves what its parts guarantee, alone and together.

- `Lists`, `Counting`, `Topology`, `Threads`: orders and sorting, populations and loads with the
  pigeonhole principle, the machine, thread records.
- The incremental solver (`src/solver.cpp`): `NodePlanner`, `CpuPlanner`, `Pinning`, `Optimizer`
  model its algorithms; `SolverState` its state, invariant and transitions on values; `Admission`
  and `Windows` one call of `propose`; `IncrementalSolver` the object; `Protocol` what the runtime
  does with it around a proposal; `StartUp`, `SolverRuns` and `SolverCaveats` whole runs and the
  limits of the guarantees. `Hotspots` and `ManagedThreads`
  select what the solver sees.
- The actuator (`src/actuator.cpp`): `Actuator`, over a kernel that may refuse any call, lose any
  thread, and even leave a wrong mask behind.
- The domain solver (`src/domain_solver.cpp`): `NodeChoice`, `Components`, `Evidence`, `Domains`,
  `DomainPlan`, `Holding`, `DomainProposal`, `DomainWindow` model one window; `DomainSolver` is
  the object with its histories.
- `Runtime` and `DomainRuntime`: the window steps of `src/runtime.cpp` that join a solver and the
  actuator, and the agreement of placement and kernel over whole runs; `DomainRuns`: what the
  streaks and the evidence of the domain solver mean over such a run.
- The relation graph (`src/graph.cpp`): `GraphStatistics`, `GraphWindow`, `GraphDelta`.
- CPU lists (`src/config.cpp`): `CpuList`.

Conventions. Doubles are exact reals and the literal 1e-12 is the constant `EPS`. Tuples and
comparators are lexicographic keys. Vectors that the source keeps sorted and duplicate-free are
sets or maps. Domain ids, action keys and plan signatures are structured values instead of joined
strings; family names are their ranks. Every CPU of the envelope is online, hardware and options
are fixed for the life of a solver, thread ids within a window are unique, and the clock does not
run backwards. Thrown exceptions are `Result` errors or reports. Invariants carry ghost histories
(moves, drops, evaluations, signatures, evidence), so that a promise about time is a promise about
the whole run.

Runs. Each theorem about whole runs returns the trace of the run: one state (or world) for every
entry of the script, each related to the one before by what the script says. A run of a runtime ends
early only after the kernel has refused a call, so over a kernel that never refuses none does.

Findings. Where the code does less than its comments suggest, the model follows the code, a lemma
shows the input, and another states exactly when the property holds.

- A plan under confirmation is reused after threads were dropped. It can then leave its band, and
  with the slot cap that follows the population it can exceed the cap (`ReusedPlanFails`,
  `ReusedPlanExactly`, `FreshPlanExactly`).
- Dwell is forgotten when a thread is dropped and admitted again (`DwellForgets`,
  `RestedUnlessDropped`).
- A batch may be committed in part only if the other threads are removed first (`HalfASwap`,
  `PartialCommitExactly`).
- A committed domain that a candidate covers can vanish because a later hold throws that candidate
  out (`CoveredMayVanish`, `ServedExactly`).
- A refused write that changed the mask is not rolled back (`RefusedMaskStays`, `UndoneExactly`).
- After a release followed by a failed write the domain solver keeps masks on record that the kernel
  no longer has (`ReleaseThenFailure`, `AgreesAfterFailure`).

## Model

| member | source | states |
|---|---|---|
| `NodePlanner.CapsHoldAll` | src/solver.cpp:812-817 | as soon as slots × CPUs reach the thread count, the node caps together leave room for all threads |
| `NodePlanner.FloorsFit` | src/solver.cpp:812-819 | the node floors together never ask for more threads than there are |
| `NodePlanner.RoundFeasible` | src/solver.cpp:810-820 | with enough slots every node has 0 ≤ floor ≤ cap, the caps hold everybody and the floors fit |
| `NodePlanner.BestEdges` | src/solver.cpp:835-855 | the relation inside the remaining threads with the greatest (weight, lower ids), and the one that enters them with the greatest (weight, lower thread), or correctly none |
| `NodePlanner.CommunityOrder` | src/solver.cpp:826-879 | lists every thread exactly once, and step by step what the rule demands: the best pair if it outweighs every relation to a listed thread, else the thread of the best such relation, else the heaviest thread; every thread that starts no community is related to an earlier one |
| `NodePlanner.ChooseNode` | src/solver.cpp:883-905 | takes the node whose objective tuple is lexicographically least, so least by population overload |
| `NodePlanner.PlaceGreedily` | src/solver.cpp:882-909 | gives every thread the node with the least objective given the threads listed before it, keeps the running loads and populations true, and in a feasible round never exceeds a cap (pigeonhole through the greedy choice) |
| `NodePlanner.FindDonor` | src/solver.cpp:917-943 | returns a thread that may leave its node exactly when one exists; its relation cost is least up to the accumulated comparison tolerance, and least by (cost, identity) when no two costs differ by less than the tolerance |
| `NodePlanner.OnlyDemandBlocks` | src/solver.cpp:915-945 | in a feasible round a node below its floor always has spare threads elsewhere, so only demand can block the repair |
| `NodePlanner.RaiseNode` | src/solver.cpp:915-951 | fills one node up to its floor without breaking a cap or an earlier floor, each time with the donor of `FindDonor`, so that the partition stays one that the repair of the greedy partition reaches; it stops only when every spare thread is too heavy |
| `NodePlanner.NothingToRepair` | src/solver.cpp:915-916 | the repair leaves a greedy partition that meets every floor as it is: each of its moves is made for a node below its floor |
| `NodePlanner.RepairFloors` | src/solver.cpp:915-952 | afterwards every node is at or above its floor, or the throw is justified by a node that only demand blocks; either way the partition is reached from the greedy one by moves of the cheapest donor to the first node below its floor |
| `NodePlanner.SwapCost` | src/solver.cpp:965-978 | the cost difference read off the touched relations is that of the whole partition |
| `NodePlanner.SwapLowersCost` | src/solver.cpp:965-991 | every accepted swap lowers the total relation cost by more than the tolerance |
| `NodePlanner.SwapPass` | src/solver.cpp:957-993 | a pass keeps all node populations, bounds node loads, lowers cost by more than the tolerance for each swap, and finds nothing exactly when no pair improves |
| `NodePlanner.Refine` | src/solver.cpp:956-995 | the same for all passes; when it stops early the partition is a local optimum |
| `CpuPlanner.PlanNodes` | src/solver.cpp:806-995 | a returned plan places every thread and meets every floor, in a feasible round every cap as well; it is the greedy partition, repaired by moves of the cheapest donors and refined by swaps that keep populations and each lower the cost, with no improving swap left unless the passes ran out; a throw only happens when the repair of the greedy partition is stuck |
| `CpuPlanner.FreeCpuInNode` | src/solver.cpp:1037-1058 | a thread whose node has slots for all its threads always finds a CPU with a free slot |
| `CpuPlanner.ChooseCpu` | src/solver.cpp:1038-1054 | takes the CPU with the least objective tuple, never a full one while a free one exists; with true tables that is the tuple of the actual loads and populations |
| `CpuPlanner.HeaviestFirst` | src/solver.cpp:1030-1036 | every thread once, heavier first, then by identity |
| `CpuPlanner.AssignCpus` | src/solver.cpp:1027-1058 | heaviest thread first, every thread gets the CPU of its planned node with the least objective given the threads before it; no CPU exceeds the slot cap exactly if every node has slots for its threads |
| `CpuPlanner.CapsWithinSlots` | src/solver.cpp:817-817 | a node plan within the caps leaves room on the CPUs of every node |
| `CpuPlanner.TooManyThreads` | src/solver.cpp:558-563 | the converse: whatever places all threads within the slots needs slots × CPUs ≥ threads |
| `SolverState.DynamicCapSuffices` | src/solver.cpp:558-563 | the dynamic slot cap always suffices for the population |
| `Windows.PlanHasRoom` | src/solver.cpp:997-1058 | a plan made for the present population, or under a fixed cap, leaves slot room on every node when it is confirmed |
| `Windows.PromiseKept` | src/solver.cpp:997-1061 | a confirmed plan keeps the slot cap exactly if each node has slots for its threads; made for the present population it keeps cap and band, and under a fixed cap it keeps the cap after drops too |
| `Pinning.PickTarget` | src/solver.cpp:1110-1136 | keeps the target if it is free, else the best free CPU of the node, else the best free CPU anywhere; fails exactly when every CPU is full |
| `Pinning.SlotLeft` | src/solver.cpp:1096-1139 | with slots × CPUs ≥ threads some CPU is free for every next thread of a batch, so the throw is unreachable |
| `Pinning.RepairBatch` | src/solver.cpp:1096-1139 | after the repair no CPU is pushed over the cap by the placement that the batch leads to; a target with a free slot is kept, otherwise the thread stays on its node if that has a free CPU; it succeeds whenever the slots suffice |
| `Pinning.PinningTakesOff` | src/solver.cpp:1071-1076 | pinning a batch on its targets removes exactly that batch from the pending threads |
| `Windows.PinOutcome` | src/solver.cpp:1096-1149 | a full commit of a pinning batch leads to exactly the placement that the repair projected |
| `Windows.BuildTables` | src/solver.cpp:1160-1167 | the CPU loads, node loads and CPU populations are those of the placement |
| `Optimizer.BestMove` | src/solver.cpp:1313-1401 | the move offered for a thread has the least objective among all CPUs worth considering, is well formed, and is calm unless it is an emergency; none is offered only if no CPU is worth considering |
| `Optimizer.CandidateMoves` | src/solver.cpp:1313-1401 | one such move for every examined thread that has one |
| `Optimizer.Candidates` | src/solver.cpp:1313-1457 | the potentials are exactly the best moves of the examined threads and their worthwhile swaps: none is missing and none is invented |
| `Optimizer.MoveProjects` | src/solver.cpp:1516-1528 | shifting one thread in the tables gives the tables of the placement with that thread moved |
| `Optimizer.MoveAll` | src/solver.cpp:1513-1528 | the projected tables of a potential are those of the placement after it |
| `Optimizer.AcceptsIsWelcome` | src/solver.cpp:1529-1544 | the test on running tables is the test on the totals of the whole placements before and after |
| `Optimizer.SelectBatch` | src/solver.cpp:1469-1553 | the accepted batch is the greedy selection defined on whole placements, although only running tables are kept |
| `Optimizer.BatchSafe` | src/solver.cpp:1500-1553 | the batch is within the budget, moves nobody twice, does not raise the total slot violation and raises total overload by at most the tolerance for each accepted potential |
| `Optimizer.ViolationZero` | src/solver.cpp:1481-1486 | total slot violation is zero exactly when every CPU is within the cap |
| `Windows.NextStreaks` | src/solver.cpp:1465-1468 | the confirmation counters are the lengths of the streaks of consecutive evaluations |
| `Windows.CalmIsRested` | src/solver.cpp:1316-1317 | a thread that is not cooling has not changed CPU within the dwell, by the recorded history |
| `Windows.OptimizeSlots` | src/solver.cpp:1529-1544 | an accepted batch keeps a fixed slot cap |
| `SolverState.RemovedInv` | src/solver.cpp:525-541 | dropping a thread keeps the solver invariant in every phase |
| `SolverState.CommittedInv` | src/solver.cpp:1559-1584 | a commit after the runtime has removed the vanished threads keeps the invariant (slot cap, dwell history, phases) and leads to the projected placement |
| `SolverState.DiscardedInv` | src/solver.cpp:1586-1588 | discarding keeps the invariant |
| `SolverState.AdmittedCore` | src/solver.cpp:616-624 | a thread under a new identity starts without placement and without dwell history |
| `Admission.ChooseSeat` | src/solver.cpp:625-691 | a late thread is sent to the node with the least objective and there to the CPU with the least objective, never to a full CPU while that node has a free one |
| `Admission.PhaseFollowsSync` | src/solver.cpp:698-730 | newcomers of a solver with targets lead back to pinning, or, when their number and the population reach the growth limits, to a new plan for everybody; without newcomers only the promotion to optimizing can happen, exactly when the targets are effective |
| `IncrementalSolver.Solver.constructor` | src/solver.cpp:496-523 | a new solver is in the initial state and valid |
| `IncrementalSolver.Solver.Reset` | src/solver.cpp:496-523 | back to the initial state |
| `IncrementalSolver.Solver.RemoveThread` | src/solver.cpp:525-541 | the thread leaves every record; the invariant stays |
| `IncrementalSolver.Solver.Effective` | src/solver.cpp:543-546 | true exactly when optimizing with at least one thread and every thread pinned |
| `IncrementalSolver.Solver.Discard` | src/solver.cpp:1586-1588 | only the outstanding proposal is cleared |
| `IncrementalSolver.Solver.Commit` | src/solver.cpp:1559-1584 | the state after a commit, for any caller; the invariant for callers that follow the protocol |
| `IncrementalSolver.Solver.Sync` | src/solver.cpp:607-730 | the managed threads become exactly the input; new identities inherit nothing and are sent to the best seat at their turn, known ones keep placement and dwell; the history goes on with one drop for each thread that leaves or changes identity, and with nothing else; the phase follows from the number of newcomers; an unchanged population changes nothing but demands and the promotion |
| `IncrementalSolver.Solver.ComputePlan` | src/solver.cpp:806-995 | a plan for the managed threads within the band, computed from the threads and relations of this window as `CpuPlanner.PlanNodes` says; or the repair of its greedy partition is stuck |
| `IncrementalSolver.Solver.PlanWindow` | src/solver.cpp:997-1065 | repeats the plan of the first window while the population is unchanged, and otherwise adopts the one computed from its relations; a confirmed plan gets the best CPUs by the relations of this window and keeps its promise on bands and slots; it throws only with the repair of the greedy partition stuck |
| `IncrementalSolver.Solver.NextBatch` | src/solver.cpp:1071-1089 | the first threads of the pending ones in the pinning order, as many as the budget allows, and in that order |
| `IncrementalSolver.Solver.PinWindow` | src/solver.cpp:1067-1154 | proposes the next batch in pinning order on repaired targets: a target with a free slot is kept, otherwise the thread stays on its node if that has a free CPU, and no CPU is pushed over the cap; keeps the invariant; throws only when there are more threads than slots |
| `IncrementalSolver.Solver.OptimizeWindow` | src/solver.cpp:1156-1557 | the candidates of the evaluation are exactly the potentials of the examined threads in the present scene; their keys are what the confirmation log records, and the batch is the greedy selection from them, with its safety, dwell and confirmation facts |
| `IncrementalSolver.Solver.Propose` | src/solver.cpp:548-1557 | one call keeps the invariant, answers an outstanding proposal with itself, does what the phase demands (as the rows of the three windows say), and throws only when the repair of the greedy partition is stuck or there are too few slots |
| `StartUp.EffectiveIffNothingPending` | src/solver.cpp:720-728 | the targets are effective exactly when no thread is pending |
| `StartUp.PinCommitProgress` | src/solver.cpp:1071-1154 | every full commit lowers the number of pending threads by the batch size, during a replan as well, and ends pinning exactly at zero |
| `StartUp.FirstWindow` | src/solver.cpp:997-1023 | the first window of a reset solver records its own plan, the one computed from its threads and relations |
| `StartUp.LaterWindow` | src/solver.cpp:997-1023 | every later planning window repeats the first plan, whatever its relations say |
| `StartUp.BatchesRoundUp` | src/solver.cpp:782-783 | the number of batches is the population divided by the budget, rounded up |
| `SolverRuns.CommitAlive` | src/runtime.cpp:1638-1643 | removing the vanished threads before the commit keeps the invariant; the state is that of the protocol |
| `SolverRuns.AnyRun` | src/solver.cpp:548-1588 | for every script of propose, commit, discard, removal and reset: the trace follows the script step by step, and in each of its states no CPU holds more placed threads than a fixed cap |
| `SolverRuns.RunLogged` | src/solver.cpp:1465-1468 | the confirmation log of a run holds, for each evaluation since the last reset, exactly the candidates of that evaluation |
| `SolverRuns.CalmMovesWereCandidates` | src/solver.cpp:1463-1507 | in any run a move that is no emergency is proposed only if it was a candidate in each of the last required evaluations of the run |
| `SolverRuns.CalmMovesAreRested` | src/solver.cpp:1316-1317 | in any run a calm move of a thread is proposed at least a dwell after every commit of the run that moved the same identity, as long as the thread was not dropped and the solver not reset in between |
| `SolverRuns.MovesAreReal` | src/solver.cpp:1562-1569 | in any run every move in the history was made by a commit of the run, of that thread and at that time |
| `SolverRuns.PlanningRun` | src/solver.cpp:997-1023 | a stable start-up confirms the plan of the first window, computed from that window's relations, after exactly the configured number of planning windows; or the repair of the greedy partition was stuck in the window where it stopped |
| `SolverRuns.BecomesEffective` | src/solver.cpp:997-1154 | with a stable population a reset solver goes through exactly that many planning windows, confirms the plan of the first, makes ⌈n/budget⌉ full commits and is then effective; it fails only if the repair of a greedy partition is stuck or the slots do not suffice |
| `SolverCaveats.LastMoveMeans` | src/solver.cpp:525-541 | the dwell history of a thread is its last move since it was last dropped |
| `SolverCaveats.DwellForgets` | src/solver.cpp:525-541 | on any state: a cooling thread that is removed and admitted again under the same identity cools no longer |
| `SolverCaveats.RestedUnlessDropped` | src/solver.cpp:1316-1317 | a thread counts as rested exactly if a dwell has passed since its last move ever, or it was dropped after that move |
| `SolverCaveats.RestedExactly` | src/solver.cpp:1316-1317 | a thread counts as rested exactly if every move that no drop and no later move superseded is at least a dwell old |
| `SolverCaveats.HalfASwap` | src/solver.cpp:1562-1569 | on any state with a swap of two placed threads outstanding: the whole swap keeps the slot cap; committing one half while the other thread is managed is not the protocol, and keeps the cap exactly if the CPU has a free slot |
| `SolverCaveats.PartialCommitExactly` | src/solver.cpp:1562-1569 | a commit of any part of a batch keeps the cap exactly if no CPU gains more than it has room for |
| `SolverCaveats.ReusedPlanExactly` | src/solver.cpp:997-1000 | a stored plan that a window confirms keeps the slot cap of the present population exactly if every node lost enough threads since it was made, and the band exactly if every node lost neither too many nor too few |
| `SolverCaveats.FreshPlanExactly` | src/solver.cpp:1001-1061 | a plan confirmed in the window that made it keeps the slot cap exactly if there are slots for all threads, and then the band too |
| `SolverCaveats.ReusedPlanFails` | src/solver.cpp:997-1000 | states through planning, two removals and confirmation: the reused plan leaves the band, and under the dynamic cap exceeds the slot cap |
| `Hotspots.Quantile` | src/solver.cpp:328-334 | the threshold is the weight at the quantile index of the weights in ascending order |
| `Hotspots.SelectHotspots` | src/solver.cpp:307-364 | exactly the usable pairs that reach that threshold or are among the strongest of one of their threads are kept, with boosted weights |
| `ManagedThreads.Rank` | src/solver.cpp:385-392 | every thread once, by degree, demand and identity |
| `ManagedThreads.Retain` | src/solver.cpp:397-400 | keeps exactly the previously managed threads of the hysteresis band, up to the limit |
| `ManagedThreads.Seed` | src/solver.cpp:402-412 | starts with the two threads of the heaviest relation, of equally heavy ones that with the lowest ids |
| `ManagedThreads.BestOutsider` | src/solver.cpp:419-437 | the outsider with the greatest (weight into the selection, number of relations, degree, demand, identity) |
| `ManagedThreads.Grow` | src/solver.cpp:418-440 | adds one best outsider after the other until exactly the limit is reached; the early exit is never taken |
| `ManagedThreads.ExchangeWeight` | src/solver.cpp:452-460 | gain minus loss is the change of the relation weight inside the selection |
| `ManagedThreads.BestExchange` | src/solver.cpp:445-473 | the improving exchange with the greatest (change of weight inside, degree, demand, identities), none exactly when no exchange improves; a previously managed thread is never evicted |
| `ManagedThreads.Exchange` | src/solver.cpp:444-477 | every exchange raises the weight inside, keeps the size and all previously managed threads; it ends at a local optimum or at the pass limit |
| `ManagedThreads.SelectManagedThreads` | src/solver.cpp:366-482 | everybody if they fit, else exactly the configured number, with every retained thread of the band among them; seed, growth and exchanges are as above, and no improving exchange is left unless the pass limit was reached |
| `Actuator.OriginMeans` | src/actuator.cpp:32-39 | the restore mask is the latest declared one, else the parent's or first-seen mask since the thread was last forgotten |
| `Actuator.Actuator.constructor` | src/actuator.cpp:30-30 | a new actuator has written nothing and remembers nothing |
| `Actuator.Actuator.NoteApplicationMask` | src/actuator.cpp:32-32 | a declaration is recorded |
| `Actuator.Actuator.NoteInheritedMask` | src/actuator.cpp:34-39 | a birth is recorded; it never overrides what is known |
| `Actuator.Actuator.NotePolicyAction` | src/actuator.cpp:155-155 | keeps the bookkeeping sound exactly if the thread already has a restore mask |
| `Actuator.Actuator.Rollback` | src/actuator.cpp:74-80 | undoes in reverse; it succeeds exactly when it undid everything, and then masks and written threads are as before the batch |
| `Actuator.Actuator.WriteAll` | src/actuator.cpp:56-86 | writes in thread order up to the first refusal, and records first sights only; it stops only for an empty mask or a call that the kernel refused |
| `Actuator.Actuator.Apply` | src/actuator.cpp:46-91 | all or nothing: on success committed and vanished threads partition the request and only committed ones changed; a failure has an empty mask or a refused call behind it, and after a complete rollback everything is as before but for what the refused call itself left |
| `Actuator.UndoneExactly` | src/actuator.cpp:66-82 | after such a rollback the live masks are what they were exactly if the refused call left its thread's mask alone |
| `Actuator.RefusedMaskStays` | src/actuator.cpp:17-28 | an instance: the batch fails, its rollback counts as complete, and the thread keeps a mask nobody asked for |
| `Actuator.Actuator.Restore` | src/actuator.cpp:132-153 | exactly the restored or vanished threads are forgotten; on success every requested written thread that lives has its own mask back; a thread fails only because the kernel refuses |
| `Actuator.Actuator.RestoreAll` | src/actuator.cpp:115-130 | the same for all written threads; everything is forgotten |
| `Protocol.ConcludedInv` | src/runtime.cpp:1638-1643 | removing the vanished threads and committing the written ones follows the solver's protocol, keeps the invariant and leads to the projected placement |
| `Protocol.CooledInv` | src/runtime.cpp:1487-1492 | the cooling threads leave the solver, which starts over once its cohort is empty; nobody else loses a placement |
| `Runtime.ProposeOffers` | src/solver.cpp:548-1557 | a proposal places nobody anew; a ready one is outstanding and moves managed threads only |
| `Runtime.DeltaMeans` | src/solver.cpp:1548-1552 | the masks to write are the single target CPUs of the actions |
| `Runtime.Runtime.Cool` | src/runtime.cpp:1466-1492 | threads that leave the cohort get their own masks back and leave the solver; agreement is kept; it fails only because the kernel refuses a call, and then the solver is untouched |
| `Runtime.Runtime.Act` | src/runtime.cpp:1614-1643 | the batch is written and what was written is committed after the vanished threads are removed, or it is withdrawn because the kernel refused a call; agreement is kept unless a rollback fails |
| `Runtime.Runtime.Settle` | src/runtime.cpp:1638-1643 | vanished threads are removed before the commit, so the commit follows the protocol; every surviving thread of the batch is where it sends it, the others where they were |
| `Runtime.Runtime.Window` | src/runtime.cpp:1466-1644 | what one window makes of the solver, case by case; it keeps solver, actuator and agreement unless a restore or a rollback fails, and every failure has a refused call behind it |
| `Runtime.AnyRun` | src/runtime.cpp:1466-1644 | for every script: the trace follows it event by event, and after each event each live placed thread has exactly its CPU as mask and is recorded as written; the run ends early only after the kernel refused a call |
| `Runtime.UnselectedUntouched` | src/runtime.cpp:1428-1644 | in any run a thread that no window selects is never written and keeps, as long as it lives, the mask it had at the start |
| `DomainRuntime.AgreesLanding` | src/runtime.cpp:1292-1302 | a committed window leaves every live placed thread with its mask |
| `DomainRuntime.Runtime.Release` | src/runtime.cpp:1238-1257 | released threads get their own masks back, the others are untouched; it fails only because the kernel refuses a call |
| `DomainRuntime.Runtime.Write` | src/runtime.cpp:1258-1302 | what a window does to solver and masks, commit, all vanished or failed because the kernel refused a call; after a release and a failed write agreement holds exactly if the released threads owned the recorded masks |
| `DomainRuntime.Runtime.Unrestrict` | src/runtime.cpp:1181-1196 | an invalid plan leaves the placement empty, unless the kernel refuses a restore |
| `DomainRuntime.Runtime.Window` | src/runtime.cpp:1181-1307 | what one window makes of the solver, case by case; agreement is kept by every window that does not both release threads and fail to write; every failure has a refused call behind it |
| `DomainRuntime.AgreesAfterFailure` | src/runtime.cpp:1286-1291 | the exact condition for agreement after a release and a failed write |
| `DomainRuntime.ReleaseThenFailure` | src/runtime.cpp:1286-1291 | a window on a runtime in which thread 1 is placed and thread 2 is to be written: the kernel takes the restore of thread 1 and refuses the write, and placement and masks disagree although everything was undone |
| `DomainRuntime.AnyRun` | src/runtime.cpp:1181-1307 | for every script: the trace follows it step by step, and after each step each live placed thread has its mask; the run ends early only after such a window or a failed restore or rollback, and then the kernel refused a call |
| `DomainRuns.EvaluationsAreReal` | src/domain_solver.cpp:391-413 | every evaluation in the history of a run was made by a window of the run, on the state of that time |
| `DomainRuns.NodesChangeAfterRealStreak` | src/domain_solver.cpp:391-432 | in any run a window proposes other than the committed nodes for a sound domain only if the required number of its latest evaluations, each made by a window of the run, all wanted more nodes, or all wanted fewer |
| `DomainRuns.EvidenceIsReal` | src/domain_solver.cpp:471-486 | in any run the time of the last evidence of a domain is that of a window of the run that covered the committed domain with a sound candidate, or committed it newly |
| `DomainRuns.EvidenceLasts` | src/domain_solver.cpp:471-486 | conversely the last evidence is never older than any such window |
| `DomainRuns.HeldInRun` | src/domain_solver.cpp:471-555 | in any run a committed domain that some window covered or newly committed less than a dwell ago, with a live member and no covering candidate now, is proposed with its nodes and mask |
| `NodeChoice.EvaluateNodes` | src/domain_solver.cpp:97-138 | the loops compute the costs of a node set |
| `NodeChoice.ImprovesIsLex` | src/domain_solver.cpp:162-176 | the five-way comparison is the lexicographic order on count, latency, background, migrations and node list |
| `NodeChoice.Search.Visit` | src/domain_solver.cpp:155-185 | the recursion restores its candidate and leaves the best of all completions in place |
| `NodeChoice.PicksAre` | src/domain_solver.cpp:155-185 | the visited candidates are exactly the ascending lists of nodes |
| `NodeChoice.ChooseNodes` | src/domain_solver.cpp:143-188 | the unique least list of nodes with enough capacity; nothing exactly when all nodes together lack it |
| `Evidence.Weigh` | src/domain_solver.cpp:204-227 | internal, external and cross relation are the sums over the relations between known threads |
| `Evidence.SelectPairs` | src/domain_solver.cpp:54-75 | a pair is kept exactly if fewer than the limit come before it in one of its families |
| `Evidence.GraceMeans` | src/domain_solver.cpp:293-298 | grace is left exactly if the pair qualified in one of the last windows |
| `Evidence.Gather` | src/domain_solver.cpp:201-346 | one window of evidence: the counters stay the streaks of the recorded windows, and seeds and anchors follow from them |
| `Evidence.EvidenceMeans` | src/domain_solver.cpp:318-346 | a pair is confirmed exactly if it qualified in each of the last windows; a present family is an anchor exactly if it is in a confirmed pair, or was cohesive in each of the last windows while none of its pairs qualified lately without being confirmed |
| `Components.UnionFind.Root` | src/domain_solver.cpp:349-352 | returns the representative; path compression changes no representative |
| `Components.UnionFind.Join` | src/domain_solver.cpp:354-355 | merges two classes |
| `Components.SameRepIffConnected` | src/domain_solver.cpp:347-356 | two families have one representative exactly when confirmed pairs connect them |
| `Components.GroupAnchors` | src/domain_solver.cpp:347-358 | the groups partition the anchors into their connected components, in the order of their least names |
| `Domains.Decide` | src/domain_solver.cpp:391-432 | committed nodes are kept until enough evaluations in a row wanted more, or fewer |
| `Domains.PlanDomain` | src/domain_solver.cpp:362-465 | when an evidence domain is sound, which threads, nodes and CPUs it has |
| `Domains.ShrinkStreakMeans` | src/domain_solver.cpp:401-408 | every evaluation in a streak that wants fewer nodes is at least a dwell after the last change of nodes |
| `Domains.ExpandStreakMeans` | src/domain_solver.cpp:399-408 | a streak that wants more nodes consists of the latest evaluations of the domain |
| `DomainPlan.PlanGroups` | src/domain_solver.cpp:362-465 | one candidate for each group; the history goes on with exactly one evaluation for each group that is small enough, has committed nodes and fits somewhere, with what it wanted; the nodes change exactly if that completes a streak |
| `DomainPlan.Renew` | src/domain_solver.cpp:471-486 | evidence is renewed for exactly the committed domains that a sound candidate covers, and the history goes on with exactly those renewals |
| `Holding.HoldDomains` | src/domain_solver.cpp:492-555 | no family in two domains; every uncovered recent live domain is held; everything else is a candidate that no held domain overlaps; the exact validity |
| `Holding.CoveredMayVanish` | src/domain_solver.cpp:498-539 | a recent live domain that a candidate covers can vanish, when a later hold throws that candidate out |
| `Holding.ServedExactly` | src/domain_solver.cpp:492-555 | a recent live committed domain has a domain with all its families in the result, exactly unless a candidate covered it in its turn and a later hold threw that candidate out |
| `Holding.Survives` | src/domain_solver.cpp:498-539 | a candidate is left exactly if no recent live committed domain overlaps it without being covered by it |
| `DomainProposal.FamiliesApartTidsApart` | src/domain_solver.cpp:517-539 | domains without a common family have no common thread |
| `DomainProposal.FillMasks` | src/domain_solver.cpp:561-584 | the masks of exactly the threads of the sound domains, or the first domain that cannot serve a thread is marked and nothing is planned |
| `DomainProposal.SplitWrites` | src/domain_solver.cpp:609-637 | which planned threads are written and which are only recorded as inherited |
| `DomainWindow.PlanWindow` | src/domain_solver.cpp:360-589 | the stations of a window in one contract; the history goes on with exactly the evaluations and renewals of the window |
| `DomainWindow.ResultShape` | src/domain_solver.cpp:492-555 | in every proposal, held domains included, no family and no thread is in two domains |
| `DomainWindow.HoldGuarantee` | src/domain_solver.cpp:467-555 | a committed domain with evidence younger than the dwell, a live member and no covering candidate is kept with its nodes |
| `DomainWindow.ServedInProposal` | src/domain_solver.cpp:467-555 | the same exact condition for the proposal of a window |
| `DomainWindow.DomainOrigin` | src/domain_solver.cpp:492-555 | every domain is evidence of this window or held with evidence younger than the dwell |
| `DomainWindow.NodesOnlyAfterStreak` | src/domain_solver.cpp:391-432 | a sound committed domain changes nodes only if this window's evaluation of it completes the required streak of the history before, and then to the best nodes |
| `DomainWindow.PlannedExactly` | src/domain_solver.cpp:548-589 | a valid proposal plans exactly the threads of its sound domains, each with a nonempty allowed part of the domain's CPUs, and no domain is too large |
| `DomainWindow.InvalidPlansNothing` | src/domain_solver.cpp:447-463 | an invalid proposal plans nothing, and for a reason |
| `DomainSolver.ReadyMeans` | src/domain_solver.cpp:591-607 | a ready proposal with domains had the same signature in the last required proposals |
| `DomainSolver.Solver.constructor` | src/domain_solver.cpp:688-690 | a new solver is valid and has placed nothing |
| `DomainSolver.Solver.Propose` | src/domain_solver.cpp:192-644 | one call keeps the invariant and yields a proposal with all the properties above; the evidence log goes on with what convinces in this window's relations, the history with its evaluations and renewals; it throws exactly with a proposal outstanding |
| `DomainSolver.Solver.Adopt` | src/domain_solver.cpp:667-679 | commits record the nodes; only domains that were not committed before get evidence from a commit; the history goes on with exactly those changes and entries |
| `DomainSolver.Solver.Commit` | src/domain_solver.cpp:646-682 | the placement after a commit; a committed invalid proposal leaves it empty; a stray commit throws |
| `DomainSolver.Solver.Discard` | src/domain_solver.cpp:684-686 | only the outstanding proposal is cleared |
| `DomainSolver.Solver.RemoveThread` | src/domain_solver.cpp:692-692 | the thread leaves the placement |
| `GraphStatistics.FoldDropsFirst` | src/graph.cpp:51-66 | taking the oldest observation out of an aggregate gives the aggregate of the rest |
| `GraphStatistics.OnePassVariance` | src/graph.cpp:215-218 | the one-pass variance is the two-pass variance and never negative |
| `GraphStatistics.Measure` | src/graph.cpp:132-152 | demand and coverage of a history, both in [0, 1] |
| `GraphStatistics.RelationRange` | src/graph.cpp:207-226 | every part of a relation is in [0, 1] and the score in [0, 100] |
| `GraphWindow.ExpireRelation` | src/graph.cpp:50-66 | the aggregate follows the trimmed history |
| `GraphWindow.Graph.constructor` | src/graph.cpp:17-18 | an empty graph is valid |
| `GraphWindow.Graph.ObserveThreads` | src/graph.cpp:20-74 | samples enter, restarted threads lose history and relations, old entries expire; aggregates stay the folds and no history is empty |
| `GraphWindow.Graph.ObserveRelation` | src/graph.cpp:76-93 | an observation enters history and aggregate alike |
| `GraphWindow.Graph.RetainRelations` | src/graph.cpp:95-108 | exactly the named relations stay; the cache is dropped exactly if something went |
| `GraphWindow.Graph.Demands` | src/graph.cpp:128-158 | cached or not, the demands are those of the histories |
| `GraphWindow.Graph.Edges` | src/graph.cpp:198-231 | cached or not, the relations are those of the aggregates and demands |
| `GraphDelta.DeltaFaithful` | src/graph.cpp:233-277 | a delta makes any follower true within the tolerances, and sends only what changed |
| `GraphDelta.TakeDelta` | src/graph.cpp:233-277 | what has been sent is what a follower of all deltas knows |
| `GraphDelta.MirrorRun` | src/graph.cpp:233-277 | for every script: the graph holds what its samples and relations come to, and after each delta the mirror has exactly the keys, identities and families of that time and every value within its tolerance; errors never add up |
| `CpuList.ParseCpuList` | src/config.cpp:46-62 | the listed CPUs in order, or the first error |
| `CpuList.RunsAreMaximal` | src/config.cpp:70-77 | the printed ranges are maximal runs that hold exactly the listed CPUs |
| `CpuList.FormatCpuList` | src/config.cpp:64-79 | the loops print the maximal runs |
| `CpuList.RoundTrip` | src/config.cpp:46-79 | parsing a formatted list gives back its distinct CPUs in order |
| `CpuList.FormatCanonical` | src/config.cpp:64-79 | two lists are formatted alike exactly when they have the same CPUs |

## Left out

- `Solver::solve` (src/solver.cpp:37-272), the one-shot heuristic that the runtime no longer uses.
- The prediction of demands from group peaks (src/solver.cpp:565-599): demands are arbitrary inputs.
- The ranking of threads for examination (src/solver.cpp:1188-1292): the examined threads are an arbitrary list.
- The hotspot relations are an input of the solver; they are those that `Hotspots.SelectHotspots` characterises.
- The replan on stable hotspots (src/solver.cpp:756-771), which no assignment ever enables.
- Reporting fields of proposals, results and records, logging, and `thread_records` (src/graph.cpp:160-196).
- Comparison of joined strings: action keys are compared number by number where the source compares decimal text, so equal gains of threads 9 and 10 come in the other order; families and domains are ordered by rank, so ties between names that contain '+' may differ.
- BPF programs and reader, collection from /proc and sysfs, calibration files, sockets, signals, threads and mutexes: a window is one atomic step.
- TOML, JSON and regular expressions, `normalize_group`, profiles and replay tools.
- Floating-point rounding, 64-bit wrap-around, and integer overflow of counters.
- Plan mode of the runtime: the window steps are those of active mode.
- Optimizer.Candidates: does not say in which order threads are examined, because the list is an input.
- NodePlanner.FindDonor: with costs closer than the tolerance the choice depends on the order of the scan; only the bound on the cost is stated then.
- Holding.HoldDomains: promises to hold uncovered domains only, because a covering candidate can itself be thrown out by a later hold; `Holding.ServedExactly` says exactly when.
- Runtime.AnyRun: assumes that the kernel never reuses a thread id and that nobody else changes masks.
- DomainRuntime.AnyRun: assumes the same, and that the sampled masks are those of the kernel.
