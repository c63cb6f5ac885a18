# BotFleet: a model of its control plane and agents, with proofs

BotFleet runs Discord bots on a fleet of agents. A control plane assigns workloads to agents,
sends commands over a queue and sockets, records what agents answer, fences agents that run what
they no longer own, and re-sends commands that failed. This project models that machinery in Dafny
and proves what it is for. `dafny verify dfyconfig.toml` checks all of it.

**Ownership protocol.** `Plane` has the tables and every atomic update as a function. `ControlPlane`
has the functions of the control plane as methods of a class that reads and writes the tables in
sequence, each proved to do what its `Plane` function says; `Runner` does the same for the agent's
workload map. `Fleet` is a step system: control-plane calls split where they wait between a read and
a write, dispatch and delivery, loss, execution, acks, results, inventories, process exits, drains and
the locked reconciliation tick, in any order. `Calls` shows that each call, left alone, is a run of
those steps. Over all runs: the generation is a fencing token (`Fencing`), a command has one outcome
and rows never go back (`Outcomes`), only the current owner's outcomes reach a workload row and every
confirmed generation has a success behind it (`Confirmation`), retries are bounded (`Retry`,
`RetryWitness`), and a split brain heals (`Convergence`). `Divergences` has the runs in which the code does
less than promised. `AgentDrain` is the drain of an agent, with the scheduler choosing the targets.

Methods are proved against functions, and what those functions do is then stated again in the
columns alone: `OutcomeIsWritten`, `TickActsOnDifferences`, `FencedIffNotOwner`, `ScoreIsWorth`,
`WhoLeaves`, `WhatCommandsDo`, `WhatEnrollDoes` and the lemmas named `...InColumns`.

**Placement.** `Rebalance` is the two-phase greedy rebalancer, `WorkerPool` and `WorkerDrain` the
transaction and the drain that use it, `Scheduler` the scoring scheduler; `RebalanceMoves` and
the modules named `...Theorems` say what they compute. Fractions are compared by
cross-multiplication and `Math.round` is floor(x + 1/2).

**Stateful classes.** `RateLimiter`, `ReplayGuard`, `SocketClient` with `LocalIpc`, and `Enrollment`
carry ghost histories or step systems; the clock never goes back in the history theorems. Compact JSON has no
raw newline (section 7 of RFC 8259), which is all the framing needs.

## Where the code and its promises differ

- docs/reconciliation.md promises that after five failures reconciliation stops. A tick acts on rows it
  read when it began, so it can issue one more command for a row that reached five failures under it.
  From an idle state with a failures exactly the counts up to 6 - a are possible
  (`RetryWitness.CanIssueIff`), and such a run starts from the empty system
  (`RetryWitness.LimitIsExceededFromTheStart`). For any run, `Retry.LimitHoldsIff` says exactly when the
  limit holds, and `Retry.OverIffNotLoaded` exactly when nothing more can come.
- The same document says only an administrator ends a suspension. A success keeps it but resets the
  count, and the next failure then clears it: `Retry.SuspensionEnds` says exactly when, and
  `Divergences.SuspensionEndsWithoutClear` is a run from the empty system.
- A tick that issues a command also writes the desired state it read. From every idle state an
  administrator's stop can be undone by the tick under way (`Divergences.AdminStopIsUndone`, and from the
  empty system `Divergences.AdminStopIsUndoneFromTheStart`); `Divergences.WishSurvivesIff` says exactly
  which wishes survive a tick.
- `observedGeneration` takes the row's generation when a result arrives, which is the command's only if
  they agree (`Confirmation.ConfirmsTheRowsGeneration`). A start read before a workload is assigned away
  and back confirms a generation it does not carry (`Divergences.OldCommandConfirms`, from the empty system
  `Divergences.OldCommandConfirmsFromTheStart`).
- The socket client keeps messages in order exactly as long as `connect()` is called with no socket and no
  reconnect pending; called right after `close()`, before the old socket's close event, it lets a later
  message overtake a queued one (`SocketClient.SafeToConnectIffDisciplined`).
- A rate limiter built with a window of no length limits nothing (`RateLimiter.AcceptancesAreBounded`).

## Model

| member | source | states |
|---|---|---|
| `ControlPlane.ControlPlaneDb.CreateWorkload` | apps/control-plane/lib/workloads.ts:23-50 | a specification that does not parse is never stored; otherwise a row with no owner, stopped, never observed |
| `ControlPlane.ControlPlaneDb.RecordAndEnqueueCommand` | apps/control-plane/lib/workloads.ts:60-82 | a pending row and a queued message under one fresh key, nothing else |
| `ControlPlane.ControlPlaneDb.AssignWorkloadToAgent` | apps/control-plane/lib/workloads.ts:97-149 | fails without a trace if workload or agent is missing; otherwise owner and generation change together and the specification goes to the new owner at the new generation |
| `ControlPlane.AssignmentMovesOneWorkload` | apps/control-plane/lib/workloads.ts:109-138 | an assignment leaves every other workload alone and addresses its update to the new owner at one generation more |
| `ControlPlane.ControlPlaneDb.SendWorkloadCommand` | apps/control-plane/lib/workloads.ts:155-203 | fails without a trace if there is no owner; otherwise one command to the owner at the generation of the same read, and the desired state it implies |
| `ControlPlane.ControlPlaneDb.FenceStaleAgent` | apps/control-plane/lib/workloads.ts:215-257 | one stop to the stale agent at the generation it reported |
| `ControlPlane.ControlPlaneDb.HandleInventory` | apps/control-plane/lib/agent-gateway/server.ts:301-324 | an inventory naming another agent than the connection's does nothing; otherwise an entry is answered with a stop exactly when its workload exists and its owner is somebody else, and an inventory of owned workloads changes nothing |
| `ControlPlane.FencesExactlyTheStale` | apps/control-plane/lib/agent-gateway/server.ts:309-323 | the new commands are one stop for each entry whose workload exists with `owner != Some(agent)`, in order, to the reporting agent at the reported generation; every old row and all workload rows stay |
| `ControlPlane.OwnersAreNotFenced` | apps/control-plane/lib/agent-gateway/server.ts:310-312 | if every entry is owned by the reporting agent or names no workload, the tables stay as they are |
| `ControlPlane.FencedIffNotOwner` | apps/control-plane/lib/agent-gateway/server.ts:309-323 | for any inventory a stop is issued for an entry if and only if its workload exists and `owner != Some(agent)` |
| `ControlPlane.ControlPlaneDb.HandleAck` | apps/control-plane/lib/agent-gateway/server.ts:172-182 | an ack accepts a pending command and changes nothing else |
| `ControlPlane.ControlPlaneDb.MarkCommandOutcome` | apps/control-plane/lib/agent-gateway/command-outcomes.ts:41-115 | column by column: the command's row always records its outcome; the workload row is written only for the current owner's start, stop or restart: stopped after a stop and running after the others, or broken with one more failure and a wait of 60, 120, 240 or 480 s, suspended from the fifth on |
| `ControlPlane.OutcomeIsWritten` | apps/control-plane/lib/agent-gateway/command-outcomes.ts:16-109 | the same of the atomic update the step system uses, for every table, key and outcome |
| `ControlPlane.ControlPlaneDb.ClearReconciliationFailure` | apps/control-plane/lib/reconciliation.ts:110-115 | an unknown workload is an error; otherwise attempts, backoff and suspension are reset, nothing else |
| `ControlPlane.ControlPlaneDb.ReconcileWorkloads` | apps/control-plane/lib/reconciliation.ts:41-102 | without the lock nothing; with it every assigned workload is visited once, exactly the due ones get one command each, and the skipped list holds exactly the suspended, the waiting, and those out of sync with a command in flight, each with that reason |
| `ControlPlane.TickActsOnDifferences` | apps/control-plane/lib/reconciliation.ts:60-97 | a tick issues exactly one command for each workload that is assigned, unsuspended, not waiting, runs when it should not or the reverse, and has no pending or accepted row: a start if it should run, else a stop; and no other command |
| `ControlPlane.RoundInColumns` | apps/control-plane/lib/reconciliation.ts:60-89 | on whatever row the tick had read, and whatever happened since: a round issues the start or stop that row asks for, to the owner and at the generation of now, or changes nothing |
| `ControlPlane.SecondTickIssuesNothing` | apps/control-plane/lib/reconciliation.ts:60-97 | a second tick at the same instant issues nothing, whatever the orders of the two loops |
| `Runner.WorkloadRunner.CacheWorkloadSpec` | apps/agent/src/workload-runner.ts:37-55 | a bad specification changes nothing; a good one replaces specification and generation and keeps the process; other workloads are untouched |
| `Runner.WorkloadRunner.TrackGeneration` | apps/agent/src/workload-runner.ts:61-64 | a known workload takes the generation, an unknown one stays unknown |
| `Runner.WorkloadRunner.GetRunningInventory` | apps/agent/src/workload-runner.ts:69-77 | exactly the workloads with a live process, once each, at their cached generation |
| `Runner.WorkloadRunner.StartWorkload` | apps/agent/src/workload-runner.ts:79-127 | succeeds exactly for a cached node specification with no live process, which then runs |
| `Runner.WorkloadRunner.StopWorkload` | apps/agent/src/workload-runner.ts:129-153 | an unknown workload is an error; otherwise nothing runs afterwards |
| `Runner.WorkloadRunner.RestartWorkload` | apps/agent/src/workload-runner.ts:155-159 | a stop, and if that succeeded a start |
| `Runner.WorkloadRunner.HandleWorkloadCommand` | apps/agent/src/index.ts:228-267 | each command acts on its own workload at its own generation, and the reported result is the runner's |
| `Runner.WhatCommandsDo` | apps/agent/src/workload-runner.ts:37-159 | from the cached entry alone: when each kind of command succeeds, and the specification, run flag and generation it leaves |
| `Runner.SuccessMeansObserved` | apps/agent/src/index.ts:237-254 | a reported success leaves the workload in the observed state the control plane will record, at the command's generation |
| `Fencing.StepKeepsFenced` | apps/control-plane/lib/workloads.ts:97-257 | every step keeps: each row, message, cached generation and inventory entry with generation g of w is of the agent chosen when w reached g, and g is at most w's generation |
| `Fencing.ReachableIsFenced` | apps/control-plane/lib/workloads.ts:86-96 | the same in every reachable state, drain and fence stops at old generations included |
| `Fencing.GenerationNamesOneAgent` | apps/agent/src/workload-runner.ts:20-24 | no two agents cache the same generation of a workload |
| `Fencing.CurrentGenerationIsOwner` | apps/control-plane/lib/agent-gateway/server.ts:291-300 | cached generations are never ahead, and an agent at the current one is the owner |
| `Outcomes.StepKeepsTokens` | apps/control-plane/lib/agent-gateway/server.ts:172-182 | a command in transit or with a result on the way is unfinished; no step returns a finished row to pending or accepted, or changes it |
| `Confirmation.FinishedStaysFinished` | apps/control-plane/lib/agent-gateway/command-outcomes.ts:52-57 | over every run a finished command stays as it finished and an accepted one never becomes pending |
| `Confirmation.StepOnRow` | apps/control-plane/lib/agent-gateway/command-outcomes.ts:59-109 | what every step leaves of every workload row, column by column: an outcome lands only from the current owner, with the observed state, counts and times written out; only an assignment changes ownership, only the write of a sent command or a reconcile command the desired state, and every other step nothing |
| `Confirmation.StaleOutcomeChangesNoWorkload` | apps/control-plane/lib/agent-gateway/command-outcomes.ts:67-80 | an outcome of a command whose agent is not the current owner leaves every workload row unchanged |
| `Confirmation.ConfirmationOnlyAdvances` | apps/control-plane/lib/agent-gateway/command-outcomes.ts:82-94 | over every run generation and observedGeneration never fall, observedGeneration is at most generation, and a confirmed value has a succeeded command of the agent chosen for it |
| `Confirmation.ReachableIsSound` | apps/control-plane/lib/agent-gateway/command-outcomes.ts:41-115 | fencing, one outcome per command and confirmation hold together in every reachable state |
| `Confirmation.ConfirmsTheRowsGeneration` | apps/control-plane/lib/agent-gateway/command-outcomes.ts:83-88 | the confirmed generation is the command's exactly when the command carries the current one |
| `Retry.CapIsNeverReached` | apps/control-plane/lib/agent-gateway/command-outcomes.ts:8-14 | the delay is thirty seconds doubled per failure exactly up to five failures, so a scheduled wait never meets the thirty-minute cap |
| `Retry.StepKeepsRetryRows` | apps/control-plane/lib/agent-gateway/command-outcomes.ts:82-109 | every step keeps: five failures mean suspended; a pending wait means not suspended, one to four failures and exactly 30 s times 2^failures after the last transition |
| `Retry.StepKeepsSingleProbe` | apps/control-plane/lib/reconciliation.ts:77-89 | no step gives a workload two unfinished reconcile-issued commands |
| `Retry.ReachableRetries` | apps/control-plane/lib/reconciliation.ts:44-101 | both hold in every reachable state |
| `Retry.EveryReachableState` | apps/control-plane/lib/agent-gateway/command-outcomes.ts:41-115 | every run from the empty system, for any agents and clock, keeps fencing, single outcomes, confirmation, retry columns and single probes together |
| `Retry.RetriesAreBounded` | apps/control-plane/lib/reconciliation.ts:60-89 | with no success, clear or reassignment of w: at most 5 - attempts commands, one fewer while one is unanswered, and at most one late one by a tick that had read the row before; none at all once five failures are counted and no such tick is left |
| `Retry.LateMeansChangedUnderTheTick` | apps/control-plane/lib/reconciliation.ts:53-61 | a tick acting on the row it read never issues for a row with five failures |
| `Retry.LimitHoldsIff` | docs/reconciliation.md:137-166 | the documented limit holds of an undisturbed run exactly when no tick reaches the row too late in it or somebody else's failed command used up an attempt; when exceeded, then by one |
| `Retry.AttemptsAccounted` | apps/control-plane/lib/agent-gateway/command-outcomes.ts:96-109 | over an undisturbed run every attempt is left, was issued, or went to a stray failure |
| `Retry.OverIffNotLoaded` | apps/control-plane/lib/reconciliation.ts:60-89 | with five failures and nothing in flight, nothing more is ever issued exactly when there is no owner or no tick under way whose reading asks for a command |
| `Retry.SuspensionEnds` | apps/control-plane/lib/agent-gateway/command-outcomes.ts:82-109 | a suspension ends by a clear or by a failure of the owner counted below five, and by nothing else |
| `RetryWitness.OneMoreThanTheLimit` | apps/control-plane/lib/reconciliation.ts:53-89 | from every idle state with a failures, a run that issues 6 - a commands undisturbed |
| `RetryWitness.CanIssueIff` | apps/control-plane/lib/reconciliation.ts:53-89 | from an idle state with a failures an undisturbed run with exactly n commands exists if and only if n is at most 6 - a |
| `RetryWitness.LimitIsExceededFromTheStart` | apps/control-plane/lib/reconciliation.ts:53-89 | such a run exists from the empty system, for any registered agent and valid specification |
| `Convergence.DivergenceNeverRises` | apps/control-plane/lib/agent-gateway/server.ts:301-324 | without a reassignment of w, no step raises twice the stale starts on their way plus the stale runners, and every healing step lowers it |
| `Convergence.RunsConverge` | apps/control-plane/lib/workloads.ts:155-189 | over a run it falls by at least the number of healing steps |
| `Convergence.ConvergedIffOnlyOwner` | apps/control-plane/lib/agent-gateway/server.ts:291-300 | it is zero exactly when only the owner runs w or is about to be told to |
| `Convergence.OnlyOwnerStays` | apps/control-plane/lib/workloads.ts:155-257 | once only the owner runs w that stays so until a reassignment |
| `Convergence.ConvergenceIsReachable` | apps/agent/src/workload-runner.ts:69-159 | from every sound state deliveries, inventories and fence stops can get there without a reassignment |
| `Calls.AssignIsARun` | apps/control-plane/lib/workloads.ts:97-149 | an assignment left alone is a run of the steps that interleave |
| `Calls.SendIsARun` | apps/control-plane/lib/workloads.ts:155-203 | so is a sent command |
| `Calls.AnsweredAsItRan` | apps/agent/src/index.ts:228-267 | whatever a delivered command does at its agent, its row is accepted once acked and says succeeded exactly if the runner did once answered; if the answer is lost it stays accepted |
| `Calls.ObservedIsWhatRuns` | apps/control-plane/lib/agent-gateway/command-outcomes.ts:16-28 | after a start, stop or restart was sent, delivered, executed with success and answered, the row says running exactly when the owner's process runs and stopped exactly when it does not, and the desired state agrees |
| `Calls.InventoryIsARun` | apps/control-plane/lib/agent-gateway/server.ts:309-323 | so is a whole inventory |
| `Calls.TickIsARun` | apps/control-plane/lib/reconciliation.ts:44-101 | so is a tick that takes the lock |
| `Calls.RelocationIsARun` | apps/control-plane/lib/agents/drain.ts:85-140 | so is a drain's relocation of one workload |
| `Calls.DrainIsARun` | apps/control-plane/lib/agents/drain.ts:69-143 | so is the whole loop of a drain, its rounds at the times the clock gives |
| `Calls.TickRestoresTheDesiredItRead` | apps/control-plane/lib/reconciliation.ts:88-89 | a reconcile command changes no workload column but the desired state, to what the tick had read |
| `Divergences.WishSurvivesIff` | apps/control-plane/lib/reconciliation.ts:53-97 | over any rest of a tick a desired state written during it survives exactly when the tick issues nothing for the workload or had read that very wish |
| `Divergences.AdminStopIsUndone` | apps/control-plane/lib/reconciliation.ts:53-89 | from every idle state a run in which an administrator's stop becomes the desired state and the tick under way turns it back |
| `Divergences.AdminStopIsUndoneFromTheStart` | apps/control-plane/lib/reconciliation.ts:53-89 | this happens in a run from the empty system, for any registered agent and valid specification |
| `Divergences.SuspensionEndsWithoutClear` | apps/control-plane/lib/agent-gateway/command-outcomes.ts:82-109 | a run from the empty system in which a suspended workload is unsuspended without a clear |
| `Divergences.OldCommandConfirms` | apps/control-plane/lib/agent-gateway/command-outcomes.ts:82-92 | from every state with a deployed workload a run in which a start read before an assignment away and back confirms a generation two above the one it carries and its agent holds |
| `Divergences.OldCommandConfirmsFromTheStart` | apps/control-plane/lib/agent-gateway/command-outcomes.ts:82-92 | this happens in a run from the empty system, for any two registered agents |
| `AgentDrain.DrainAgent` | apps/control-plane/lib/agents/drain.ts:49-164 | an unknown agent is an error; otherwise the agent is draining, its workloads are visited once each, and it ends disabled exactly when none is left |
| `AgentDrainTheorems.StatusInColumns` | apps/control-plane/lib/agents/drain.ts:53-53 | a status write changes the status of that agent and no other column |
| `AgentDrainTheorems.SuitsIffEligible` | apps/control-plane/lib/scheduling.ts:62-95 | in the drain's context eligibility is online status, capability, labels and memory; counts and failures do not matter |
| `AgentDrainTheorems.ContextInColumns` | apps/control-plane/lib/scheduling.ts:58-95 | what the scheduler is told: the agent's columns, its workloads without the one to place, its recent failures, and where each customer's other workloads are |
| `AgentDrainTheorems.FailuresOfTheLastHour` | apps/control-plane/lib/scheduling.ts:48-54 | an agent's recent failures are its failed commands created within the last hour, and only drop out as time passes |
| `AgentDrainTheorems.TargetIsAHost` | apps/control-plane/lib/agents/drain.ts:75-83 | a target is found exactly when another agent could host the workload, and is one, never the drained agent |
| `AgentDrainTheorems.TargetIsTheBestHost` | apps/control-plane/lib/agents/drain.ts:75-83 | no other agent that could host the workload scores higher than the target, and those that score the same have greater ids |
| `AgentDrainTheorems.RelocationMoves` | apps/control-plane/lib/agents/drain.ts:85-142 | a relocation changes one row by owner and one generation, and issues the update, a start if it should run, and one stop to the old agent at the old generation, in that order |
| `AgentDrainTheorems.CountsFollowMoves` | apps/control-plane/lib/scheduling.ts:62-74 | the next workload is scored with one workload more on the last target, one less on the drained agent and no other count changed |
| `AgentDrainTheorems.DrainConservesWorkloads` | apps/control-plane/lib/agents/drain.ts:62-149 | each workload is relocated or stranded, never both; stranded exactly when no other agent could host it; relocated ones gained one generation on such an agent; nothing else changed; the agent keeps exactly the stranded ones |
| `AgentDrainTheorems.FullyDrainedIffNoneStranded` | apps/control-plane/lib/agents/drain.ts:145-149 | the drain is complete exactly when nothing is stranded |
| `AgentDrainTheorems.ExactlyOneStop` | apps/control-plane/lib/agents/drain.ts:110-140 | the drained agent is sent exactly one stop for each relocated workload and none for any other |
| `AgentDrainTheorems.OrderDecidesOnlyTargets` | apps/control-plane/lib/agents/drain.ts:62-149 | which workloads move does not depend on the order of the loop or the clock |
| `Rebalance.ComputeRebalanceRecommendations` | apps/control-plane/lib/rebalance.ts:42-108 | the loops over the mutable load map compute the plan that the rows below describe without its definitions |
| `Rebalance.TargetIsAvailable` | apps/control-plane/lib/rebalance.ts:53-62 | a target is an online worker below its maximum and never the worker the bot leaves |
| `RebalanceTheorems.PlanIsMaximum` | apps/control-plane/lib/rebalance.ts:64-105 | assigns are min(unassigned bots, online spare capacity) and moves are min(total demand, spare left) |
| `RebalanceTheorems.PlacementUsesOneSpare` | apps/control-plane/lib/rebalance.ts:85-104 | every placement takes one unit of spare capacity and a move never creates any |
| `RebalanceTheorems.PlanIsFeasible` | apps/control-plane/lib/rebalance.ts:27-41 | the plan is one an administrator could carry out within all capacities |
| `RebalanceTheorems.NoPlanDoesBetter` | apps/control-plane/lib/rebalance.ts:64-105 | no feasible plan, however found, places more bots |
| `RebalanceTheorems.PlanIsBalanced` | apps/control-plane/lib/rebalance.ts:53-105 | every receiver less its last bot is at most as full as any online worker, and within capacity |
| `RebalanceMoves.WhoLeaves` | apps/control-plane/lib/rebalance.ts:48-104 | of every worker the first bots leave, at most `currentBots` of a draining or failed one and at most `currentBots - maxBots` of any other, and fewer only if it has no more or every online worker is full |
| `RebalanceMoves.UnavailableWorkersAreEmptied` | apps/control-plane/lib/rebalance.ts:31-40 | every bot of a draining or failed worker has a move off it, or every online worker is full in the projected load |
| `RebalanceMoves.WhoIsAssigned` | apps/control-plane/lib/rebalance.ts:64-77 | assigns take the bots without a worker in order, and one is left over only if every online worker is full |
| `RebalanceMoves.BotsOnInOrder` | apps/control-plane/lib/rebalance.ts:86 | a worker's bots are listed in the order of the bot rows |
| `RebalanceMoves.WorkerlessInOrder` | apps/control-plane/lib/rebalance.ts:64-65 | so are the bots without a worker |
| `WorkerPool.SetWorkerKeepsAgreement` | apps/control-plane/lib/worker-assignment.ts:10-42 | a committed transaction keeps counter, active rows and pointer in agreement and moves one pointer |
| `WorkerDrain.WorkerTables.SetBotWorker` | apps/control-plane/lib/worker-assignment.ts:10-42 | it commits exactly when the bot and the new worker, if any, exist, and then moves that pointer alone; otherwise every table is restored; the copies stay in agreement |
| `WorkerDrain.WorkerTables.AddWorker` | apps/control-plane/app/api/admin/workers/route.ts:38 | a new worker row starts with its counter at zero, in agreement |
| `WorkerDrain.WorkerTables.AddBot` | apps/control-plane/app/api/admin/bots/route.ts:67-78 | a new bot row starts without a worker, in agreement |
| `WorkerDrain.DrainPlan` | apps/control-plane/lib/workers/drain.ts:39-42 | the moves off a draining worker take its bots in order to online workers with room, and if one is left over every online worker is full in the projected load |
| `WorkerDrain.WorkerTables.ApplyMoves` | apps/control-plane/lib/workers/drain.ts:44-48 | applying the filtered plan moves exactly its bots and keeps the agreement after each |
| `WorkerDrain.WorkerTables.DrainWorker` | apps/control-plane/lib/workers/drain.ts:23-69 | moved and stranded bots partition the worker's bots, no target ends above its maximum, the worker goes offline exactly when none is stranded, and a stranded bot means every online worker is full in the projection |
| `Scheduler.ScoreEligibleAgent` | packages/scheduler/src/schedule.ts:55-115 | the pushes in branches and a loop add up to 30 for the preferred region, 10 per preferred label, the memory and spread shares of 20 and 10, 10 without a sibling here, less 5 per recent failure, 10 if already here |
| `Scheduler.ScoreIsWorth` | packages/scheduler/src/schedule.ts:55-115 | so does the breakdown the other theorems are about, for every agent, workload, placements and load |
| `SchedulerTheorems.EligibleIffAllHold` | packages/scheduler/src/schedule.ts:18-53 | eligible exactly when online, with the capability, the labels, the environment, enough memory and below the workload limit |
| `SchedulerTheorems.RoundShareIsNearest` | packages/scheduler/src/schedule.ts:76-88 | memory and spread points are the nearest integer to the exact share, halves rounded up |
| `SchedulerTheorems.SelectionIsBest` | packages/scheduler/src/schedule.ts:161-172 | nobody is selected exactly when nobody is eligible; otherwise an eligible agent of maximal score, least id among ties |
| `SchedulerTheorems.OrderDoesNotMatter` | packages/scheduler/src/schedule.ts:117-128 | permuting the agents gives the identical candidate list and selection |
| `SchedulerTheorems.LosersKeepLosing` | packages/scheduler/src/schedule.ts:76-105 | an agent not selected is not selected after more workloads, more failures or less memory, although its count shifts every score |
| `SchedulerTheorems.SiblingLoses` | packages/scheduler/src/schedule.ts:90-98 | of two agents alike, the one that already hosts the customer is never selected before the one that does not |
| `SchedulerTheorems.ReasonIsTheFirstFailure` | packages/scheduler/src/schedule.ts:24-53 | the reason names the first requirement that fails, in the order of the checks |
| `SchedulerTheorems.BreakdownSaysWhy` | packages/scheduler/src/schedule.ts:61-114 | an entry with a label is in the breakdown exactly when its condition, written out, holds |
| `SchedulerTheorems.CandidatesAreRanked` | packages/scheduler/src/schedule.ts:161-165 | the candidates are those of the agents, eligible ones first, then by falling score, then by id |
| `SchedulerTheorems.CandidateInColumns` | packages/scheduler/src/schedule.ts:139-160 | an eligible candidate carries its score and breakdown and no reason, any other its reason, no breakdown and a zero score |
| `SchedulerTheorems.LoadIsSumAndNumber` | packages/scheduler/src/schedule.ts:134-137 | the average behind the spread share is the sum of all workload counts over the number of agents |
| `RateLimiter.FixedWindowRateLimiter.TryConsume` | packages/runtime-sdk/src/rate-limiter.ts:20-31 | the class follows its call history |
| `RateLimiter.AcceptancesAreBounded` | packages/runtime-sdk/src/rate-limiter.ts:1-7 | in any half-open interval of length L at most (ceil(L / windowMs) + 1) * max acceptances, and 2 * max in one window length; with a window of no length every call is accepted unless max is zero |
| `RateLimiter.CeilDivIsCeiling` | packages/runtime-sdk/src/rate-limiter.ts:20-25 | the number of windows in that bound is the least that covers the interval |
| `RateLimiter.NeverRefusedEarly` | packages/runtime-sdk/src/rate-limiter.ts:20-31 | a call is accepted whenever fewer than max acceptances lie in the window length before it |
| `ReplayGuard.InMemoryReplayGuard.CheckAndRecord` | packages/protocol/src/replay-guard.ts:26-33 | the class follows its call history |
| `ReplayGuard.InMemoryReplayGuard.EvictExpired` | packages/protocol/src/replay-guard.ts:35-41 | the deleting loop removes exactly the entries older than the limit |
| `ReplayGuard.MapIsRecentAcceptances` | packages/protocol/src/replay-guard.ts:21-47 | the map is exactly the ids accepted within ttl of the last call, with their times |
| `ReplayGuard.RejectedIffSeen` | packages/protocol/src/replay-guard.ts:15-18 | a call is rejected exactly when its id was accepted within ttl before it |
| `ReplayGuard.AcceptancesAreApart` | packages/protocol/src/replay-guard.ts:1-14 | two acceptances of one id are more than ttl apart |
| `LocalIpc.Connection.OnData` | apps/agent/src/local-ipc.ts:40-50 | the handled lines and the buffer are always those of everything received |
| `LocalIpc.LinesOfConcat` | apps/agent/src/local-ipc.ts:40-50 | decoding a chunk after what was left over is decoding the whole |
| `LocalIpc.LinesAreProper` | apps/agent/src/local-ipc.ts:44-49 | no empty line is handed over and none that holds a newline |
| `LocalIpc.ReceiveAll` | apps/agent/src/local-ipc.ts:40-50 | for any chunking of the written stream exactly the written messages are handled, in order |
| `LocalIpc.CutStreamIsPrefix` | apps/agent/src/local-ipc.ts:40-50 | a broken connection loses only a suffix of the messages |
| `SocketClient.AgentSocketClient.SendMessage` | packages/runtime-sdk/src/socket-client.ts:66-76 | written when connected and only then; otherwise queued with the oldest dropped beyond the limit |
| `SocketClient.AgentSocketClient.PushBounded` | packages/runtime-sdk/src/socket-client.ts:72-75 | the queue keeps its last messages up to the limit, the new one last |
| `SocketClient.AgentSocketClient.Flush` | packages/runtime-sdk/src/socket-client.ts:78-84 | the queue is written in order and emptied, or kept if there is no socket |
| `SocketClient.AgentSocketClient.CloseHandler` | packages/runtime-sdk/src/socket-client.ts:56-63 | the client forgets its socket and schedules a reconnect unless closed |
| `SocketClient.AgentSocketClient.ConnectHandler` | packages/runtime-sdk/src/socket-client.ts:43-48 | a connect event resets the backoff count and flushes the queue |
| `SocketClient.AgentSocketClient.ConnectClient` | packages/runtime-sdk/src/socket-client.ts:33-41 | connect() reopens the client and makes a new socket the current one, whatever sockets exist |
| `SocketClient.AgentSocketClient.CloseClient` | packages/runtime-sdk/src/socket-client.ts:86-90 | close() cancels the reconnect and leaves socket and queue until the close event |
| `SocketClient.DeliveryIsOrdered` | packages/runtime-sdk/src/socket-client.ts:15-22 | written messages plus queue are an order-preserving subsequence of the sends; connected means an empty queue; otherwise the queue is the last messages sent since the connection was lost |
| `SocketClient.KeepsTryingUntilClosed` | packages/runtime-sdk/src/socket-client.ts:56-63 | a client once opened has a socket or a reconnect pending until it is closed, and a closed one has none pending |
| `SocketClient.SafeToConnectIffDisciplined` | packages/runtime-sdk/src/socket-client.ts:33-64 | the order survives connect() exactly when no socket exists and no reconnect is scheduled |
| `SocketClient.HandledWereSentInOrder` | packages/runtime-sdk/src/socket-client.ts:66-84 | from end to end: what the agent handles from a connection, however cut and chunked, was sent, in that order |
| `Enrollment.RestrictionsSatisfied` | apps/control-plane/lib/agents/enrollment.ts:100-117 | true exactly when every restriction the token names holds of the labels; an empty environment names none |
| `Enrollment.EnrollmentDb.CreateEnrollmentToken` | apps/control-plane/lib/agents/enrollment.ts:15-43 | a fresh unused token that expires after its lifetime |
| `Enrollment.EnrollmentDb.ConsumeEnrollmentToken` | apps/control-plane/lib/agents/enrollment.ts:56-90 | consumed exactly when it exists, is unused and has not expired, and then marked used by the agent; otherwise the reason, and nothing changes |
| `Enrollment.EnrollmentDb.HandleEnroll` | apps/control-plane/lib/agent-gateway/server.ts:196-252 | accepted with a credential and online, or refused with no row and no credential left, the token spent only if it was claimed |
| `Enrollment.WhatEnrollDoes` | apps/control-plane/lib/agent-gateway/server.ts:196-252 | accepted if and only if the token exists, is unused and has not expired and its restrictions hold; what it leaves of the tokens, agents and credentials, and the reason of every refusal |
| `EnrollmentTheorems.ReachableIsTraced` | apps/control-plane/lib/agent-gateway/server.ts:196-252 | under any interleaving every credential traces to a token its agent spent, whose restrictions its labels satisfy; nobody spends two tokens or gets two credentials |
| `EnrollmentTheorems.EveryReachableRegistry` | apps/control-plane/lib/agents/enrollment.ts:49-90 | so from the empty registry, for every interleaving |
| `EnrollmentTheorems.ClaimedAtMostOnce` | apps/control-plane/lib/agents/enrollment.ts:49-55 | of all enrollments racing for a token at most one claims it |
| `EnrollmentTheorems.UsedStaysUsed` | apps/control-plane/lib/agents/enrollment.ts:63-66 | a used token stays used by the same agent, and its restrictions and expiry never change |
| `EnrollmentTheorems.ClaimableForItsLifetime` | apps/control-plane/lib/agents/enrollment.ts:15-66 | over any run a token can be claimed exactly while it is unused and its lifetime since its creation has not passed |
| `EnrollmentTheorems.RejectionBurnsTheToken` | apps/control-plane/lib/agent-gateway/server.ts:225-233 | an agent rejected for its labels is gone without a credential and its token is spent |
| `EnrollmentTheorems.NoMoreCredentialsThanUsedTokens` | apps/control-plane/lib/agents/enrollment.ts:49-55 | credentials map injectively to used tokens |
| `EnrollmentTheorems.EnrollIsARun` | apps/control-plane/lib/agent-gateway/server.ts:196-252 | one enrollment left alone is a run of the steps that interleave |

## Left out

- Ids: numbers stand for ids, tokens and keys; fresh ones come from counters, and for agents the number is the rank in the string order that breaks ties.
- Fractions: exact rationals instead of floating point, in the rebalancer and the scheduler.
- `Fleet.Fleet`: inventories and acks, once sent, may arrive any number of times; results and queued commands arrive at most once, so queue-level redelivery of one job is not modelled.
- `Fleet.Call.WriteDesired`: the last write of a sent command may happen later or more than once, which only adds runs.
- `Runner.WorkloadRunner`: a child process is a run flag and one command at a time runs per workload; two processes during a graceful stop, and specification updates that race with an exit, are not captured.
- Agent crashes, processes that survive them, and liveness of lost commands: the code provides nothing for these; a command without an answer blocks its workload in the model too.
- Agent status: heartbeats overwrite it with online, so nothing is claimed about draining or disabled lasting.
- `AgentDrain.DrainAgent`: one drain on its own, its clock read once per workload; the polling for a confirmed start only decides about a warning. Interleaved drains are runs of Fleet, where the agent rows stay as they are.
- `Enrollment.Registry`: credential revocation and the checks of a presented credential; a stored token and its plaintext are one value.
- `LocalIpc.Connection`: the stream is characters, so a multi-byte character split between chunks is not captured; parsing and filtering of handled lines are not modelled.
- `SocketClient.Link`: reconnect delays, connect and disconnect callbacks, and more than one pending timer after an early connect().
- Worker and bot rows that are deleted, negative counters, and direct edits of the tables outside the modelled functions.
- Commands without a workload, and rows deleted under a running call, count as rows that do not exist.
- Names, reason strings, audit log rows, metrics, plans, alerts, Discord adapters and the web interface.
- PM2 and Docker adapters, Postgres, Redis, queue and socket internals, schema validation by libraries.
