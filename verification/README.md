# Dafny models of COLEMAN's durable and exact cores

This project models the parts of COLEMAN whose correctness rests on state machines, loops or exact
arithmetic, and proves what they promise for every input, run and crash. `dafny verify dfyconfig.toml` checks
the whole project.

## What is modelled

**Durable workflow protocol** (`Workflow*.dfy`). Clients, one coordinator and detached workers share a
transactional job table and kernel locks that a parent hands to a child. `WorkflowModel` is a labelled transition
system: one event is one committed transaction, one descriptor operation, one process start or one death. A lock
is the set of live processes that still hold a copy of its descriptor, so it is free only when the last copy
closes. The scheduling transaction of `_schedule` stays open over several events, because workers are spawned
inside it and can read the committed table before it ends; every other transaction is one event. `DoAdmit`,
`DoCancel`, `DoResume`, `DoEvaluate`, `CanExpire` and `DoDelete` follow `workflows.py`, `DoBegin` to `DoAbort` follow
`workflow_supervisor.py:139-212`, `DoRequest` and `DoStartCoordinator` follow `workflow_supervisor.py:61-136`, and
the worker steps follow `workflow_worker.py`. `WorkflowInvariant` states the invariant clause by clause,
`WorkflowFrames`, `WorkflowSteps`, `WorkflowWorkers` and `WorkflowScheduling` prove that every event keeps it, and
`WorkflowTheorems` and `WorkflowCounting` draw the conclusions. `WorkflowSupervisor`, `WorkflowRun`,
`WorkflowRecovery` and `WorkflowValidation` write the scheduling pass, the worker, the cleanup, the clients' sequences
of requests and the attempt readers as the loops and calls they are; their contracts tie each
to a run of the transition system or to an independent predicate.

**Exact scenario allocation** (`Ordering.dfy`, `Allocation*.dfy`). Amounts are integer ticks of 10^-12, decimals and
fractions are reals. The one-pass integer moments are proved equal to the rational reference of
`benchmarks/oracles.py`, the no-action certificate is proved safe for every distribution on the declared support,
and chunked enumeration is proved to converge to the reference optimum.

**Crash and resume of the learning loop** (`Replay.dfy`, `ReplayProcess.dfy`). The learner is one deterministic
step function over agents, bandit and generator. A process is given a number of durable steps to live; rows are
published shard by shard, the payload file is torn between truncation and the end of its write, and the marker is
replaced atomically.

**Opaque header scanner** (`Header*.dfy`). The index loops are proved equal to functions of the remaining text, and
those are evaluated on every RFC 8259 object, given as a syntax tree that keeps every character.

**In-process scheduler** (`Service.dfy`), **resumable benchmarks** (`Benchmark.dfy`), **immutable publication**
(`Publication.dfy`) and **exposure accounting** (`Exposure.dfy`) follow their source files operation by operation.

## Assumptions

- A committed SQLite transaction is atomic and serialised; its body is not replayed.
- Closing the coordinator's descriptor and committing (`workflow_supervisor.py:190-194`) is one step.
- `ticks` and `decimal_value` are exact; validated records are datatypes with predicates; fingerprints are
  injective and appear as numbers.
- Clocks only advance. Elapsed time, failed I/O, child exit codes and signals are arbitrary.
- Learners are deterministic, and so is the benchmark solver where streams of results are compared (`RunChunks`);
  timings in rows and observations are not compared.
- The protected audit's `access` appends one entry; its source is not part of this model.
- A workflow trial commits every build (checkpoint interval one); other runs may use any interval.

## Findings

- `workflows/lifecycle.py:27` makes `interrupted` and `awaiting_evaluation` terminal as well, so cleanup can expire them;
  the model follows the code.
- `_schedule` counts a job twice in its caps when its lock was busy at the probe and free at the claim
  (`workflow_supervisor.py:143`, `workflow_supervisor.py:178-180`). `WorkflowCounting.DoubleCounting` proves that this
  is the only way, and `DoubleCountingHappens` gives a run. The caps stay safe; the model keeps the list.
- Saving a checkpoint is atomic to readers exactly when it does not reuse the step the marker names
  (`Replay.SaveAtomicIffFresh`); the loop's strictly increasing steps are what makes every save fresh.
- `_finish` reads the clock again for the recorded finish (`service.py:394`), so a job tested in time can carry a finish
  time at or past its deadline, exactly when the deadline falls between the two readings (`Service.LateFinish`,
  `Service.LateFinishHappens`). The test itself is never late (`Service.CompletedInTime`).
- The scanner's nesting bound counts containers of one member value, so a whole accepted object may nest 129 deep.
- After a cancel the native engine may still advance its own markers; rows, reservations and reports are protected.

## Model

| member | source | states |
|---|---|---|
| `WorkflowTheorems.InvariantOverRuns` | `coleman/application/workflow_supervisor.py:139-194` | the whole protocol invariant (locks, claims, scheduling, capacity, reservations, results, progress, handshake) holds in every state any run with crashes reaches from an empty workspace |
| `WorkflowTheorems.StepKeeps` | `coleman/application/workflow_store.py:236-271` | one committed transaction, descriptor operation, process start or death keeps the invariant, whichever process takes it |
| `WorkflowSteps.ClientKeeps` | `coleman/application/workflows.py:266-470` | every client operation (admit, status, cancel, resume, evaluate, expire, delete, request a generation, start or leave a coordinator) keeps the invariant |
| `WorkflowWorkers.WorkerKeeps` | `coleman/application/workflow_worker.py:34-386` | every worker step, its loss of a commit and its death keep the invariant |
| `WorkflowScheduling.CoordinatorKeeps` | `coleman/application/workflow_supervisor.py:139-194` | every step of the open scheduling transaction, its commit, its rollback and the coordinator's death keep the invariant |
| `WorkflowScheduling.SpawnCapacity` | `coleman/application/workflow_supervisor.py:170-182` | a spawn inside the uncommitted transaction already respects both running caps, counted on real lock holders |
| `WorkflowScheduling.CommitHandshake` | `coleman/application/workflow_supervisor.py:184-194` | a commit leaves every waiting client informed: the generation it observes has read that client's queue entries |
| `WorkflowTheorems.OneOwner` | `coleman/application/baseline_lock.py:18-71` | a live worker is the only one of its job and holds its lock; while it lives nobody can claim, resume or expire the job |
| `WorkflowTheorems.WritesAreOwned` | `coleman/application/workflow_worker.py:34-44` | a worker changes rows, reservations or reports only while its row is running and names its own invocation, and only for its own job |
| `WorkflowTheorems.DisownedForLife` | `coleman/application/workflows.py:446-469` | a worker whose row stopped running never regains it: cancel followed by resume cannot hand the row back to a surviving worker |
| `WorkflowTheorems.CancelledWorkerCommitsNothing` | `coleman/application/workflow_worker.py:277-279` | after a cancel commits, no step of that worker in any continuation commits a transition, reservation or report |
| `WorkflowTheorems.CancellationWins` | `coleman/application/workflows.py:417-424` | cancelling an active job stops its row at once, and no worker then alive for it, at work or still before its first read, commits anything more in any continuation, resumptions included |
| `WorkflowTheorems.RolledBackWorkerDoesNothing` | `coleman/application/workflow_worker.py:294-317` | a worker whose spawning transaction rolls back, by error or coordinator death, never begins native work and commits nothing |
| `WorkflowTheorems.CapacityOverRuns` | `coleman/application/workflows.py:318-331` | in every reachable state worker-held locks and their memory, queued plus running jobs, job slots and retained bytes respect the policy, cancelled but live workers included |
| `WorkflowTheorems.AttemptsAlwaysValid` | `coleman/application/workflow_worker.py:119-159` | reservation files of each trial are numbered 1..n without gaps, ordinal <= worker invocation <= max attempts, in planned stages |
| `WorkflowTheorems.ReservationNeverRefused` | `coleman/application/workflow_worker.py:129-131` | a running worker about to reserve always has room below the attempt cap, and a trial it continues past an acknowledged step has a native marker at least that far |
| `WorkflowTheorems.CountersAreBacked` | `coleman/application/workflow_worker.py:147-155` | row counters never exceed the files on disk, and no acknowledged step is ahead of the native marker |
| `WorkflowTheorems.LaterCompletionsAgree` | `coleman/application/workflow_worker.py:269-291` | once a complete report exists, every later completion of the job carries its digest, even when the first commit was lost |
| `WorkflowTheorems.CompletionIsStable` | `coleman/application/workflows.py:625-647` | a completed row can only become expired with nothing else changed, and an expired row never changes |
| `WorkflowTheorems.NoStrandedQueue` | `coleman/application/workflow_supervisor.py:96-136` | when a generation is acknowledged some coordinator has committed a scheduling transaction since the request, and each such one has read every job still waiting and has not retired |
| `WorkflowTheorems.RetiresOnlyWhenIdle` | `coleman/application/workflow_supervisor.py:184-194` | a coordinator retires only by committing a state with no active job, no live worker and every requested generation observed |
| `WorkflowTheorems.OneCoordinator` | `coleman/application/workflow_supervisor.py:25-43` | observed never exceeds requested, and two coordinators are never live together |
| `WorkflowSupervisor.Workspace.Probe` | `coleman/application/workflow_supervisor.py:143` | the probing loop lists exactly the jobs whose lock is busy |
| `WorkflowSupervisor.Workspace.Reconcile` | `coleman/application/workflow_supervisor.py:197-212` | the reconciliation loop marks exactly the running rows nobody holds as interrupted |
| `WorkflowSupervisor.Workspace.ActiveMemory` | `coleman/application/workflow_supervisor.py:145` | the accumulator is the memory of the jobs counted as active |
| `WorkflowSupervisor.Workspace.Consider` | `coleman/application/workflow_supervisor.py:146-182` | one loop iteration passes the job over, fails it, or claims and spawns it, as a run of protocol steps |
| `WorkflowSupervisor.Workspace.Schedule` | `coleman/application/workflow_supervisor.py:139-194` | one pass is a run of protocol steps; every job left queued is blocked by its lock or a cap, every job made running had a free lock, has one more invocation and a freshly started worker, only exhausted jobs fail, no job is counted twice and each counted one had a busy lock or was started, only the locks of started jobs change, and pending is false exactly when the coordinator retires |
| `WorkflowSupervisor.CommitOutcome` | `coleman/application/workflow_supervisor.py:146-183` | what the commit publishes about each job agrees with what the loop settled, under the final caps |
| `WorkflowCounting.DoubleCounting` | `coleman/application/workflow_supervisor.py:141-182` | whatever other processes do meanwhile, a scheduling transaction counts a job twice exactly when it claims one whose lock was busy at the probe, and never more often |
| `WorkflowCounting.DoubleCountingHappens` | `coleman/application/workflow_supervisor.py:143-180` | from every empty workspace with room some run has a pass that counts the same job twice: its worker outlives a rollback, is probed as busy, and dies before the claim |
| `WorkflowRun.Trials` | `coleman/application/workflow_worker.py:189-212` | left alone, a working worker reserves each remaining trial without a receipt exactly once in its own invocation and no other trial at all, records every trial, and keeps the row's attempt count equal to the files on disk |
| `WorkflowRun.RunJob` | `coleman/application/workflow_worker.py:320-386` | a committed claim left alone: with no report yet every trial of the plan without a receipt (in an evaluation every chosen one) gains exactly one reservation of this invocation, with a report none does, no other trial gains any, the row counts all of them, and the job ends awaiting evaluation or completed with the published digest |
| `WorkflowRun.Submit` | `coleman/application/workflows.py:266-316` | when no coordinator lives, a plan the job, queue and byte limits admit ends up queued with a free lock beside unchanged jobs, under a live coordinator that can begin a pass |
| `WorkflowRun.Deliver` | `coleman/application/workflow_worker.py:320-386` | progress from any reachable state between transactions with a live coordinator: a waiting job with a free lock, invocations left and room under the caps is started by one pass and, undisturbed, ends its stage in one more invocation, with one more reservation of every trial of the plan still to run and the published report as its result |
| `WorkflowRecovery.Retry` | `coleman/application/workflows.py:426-470` | a running job whose worker crashes or fails becomes interrupted or failed, can be resumed at once, and is carried to the end of its stage by one more invocation |
| `WorkflowRecovery.EvaluateTuned` | `coleman/application/workflows.py:523-579` | a tuned job with room is requeued for evaluation and carried to completion, its chosen trials reserved once more in the evaluation stage |
| `WorkflowRecovery.Lose` | `coleman/application/workflow_worker.py:352-372` | a lost worker frees its lock and leaves a row that says how it was lost, and nothing else changes |
| `WorkflowRun.Cleanup` | `coleman/application/workflows.py:625-652` | cleanup expires exactly the due jobs, removes exactly their directories and reports exactly them |
| `WorkflowValidation.ReadTrialAttempts` | `coleman/application/workflow_artifacts.py:323-361` | the reader accepts exactly consecutive, bound, capped files and returns their events in order |
| `WorkflowValidation.AttemptLimits` | `coleman/application/workflow_validation.py:203-215` | the grouping pass accepts exactly the reports whose events respect invocation, stage and cap limits and whose ordinals per trial are 1..n |
| `WorkflowValidation.ReachableAttemptsPass` | `coleman/application/workflow_validation.py:187-215` | in every reachable state what a job's workers left behind passes the independent validator |
| `Ordering.OrderedCanonical` | `coleman/allocation/contracts.py:23-28` | two declarations of the same rows have the same canonical order, strictly increasing with the same members, or are both refused |
| `Ordering.IncreasingUnique` | `coleman/allocation/contracts.py:23-28` | rows with distinct identities have one increasing order |
| `Ordering.LexLessMeans` | `coleman/allocation/contracts.py:23-28` | identities compare by code point at the first difference, or by length where there is none |
| `AllocationModel.DeclarationOrderImmaterial` | `coleman/allocation/contracts.py:228-238` | the declared order of scenarios and actions does not change the validated problem |
| `AllocationMoments.DotRefines` | `coleman/allocation/forecasts.py:71-81` | an integer weighted sum is the rational one scaled, for any number of scenarios |
| `AllocationMoments.DeviationsExpand` | `coleman/benchmarks/oracles.py:98-99` | sum w(x-m)^2 = sum wx^2 - 2m sum wx + m^2 sum w for any m |
| `AllocationMoments.VarianceAgrees` | `coleman/allocation/forecasts.py:107` | S*second - net^2 at 48 places is the rational sum of weighted squared deviations from the mean |
| `AllocationMoments.UtilityAgrees` | `coleman/allocation/forecasts.py:108-110` | the 48-place utility numerator is the expected pointwise quadratic-target utility |
| `AllocationMoments.ExactIsReference` | `coleman/benchmarks/oracles.py:90-113` | the integer forecast equals, in every field, the rational forecast computed from the problem's own probabilities, payoffs and fee |
| `AllocationForecasts.VarianceNonnegative` | `coleman/allocation/quantities.py:52-55` | the variance numerator is never negative |
| `AllocationForecasts.OutputsInRange` | `coleman/allocation/quantities.py:46-55` | every forecast output of a valid problem lies within 10^48 with numerators that fit the declared digits |
| `AllocationForecasts.FeasibilityAgrees` | `coleman/benchmarks/oracles.py:116-137` | an evaluation has no rejection reason exactly when the reference accepts the action |
| `AllocationForecasts.ReasonsAreBreaches` | `coleman/benchmarks/oracles.py:116-137` | each rejection reason is listed exactly when the constraint it names is broken in the independent rational forecast, the floor scenario by scenario |
| `AllocationSolver.Moments.Add` | `coleman/allocation/forecasts.py:71-85` | after any number of additions the five running numerators are the weighted sums over exactly the scenarios added so far |
| `AllocationSolver.ForecastAction` | `coleman/allocation/forecasts.py:88-125` | the one-pass loop returns the reference forecast, or no forecast when a poll stops it, and an undisturbed counter never stops it |
| `AllocationSolver.FeasibilityReasons` | `coleman/allocation/forecasts.py:128-157` | for the forecast of a valid action the reasons are exactly the constraints the action breaks in rational arithmetic on the problem's own fields (the floor by a scenario of positive probability), each once in declared order, and none exactly when the reference accepts it |
| `AllocationCertificate.CertificateIsSafe` | `coleman/allocation/forecasts.py:169-200` | a certified no-action row meets the variance, shortfall, floor, capital and resource limits under every normalised weighting of the declared support |
| `AllocationCertificate.DeclaredWeightsSupported` | `coleman/allocation/contracts.py:97-104` | the declared point weights are such a weighting and the support is never empty, so the certificate's extremes exist |
| `AllocationCertificate.CertificateIsTight` | `coleman/allocation/forecasts.py:180-200` | without a variance ceiling the certificate is also necessary: safety under every point mass certifies the row |
| `AllocationCertificate.VarianceWithinSpread` | `coleman/allocation/forecasts.py:190-192` | variance under any weighting is at most the squared spread of the values that carry weight |
| `AllocationChoice.TwoStageIsBest` | `coleman/allocation/results.py:55-57` | maximum-then-ties selection picks the same action as the reference's keyed minimum |
| `AllocationChoice.ChoiceIgnoresOrder` | `coleman/allocation/results.py:29-63` | the choice depends on which rows are complete, not on the order in which they were completed |
| `AllocationChoice.CompleteChoiceIsOptimal` | `coleman/benchmarks/oracles.py:168-182` | complete enumeration under assumed weights selects exactly the reference optimum, and reports infeasible exactly when the reference finds none |
| `AllocationChoice.ChoiceMeans` | `coleman/allocation/results.py:27-63` | whatever rows are complete, the choice under assumed weights is a feasible row none beats, or none exactly when none is feasible, with its status telling whether every action was evaluated; under estimated weights it is at most the unchanged action |
| `AllocationSolver.WorkCounter.Step` | `coleman/selection/resources.py:118-123` | a step counts one unit or refuses without counting, and refuses for work only at the limit |
| `AllocationSolver.SearchOrderSorted` | `coleman/allocation/solver.py:82` | every action is examined once, no-action first, then increasing identities |
| `AllocationSolver.Enumerate` | `coleman/allocation/solver.py:79-94` | the loop keeps every completed row, adds only whole evaluations, and its work count and termination reason account for them |
| `AllocationResults.BindCheckpoint` | `coleman/allocation/results.py:86-102` | a checkpoint binds exactly when its rows are distinct recomputed evaluations of declared actions |
| `AllocationResults.SelectAllocation` | `coleman/allocation/solver.py:23-76` | one bounded call refuses only an unbindable checkpoint; every result it publishes passes all result validators, whatever stopped it |
| `AllocationResults.BytesPerAction` | `coleman/allocation/resources.py:34-44` | the preflight estimate charges every action for its scenarios, resources, holdings and itself |
| `AllocationResults.CompleteIsCanonical` | `coleman/allocation/results.py:165-176` | a result marked complete holds exactly the canonical rows and, under assumed weights, the reference optimum |
| `AllocationResults.ChunksConverge` | `coleman/allocation/results.py:194-201` | any chain of calls joined by checkpoints that ends complete publishes the rows and choice of one unlimited call |
| `AllocationResults.ChunksPreserve` | `coleman/allocation/results.py:161-162` | no row is ever lost along a chain: a later result holds every earlier row, or it stopped at its memory limit holding none and the checkpoint still in use holds them |
| `AllocationResults.AllowanceCompletes` | `coleman/allocation/results.py:165-176` | an unstopped call adds exactly its allowance until every action is evaluated, and is complete exactly when cached rows plus allowance cover the actions |
| `AllocationResults.RunChain` | `coleman/allocation/solver.py:23-94` | a chain of calls never gets stuck on its own checkpoints; a complete end has the canonical rows and their choice, and unstopped calls end complete exactly when their allowances add up to the number of actions |
| `AllocationResults.FallbackIsSafe` | `coleman/allocation/results.py:39-45` | under estimated weights the only selectable action is the certified no-action fallback, safe under every supported weighting |
| `Replay.SaveAtomicIffFresh` | `coleman/checkpoint/checkpoint_store.py:123-160` | at every point of a save, the first one included, a reader finds the whole old payload or the whole new one exactly when the save does not reuse the step the marker names |
| `Replay.OneRowEach` | `coleman/environment.py:389-471` | the uninterrupted run has exactly one row per build and partition, with the learner's value |
| `Replay.ResumesExactly` | `coleman/environment.py:287-309` | continuing from the state after k builds reaches the state of the whole run |
| `Replay.GeneratorMatters` | `coleman/application/workflow_checkpoint.py:92-111` | a checkpoint without the random generator can leave the uninterrupted run: a concrete learner shows it |
| `Replay.KeptReplace` | `coleman/results/recovery.py:152-205` | replacing one shard by its retained rows does not change what reconciliation keeps |
| `ReplayProcess.Native.Flush` | `coleman/results/parquet_sink.py:275-328` | a flush publishes each buffered row once, shard by shard; dying midway leaves only rows a restart drops |
| `ReplayProcess.Native.Save` | `coleman/environment.py:845-877` | a save leaves the old or the new checkpoint committed and, when it survives, every row of the run flushed first |
| `ReplayProcess.Native.Load` | `coleman/application/workflow_checkpoint.py:113-169` | a sound disk is never refused and gives back the uninterrupted run's state at its frontier; on any disk what is restored is whole and covers every acknowledged step, and only an unreadable or overtaken checkpoint is refused |
| `ReplayProcess.Native.Recover` | `coleman/results/recovery.py:152-222` | recovery converges, file by file and through crashes, to exactly the committed rows, and leaves a finished run byte for byte alone |
| `ReplayProcess.Native.Acknowledge` | `coleman/application/workflow_worker.py:172-177` | the job record only ever acknowledges a committed step |
| `ReplayProcess.Native.RunSingle` | `coleman/environment.py:343-511` | any attempt leaves the disk sound and never behind, refuses nothing, keeps published rows within one interval of the checkpoint, leaves at most its last commit unacknowledged, and without interruption ends in the uninterrupted run's state with exactly its rows; a finished disk is not changed |
| `ReplayProcess.Native.Advance` | `coleman/environment.py:389-471` | one build leaves the checkpoint at that build exactly when one is due there, within one interval of every published row, and acknowledges it where runs are acknowledged |
| `ReplayProcess.Native.CommitFinal` | `coleman/environment.py:494-511` | a run that ends between checkpoints commits its last build |
| `ReplayProcess.Native.WriteRow` | `coleman/results/parquet_sink.py:204-217` | a full batch is flushed, so fewer rows than a batch wait in memory |
| `ReplayProcess.Native.Campaign` | `coleman/environment.py:793-818` | any schedule of crashes followed by one surviving attempt ends in the state and rows of the uninterrupted run |
| `ReplayProcess.Native.Staged` | `coleman/application/workflow_worker.py:113-116` | a tuning prefix and its continuation, each with crashes, equal one run of the longer length |
| `HeaderScanner.SpaceIndex` | `coleman/application/workflow_import_header.py:11-15` | the index loop skips exactly the JSON whitespace |
| `HeaderScanner.StringEnd` | `coleman/application/workflow_import_header.py:18-25` | the index loop finds the closing quote, or none |
| `HeaderScanner.ContainerEnd` | `coleman/application/workflow_import_header.py:44-62` | the stack loop finds the end of the container, or refuses, as the suffix function says |
| `HeaderScanner.ValueEnd` | `coleman/application/workflow_import_header.py:28-41` | an opaque value ends where the suffix function says |
| `HeaderScanner.MemberNameEnd` | `coleman/application/workflow_import_header.py:65-77` | a name is accepted exactly when it decodes to a known unseen member followed by a colon |
| `HeaderScanner.MembersFrom` | `coleman/application/workflow_import_header.py:80-95` | the member loop collects exactly the header spans |
| `HeaderScanner.SourceHeader` | `coleman/application/workflow_import_header.py:98-121` | the index loops compute the header function on every text, well formed or not; `HeaderMeans`, `BodyStaysOut` and `BodyDoesNotInterfere` say what that is, by literal member names |
| `HeaderGrammar.StringEnds` | `coleman/application/workflow_import_header.py:18-25` | every RFC 8259 string ends at its own quote, whatever it escapes |
| `HeaderGrammar.SkipValue` | `coleman/application/workflow_import_header.py:44-62` | any RFC 8259 value inside containers is passed with the stack unchanged exactly when the nesting fits |
| `HeaderGrammar.ValueEnds` | `coleman/application/workflow_import_header.py:28-62` | a value before a delimiter is passed exactly when it opens at most 128 containers at once |
| `HeaderProjection.FieldScanned` | `coleman/application/workflow_import_header.py:80-95` | a member with any passable value text contributes its span exactly when its name is a header |
| `HeaderProjection.HeaderProjects` | `coleman/application/workflow_import_header.py:98-121` | an RFC 8259 object is accepted exactly when its names decode to distinct known members, each value nests at most 128 containers and the text is at most 2 MiB; the output is the object restricted to its headers |
| `HeaderProjection.HeaderMeans` | `coleman/application/workflow_import_header.py:80-121` | an RFC 8259 object is accepted exactly when its names decode to distinct names among the six literal ones, no value nests deeper than 128 and its size is at most 2097152 bytes; the output is an object with exactly the members named schema_version, contract, artifact_type or plan, in order |
| `HeaderProjection.BodyStaysOut` | `coleman/application/workflow_import_header.py:80-95` | no member of an output is named report or files, and every header member of the input is in it |
| `HeaderProjection.SizeIsUtf8` | `coleman/application/workflow_import_header.py:106-108` | the measured size is that of the UTF-8 encoding |
| `HeaderProjection.ProjectionMeans` | `coleman/application/workflow_import_header.py:98-121` | the output's tree is an RFC 8259 object whose members are exactly the input's members with one of the four literal header names, in order |
| `HeaderProjection.BodyDoesNotInterfere` | `coleman/application/workflow_import_header.py:98-110` | two accepted objects that agree on every member not named report or files have the same output |
| `HeaderProjection.OpaqueBodyIgnored` | `coleman/application/workflow_import_header.py:80-95` | exchanging an opaque value for any other passable text, well formed or not, changes neither acceptance nor output |
| `HeaderProjection.HeaderIdempotent` | `coleman/application/workflow_import_header.py:98-121` | projecting the output changes nothing |
| `Service.ApplicationService.Finish` | `coleman/application/service.py:370-396` | a completion is tested at a clock reading inside the call: overdue before it, the job expires; not overdue after it, it completes with its handle; a failed cleanup leaves it running without a process |
| `Service.ApplicationService.Expire` | `coleman/application/service.py:398-407` | exactly the finished jobs whose retention has run out at one clock reading expire, and nothing else changes |
| `Service.ApplicationService.StartReady` | `coleman/application/service.py:426-450` | afterwards no queued job fits beside the running ones, a job overtakes an earlier waiting one only if it needs less memory, overdue jobs expire and no other does, and on a reliable host none fails |
| `Service.ApplicationService.Admission` | `coleman/application/service.py:152-167` | work is granted exactly when the session has a job, output bytes and memory for it and either a free slot or a free place in the queue |
| `Service.ApplicationService.Submit` | `coleman/application/service.py:180-230` | each requested limit is recorded, cut to the cap for it; every reservation and the queue bound hold afterwards; an identical retry finds its job unchanged, a changed one is refused, and a new command that can be stored is refused only when nothing can be granted |
| `Service.ApplicationService.Collect` | `coleman/application/service.py:409-424` | a stopped worker ends failed, expired or completed with its bundle's receipt; a usable bundle completes on a reliable host if it is in time when the call ends, and expires if it is late when the call starts |
| `Service.ApplicationService.Cancel` | `coleman/application/service.py:253-260` | live work is cancelled, a terminal job keeps the state that won, and a closed session changes nothing |
| `Service.ApplicationService.Advance` | `coleman/application/service.py:452-463` | a supervisor pass expires every live job overdue when it starts and none that is not overdue when it ends, collects every stopped worker, leaves the others running, keeps every reservation and ends saturated |
| `Service.ApplicationService.ImportResult` | `coleman/application/service.py:289-327` | imported evidence reserves the caps as a completed record without a queue or running slot, and is refused only when no job or output bytes are left |
| `Service.ApplicationService.Close` | `coleman/application/service.py:102-113` | closing leaves every job terminal |
| `Service.QueueBound` | `coleman/application/service.py:159-164` | letting a startable job bypass a full queue never exceeds the bound once ready jobs have started |
| `Service.ReservationsMean` | `coleman/application/service.py:145-167` | the reservations are the sums of the memory of the running jobs, of the output of the unexpired ones, and the counts of running and queued jobs |
| `Service.NewJob` | `coleman/application/service.py:216-228` | if nothing else can start, a new job that fits is the only one that can |
| `Service.CompletedInTime` | `coleman/application/service.py:370-396` | over any session a live job that later completes was tested against its deadline, in time, at a clock reading in between; so a job overdue while live never completes |
| `Service.FirstTerminalWins` | `coleman/application/service.py:398-407` | over any session a terminal record is never changed except by expiry, and a completed one keeps its receipt through it |
| `Service.LateFinish` | `coleman/application/service.py:373-394` | the finish time recorded for a completed job reaches its deadline exactly when the deadline falls between the test's clock reading and the second one |
| `Service.LateFinishHappens` | `coleman/application/service.py:373-394` | a job admitted at 0 with deadline 10, tested at 9 and recorded at 10, completes with a finish time at its deadline |
| `Benchmark.Invocations` | `coleman/benchmarks/runner.py:261-266` | the nested loops list the plan |
| `Benchmark.PlanDistinct` | `coleman/benchmarks/contracts.py:174-182` | no slot of a valid suite's plan is declared twice |
| `Benchmark.VerifyObservations` | `coleman/benchmarks/report.py:180-199` | the table pass accepts exactly gated plan prefixes whose repeated labels agree |
| `Benchmark.VerifyFailures` | `coleman/benchmarks/report.py:202-228` | the pass accepts exactly consecutively numbered attempts at nondecreasing reached positions within budget |
| `Benchmark.FailedReport` | `coleman/benchmarks/report.py:289-310` | a failure at the next slot yields a report that verifies and exports a checkpoint that binds |
| `Benchmark.One` | `coleman/benchmarks/runner.py:202-228` | one call yields a row that verifies together with the progress so far or a verified report of the failed attempt at its slot, with the phase and known work of that kind of failure; a returned result is turned down only when it does not verify |
| `Benchmark.RunBenchmarks` | `coleman/benchmarks/runner.py:289-331` | for an adapter that may return anything, a chunk is refused only for an unbindable checkpoint or an exhausted failure history; whatever stops it, its report passes its own verification, keeps the checkpoint's observations and attempts, adds only what the calls returned and exports a binding checkpoint; if all calls return it completes exactly when all results together verify |
| `Benchmark.RunChunks` | `coleman/benchmarks/report.py:312-331` | with a deterministic solver a chain of chunks that ends complete has the result stream of one uninterrupted run |
| `Publication.SameFileBytes` | `coleman/artifacts.py:283-291` | the chunked loop decides equality of the complete contents |
| `Publication.FinalPath.WriteImmutableStream` | `coleman/artifacts.py:184-232` | publication writes the concatenated chunks once, accepts identical replay, and refuses excess or conflict without changing the file |
| `Publication.FinalNeverChanges` | `coleman/artifacts.py:269-280` | once linked the final bytes never change, in any interleaving with crashes |
| `Publication.ReturnedWritersAgree` | `coleman/artifacts.py:269-280` | all writers that returned normally supplied exactly the final bytes |
| `Publication.FinalIsWhole` | `coleman/artifacts.py:214-232` | a reader finds nothing or the complete bytes of one writer, within that writer's maximum |
| `Publication.ComparingDecides` | `coleman/artifacts.py:269-291` | a comparing writer can always finish, and returns exactly when its bytes are the final ones |
| `Exposure.ReadsAreMarked` | `coleman/application/workflow_exposure.py:36-75` | in every run with crashes an imported or replayed outcome is read only under a marker that is already durable |
| `Exposure.NothingForgotten` | `coleman/application/workflow_exposure.py:125-178` | markers and audit entries are never lost |
| `Exposure.LoadCountsExposure` | `coleman/application/workflow_exposure.py:181-223` | when protected loading starts, under the source lock, the audit log holds a distinct development access for every marker |
| `Exposure.Workspace.Synchronize` | `coleman/application/workflow_exposure.py:206-223` | the loop succeeds exactly when every existing map names an access of this audit and the audit has room for the rest, and then has recorded one access for each marker without a map, in order; otherwise the evaluator ends |
| `Exposure.AttemptsBounded` | `coleman/application/workflow_exposure.py:58-75` | at most 1024 import attempts are reserved and each keeps its slot |
| `Exposure.ReplayProceeds` | `coleman/application/workflow_exposure.py:181-223` | marking never blocks a reader: with the source lock free and room for its marker it can go on to read the outcomes under that marker |

## Left out

- CLI, MCP framing, notebooks, Markdown and SQL rendering, artifact paging and exports: presentation and plumbing.
- Owners, idempotency keys and plan/dataset registration of the durable service: per-caller filtering and lookups beside the protocol.
- Runtime compatibility checks, output-byte, RSS and wall-clock guards of the worker: each appears only as a step that may stop or fail the worker.
- The sleep-and-retry loops of ensure_supervisor and _supervise: their polls are events of the transition system, without timing.
- Clients and workers as objects: outside the scheduling pass, the worker run and the cleanup, operations are transitions on values, because they interleave; aliasing of in-memory records is not captured.
- Descriptor copies that exist only between fork and exec: the child holds its copy from the spawn event on.
- Policies, rewards, metrics, scenario loaders, HCS variants and forecasts of the next build: the learner is one step function.
- Result ownership binding of native shards (`results/recovery.py:86-149`): only the step test of reconciliation is modelled.
- Units and meanings of quantities, holdings vectors and evidence metadata of allocation problems: equality checks on labels.
- The per-row list form of gross payoffs: payoffs are maps by scenario identity, which fixes their order.
- The size caps of the benchmark allocation oracle (32 actions, 64 scenarios): the agreement is proved without them.
- Member-name decoding of the header scanner: an arbitrary function of the quoted text.
- Configuration resolution, caller authentication and reading results in the in-process service: lookups with no effect on the scheduler.
- The coverage solver, protected statistics and telemetry: not needed by any property above.
- A conflicting marker context, corrupt metadata and missing files in exposure accounting: processes may leave at any point instead.
- Trial receipts: a run is given the set of trials that have one; writing and verifying them is not modelled, nor is the counter update of a worker that finds the report already published.
- The content of failure records and timing measurements in benchmark reports: only phase, work, order and availability are modelled.
