# et-operator: the TrainingJob controller

The et-operator runs elastic distributed training on Kubernetes. A `TrainingJob` owns a set of worker
pods, a launcher pod that reads a hostfile, and a status that persists between reconcile passes: a
phase, a list of conditions, the target and current worker lists, the scaler in progress and a restart
count. `ScaleIn` and `ScaleOut` objects shrink and grow the job while it runs. One reconcile pass reads
the phase, takes one step and writes the status back; between passes pods change phase, users submit or
delete scalers, and the clock moves on.

This project models that controller and proves what holds over every run, under every interleaving and
with every API call free to fail. It has three layers.

**Codecs and lists.** `GoStrings` has the decimal conversions with their 64-bit limits, and splitting
and joining. On top of it are the worker names (`WorkerNames`), the choice of workers to remove
(`ScaleInSelection`), the hostfile printers with independent readers (`Hostfile`), condition lists
(`Conditions`) and scaler references (`ScalerRefs`).

**One pass.** `Cluster` declares the world (pods, launcher with its hostfile, ConfigMap, scalers, status)
and `Api`, the answers that the API server and the launcher give during one pass. `Pass` says, branch
by branch, what a pass does with them. `Controller` holds the same pass as a class whose methods update
its fields in place, with the loops of the original; every method is proved to leave exactly the state
that `Pass` says. The theorems below are about the functions of `Pass`; `ReconcileJobs`, whose contract also
says that it is a step of `System.Next`, carries them over to the class.

**Runs.** `System` adds the events between passes and defines runs. The remaining modules are theorems
about all runs:

- `Phases` and `Lifecycle`: the agreement of phase and conditions, the restart budget, and a bound on
  the number of phase changes in any run;
- `Workers` and `Launching`: which pods can exist, that an ended job is cleaned up for good, that no
  launcher is created before enough workers were seen running in the same attempt, and that the job runs
  only after its launcher was seen running;
- `StartUps` and `Restarts`: exactly what a pass of a job that starts up, or restarts, comes to;
- `ScalerPasses` and `Attempts`: one scaler at a time, and the latest one first;
- `ScalerHistory`: what is recorded on a scaler is never taken back, and its deadline never moves;
- `WorkerLists`, `Ledger` and `Targets`: the target list holds no name twice, its length is the replica
  count plus what successful scalers added and took off, and a new name on it has its pod;
- `Recovery`: which target workers are replaced, by restart policy and pod;
- `ScaleIns`: the order of a scale-in, hostfile first, then processes, then pods, and what a request by
  name or by count comes to;
- `ScaleOuts`: a scale-out commits all of its workers, every one running, or none;
- `Decisions` and `Outcomes`: the exact conditions under which a pass ends the job, starts a scaler or
  finishes one, whatever its calls answer, which chosen workers a scale-in deletes, and that the script
  of a scaler runs once;
- `Requeue`: exactly when a pass asks to be made again after the poll interval;
- `Reasons`: what the conditions say about how a job or a scaler ended, and when a scaler's time starts;
- `Progress`: start-up reaches Running, and the current workers follow the running pods;
- `Leftovers`: scale-outs that meet pods which are not theirs;
- `Agreement` and `Disturbances`: the launcher's hostfile parses to exactly the recorded workers, and
  for each kind of disturbance the exact condition under which it does not;
- `Inputs`: for each property that fails, one state that a job of two workers comes to and the pass that
  fails there.

## Hypotheses

Runs start from a job that has just been submitted and are finite sequences of events. What an attempt
keeps is stated from any state `i` of the run to any later state `k`, and the hypotheses speak of the
states and events between the two only; the submission of the job is always such a start, and so is any
later state with no scaler in flight. The hypotheses are predicates on states or events:

- `Attempts.CleanFrom`: no restart leaves a scaler in flight behind. A restart resets the status but
  neither `currentScaler` nor what is recorded on the scalers, so one-at-a-time and the absence of
  duplicates really end there (`Attempts.RestartKeepsOneAtATime`); they begin again with the first state
  in which the leftover is finished or gone.
- `WorkerLists.RoomyFrom`: worker indexes stay below 2^31, the range in which a worker gets the name it
  was asked for (`WorkerNames.NarrowedName`).
- `ScaleOuts.NewNamesFrom`: a ScaleOut is not created under a name that still marks pods, or that another
  ScaleOut has. Pods outlive the ScaleOut that added them, so deleting one and applying it again does
  this; `Leftovers.FirstPassSucceeds` gives the exact condition under which that breaks all-or-nothing.
- `Ledger.SoundFrom`: the target list has neither run empty, as an empty one adopts whatever runs, nor
  does it hold a duplicate.
- `ScaleIns.SteadyFrom`: while a script-less scale-in is in progress the launcher exists, and its script
  did not run on an empty choice.
- `Agreement.UndisturbedFrom`: no restart, no launcher that vanishes, no command that fails after writing
  its file, no scaler other than script-less scale-ins whose deletions can be listed.

## What the proofs turned up

- A `ScaleIn` whose `podNames` match no pod leaves its list nil, and nil means every worker. Exactly then
  a worker that it does not name is deleted: all worker pods go, and the scale-in is reported as
  successful (`ScaleIns.NamedScaleIn`, `Inputs.NamedScaleInFails`).
- The pods of a scale-out are counted by its name. Applied again under a name that still marks running
  pods, it succeeds in the very pass that allocates its workers exactly when there are enough of the old
  pods, and commits workers that are still pending (`Leftovers.FirstPassSucceeds`,
  `Leftovers.PendingCommitted`, `Inputs.ReusedName`).
- A scale-out in flight survives a restart with its old pod names. Its success makes a duplicate exactly
  when one of the pods recorded on it before the pass is a target worker (`Ledger.DuplicatingCommit`,
  `Inputs.CommitDuplicates`). While the pod of such a worker exists without the scale-out's label, which a
  restart brings about for the indexes below the replica count (`Leftovers.RestartMeetsLeftover`), it
  cannot succeed at all (`Leftovers.CollisionFails`), and when its time is up it deletes the pod of that
  target worker (`Leftovers.CollisionDeletesTarget`, `Inputs.LeftoverDeletesTarget`).
- The ConfigMap is written once, so the launcher of a later attempt starts from the hostfile of the first;
  it agrees with the current workers exactly when they are the same list again
  (`Disturbances.LaterHostfile`, `Inputs.LaterHostfileFails`).
- A scale-in in flight survives a restart with the mark that its script has run, and then deletes workers
  that the hostfile goes on listing (`ScalerHistory.RecordsSurvive`, `Disturbances.StaleScript`,
  `Inputs.StaleScriptFails`).
- A scale-in that fails, or is removed, after its script ran leaves the hostfile short
  (`Disturbances.FailedScaleIn`, `Disturbances.DroppedScaleIn`, `Inputs.FailedScaleInFails`,
  `Inputs.DroppedScaleInFails`), and a scale-out leaves it long until the next sync. A worker sync
  compares worker lists, not the file, and repairs it exactly when the lists differ
  (`Agreement.SyncRepairs`, `Disturbances.ScaleOutThenSync`).
- A restart whose deletion of the launcher fails goes on all the same, with the failed launcher of the
  attempt before (`Restarts.RestartOutcome`, `Inputs.RestartInVain`). The third start-up step takes it for its own and the fourth
  fails the job again (`StartUps.StartUpDecides`).
- A scale-out that has failed asks for another pass, like one that waits; a scale-in that has failed does
  not (`Requeue.ScalingRequeues`).
- `createLauncher` takes an unreadable launcher for an existing one and records `LauncherCreated`
  without it (`Launching.LauncherMissed`, `Inputs.LauncherMissedFails`).

Where comments in the repository and its code disagree, the model follows the code: an exit code is
retried for 129 to 254, where the comments say 128 to 255 (`pkg/controllers/worker.go:193`,
`pkg/controllers/api/v1/types.go:179`); a missing restart policy of the workers counts as Never, where
`pkg/controllers/api/v1/types.go:166-167` names Always.

## Model

| member | source | states |
|---|---|---|
| GoStrings.ParseOfItoa | pkg/controllers/worker.go:256-264 | printing an index and parsing it gives the index back, for every 64-bit integer |
| GoStrings.ContainsMeans | pkg/controllers/scalein.go:102 | the search finds exactly the texts that occur somewhere, with anything before and after |
| WorkerNames.IndexOfName | pkg/controllers/worker.go:256-264 | getWorkerIndex inverts getWorkerName for every job name, dashes included |
| WorkerNames.NamesInjective | pkg/controllers/worker.go:256-259 | different indexes give different names |
| WorkerNames.NamesOfJobsInjective | pkg/controllers/worker.go:256-259 | workers of two different jobs never share a name |
| WorkerNames.NarrowedName | pkg/controllers/worker.go:237-268 | the pod created for an index has the requested name exactly when the index fits into 32 bits |
| WorkerNames.GetWorkerPodsMaxIndex | pkg/controllers/scaleout.go:111-130 | the loop computes the specified maximum: -1 for no pods, unparsable parts count as 0 |
| WorkerNames.MaxIndexIsMaximum | pkg/controllers/scaleout.go:111-130 | on canonical names the last-dash parse attains and bounds every index of getWorkerIndex |
| WorkerNames.FreshNamesAreNew | pkg/controllers/scaleout.go:101-106 | names allocated above the maximum are canonical, distinct and not in the list |
| WorkerNames.SortPodNames | pkg/controllers/scalein.go:228-244 | the two loops compute the specified sorted list; names that do not parse are dropped |
| WorkerNames.SortIsPermutation | pkg/controllers/scalein.go:228-244 | on canonical names the result is a permutation in ascending numeric order, without duplicates if there were none |
| WorkerNames.SortIdempotent | pkg/controllers/scalein.go:228-244 | sorting twice is sorting once, on any strings |
| WorkerNames.SortOfPermutation | pkg/controllers/scalein.go:220-244 | the result does not depend on the listing order |
| WorkerNames.FilterNames | pkg/controllers/scalein.go:169-183 | selects, or inverted drops, the named workers and keeps the order |
| WorkerNames.FilterMembers | pkg/controllers/scalein.go:169-199 | a worker is in the result exactly when it is in the list and (not) named |
| WorkerNames.FilterCount | pkg/controllers/scalein.go:169-183 | a duplicate-free sublist of a duplicate-free list selects as many workers as it names |
| ScaleInSelection.SelectByCount | pkg/controllers/scalein.go:151-164 | by count: the slice is in range, exactly count pods are chosen, each with a higher index than every kept one, and one is kept |
| ScaleInSelection.SelectionIgnoresOrder | pkg/controllers/scalein.go:141-164 | the chosen set does not depend on the order of the pod listing |
| ScaleInSelection.JoinedComparison | pkg/controllers/worker.go:110-114 | the joined texts differ exactly when the two worker lists do |
| Hostfile.GetHostfileContent | pkg/controllers/resource.go:463-469 | the buffer loop writes the specified text |
| Hostfile.GetDeepSpeedHostfileContent | pkg/controllers/resource.go:475-481 | the buffer loop writes the specified text |
| Hostfile.WorkerListArgument | pkg/controllers/scaleout_controller.go:119-127 | the entries joined by commas, without a trailing one |
| Hostfile.HostfileRoundTrip | pkg/controllers/resource.go:463-469 | the Horovod hostfile reads back to the same workers and slots, with and without echo's newline |
| Hostfile.DeepSpeedRoundTrip | pkg/controllers/resource.go:475-481 | the DeepSpeed hostfile reads back to the same workers and slots |
| Hostfile.ArgumentRoundTrip | pkg/controllers/scaleout_controller.go:119-127 | the script argument reads back to the same workers and slots |
| Hostfile.UpdateScriptEffect | pkg/controllers/scaleout_controller.go:131-134 | running the update script leaves a file that reads back to the same workers and slots |
| Conditions.SetEffect | pkg/controllers/status.go:152-200 | setCondition's effect on the set of true conditions, on any list in which Running is not true beside Restarting, Succeeded or Failed: frozen once Failed, exclusions applied, the new type true |
| Conditions.SetRefinesMap | pkg/controllers/status.go:152-200 | setCondition is a map update from type to condition; types stay unique, Running and Restarting never both present |
| Conditions.SetRecords | pkg/controllers/status.go:152-176 | unless the list is frozen, status, reason and message of the type that was set are the new ones, also when only reason or message differ |
| Conditions.SetAllWellFormed | pkg/controllers/status.go:152-200 | uniqueness and exclusion survive any sequence of calls |
| Conditions.FailedFreezes | pkg/controllers/status.go:153-156 | a True Failed condition freezes the list through any sequence of calls |
| Conditions.TransitionTimeKept | pkg/controllers/status.go:167-170 | LastTransitionTime moves only when the status of that condition changes |
| Conditions.DeadlineFixed | pkg/controllers/status.go:238-246 | once started, a scale-out's deadline never moves, whatever is recorded later and however often it is selected |
| Conditions.JobStatus.SetCondition | pkg/controllers/status.go:152-175 | the method leaves the list that the specification gives |
| Conditions.JobStatus.FilterOutCondition | pkg/controllers/status.go:178-200 | the loop drops displaced types and demotes Running on an end condition |
| Conditions.JobStatus.HasCondition | pkg/controllers/status.go:128-135 | true exactly when the type is among the true conditions |
| Conditions.JobStatus.GetCondition | pkg/controllers/status.go:119-126 | the first condition of the type, if any |
| Conditions.JobStatus.IsScaleOutTimeout | pkg/controllers/status.go:238-246 | late exactly when the first start condition is older than the timeout |
| ScalerRefs.ResolveFullName | pkg/controllers/scaler.go:259-278 | looking up the printed reference finds the same object exactly when no separator occurs in namespace or name |
| ScalerRefs.LatestScaler | pkg/controllers/scaler.go:169-180 | the scan keeps the first of the latest scalers |
| ScalerRefs.LatestIsLatest | pkg/controllers/scaler.go:169-180 | the chosen scaler is a listed one and none is strictly later |
| ScalerRefs.LatestIsFirst | pkg/controllers/scaler.go:169-180 | of several equally late scalers the first listed is chosen |
| Controller.TrainingJobReconciler.ReconcileJobs | pkg/controllers/trainingjob_controller.go:200-249 | one whole pass leaves exactly the specified world and asks to be made again exactly as specified (see `Requeue`), and is a step of the transition relation |
| Controller.TrainingJobReconciler.DoSteps | pkg/controllers/trainingjob_controller.go:390-423 | the loop runs the first step whose condition is missing and no other |
| Controller.TrainingJobReconciler.RestartJob | pkg/controllers/trainingjob_controller.go:277-379 | counts, resets, deletes pods and launcher in order, stopping where a listing fails, or cleans up |
| Controller.TrainingJobReconciler.SyncLauncherState | pkg/controllers/launcher.go:83-147 | phase and conditions after looking at the launcher, by policy and launcher phase |
| Controller.TrainingJobReconciler.CreateLauncher | pkg/controllers/launcher.go:22-66 | ConfigMap, then launcher, then the condition, or failure |
| Controller.TrainingJobReconciler.CreateWorkers | pkg/controllers/worker.go:237-307 | the loop creates the workers in order up to the first failure |
| Controller.TrainingJobReconciler.HandleWorkersFailed | pkg/controllers/worker.go:80-169 | hostfile, adoption, bookkeeping and replacement of dead workers after one listing |
| Controller.TrainingJobReconciler.WorkersToRestart | pkg/controllers/worker.go:131-146 | the target workers whose pod needs a restart or is gone, by policy (see `Recovery`), in list order |
| Controller.TrainingJobReconciler.DeleteWorkerPods | pkg/controllers/worker.go:403-426 | the loop deletes the named pods, or all for nil, but for deletions that fail |
| Controller.TrainingJobReconciler.ExecuteScaling | pkg/controllers/scaler.go:18-73 | one pass over the current scaler, or its end when it is gone or finished |
| Controller.TrainingJobReconciler.ExecuteScaleIn | pkg/controllers/scalein.go:16-76 | choice, script, deletions and commit of one scale-in pass |
| Controller.TrainingJobReconciler.CheckWorkerShutdown | pkg/controllers/scalein.go:89-109 | the chosen workers without an attach line in the listing, in order |
| Controller.TrainingJobReconciler.ExecuteScaleOut | pkg/controllers/scaleout.go:15-67 | allocation, creation, waiting, announcement or rollback of one scale-out pass |
| Controller.TrainingJobReconciler.ActiveWorkers | pkg/controllers/worker.go:202-220 | the count of running pods with the scale-out's label, over any listing order |
| Controller.TrainingJobReconciler.SetTrainingJobScaler | pkg/controllers/scaler.go:75-192 | lists, filters, picks and starts a scaler; a failed listing contributes nothing |
| Controller.ScalerObject.SetsScaleInToDelete | pkg/controllers/scalein.go:136-167 | the recorded choice is kept, otherwise chosen by name or count, or refused |
| Controller.ScalerObject.SetScaleOutWorkers | pkg/controllers/scaleout.go:92-109 | recorded names are kept, otherwise count names above the target list's maximum |
| Phases.ExecuteScalingPhases | pkg/controllers/scaler.go:18-73 | a pass in phase Scaling keeps the invariant, moves the current scaler only, and changes the worker lists only on success |
| Phases.DoStepsPhases | pkg/controllers/trainingjob_controller.go:390-423 | the start-up steps keep the agreement of phase and conditions and can only lead to Created, Running, Succeeded or Failed |
| Phases.RestartPhases | pkg/controllers/trainingjob_controller.go:328-379 | a restart adds one to the count and leads to Created or Failed; without budget or policy the status stays |
| Lifecycle.PassPhases | pkg/controllers/trainingjob_controller.go:200-249 | every pass keeps the invariant, makes only the listed phase changes and counts exactly the restarts |
| Lifecycle.ReachableStates | pkg/controllers/trainingjob_controller.go:200-249 | in every reachable state: step conditions form a prefix, Running and Scaling have all of them, Failed phase and condition go together up to suspension, one of Running/Succeeded/Failed at most, a current scaler while Scaling |
| Lifecycle.OutcomeIsFinal | pkg/controllers/scaler.go:208-226 | no scaler gets both outcomes, and a finished one stays as it is through every pass |
| Lifecycle.RestartBudget | pkg/controllers/trainingjob_controller.go:328-339 | RestartCount equals the number of resets so far, never falls and never exceeds BackoffLimit |
| Lifecycle.LeavingFailed | pkg/controllers/trainingjob_controller.go:328-374 | Failed is left only for Suspended or by a restart, and a pass restarts a failed job exactly when the policy is OnFailure and the budget is not spent; Suspended is never left |
| Lifecycle.MeasureDrops | pkg/controllers/trainingjob_controller.go:200-249 | every pass that changes the phase or the restart count lowers a measure that no pass raises |
| Lifecycle.FinitelyManyPhaseChanges | pkg/controllers/trainingjob_controller.go:200-249 | in any run the phase changes at most 4*BackoffLimit + 5 times, and twice more per submitted scaler |
| Workers.CreatedNames | pkg/controllers/worker.go:237-252 | on canonical names exactly the requested pods come into being, all of them on success |
| Workers.CreationSucceeds | pkg/controllers/worker.go:237-252 | creating workers succeeds exactly when none of their names is refused |
| Workers.CreationStops | pkg/controllers/worker.go:237-307 | otherwise exactly the pods before the first refused one are made, and that one if it was its service that was refused |
| Workers.RunningSorted | pkg/controllers/worker.go:88-110 | the recorded running workers are distinct and exactly the running pods, for any listing order |
| Workers.PassPods | pkg/controllers/worker.go:222-235 | a pass creates canonical pending pods only, labelled by the running scale-out if there is one |
| Workers.RetryableExitMeans | pkg/controllers/worker.go:189-197 | under ExitCode the first terminated container decides, and only codes strictly between 128 and 255 are retried |
| Workers.EndedForGood | pkg/controllers/trainingjob_controller.go:291-326 | a job that succeeded, was suspended or failed without a restart left stays so and never gets a pod or a launcher again |
| Workers.EndedJobIsCleaned | pkg/controllers/trainingjob_controller.go:291-326 | one pass that can list and delete the pods leaves an ended job without any, for good: always when suspended, otherwise under All, Running or an absent policy |
| Workers.EndedPassRemoves | pkg/controllers/trainingjob_controller.go:291-326 | exactly the pods and the launcher that a pass over an ended or suspended job removes, by clean-up policy and answers |
| Workers.SuspendedLosesLauncher | pkg/controllers/trainingjob_controller.go:310-326 | one pass whose calls succeed leaves a suspended job without its launcher, for good |
| Launching.LauncherGated | pkg/controllers/launcher.go:54-95 | whenever a launcher appears, an earlier pass of the same attempt had recorded at least Replicas distinct running workers |
| Launching.WaitWorkersReady | pkg/controllers/worker.go:66-78 | WorkersReady is recorded only with at least Replicas distinct workers seen running |
| Launching.ReadyExactly | pkg/controllers/worker.go:66-78 | the workers become ready exactly in a pass whose sync gets through while at least Replicas pods are running in the cluster |
| Launching.LauncherMissed | pkg/controllers/launcher.go:49-64 | LauncherCreated is recorded without a launcher exactly when the launcher could not be read |
| Launching.JobRunsAfterLauncher | pkg/controllers/launcher.go:138-145 | whenever Running is true, an earlier pass of the same attempt saw the launcher pod running |
| StartUps.StartUpDecides | pkg/controllers/trainingjob_controller.go:390-423 | in every run, exactly when a start-up pass does its step, fails the job, lets it succeed or run, and what it makes of launcher and ConfigMap |
| Restarts.RestartOutcome | pkg/controllers/trainingjob_controller.go:341-379 | a restart deletes the launcher exactly if pods could be listed and the launcher read and deleted, keeps it otherwise, and makes the first workers exactly if services could be listed too |
| Restarts.LauncherOfAttempt | pkg/controllers/trainingjob_controller.go:351-355 | after a restart that deleted the launcher, a launcher of the new attempt exists only after a pass of that attempt recorded Replicas running workers |
| ScalerPasses.ScalingObject | pkg/controllers/scaler.go:18-73 | a pass changes conditions and recorded pods of the current scaler and nothing else of any scaler |
| Attempts.OneScalerAtATime | pkg/controllers/scaler.go:169-233 | from any state with at most the current scaler in flight to the next restart that leaves one behind: at most one unfinished scaler carries the Scaling condition, and currentScaler names and resolves to it |
| Attempts.OneScalerInRun | pkg/controllers/scaler.go:169-233 | from the submission on, while restarts are clean, at most one unfinished scaler carries the Scaling condition, the current one |
| Attempts.RestartKeepsOneAtATime | pkg/controllers/trainingjob_controller.go:277-289 | a restart keeps that property exactly when no scaler was in flight |
| Attempts.ListsWhileScaling | pkg/controllers/scaler.go:18-73 | while Scaling the worker lists change only in the step back to Running, as the outcome says |
| Attempts.SelectedScaler | pkg/controllers/scaler.go:75-192 | the started scaler is unfinished and owned, its stored reference resolves to it, and no listed available rival is strictly later |
| Attempts.FirstOfEquals | pkg/controllers/scaler.go:75-192 | in every run, of equally late available scalers the one looked at first is started, ScaleOuts before ScaleIns |
| ScalerHistory.RunWellKept | pkg/controllers/status.go:152-200 | in every reachable state a scaler has one condition a type, no exclusive pair, and Scaling only with the start reason |
| ScalerHistory.DeadlineNeverMoves | pkg/controllers/status.go:238-246 | in every run the deadline of a started scale-out never moves while it exists, through selections and restarts |
| ScalerHistory.RecordsSurvive | pkg/controllers/trainingjob_controller.go:277-289 | recorded pods, the executed-script mark and the outcome of a scaler are never taken back while it exists, not by a restart either |
| WorkerLists.PassLists | pkg/controllers/worker.go:124-166 | every way in which a pass can change the two worker lists |
| WorkerLists.ReplacedDistinct | pkg/controllers/worker.go:132-166 | recovery keeps the number of workers, adds only new names and leaves no dead worker behind |
| WorkerLists.RunAllocated | pkg/controllers/scaleout.go:92-109 | a scale-out's recorded pods are as many distinct canonical names as it asks for, in every state |
| Recovery.WorkersReplaced | pkg/controllers/worker.go:131-200 | in every run, a pass that looks after the workers, its calls succeeding, takes off the target list exactly the workers that are lost: Always: pod gone, failed, unknown or finished; OnFailure: failed; ExitCode: failed with a first terminated container code strictly between 128 and 255; those in their place are new and have pods |
| Recovery.RecoveryIsComplete | pkg/controllers/worker.go:148-166 | the workers that are not lost keep their order, one new name for each lost one follows, and their number is the same |
| Ledger.NoDuplicateWorkers | pkg/controllers/worker.go:124-166 | in any attempt no state has a duplicate in the target or current list, through start-up, adoption, recovery and scaling |
| Ledger.NoDuplicatesInRun | pkg/controllers/worker.go:124-166 | from the submission on, while restarts are clean, neither list ever holds a duplicate |
| Ledger.CommitKeepsDistinct | pkg/controllers/scaleout.go:62 | a scale-out's commit keeps the list duplicate-free exactly when none of its pods is a target already |
| Ledger.DuplicatingCommit | pkg/controllers/scaleout.go:57-64 | in every run the success of a scale-out makes a duplicate target exactly when a pod recorded on it before the pass is a target already; one that allocates in the pass makes none |
| Ledger.FinishedInTurn | pkg/controllers/scaler.go:208-226 | a scaler is finished only by a pass, only while Scaling, and only the current one; the job is then Running and the lists are as the outcome says |
| Ledger.PassLedger | pkg/controllers/worker.go:148-166 | a pass changes the number of target workers by what the scaler that succeeds in it is worth |
| Ledger.AccountOpens | pkg/controllers/trainingjob_controller.go:277-289 | the account of target workers is balanced at the submission and after every restart |
| Ledger.LedgerBalances | pkg/controllers/worker.go:132-166 | in every attempt, while the target list neither runs empty nor holds a duplicate and whatever a restart left in flight, its length is Replicas plus succeeded scale-out counts minus workers removed by scale-ins |
| Targets.NewTargetsHavePods | pkg/controllers/worker.go:34-44 | in every run a name joins the target list, at start-up, by adoption, recovery or scale-out, only with its pod in the cluster, unless the step fails the job |
| Targets.TargetsUnderNever | pkg/controllers/worker.go:131-146 | in every run without a restart policy for workers a non-empty target list changes only with a restart or the success of a scaler once the workers are created |
| ScaleOuts.RunLabels | pkg/controllers/worker.go:222-228 | as long as names are not used again, every pod labelled with a scale-out is recorded on it, in every state |
| ScaleOuts.ScaleOutAllOrNothing | pkg/controllers/scaleout.go:15-82 | as long as names are not used again, a scale-out that ends appends all of its Count workers, each running, to the target list, or leaves both lists and removes its own pods only |
| ScaleOuts.AllOrNothingInRun | pkg/controllers/scaleout.go:15-82 | from the submission on, as long as names are not used again, a scale-out that ends commits all of its workers, each running, or leaves both lists |
| ScaleOuts.AddedAreNew | pkg/controllers/scaleout.go:92-109 | in any attempt the pods of an unfinished scale-out are not target workers |
| ScaleOuts.HostfileAfterWorkers | pkg/controllers/scaleout.go:45-63 | as long as names are not used again, during a scale-out the hostfile changes only once every worker it asks for was running |
| Leftovers.FirstPassSucceeds | pkg/controllers/worker.go:326-332 | the pass that allocates the workers of a scale-out, its calls not failing, succeeds exactly when Count running pods carry its name already |
| Leftovers.PendingCommitted | pkg/controllers/scaleout.go:39-64 | such a pass makes the new, pending pods target workers |
| Leftovers.ScaleOutSucceedsExactly | pkg/controllers/scaleout.go:39-64 | as long as names are not used again, a scale-out whose calls do not fail succeeds exactly in the first pass before which every recorded worker runs with its label, and finishes otherwise exactly when its time is up |
| Leftovers.CollisionFails | pkg/controllers/scaleout.go:79-82 | a recorded worker whose pod is not the scale-out's own makes it fail, with unchanged lists and that pod deleted |
| Leftovers.CollisionDeletesTarget | pkg/controllers/scaleout.go:46-50 | if that pod is a target worker's, it is deleted by a pass whose calls do not fail exactly when the scale-out has timed out, and the worker stays a target |
| Leftovers.RestartMeetsLeftover | pkg/controllers/trainingjob_controller.go:341-371 | a restart makes the names below Replicas the target workers, each with a pod that carries its old label if its deletion failed and none otherwise |
| ScaleIns.ScaleInOrdering | pkg/controllers/scalein.go:32-57 | in any part of an attempt with the launcher present and non-empty choices: a pod deleted by a scale-in was chosen, the hostfile already leaves it out, and the pass's listing has its ssh or kubexec line nowhere |
| ScaleIns.OrderingFromIdle | pkg/controllers/scalein.go:32-57 | from any state with no scaler in flight, a pod that a script-less scale-in deletes was chosen and is out of the hostfile already |
| ScaleIns.ScaleInOutcome | pkg/controllers/scalein.go:53-66 | a scale-in that ends takes exactly the chosen workers off both lists, none of them left in the cluster, or leaves both lists |
| ScaleIns.AttachLineIsSeen | pkg/controllers/scalein.go:100-107 | a listing with an attach line for a worker always holds it back |
| ScaleIns.PrefixIsHeldBack | pkg/controllers/scalein.go:100-107 | the substring test also holds back workers whose name is a prefix: it can delay but not hasten |
| Outcomes.AttachedStays | pkg/controllers/scalein.go:46-57 | a pass of a script-less scale-in never deletes a worker whose ssh or kubexec line occurs anywhere in the process listing, nor any without the listing |
| Outcomes.AttachDecides | pkg/controllers/scalein.go:89-109 | when no call fails, a chosen worker stays exactly when there is no user script and its ssh or kubexec line occurs in the listing |
| ScaleIns.NamedScaleIn | pkg/controllers/scalein.go:136-167 | a scale-in by name whose calls do not fail deletes a worker it does not name exactly when no worker it names exists; it is then reported successful with unchanged worker lists |
| ScaleIns.CountedScaleIn | pkg/controllers/scalein.go:151-160 | a scale-in by count whose calls do not fail is refused with nothing deleted exactly when the count is not below the number of workers and positive; otherwise it chooses that many of the highest indexes and deletes only those |
| Decisions.LauncherDecides | pkg/controllers/launcher.go:83-147 | a running or scaling job succeeds exactly when its launcher is seen succeeded and fails exactly when it is seen failed or gone for good |
| Decisions.ScalingStarts | pkg/controllers/launcher.go:68-81 | a running job starts Scaling exactly when the launcher does not end it, the worker sync gets through and a listed scaler is available |
| ScaleIns.ScaleInDecides | pkg/controllers/scalein.go:34-75 | a scale-in finishes exactly when its script or its deletions fail or all chosen workers are gone, and succeeds exactly in the last case |
| Outcomes.ScaleInPassDecides | pkg/controllers/scalein.go:16-76 | whatever its calls answer, exactly when a pass over a scale-in makes it fail, succeed or go on |
| Outcomes.ScaleOutPassDecides | pkg/controllers/scaleout.go:15-67 | whatever its calls answer, exactly when a pass over a valid scale-out makes it fail, succeed or go on, and which names it records |
| Outcomes.RefusedCreation | pkg/controllers/scaleout.go:32-37 | a refused creation of one of its workers fails the scale-out: Running, no current scaler, unchanged lists, its pods withdrawn |
| Outcomes.InvalidScaleOut | pkg/controllers/scaleout.go:23-26 | a scale-out without a positive count fails at once and touches no pod and no list |
| Outcomes.DeletedScalerWaits | pkg/controllers/scalein.go:17-20 | a scaler that is being deleted, of either kind, is left alone and the job stays Scaling |
| Outcomes.RunScripted | pkg/controllers/scaler.go:126-151 | in every run, a pass over a scaler leaves the launcher alone once its script has run; otherwise the file it may write is the current workers with the added or without the chosen ones, or what the user script writes, and a script that was taken is marked |
| Outcomes.ScriptRunsOnce | pkg/controllers/scaler.go:126-151 | in every run, a scaler whose script the launcher took never touches the launcher again, in later attempts neither |
| Requeue.RequeuesExactly | pkg/controllers/trainingjob_controller.go:225-248 | in every run and phase, exactly when a pass asks to be made again |
| Requeue.RunningRequeues | pkg/controllers/launcher.go:68-81 | a running job: exactly when the pods cannot be listed, a changed hostfile is not taken, or a replacement is refused |
| Requeue.StartUpRequeues | pkg/controllers/worker.go:66-78 | a job that starts up: exactly when it waits for its first workers and the sync does not get through |
| Requeue.ScalingRequeues | pkg/controllers/scaler.go:18-73 | a job that scales: when the scaler cannot be read, a scale-in is held back by an attach line or an unread listing, or a scale-out has not succeeded |
| Requeue.EndedRequeues | pkg/controllers/trainingjob_controller.go:291-379 | an ended or restarting job: exactly when pods or services that are to be deleted cannot be listed |
| Reasons.LauncherReasons | pkg/controllers/launcher.go:83-147 | the recorded reason says how the launcher ended the job, an eviction by a name of its own, or that the job runs |
| Reasons.OutcomeReasons | pkg/controllers/scaler.go:194-226 | the outcome of a scaler is recorded with kind and result as reason, on the scaler and on the job |
| Reasons.CreationReason | pkg/controllers/trainingjob_controller.go:260-289 | the first pass of a job and of every later attempt records its creation |
| Reasons.StepReasons | pkg/controllers/worker.go:23-78 | every start-up pass records the step it has done, with the message of the pass |
| Reasons.SuspensionReason | pkg/controllers/trainingjob_controller.go:219-224 | a suspended job says what it waits for |
| Reasons.ClockStarts | pkg/controllers/scaler.go:183-192 | in every run the time of a scale-out counts from the pass that selects it first |
| Agreement.HostfileAgreement | pkg/controllers/worker.go:110-127 | in the undisturbed part of any attempt, whenever the job is Running the hostfile parses to exactly CurrentWorkers with their slots, in ascending index order |
| Agreement.SyncKeepsAgreement | pkg/controllers/worker.go:110-127 | a worker sync loses the agreement exactly when its command wrote the file, failed, and the list had changed |
| Agreement.SyncRepairs | pkg/controllers/worker.go:110-127 | a wrong file is put right by the next sync exactly when the running workers differ from the recorded ones |
| Disturbances.FailedScaleIn | pkg/controllers/scalein.go:52-56 | after a scale-in that fails once its script ran, file and list agree exactly when no chosen worker was a current one |
| Disturbances.DroppedScaleIn | pkg/controllers/scaler.go:37-40 | a scale-in removed once its script ran is given up by the next pass, and file and list agree exactly when no chosen worker was a current one |
| Disturbances.StaleScript | pkg/controllers/scaler.go:126-130 | after the deletion of a chosen current worker the file still lists it exactly when the script was marked as executed before |
| Disturbances.ScaleOutThenSync | pkg/controllers/scaleout.go:54-64 | after a successful scale-out file and current workers disagree, and the next sync brings them together exactly when it sees the running workers changed |
| Disturbances.ConfigStays | pkg/controllers/worker.go:442-458 | the ConfigMap is written once and lists the workers recorded then, through every restart |
| Disturbances.LaterHostfile | pkg/controllers/launcher.go:42-61 | the launcher that start-up makes in any attempt reads to the workers of the ConfigMap's writing, and agrees with the current workers exactly when they are the same list |
| Disturbances.BareLauncher | pkg/controllers/launcher.go:42-61 | a launcher that start-up makes without a ConfigMap agrees exactly when there are no current workers |
| Disturbances.RecreatedHostfile | pkg/controllers/launcher.go:90-98 | a launcher brought back under policy Always agrees after the pass exactly when the list is the ConfigMap's again or the sync saw the running workers changed |
| Progress.StartUpReachesRunning | pkg/controllers/trainingjob_controller.go:390-423 | a job that starts up, at first or after a restart, is Running after as many favourable passes as it has steps to go, at most four, whatever happens between them |
| Progress.CurrentFollowsPods | pkg/controllers/worker.go:88-127 | after every pass of a running job that can list the pods and reach the launcher, CurrentWorkers are exactly the pods that were running, in ascending index order |
| Inputs.NamedScaleInFails | pkg/controllers/scalein.go:136-167 | an input: a ScaleIn naming a worker that does not exist deletes both workers and is reported successful |
| Inputs.ReusedName | pkg/controllers/scaleout.go:39-64 | an input: a ScaleOut applied again while the pod of its predecessor runs commits a pending worker |
| Inputs.LeftoverDeletesTarget | pkg/controllers/scaleout.go:79-82 | an input: a ScaleOut left in flight by a restart deletes a running target worker of the new attempt |
| Inputs.CommitDuplicates | pkg/controllers/scaleout.go:57-64 | an input: a ScaleOut left in flight by a restart commits a target worker a second time |
| Inputs.LaterHostfileFails | pkg/controllers/launcher.go:42-61 | an input: the launcher of the second attempt lists a worker that is gone and not the one in its place |
| Inputs.LauncherMissedFails | pkg/controllers/launcher.go:49-64 | an input: LauncherCreated is recorded and there is no launcher |
| Inputs.StaleScriptFails | pkg/controllers/scaler.go:126-130 | an input: a ScaleIn left in flight by a restart deletes a worker that the hostfile goes on listing |
| Inputs.FailedScaleInFails | pkg/controllers/scalein.go:52-56 | an input: a ScaleIn fails after its script and the hostfile lists one of two current workers |
| Inputs.DroppedScaleInFails | pkg/controllers/scaler.go:37-40 | an input: a ScaleIn is removed after its script and the job runs on with the short hostfile |
| Inputs.RestartInVain | pkg/controllers/trainingjob_controller.go:351-355 | an input: a restart that cannot delete the launcher starts the new attempt with the failed one |

## Left out

- Lost or conflicting status writes: a pass is atomic and its status writes all succeed. Optimistic concurrency is the API server's.
- Several namespaces: worker pods are listed without one in the original (pkg/controllers/worker.go:347); the model has one, with unique pod names.
- Changing specs: job and scaler specs are fixed for the life of the object.
- Services, secrets, roles and service accounts: they appear only as calls that succeed or fail; the getters for the last three never report an error.
- `executeOnLauncher` when the launcher cannot be read: the original goes on with an empty pod and panics on its container list; the model's commands always reach a launcher that exists.
- A `ScaleIn` without `spec.toDelete`: the original dereferences a nil pointer; the model's scale-ins always have one.
- Replica counters, start and completion times, events and log lines. The message of a new condition is one arbitrary text per pass.
- User scripts: what one writes to the hostfile is an arbitrary text, so hostfile theorems are about script-less scalers.
- 64-bit overflow of worker indexes: index sums are unbounded integers; the 32-bit narrowing is modelled.
- The owner-setting reconcilers of ScaleIn and ScaleOut: they are events between passes that mark a scaler as owned and record Created.
- The phase field of scalers: it is written but never read by the controller.
- Min/MaxReplicas: the controllers never enforce them.
- Pod, service, role and config templates, key mounting, command execution: data construction and I/O.
