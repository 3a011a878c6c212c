/** One reconcile pass as a function of the world before it and the answers it gets. */
module Pass {
  import opened GoStrings
  import opened WorkerNames
  import opened Conditions
  import opened ScalerRefs
  import opened ScaleInSelection
  import opened Hostfile
  import opened Cluster

  /** The world after (part of) a pass; `ok` is false when the pass asks to be requeued. */
  datatype Step = Step(w: World, ok: bool)

  const JOB_CREATED: string := "TrainingJobCreated"
  const JOB_SUCCEEDED: string := "TrainingJobSucceeded"
  const JOB_RUNNING: string := "TrainingJobRunning"
  const JOB_FAILED: string := "TrainingJobFailed"
  const JOB_EVICTED: string := "TrainingJobEvicted"
  const WAIT_TIMEOUT: string := "WaitingResourceTimeout"

  // ---------- job status ----------

  /** updateJobConditions on the job. */
  function Note(w: World, t: ConditionType, reason: string, api: Api): World {
    w.(status := w.status.(
      conditions := Set(w.status.conditions, NewCondition(t, reason, api.message, w.now))))
  }

  function Enter(w: World, phase: ConditionType): World { w.(status := w.status.(phase := phase)) }

  /** updateStatus on the job. */
  function NoteEnter(w: World, t: ConditionType, reason: string, api: Api): World {
    Enter(Note(w, t, reason, api), t)
  }

  function Fail(w: World, reason: string, api: Api): World { NoteEnter(w, Failed, reason, api) }

  // ---------- pods ----------

  /** createWorker's effect on the pod set: an existing pod is left as it is. */
  function AddPod(pods: map<string, Pod>, name: string, tag: Option<string>): map<string, Pod> {
    if name in pods then pods else pods[name := Pod(PodPending, [], tag)]
  }

  datatype Creation = Creation(pods: map<string, Pod>, ok: bool)

  /** createWorkers: one after another, up to the first failure; each name is parsed to an index,
      narrowed to int32 and printed again. */
  function CreateWorkers(job: string, pods: map<string, Pod>, names: seq<string>, tag: Option<string>,
                         faults: map<string, CreateFault>): Creation
    decreases |names|
  {
    if names == [] then Creation(pods, true)
    else
      match WorkerIndex(job, names[0])
      case Parsed(index) =>
        var name := WorkerName(job, Int32(index));
        if name !in faults then
          CreateWorkers(job, AddPod(pods, name, tag), names[1..], tag, faults)
        else if faults[name] == PodFault then Creation(pods, false)
        else Creation(AddPod(pods, name, tag), false)
      case _ => Creation(pods, false)
  }

  /** DeleteWorkerPods: None stands for the nil list, which means every worker. */
  function DeletePods(pods: map<string, Pod>, names: Option<seq<string>>, undeleted: set<string>): map<string, Pod> {
    map n | n in pods && !((names.None? || n in names.value) && n !in undeleted) :: pods[n]
  }

  /** A Go slice that was only ever appended to is nil while it is empty. */
  function NilIfEmpty(names: seq<string>): Option<seq<string>> {
    if names == [] then None else Some(names)
  }

  function RunningNames(pods: map<string, Pod>, list: seq<string>): seq<string> {
    if list == [] then []
    else (if list[0] in pods && pods[list[0]].phase == PodRunning then [list[0]] else [])
         + RunningNames(pods, list[1..])
  }

  /** podNeedRestart's scan of the container statuses: the first terminated one decides. */
  predicate RetryableExit(exitCodes: seq<Option<int>>) {
    exitCodes != [] &&
    match exitCodes[0]
    case Some(code) => 128 < code < 255
    case None => RetryableExit(exitCodes[1..])
  }

  /** podNeedRestart. */
  predicate PodNeedRestart(policy: Policy, pod: Pod) {
    match policy
    case Always => pod.phase in {PodFailed, PodUnknown, PodSucceeded}
    case OnFailure => pod.phase == PodFailed
    case ExitCode => pod.phase == PodFailed && RetryableExit(pod.exitCodes)
    case _ => false
  }

  /** jobRestartPolicy. */
  function WorkerPolicy(sp: Spec): Policy {
    if sp.workerPolicy.None? then Never else sp.workerPolicy.value
  }

  /** A target worker that recovery replaces: its pod needs a restart, or is gone under Always. */
  predicate NeedsReplacement(policy: Policy, pods: map<string, Pod>, name: string) {
    if name in pods then PodNeedRestart(policy, pods[name]) else policy == Always
  }

  function RestartNames(policy: Policy, pods: map<string, Pod>, target: seq<string>): seq<string> {
    if target == [] then []
    else (if NeedsReplacement(policy, pods, target[0]) then [target[0]] else [])
         + RestartNames(policy, pods, target[1..])
  }

  /** The running pods that carry the label of a scale-out. */
  function ActivePods(pods: map<string, Pod>, tag: string): set<string> {
    set n | n in pods && pods[n].scaleOut == Some(tag) && pods[n].phase == PodRunning
  }

  // ---------- launcher ----------

  function HostfileText(sp: Spec, workers: seq<string>): string { Content(workers, sp.slots) + "\n" }

  /** executeOnLauncher on a command that writes `text`: without a launcher nothing happens and
      nothing fails. */
  function RunOnLauncher(w: World, text: string, api: Api): Step {
    if w.launcher.None? then Step(w, true)
    else
      var written := w.(launcher := Some(w.launcher.value.(hostfile := text)));
      match api.exec
      case ExecDone => Step(written, true)
      case ExecFailed(wrote) => Step(if wrote then written else w, false)
  }

  /** A new launcher starts from the ConfigMap, which outlives restarts of the job. */
  function NewLauncher(w: World): World {
    w.(launcher := Some(Launcher(PodPending, "", if w.configMap.Some? then w.configMap.value else "")))
  }

  /** syncLauncherState.  A read that fails for another reason than "not found" yields an empty
      pod, in none of the phases. */
  function SyncLauncher(sp: Spec, w: World, api: Api): World {
    if !api.launcherRead then w
    else match w.launcher
      case None =>
        (match sp.launcherPolicy
         case Always => if api.launcherCreated then NewLauncher(w) else Fail(w, JOB_FAILED, api)
         case Never => Fail(w, JOB_FAILED, api)
         case _ => w)
      case Some(launcher) =>
        match launcher.phase
        case PodSucceeded => NoteEnter(w, Succeeded, JOB_SUCCEEDED, api)
        case PodFailed => Fail(w, FailureReason(launcher), api)
        case PodRunning =>
          if Has(w.status.conditions, Running) then w else NoteEnter(w, Running, JOB_RUNNING, api)
        case _ => w
  }

  function FailureReason(launcher: Launcher): string {
    if launcher.reason == "" then JOB_FAILED
    else if launcher.reason == "Evicted" then JOB_EVICTED
    else launcher.reason
  }

  // ---------- workers ----------

  /** getJobReplicasWorkers. */
  function ReplicaWorkers(sp: Spec, status: Status): seq<string> {
    if status.targetWorkers != [] then status.targetWorkers
    else FreshNames(sp.name, -1, if sp.replicas > 0 then sp.replicas else 0)
  }

  /** createTrainingJobWorkers. */
  function CreateJobWorkers(sp: Spec, w: World, api: Api): World {
    var workers := ReplicaWorkers(sp, w.status);
    var made := CreateWorkers(sp.name, w.pods, workers, None, api.creates);
    var w1 := w.(status := w.status.(targetWorkers := workers), pods := made.pods);
    if made.ok then Note(w1, WorkersCreated, "", api) else Fail(w1, JOB_FAILED, api)
  }

  /** The hostfile update of handleWorkersFailed, made only when the running set changed and the
      job has been running. */
  function RefreshHostfile(sp: Spec, w: World, running: seq<string>, api: Api): Step {
    if Join(running, ',') != Join(w.status.currentWorkers, ',') && Has(w.status.conditions, Running)
    then RunOnLauncher(w, HostfileText(sp, running), api)
    else Step(w, true)
  }

  /** handleWorkersFailed's bookkeeping: adopt the running workers if there is no target yet. */
  function RecordRunning(w: World, running: seq<string>): World {
    w.(status := w.status.(
      targetWorkers := if w.status.targetWorkers == [] then running else w.status.targetWorkers,
      currentWorkers := running))
  }

  /** handleWorkersFailed's replacement of dead workers by freshly numbered ones. */
  function ReplaceDead(sp: Spec, w: World, api: Api): Step {
    var target := w.status.targetWorkers;
    var dead := RestartNames(WorkerPolicy(sp), w.pods, target);
    if dead == [] then Step(w, true)
    else
      var replacements := FreshNames(sp.name, MaxIndex(target), |dead|);
      var made := CreateWorkers(sp.name, w.pods, replacements, None, api.creates);
      var w1 := w.(pods := made.pods);
      if !made.ok then Step(w1, false)
      else Step(w1.(status := w.status.(targetWorkers := Filter(target, dead, true) + replacements)), true)
  }

  /** syncWorkersState. */
  function SyncWorkers(sp: Spec, w: World, api: Api): Step {
    match api.podList
    case None => Step(w, false)
    case Some(list) =>
      var running := SortNames(sp.name, RunningNames(w.pods, list));
      var r := RefreshHostfile(sp, w, running, api);
      if !r.ok then r else ReplaceDead(sp, RecordRunning(r.w, running), api)
  }

  // ---------- the four start-up steps ----------

  /** waitWorkersRunning. */
  function WaitWorkers(sp: Spec, w: World, api: Api): Step {
    var r := SyncWorkers(sp, w, api);
    if r.ok && |r.w.status.currentWorkers| >= sp.replicas
    then Step(Note(r.w, WorkersReady, "", api), true) else r
  }

  /** CreateHostConfigMap: only a refused create is an error. */
  function EnsureConfig(sp: Spec, w: World, api: Api): Step {
    if w.configMap.Some? || api.config == ConfigUnread then Step(w, true)
    else if api.config == ConfigRefused then Step(w, false)
    else Step(w.(configMap := Some(Content(w.status.currentWorkers, sp.slots))), true)
  }

  /** createLauncher. */
  function CreateLauncher(sp: Spec, w: World, api: Api): World {
    var r := EnsureConfig(sp, w, api);
    if !r.ok then Fail(r.w, JOB_FAILED, api)
    else if api.launcherRead && r.w.launcher.None? then
      if api.launcherCreated then Note(NewLauncher(r.w), LauncherCreated, "", api)
      else Fail(r.w, JOB_FAILED, api)
    else Note(r.w, LauncherCreated, "", api)
  }

  /** doSteps on newSteps: the first step whose condition is missing, and no other. */
  function DoSteps(sp: Spec, w: World, api: Api): Step {
    var conds := w.status.conditions;
    if !Has(conds, WorkersCreated) then Step(CreateJobWorkers(sp, w, api), true)
    else if !Has(conds, WorkersReady) then WaitWorkers(sp, w, api)
    else if !Has(conds, LauncherCreated) then Step(CreateLauncher(sp, w, api), true)
    else if !Has(conds, Running) then Step(SyncLauncher(sp, w, api), true)
    else Step(w, true)
  }

  /** initializeJob. */
  function Initialize(w: World, api: Api): World {
    if w.status.conditions == [] then NoteEnter(w, Created, JOB_CREATED, api) else w
  }

  // ---------- deleting ----------

  /** DeleteWorkers: the services are listed first, then the pods; failed deletions of single pods
      are only logged. */
  function DeleteWorkers(w: World, names: Option<seq<string>>, api: Api): Step {
    if !api.serviceListed || !api.deleteListed then Step(w, false)
    else Step(w.(pods := DeletePods(w.pods, names, api.undeleted)), true)
  }

  /** DeleteAllWorkerPods. */
  function DeleteAllPods(w: World, api: Api): Step {
    if !api.deleteListed then Step(w, false)
    else Step(w.(pods := DeletePods(w.pods, None, api.undeleted)), true)
  }

  /** DeleteLauncher: a failed delete is only logged. */
  function DeleteLauncher(w: World, api: Api): World {
    if api.launcherRead && api.launcherDeleted then w.(launcher := None) else w
  }

  /** cleanup: an absent policy counts as Running. */
  function Cleanup(sp: Spec, w: World, api: Api): Step {
    if sp.cleanPods.None? || sp.cleanPods.value in {CleanAll, CleanRunning} then
      var r := DeleteAllPods(w, api);
      Step(r.w, r.ok && api.serviceListed)
    else Step(w, true)
  }

  /** cleanupAll. */
  function CleanupAll(w: World, api: Api): Step {
    var r := DeleteAllPods(w, api);
    if !r.ok || !api.serviceListed then Step(r.w, false) else Step(DeleteLauncher(r.w, api), true)
  }

  // ---------- restarting ----------

  /** needRestartJob. */
  predicate NeedRestart(sp: Spec, status: Status) {
    sp.restartPolicy == OnFailure && status.restartCount < sp.backoffLimit
  }

  /** needRestartJob's count and resetJobStatus: the current scaler is kept. */
  function Reset(w: World, api: Api): World {
    NoteEnter(
      w.(status := w.status.(
        restartCount := w.status.restartCount + 1,
        conditions := [], currentWorkers := [], targetWorkers := [])),
      Created, JOB_CREATED, api)
  }

  /** restartJob. */
  function Restart(sp: Spec, w: World, api: Api): Step {
    if !NeedRestart(sp, w.status) then Step(Cleanup(sp, w, api).w, true)
    else
      var r := DeleteAllPods(Reset(w, api), api);
      if !r.ok then r
      else
        var w1 := DeleteLauncher(r.w, api);
        if !api.serviceListed then Step(w1, false) else DoSteps(sp, w1, api)
  }

  // ---------- scaling ----------

  /** workersAfterScaler. */
  function AfterScaler(workers: seq<string>, kind: Kind, pods: seq<string>): seq<string> {
    if kind == ScaleOut then workers + pods else Filter(workers, pods, true)
  }

  /** updateScalerState with a final condition: the job runs again without a scaler and the scaler
      is finished. */
  function FinishScaler(w: World, ref: Ref, s: Scaler, t: ConditionType, api: Api): World {
    var reason := (if ref.kind == ScaleIn then "ScalingIn" else "ScalingOut")
                  + (if t == ScaleSucceeded then "Succeeded" else "Failed");
    var cond := NewCondition(t, reason, api.message, w.now);
    w.(status := w.status.(
         conditions := Set(w.status.conditions, cond), phase := Running, currentScaler := ""),
       scalers := w.scalers[ref := s.(conditions := Set(s.conditions, cond))])
  }

  /** The deferred status write of a scaler that stays unfinished. */
  function SaveScaler(w: World, ref: Ref, s: Scaler): World { w.(scalers := w.scalers[ref := s]) }

  datatype Scripted = Scripted(w: World, s: Scaler, ok: bool)

  /** executeScaleScript: at most once per scaler. */
  function ScaleScript(sp: Spec, w: World, s: Scaler, workers: seq<string>, api: Api): Scripted {
    if Has(s.conditions, ScriptExecuted) then Scripted(w, s, true)
    else
      var r := RunOnLauncher(w, if s.script != "" then api.scriptHostfile else HostfileText(sp, workers), api);
      if !r.ok then Scripted(r.w, s, false)
      else Scripted(r.w,
             s.(conditions := Set(s.conditions, NewCondition(ScriptExecuted, "", api.message, w.now))), true)
  }

  /** setsSaleInToDelete: a recorded choice is kept. */
  function ChooseToDelete(sp: Spec, s: Scaler, api: Api): Selection {
    if s.pods != [] then Chosen(s.pods)
    else if api.podList.None? then Refused
    else Select(sp.name, api.podList.value, s.toDelete)
  }

  function AttachCommand(sp: Spec): string {
    if sp.kubexec then "/etc/mpi/kubexec.sh"
    else "ssh -o PasswordAuthentication=no -o StrictHostKeyChecking=no"
  }

  /** A process listing shows a launcher process attached to the worker. */
  predicate Attached(sp: Spec, listing: string, worker: string) {
    Contains(listing, AttachCommand(sp) + " " + worker)
  }

  function Unattached(sp: Spec, listing: string, worker: string): seq<string> {
    if Attached(sp, listing, worker) then [] else [worker]
  }

  /** checkWorkerShutdown's result for a process listing. */
  function NotAttached(sp: Spec, listing: string, workers: seq<string>): seq<string> {
    if workers == [] then []
    else Unattached(sp, listing, workers[0]) + NotAttached(sp, listing, workers[1..])
  }

  lemma {:induction false} NotAttachedTake(sp: Spec, listing: string, workers: seq<string>, k: nat)
    requires k < |workers|
    ensures NotAttached(sp, listing, workers[..k + 1])
         == NotAttached(sp, listing, workers[..k]) + Unattached(sp, listing, workers[k])
  {
    if k == 0 {
      assert workers[..1][1..] == [];
    } else {
      assert workers[..k + 1][1..] == workers[1..][..k] && workers[..k][1..] == workers[1..][..k - 1];
      NotAttachedTake(sp, listing, workers[1..], k - 1);
    }
  }

  /** What the process listing of this pass shows; without a launcher it is empty. */
  function Listing(w: World, api: Api): Option<string> {
    if w.launcher.None? then Some("") else api.processes
  }

  /** The workers a scale-in pass asks to delete, in the form DeleteWorkerPods takes. */
  function ToDeleteNow(sp: Spec, s: Scaler, listing: string): Option<seq<string>> {
    var free := NotAttached(sp, listing, s.pods);
    if s.script == "" && |free| != |s.pods| then Some(free) else NilIfEmpty(s.pods)
  }

  /** isWorkersDeleted. */
  predicate AllGone(pods: map<string, Pod>, names: seq<string>, api: Api) {
    forall n :: n in names ==> n !in pods && n !in api.unreadable
  }

  /** executeScaleIn after the script: delete what is free to go, commit once all are gone. */
  function DeleteAndCommit(sp: Spec, w: World, ref: Ref, s: Scaler, hosts: seq<string>,
                           listing: string, api: Api): Step
  {
    var r := DeleteWorkers(w, ToDeleteNow(sp, s, listing), api);
    if !r.ok then Step(FinishScaler(r.w, ref, s, ScaleFailed, api), true)
    else if AllGone(r.w.pods, s.pods, api) then
      var w1 := r.w.(status := r.w.status.(
        targetWorkers := AfterScaler(r.w.status.targetWorkers, ScaleIn, s.pods),
        currentWorkers := hosts));
      Step(FinishScaler(w1, ref, s, ScaleSucceeded, api), true)
    else
      Step(SaveScaler(r.w, ref, s), s.script != "" || |NotAttached(sp, listing, s.pods)| == |s.pods|)
  }

  /** executeScaleIn once ToDeletePods is known: hostfile first, then the deletions. */
  function RemoveChosen(sp: Spec, w: World, ref: Ref, s: Scaler, api: Api): Step {
    var hosts := AfterScaler(w.status.currentWorkers, ScaleIn, s.pods);
    var r := ScaleScript(sp, w, s, hosts, api);
    if !r.ok then Step(FinishScaler(r.w, ref, r.s, ScaleFailed, api), true)
    else if r.s.script != "" then DeleteAndCommit(sp, r.w, ref, r.s, hosts, "", api)
    else match Listing(r.w, api)
      case None => Step(SaveScaler(r.w, ref, r.s), false)
      case Some(listing) => DeleteAndCommit(sp, r.w, ref, r.s, hosts, listing, api)
  }

  /** executeScaleIn.  `OutOfRange` is the slice expression that panics; the pass is abandoned. */
  function ScaleInPass(sp: Spec, w: World, ref: Ref, s: Scaler, api: Api): Step {
    if s.deleting then Step(w, true)
    else match ChooseToDelete(sp, s, api)
      case Refused => Step(FinishScaler(w, ref, s, ScaleFailed, api), true)
      case OutOfRange => Step(w, false)
      case Chosen(pods) => RemoveChosen(sp, w, ref, s.(pods := pods), api)
  }

  /** ScaleOutFailed: finish the scaler as failed, then delete the pods it added. */
  function RollBack(w: World, ref: Ref, s: Scaler, api: Api): World {
    DeleteWorkers(FinishScaler(w, ref, s, ScaleFailed, api), NilIfEmpty(s.pods), api).w
  }

  /** setScaleOutWorkers. */
  function Allocate(sp: Spec, w: World, s: Scaler, count: nat): Scaler {
    if s.pods != [] then s
    else s.(pods := FreshNames(sp.name, MaxIndex(w.status.targetWorkers), count))
  }

  /** executeScaleOut. */
  function ScaleOutPass(sp: Spec, w: World, ref: Ref, s: Scaler, api: Api): Step {
    if s.deleting then Step(w, true)
    else if s.count.None? || s.count.value <= 0 then Step(FinishScaler(w, ref, s, ScaleFailed, api), false)
    else
      var s1 := Allocate(sp, w, s, s.count.value);
      var made := CreateWorkers(sp.name, w.pods, s1.pods, Some(ref.name), api.creates);
      var w1 := w.(pods := made.pods);
      if !made.ok then Step(RollBack(w1, ref, s1, api), false)
      else AwaitAdded(sp, w1, ref, s1, s.count.value, api)
  }

  /** executeScaleOut once the workers are created: wait for `count` active ones, up to the timeout. */
  function AwaitAdded(sp: Spec, w: World, ref: Ref, s: Scaler, count: nat, api: Api): Step {
    if !api.labelListed then Step(SaveScaler(w, ref, s), false)
    else if |ActivePods(w.pods, ref.name)| >= count then AnnounceScaleOut(sp, w, ref, s, api)
    else Step(if TimedOut(s.conditions, s.timeout, w.now) then RollBack(w, ref, s, api)
              else SaveScaler(w, ref, s), false)
  }

  /** executeScaleOut once enough of the added workers run: hostfile, target list, success. */
  function AnnounceScaleOut(sp: Spec, w: World, ref: Ref, s: Scaler, api: Api): Step {
    var r := ScaleScript(sp, w, s, AfterScaler(w.status.currentWorkers, ScaleOut, s.pods), api);
    if !r.ok then Step(RollBack(r.w, ref, r.s, api), false)
    else Step(CommitScaleOut(r.w, ref, r.s, api), true)
  }

  function CommitScaleOut(w: World, ref: Ref, s: Scaler, api: Api): World {
    FinishScaler(
      w.(status := w.status.(targetWorkers := AfterScaler(w.status.targetWorkers, ScaleOut, s.pods))),
      ref, s, ScaleSucceeded, api)
  }

  /** finishTrainingScaler. */
  function DropScaler(w: World): World {
    w.(status := w.status.(currentScaler := "", phase := Running))
  }

  /** executeScaling after the launcher has been synchronised. */
  function RunScaler(sp: Spec, w: World, api: Api): Step {
    if w.status.currentScaler == "" then Step(Enter(w, Running), true)
    else if Has(w.status.conditions, Succeeded) || Has(w.status.conditions, Failed) then Step(w, true)
    else match Resolve(w.status.currentScaler)
      case None => Step(w, true)
      case Some(ref) =>
        if !api.scalerRead then Step(w, false)
        else if ref !in w.scalers || Finished(w.scalers[ref]) then Step(DropScaler(w), true)
        else if ref.kind == ScaleIn then ScaleInPass(sp, w, ref, w.scalers[ref], api)
        else ScaleOutPass(sp, w, ref, w.scalers[ref], api)
  }

  /** executeScaling. */
  function ExecuteScaling(sp: Spec, w: World, api: Api): Step {
    RunScaler(sp, SyncLauncher(sp, w, api), api)
  }

  /** filterAvailableScaler over one listing. */
  function Available(scalers: map<Ref, Scaler>, refs: seq<Ref>): seq<Listed> {
    if refs == [] then []
    else (if refs[0] in scalers && !Finished(scalers[refs[0]]) && scalers[refs[0]].owned
          then [Listed(refs[0], scalers[refs[0]].created)] else [])
         + Available(scalers, refs[1..])
  }

  /** The candidates of setTrainingJobScaler; a listing that failed contributes nothing. */
  function Candidates(w: World, api: Api): seq<Listed> {
    Available(w.scalers, if api.scaleOuts.Some? then api.scaleOuts.value else [])
    + Available(w.scalers, if api.scaleIns.Some? then api.scaleIns.value else [])
  }

  /** updateCurrentScaler. */
  function StartScaler(w: World, ref: Ref, api: Api): World
    requires ref in w.scalers
  {
    var cond := NewCondition(Scaling, SCALING_START, api.message, w.now);
    var s := w.scalers[ref];
    w.(status := w.status.(
         conditions := Set(w.status.conditions, cond), phase := Scaling, currentScaler := FullName(ref)),
       scalers := w.scalers[ref := s.(conditions := Set(s.conditions, cond))])
  }

  lemma {:induction false} AvailableMembers(scalers: map<Ref, Scaler>, refs: seq<Ref>)
    ensures forall l :: l in Available(scalers, refs) <==>
              l.ref in refs && l.ref in scalers && !Finished(scalers[l.ref]) && scalers[l.ref].owned
              && l.created == scalers[l.ref].created
  {
    if refs != [] {
      AvailableMembers(scalers, refs[1..]);
      assert refs == [refs[0]] + refs[1..];
    }
  }

  /** The scaler setTrainingJobScaler chooses, if there is one. */
  function Latest(w: World, api: Api): (r: Option<Ref>)
    ensures r.Some? ==> r.value in w.scalers
  {
    var candidates := Candidates(w, api);
    if candidates == [] then None
    else
      LatestIsLatest(candidates[0], candidates[1..]);
      AvailableMembers(w.scalers, if api.scaleOuts.Some? then api.scaleOuts.value else []);
      AvailableMembers(w.scalers, if api.scaleIns.Some? then api.scaleIns.value else []);
      assert candidates[0] in candidates;
      Some(LatestFrom(candidates[0], candidates[1..]).ref)
  }

  /** setTrainingJobScaler. */
  function SelectScaler(w: World, api: Api): World {
    match Latest(w, api)
    case None => w
    case Some(ref) => StartScaler(w, ref, api)
  }

  /** reconcileJobRunning. */
  function ReconcileRunning(sp: Spec, w: World, api: Api): Step {
    var r := SyncWorkers(sp, SyncLauncher(sp, w, api), api);
    if r.ok && r.w.status.phase == Running then Step(SelectScaler(r.w, api), true) else r
  }

  // ---------- the whole pass ----------

  /** checkSuspended. */
  function Suspend(w: World, api: Api): World {
    if w.suspended then NoteEnter(w, Suspended, WAIT_TIMEOUT, api) else w
  }

  /** ReconcileJobs after the suspension check. */
  function Dispatch(sp: Spec, w: World, api: Api): Step {
    match w.status.phase
    case Succeeded => Cleanup(sp, w, api)
    case Failed => Restart(sp, w, api)
    case Suspended => CleanupAll(w, api)
    case NoPhase => DoSteps(sp, Initialize(w, api), api)
    case Created => DoSteps(sp, Initialize(w, api), api)
    case Running => ReconcileRunning(sp, w, api)
    case Scaling => ExecuteScaling(sp, w, api)
    case _ => Step(w, true)
  }

  /** ReconcileJobs. */
  function Reconcile(sp: Spec, w: World, api: Api): Step { Dispatch(sp, Suspend(w, api), api) }
}
