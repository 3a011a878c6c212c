/** The TrainingJob controller: the methods that change the job's status and the cluster, each
    shown to do what the corresponding function of `Pass` says. */
module Controller {
  import opened GoStrings
  import opened WorkerNames
  import opened Conditions
  import opened ScalerRefs
  import opened ScaleInSelection
  import opened Hostfile
  import opened Cluster
  import opened Pass
  import System

  /** The elements of a set in some order: what a list call returns. */
  method ListAll(names: set<string>) returns (list: seq<string>)
    ensures Enumerates(list, names)
  {
    list := [];
    var rest := names;
    while rest != {}
      invariant rest <= names
      invariant Enumerates(list, names - rest)
      decreases rest
    {
      var n :| n in rest;
      list := list + [n];
      rest := rest - {n};
    }
  }

  /** The elements of a list that belong to a set. */
  function Counted(list: seq<string>, elements: set<string>): set<string> {
    set n | n in list && n in elements
  }

  lemma CountedTake(list: seq<string>, k: nat, elements: set<string>)
    requires k < |list| && list[k] !in list[..k]
    ensures |Counted(list[..k + 1], elements)|
         == |Counted(list[..k], elements)| + (if list[k] in elements then 1 else 0)
  {
    assert list[..k + 1] == list[..k] + [list[k]];
    var before, after := Counted(list[..k], elements), Counted(list[..k + 1], elements);
    assert after == if list[k] in elements then before + {list[k]} else before;
  }

  /** A fetched ScaleIn or ScaleOut object, changed locally and written back at the end. */
  class ScalerObject {
    const ref: Ref
    const base: Scaler
    const status: JobStatus
    var pods: seq<string>

    constructor (ref: Ref, s: Scaler)
      ensures this.ref == ref && Value() == s && fresh(status)
    {
      this.ref, base, pods := ref, s, s.pods;
      status := new JobStatus(NoPhase, s.conditions, "", 0);
    }

    function Value(): Scaler
      reads this, status
    {
      base.(conditions := status.conditions, pods := pods)
    }

    method SetsScaleInToDelete(sp: Spec, api: Api) returns (chosen: Selection)
      modifies this`pods
      ensures chosen == ChooseToDelete(sp, old(Value()), api)
      ensures pods == if chosen.Chosen? then chosen.names else old(pods)
    {
      if pods != [] { return Chosen(pods); }
      if api.podList.None? { return Refused; }
      var workers := api.podList.value;
      var wanted: seq<string>;
      if base.toDelete.podNames.Some? {
        wanted := base.toDelete.podNames.value;
      } else if base.toDelete.count > 0 {
        if base.toDelete.count >= |workers| { return Refused; }
        var allPodNames := SortPodNames(sp.name, workers);
        if |workers| - base.toDelete.count > |allPodNames| { return OutOfRange; }
        wanted := allPodNames[|workers| - base.toDelete.count..];
      } else {
        return Refused;
      }
      workers := FilterNames(workers, wanted, false);
      chosen := Chosen(workers);
      for k := 0 to |workers|
        invariant pods == workers[..k]
      {
        pods := pods + [workers[k]];
      }
    }

    method SetScaleOutWorkers(sp: Spec, targetWorkers: seq<string>, addCount: int)
      requires addCount >= 0
      modifies this`pods
      ensures pods == if old(pods) != [] then old(pods)
                      else FreshNames(sp.name, MaxIndex(targetWorkers), addCount)
    {
      if |pods| != 0 { return; }
      var maxIndex := GetWorkerPodsMaxIndex(targetWorkers);
      for i := 0 to addCount
        invariant |pods| == i
        invariant forall j :: 0 <= j < i ==> pods[j] == WorkerName(sp.name, maxIndex + 1 + j)
      {
        var index := i + maxIndex + 1;
        pods := pods + [WorkerName(sp.name, index)];
      }
    }
  }

  class TrainingJobReconciler {
    const spec: Spec
    const status: JobStatus
    var targetWorkers: seq<string>
    var currentWorkers: seq<string>
    var pods: map<string, Pod>
    var launcher: Option<Launcher>
    var configMap: Option<string>
    var scalers: map<Ref, Scaler>
    var suspended: bool
    var now: int

    constructor (spec: Spec, w: World)
      ensures this.spec == spec && Now() == w && fresh(status)
    {
      this.spec := spec;
      status := new JobStatus(w.status.phase, w.status.conditions, w.status.currentScaler, w.status.restartCount);
      targetWorkers, currentWorkers := w.status.targetWorkers, w.status.currentWorkers;
      pods, launcher, configMap := w.pods, w.launcher, w.configMap;
      scalers, suspended, now := w.scalers, w.suspended, w.now;
    }

    function JobState(): Status
      reads this, status
    {
      Status(status.phase, status.conditions, status.currentScaler, status.restartCount,
             targetWorkers, currentWorkers)
    }

    /** The world as the pass functions see it. */
    function Now(): World
      reads this, status
    {
      World(JobState(), pods, launcher, configMap, scalers, suspended, now)
    }

    // ---------- workers ----------

    method CreateWorker(index: int, tag: Option<string>, api: Api) returns (ok: bool)
      modifies this`pods
      ensures var name := WorkerName(spec.name, Int32(index));
              var made := old(pods);
              if name !in api.creates then ok && pods == AddPod(made, name, tag)
              else !ok && pods == if api.creates[name] == PodFault then made else AddPod(made, name, tag)
    {
      var name := WorkerName(spec.name, Int32(index));
      if name in api.creates && api.creates[name] == PodFault { return false; }
      if name !in pods { pods := pods[name := Pod(PodPending, [], tag)]; }
      ok := name !in api.creates;
    }

    method CreateWorkers(workers: seq<string>, tag: Option<string>, api: Api) returns (ok: bool)
      modifies this`pods
      ensures Creation(pods, ok) == Pass.CreateWorkers(spec.name, old(pods), workers, tag, api.creates)
    {
      for k := 0 to |workers|
        invariant Pass.CreateWorkers(spec.name, pods, workers[k..], tag, api.creates)
               == Pass.CreateWorkers(spec.name, old(pods), workers, tag, api.creates)
      {
        assert workers[k..][1..] == workers[k + 1..];
        match WorkerIndex(spec.name, workers[k]) {
          case Parsed(index) =>
            ok := CreateWorker(index, tag, api);
            if !ok { return false; }
          case _ => return false;
        }
      }
      ok := true;
    }

    method GetJobReplicasWorkers() returns (workers: seq<string>)
      ensures workers == ReplicaWorkers(spec, JobState())
    {
      if |targetWorkers| != 0 { return targetWorkers; }
      workers := [];
      var i := 0;
      while i < spec.replicas
        invariant 0 <= i && (i <= spec.replicas || i == 0)
        invariant |workers| == i
        invariant forall j :: 0 <= j < i ==> workers[j] == WorkerName(spec.name, j)
      {
        workers := workers + [WorkerName(spec.name, i)];
        i := i + 1;
      }
    }

    method UpdateStatus(t: ConditionType, reason: string, api: Api)
      modifies status`conditions, status`phase
      ensures Now() == NoteEnter(old(Now()), t, reason, api)
    {
      status.UpdateStatus(t, reason, api.message, now);
    }

    method UpdateConditions(t: ConditionType, reason: string, api: Api)
      modifies status`conditions
      ensures Now() == Note(old(Now()), t, reason, api)
    {
      status.UpdateJobConditions(t, reason, api.message, now);
    }

    method CreateTrainingJobWorkers(api: Api)
      modifies this, status
      ensures Now() == CreateJobWorkers(spec, old(Now()), api)
    {
      var workers := GetJobReplicasWorkers();
      targetWorkers := workers;
      var ok := CreateWorkers(workers, None, api);
      if !ok {
        UpdateStatus(Failed, JOB_FAILED, api);
      } else {
        UpdateConditions(WorkersCreated, "", api);
      }
    }

    method ExecuteOnLauncher(text: string, api: Api) returns (ok: bool)
      modifies this`launcher
      ensures Step(Now(), ok) == RunOnLauncher(old(Now()), text, api)
    {
      if launcher.None? { return true; }
      if api.exec.ExecDone? || api.exec.written {
        launcher := Some(launcher.value.(hostfile := text));
      }
      ok := api.exec.ExecDone?;
    }

    /** The scan of handleWorkersFailed for running pods. */
    method RunningWorkers(list: seq<string>) returns (running: seq<string>)
      ensures running == RunningNames(pods, list)
    {
      running := [];
      for k := 0 to |list|
        invariant running + RunningNames(pods, list[k..]) == RunningNames(pods, list)
      {
        assert list[k..][1..] == list[k + 1..];
        if list[k] in pods && pods[list[k]].phase == PodRunning { running := running + [list[k]]; }
      }
    }

    /** The scan of handleWorkersFailed for target workers to replace. */
    method WorkersToRestart() returns (restartPods: seq<string>)
      ensures restartPods == RestartNames(WorkerPolicy(spec), pods, targetWorkers)
    {
      var restartPolicy := WorkerPolicy(spec);
      restartPods := [];
      for k := 0 to |targetWorkers|
        invariant restartPods + RestartNames(restartPolicy, pods, targetWorkers[k..])
               == RestartNames(restartPolicy, pods, targetWorkers)
      {
        assert targetWorkers[k..][1..] == targetWorkers[k + 1..];
        var name := targetWorkers[k];
        var rest := RestartNames(restartPolicy, pods, targetWorkers[k + 1..]);
        if name in pods {
          if PodNeedRestart(restartPolicy, pods[name]) {
            assert restartPods + ([name] + rest) == (restartPods + [name]) + rest;
            restartPods := restartPods + [name];
          }
        } else if restartPolicy == Always {
          assert restartPods + ([name] + rest) == (restartPods + [name]) + rest;
          restartPods := restartPods + [name];
        }
      }
    }

    /** As many names as workers to replace, numbered from just above the target list. */
    method ReplacementNames(count: nat) returns (createPods: seq<string>)
      ensures createPods == FreshNames(spec.name, MaxIndex(targetWorkers), count)
    {
      var maxIndex := GetWorkerPodsMaxIndex(targetWorkers);
      createPods := [];
      for i := 0 to count
        invariant |createPods| == i
        invariant forall j :: 0 <= j < i ==> createPods[j] == WorkerName(spec.name, maxIndex + 1 + j)
      {
        var index := maxIndex + 1 + i;
        createPods := createPods + [WorkerName(spec.name, index)];
      }
    }

    method ReplaceDeadWorkers(api: Api) returns (ok: bool)
      modifies this`pods, this`targetWorkers
      ensures Step(Now(), ok) == ReplaceDead(spec, old(Now()), api)
    {
      var restartPods := WorkersToRestart();
      if |restartPods| == 0 { return true; }
      var createPods := ReplacementNames(|restartPods|);
      ok := CreateWorkers(createPods, None, api);
      if ok {
        var kept := FilterNames(targetWorkers, restartPods, true);
        targetWorkers := kept + createPods;
      }
    }

    /** The hostfile update of handleWorkersFailed. */
    method UpdateHostfile(running: seq<string>, api: Api) returns (ok: bool)
      modifies this`launcher
      ensures Step(Now(), ok) == RefreshHostfile(spec, old(Now()), running, api)
    {
      var changed := Join(running, ',') != Join(currentWorkers, ',');
      var hasRun := status.HasCondition(Running);
      ok := true;
      if changed && hasRun {
        var content := GetHostfileContent(running, spec.slots);
        ok := ExecuteOnLauncher(content + "\n", api);
      }
    }

    /** The bookkeeping of handleWorkersFailed. */
    method RecordWorkers(running: seq<string>)
      modifies this`targetWorkers, this`currentWorkers
      ensures Now() == RecordRunning(old(Now()), running)
    {
      if |targetWorkers| == 0 { targetWorkers := running; }
      currentWorkers := running;
    }

    method HandleWorkersFailed(list: seq<string>, api: Api) returns (ok: bool)
      requires api.podList == Some(list)
      modifies this
      ensures Step(Now(), ok) == Pass.SyncWorkers(spec, old(Now()), api)
    {
      var running := RunningWorkers(list);
      running := SortPodNames(spec.name, running);
      ok := UpdateHostfile(running, api);
      if ok {
        RecordWorkers(running);
        ok := ReplaceDeadWorkers(api);
      }
    }

    method SyncWorkersState(api: Api) returns (ok: bool)
      modifies this
      ensures Step(Now(), ok) == Pass.SyncWorkers(spec, old(Now()), api)
    {
      match api.podList {
        case None => ok := false;
        case Some(list) => ok := HandleWorkersFailed(list, api);
      }
    }

    method WaitWorkersRunning(api: Api) returns (ok: bool)
      modifies this, status
      ensures Step(Now(), ok) == WaitWorkers(spec, old(Now()), api)
    {
      ok := SyncWorkersState(api);
      if !ok { return; }
      if |currentWorkers| >= spec.replicas { UpdateConditions(WorkersReady, "", api); }
    }

    // ---------- launcher ----------

    method CreateConfigMap(api: Api) returns (ok: bool)
      modifies this`configMap
      ensures Step(Now(), ok) == EnsureConfig(spec, old(Now()), api)
    {
      if configMap.Some? || api.config == ConfigUnread { return true; }
      if api.config == ConfigRefused { return false; }
      var content := GetHostfileContent(currentWorkers, spec.slots);
      configMap := Some(content);
      ok := true;
    }

    method StartLauncher()
      modifies this`launcher
      ensures Now() == NewLauncher(old(Now()))
    {
      launcher := Some(Launcher(PodPending, "", if configMap.Some? then configMap.value else ""));
    }

    method CreateLauncher(api: Api)
      modifies this, status
      ensures Now() == Pass.CreateLauncher(spec, old(Now()), api)
    {
      var ok := CreateConfigMap(api);
      if !ok {
        UpdateStatus(Failed, JOB_FAILED, api);
        return;
      }
      if api.launcherRead && launcher.None? {
        if !api.launcherCreated {
          UpdateStatus(Failed, JOB_FAILED, api);
          return;
        }
        StartLauncher();
      }
      UpdateConditions(LauncherCreated, "", api);
    }

    method SyncLauncherState(api: Api)
      modifies this`launcher, status`conditions, status`phase
      ensures Now() == SyncLauncher(spec, old(Now()), api)
    {
      if !api.launcherRead { return; }
      if launcher.None? {
        match spec.launcherPolicy {
          case Always =>
            if api.launcherCreated { StartLauncher(); } else { UpdateStatus(Failed, JOB_FAILED, api); }
          case Never => UpdateStatus(Failed, JOB_FAILED, api);
          case _ =>
        }
        return;
      }
      if launcher.value.phase == PodSucceeded {
        UpdateStatus(Succeeded, JOB_SUCCEEDED, api);
      } else if launcher.value.phase == PodFailed {
        UpdateStatus(Failed, FailureReason(launcher.value), api);
      } else if launcher.value.phase == PodRunning {
        var running := status.HasCondition(Running);
        if !running { UpdateStatus(Running, JOB_RUNNING, api); }
      }
    }

    /** doSteps: the steps in order, each skipped once its condition holds, one action at most. */
    method DoSteps(api: Api) returns (ok: bool)
      modifies this, status
      ensures Step(Now(), ok) == Pass.DoSteps(spec, old(Now()), api)
    {
      var steps := [WorkersCreated, WorkersReady, LauncherCreated, Running];
      for k := 0 to |steps|
        invariant Now() == old(Now())
        invariant forall j :: 0 <= j < k ==> Has(old(Now()).status.conditions, steps[j])
      {
        var done := status.HasCondition(steps[k]);
        if done { continue; }
        assert steps[0] == WorkersCreated && steps[1] == WorkersReady && steps[2] == LauncherCreated;
        ok := true;
        match k {
          case 0 => CreateTrainingJobWorkers(api);
          case 1 => ok := WaitWorkersRunning(api);
          case 2 => CreateLauncher(api);
          case _ => SyncLauncherState(api);
        }
        return;
      }
      assert steps[0] == WorkersCreated && steps[1] == WorkersReady;
      assert steps[2] == LauncherCreated && steps[3] == Running;
      ok := true;
    }

    method InitializeJob(api: Api)
      modifies status`conditions, status`phase
      ensures Now() == Initialize(old(Now()), api)
    {
      if status.conditions == [] { UpdateStatus(Created, JOB_CREATED, api); }
    }

    // ---------- deleting and restarting ----------

    method DeleteWorkerPods(names: Option<seq<string>>, api: Api) returns (ok: bool)
      modifies this`pods
      ensures ok == api.deleteListed
      ensures pods == if ok then DeletePods(old(pods), names, api.undeleted) else old(pods)
    {
      if !api.deleteListed { return false; }
      var workerPods := ListAll(pods.Keys);
      if names.Some? {
        FilterMembers(workerPods, names.value, false);
        workerPods := FilterNames(workerPods, names.value, false);
      }
      assert forall n :: n in workerPods <==> n in pods && (names.None? || n in names.value);
      DeleteEach(workerPods, api);
      ok := true;
    }

    /** The deletion loop: a failed deletion is skipped over. */
    method DeleteEach(workerPods: seq<string>, api: Api)
      modifies this`pods
      ensures pods.Keys == old(pods).Keys - (set n | n in workerPods && n !in api.undeleted)
      ensures forall n :: n in pods ==> pods[n] == old(pods)[n]
    {
      for k := 0 to |workerPods|
        invariant pods.Keys == old(pods).Keys - (set n | n in workerPods[..k] && n !in api.undeleted)
        invariant forall n :: n in pods ==> pods[n] == old(pods)[n]
      {
        if workerPods[k] !in api.undeleted { pods := pods - {workerPods[k]}; }
      }
      assert workerPods[..|workerPods|] == workerPods;
    }

    method DeleteWorkers(names: Option<seq<string>>, api: Api) returns (ok: bool)
      modifies this`pods
      ensures Step(Now(), ok) == Pass.DeleteWorkers(old(Now()), names, api)
    {
      if !api.serviceListed { return false; }
      ok := DeleteWorkerPods(names, api);
    }

    method DeleteLauncher(api: Api)
      modifies this`launcher
      ensures Now() == Pass.DeleteLauncher(old(Now()), api)
    {
      if api.launcherRead && api.launcherDeleted { launcher := None; }
    }

    method Cleanup(api: Api) returns (ok: bool)
      modifies this`pods
      ensures Step(Now(), ok) == Pass.Cleanup(spec, old(Now()), api)
    {
      var policy := if spec.cleanPods.None? then CleanRunning else spec.cleanPods.value;
      if policy == CleanAll || policy == CleanRunning {
        ok := DeleteWorkerPods(None, api);
        ok := ok && api.serviceListed;
      } else {
        ok := true;
      }
    }

    method CleanupAll(api: Api) returns (ok: bool)
      modifies this`pods, this`launcher
      ensures Step(Now(), ok) == Pass.CleanupAll(old(Now()), api)
    {
      ok := DeleteWorkerPods(None, api);
      if !ok || !api.serviceListed { return false; }
      DeleteLauncher(api);
    }

    method NeedRestartJob() returns (restart: bool)
      modifies status`restartCount
      ensures restart == NeedRestart(spec, old(JobState()))
      ensures status.restartCount == old(status.restartCount) + (if restart then 1 else 0)
    {
      var backoffLimit, restartCount := spec.backoffLimit, status.restartCount;
      if spec.restartPolicy == OnFailure && restartCount < backoffLimit {
        status.restartCount := restartCount + 1;
        return true;
      }
      restart := false;
    }

    method ResetJobStatus(api: Api)
      modifies this, status
      ensures Now() == Reset(old(Now().(status := JobState().(restartCount := status.restartCount - 1))), api)
    {
      status.conditions := [];
      currentWorkers := [];
      targetWorkers := [];
      UpdateStatus(Created, JOB_CREATED, api);
    }

    method RestartJob(api: Api) returns (ok: bool)
      modifies this, status
      ensures Step(Now(), ok) == Pass.Restart(spec, old(Now()), api)
    {
      var restart := NeedRestartJob();
      if restart {
        ResetJobStatus(api);
        ok := DeleteWorkerPods(None, api);
        if !ok { return; }
        DeleteLauncher(api);
        if !api.serviceListed { return false; }
        ok := DoSteps(api);
      } else {
        var _ := Cleanup(api);
        ok := true;
      }
    }

    // ---------- scaling ----------

    /** updateScalerState. */
    method UpdateScalerState(scaler: ScalerObject, t: ConditionType, reason: string, api: Api)
      requires scaler.status != status
      modifies status, scaler.status`conditions
      ensures scaler.status.conditions
           == Set(old(scaler.status.conditions), NewCondition(t, reason, api.message, now))
      ensures JobState() == old(JobState()).(
        conditions := Set(old(status.conditions), NewCondition(t, reason, api.message, now)),
        phase := if t == ScaleSucceeded || t == ScaleFailed then Running else Scaling,
        currentScaler := if t == ScaleSucceeded || t == ScaleFailed then "" else FullName(scaler.ref))
    {
      var jobPhase, currentJob := Scaling, FullName(scaler.ref);
      if t == ScaleSucceeded || t == ScaleFailed { jobPhase, currentJob := Running, ""; }
      var condition := NewCondition(t, reason, api.message, now);
      status.SetCondition(condition);
      status.phase := jobPhase;
      status.currentScaler := currentJob;
      scaler.status.SetCondition(condition);
    }

    /** updateScalerFailed and updateScalerSuccessd. */
    method Finish(scaler: ScalerObject, t: ConditionType, api: Api)
      requires t == ScaleSucceeded || t == ScaleFailed
      requires scaler.status != status
      modifies status, scaler.status`conditions
      ensures SaveScaler(Now(), scaler.ref, scaler.Value())
           == FinishScaler(old(Now()), scaler.ref, old(scaler.Value()), t, api)
    {
      var reason := (if scaler.ref.kind == ScaleIn then "ScalingIn" else "ScalingOut")
                    + (if t == ScaleSucceeded then "Succeeded" else "Failed");
      UpdateScalerState(scaler, t, reason, api);
    }

    method ExecuteScaleScript(scaler: ScalerObject, workers: seq<string>, api: Api) returns (ok: bool)
      requires scaler.status != status
      modifies this`launcher, scaler.status`conditions
      ensures Scripted(Now(), scaler.Value(), ok)
           == ScaleScript(spec, old(Now()), old(scaler.Value()), workers, api)
    {
      var executed := scaler.status.HasCondition(ScriptExecuted);
      if executed { return true; }
      if scaler.base.script != "" {
        ok := ExecuteOnLauncher(api.scriptHostfile, api);
      } else {
        var content := GetHostfileContent(workers, spec.slots);
        ok := ExecuteOnLauncher(content + "\n", api);
      }
      if !ok { return; }
      scaler.status.UpdateJobConditions(ScriptExecuted, "", api.message, now);
    }

    method WorkersAfterScaler(workers: seq<string>, scaler: ScalerObject) returns (result: seq<string>)
      ensures result == AfterScaler(workers, scaler.ref.kind, scaler.pods)
    {
      if scaler.ref.kind == ScaleOut {
        result := workers + scaler.pods;
      } else {
        result := [];
        for k := 0 to |workers|
          invariant result == Filter(workers[..k], scaler.pods, true)
        {
          assert workers[..k + 1] == workers[..k] + [workers[k]];
          FilterSnoc(workers[..k], workers[k], scaler.pods, true);
          var gone := ContainsString(scaler.pods, workers[k]);
          if gone { continue; }
          result := result + [workers[k]];
        }
        assert workers[..|workers|] == workers;
      }
    }

    method CheckWorkerShutdown(workers: seq<string>, out: string) returns (result: seq<string>)
      ensures result == NotAttached(spec, out, workers)
    {
      result := [];
      for k := 0 to |workers|
        invariant result == NotAttached(spec, out, workers[..k])
      {
        NotAttachedTake(spec, out, workers, k);
        if Attached(spec, out, workers[k]) { continue; }
        result := result + [workers[k]];
      }
      assert workers[..|workers|] == workers;
    }

    method IsWorkersDeleted(workersName: seq<string>, api: Api) returns (deleted: bool)
      ensures deleted == AllGone(pods, workersName, api)
    {
      for i := 0 to |workersName|
        invariant forall j :: 0 <= j < i ==> workersName[j] !in pods && workersName[j] !in api.unreadable
      {
        if workersName[i] in api.unreadable { return false; }
        if workersName[i] in pods { return false; }
      }
      deleted := true;
    }

    /** executeScaleIn from the deletion on. */
    /** The workers that executeScaleIn deletes in this pass, and whether some still have processes. */
    method WorkersToDelete(scaler: ScalerObject, listing: string)
      returns (toDeleteWorkers: Option<seq<string>>, remainWorkers: bool)
      ensures toDeleteWorkers == ToDeleteNow(spec, scaler.Value(), listing)
      ensures remainWorkers <==>
                scaler.base.script == "" && |NotAttached(spec, listing, scaler.pods)| != |scaler.pods|
    {
      toDeleteWorkers := NilIfEmpty(scaler.pods);
      remainWorkers := false;
      if scaler.base.script == "" {
        var shutdownWorkers := CheckWorkerShutdown(scaler.pods, listing);
        if |scaler.pods| != |shutdownWorkers| {
          remainWorkers := true;
          toDeleteWorkers := Some(shutdownWorkers);
        }
      }
    }

    method DeleteAndCommit(scaler: ScalerObject, hosts: seq<string>, listing: string, api: Api) returns (ok: bool)
      requires scaler.status != status && scaler.ref.kind == ScaleIn
      modifies this, status, scaler.status`conditions
      ensures Step(SaveScaler(Now(), scaler.ref, scaler.Value()), ok)
           == Pass.DeleteAndCommit(spec, old(Now()), scaler.ref, old(scaler.Value()), hosts, listing, api)
    {
      var toDeleteWorkers, remainWorkers := WorkersToDelete(scaler, listing);
      var deletedOk := DeleteWorkers(toDeleteWorkers, api);
      if !deletedOk {
        Finish(scaler, ScaleFailed, api);
        return true;
      }
      var deleted := IsWorkersDeleted(scaler.pods, api);
      if deleted {
        targetWorkers := WorkersAfterScaler(targetWorkers, scaler);
        currentWorkers := hosts;
        Finish(scaler, ScaleSucceeded, api);
        return true;
      }
      ok := !remainWorkers;
    }

    method ExecuteScaleIn(scaler: ScalerObject, api: Api) returns (ok: bool)
      requires scaler.status != status && scaler.ref.kind == ScaleIn
      requires scaler.ref in scalers && scalers[scaler.ref] == scaler.Value()
      modifies this, status, scaler, scaler.status`conditions
      ensures Step(SaveScaler(Now(), scaler.ref, scaler.Value()), ok)
           == ScaleInPass(spec, old(Now()), scaler.ref, old(scaler.Value()), api)
    {
      assert scalers[scaler.ref := scaler.Value()] == scalers;
      if scaler.base.deleting { return true; }
      var chosen := scaler.SetsScaleInToDelete(spec, api);
      match chosen {
        case Refused =>
          Finish(scaler, ScaleFailed, api);
          return true;
        case OutOfRange => return false;
        case Chosen(_) => ok := RemoveChosenWorkers(scaler, api);
      }
    }

    /** executeScaleIn once ToDeletePods is known. */
    method RemoveChosenWorkers(scaler: ScalerObject, api: Api) returns (ok: bool)
      requires scaler.status != status && scaler.ref.kind == ScaleIn
      modifies this, status, scaler.status`conditions
      ensures Step(SaveScaler(Now(), scaler.ref, scaler.Value()), ok)
           == RemoveChosen(spec, old(Now()), scaler.ref, old(scaler.Value()), api)
    {
      var hosts := WorkersAfterScaler(currentWorkers, scaler);
      var scripted := ExecuteScaleScript(scaler, hosts, api);
      if !scripted {
        Finish(scaler, ScaleFailed, api);
        return true;
      }
      var listing := "";
      if scaler.base.script == "" {
        var out := Pass.Listing(Now(), api);
        if out.None? { return false; }
        listing := out.value;
      }
      ok := DeleteAndCommit(scaler, hosts, listing, api);
    }

    /** ScaleOutFailed. */
    method ScaleOutFailed(scaler: ScalerObject, api: Api)
      requires scaler.status != status
      modifies this`pods, status, scaler.status`conditions
      ensures SaveScaler(Now(), scaler.ref, scaler.Value())
           == RollBack(old(Now()), scaler.ref, old(scaler.Value()), api)
    {
      Finish(scaler, ScaleFailed, api);
      var _ := DeleteWorkers(NilIfEmpty(scaler.pods), api);
    }

    /** getScalerOutWorkers followed by workerReplicasStatus: the number of active labelled pods. */
    method ActiveWorkers(tag: string) returns (active: int)
      ensures active == |ActivePods(pods, tag)|
    {
      active := 0;
      var list := ListAll(pods.Keys);
      for k := 0 to |list|
        invariant active == |Counted(list[..k], ActivePods(pods, tag))|
      {
        assert list[k] in pods && list[k] !in list[..k];
        CountedTake(list, k, ActivePods(pods, tag));
        var pod := pods[list[k]];
        if pod.scaleOut == Some(tag) && pod.phase == PodRunning { active := active + 1; }
      }
      assert list[..|list|] == list;
      assert Counted(list, ActivePods(pods, tag)) == ActivePods(pods, tag);
    }

    method ExecuteScaleOut(scaler: ScalerObject, api: Api) returns (ok: bool)
      requires scaler.status != status && scaler.ref.kind == ScaleOut
      requires scaler.ref in scalers && scalers[scaler.ref] == scaler.Value()
      modifies this, status, scaler, scaler.status`conditions
      ensures Step(SaveScaler(Now(), scaler.ref, scaler.Value()), ok)
           == ScaleOutPass(spec, old(Now()), scaler.ref, old(scaler.Value()), api)
    {
      assert scalers[scaler.ref := scaler.Value()] == scalers;
      if scaler.base.deleting { return true; }
      if scaler.base.count.None? || scaler.base.count.value <= 0 {
        Finish(scaler, ScaleFailed, api);
        return false;
      }
      var count := scaler.base.count.value;
      scaler.SetScaleOutWorkers(spec, targetWorkers, count);
      var created := CreateWorkers(scaler.pods, Some(scaler.ref.name), api);
      if !created {
        ScaleOutFailed(scaler, api);
        return false;
      }
      ok := WaitForAdded(scaler, count, api);
    }

    /** executeScaleOut once the workers are created. */
    method WaitForAdded(scaler: ScalerObject, count: int, api: Api) returns (ok: bool)
      requires scaler.status != status && scaler.ref.kind == ScaleOut && count >= 0
      modifies this, status, scaler.status`conditions
      ensures Step(SaveScaler(Now(), scaler.ref, scaler.Value()), ok)
           == AwaitAdded(spec, old(Now()), scaler.ref, old(scaler.Value()), count, api)
    {
      if !api.labelListed { return false; }
      var active := ActiveWorkers(scaler.ref.name);
      if active < count {
        var late := scaler.status.IsScaleOutTimeout(scaler.base.timeout, now);
        if late { ScaleOutFailed(scaler, api); }
        return false;
      }
      ok := AnnounceAndCommit(scaler, api);
    }

    /** executeScaleOut once enough of the added workers run. */
    method AnnounceAndCommit(scaler: ScalerObject, api: Api) returns (ok: bool)
      requires scaler.status != status && scaler.ref.kind == ScaleOut
      modifies this, status, scaler.status`conditions
      ensures Step(SaveScaler(Now(), scaler.ref, scaler.Value()), ok)
           == AnnounceScaleOut(spec, old(Now()), scaler.ref, old(scaler.Value()), api)
    {
      var hostWorkers := WorkersAfterScaler(currentWorkers, scaler);
      var scripted := ExecuteScaleScript(scaler, hostWorkers, api);
      if !scripted {
        ScaleOutFailed(scaler, api);
        return false;
      }
      targetWorkers := WorkersAfterScaler(targetWorkers, scaler);
      Finish(scaler, ScaleSucceeded, api);
      ok := true;
    }

    method ExecuteScaling(api: Api) returns (ok: bool)
      modifies this, status
      ensures Step(Now(), ok) == Pass.ExecuteScaling(spec, old(Now()), api)
    {
      SyncLauncherState(api);
      ok := RunCurrentScaler(api);
    }

    /** executeScaling after the launcher has been looked at. */
    method RunCurrentScaler(api: Api) returns (ok: bool)
      modifies this, status
      ensures Step(Now(), ok) == RunScaler(spec, old(Now()), api)
    {
      if status.currentScaler == "" {
        status.phase := Running;
        return true;
      }
      var succeeded := status.HasCondition(Succeeded);
      var failed := status.HasCondition(Failed);
      if succeeded || failed { return true; }
      var found := Resolve(status.currentScaler);
      if found.None? { return true; }
      var ref := found.value;
      if !api.scalerRead { return false; }
      if ref !in scalers || Finished(scalers[ref]) {
        status.currentScaler := "";
        status.phase := Running;
        return true;
      }
      var scaler := new ScalerObject(ref, scalers[ref]);
      if ref.kind == ScaleIn {
        ok := ExecuteScaleIn(scaler, api);
      } else {
        ok := ExecuteScaleOut(scaler, api);
      }
      scalers := scalers[ref := scaler.Value()];
    }

    // ---------- selecting a scaler ----------

    method AvailableScalers(refs: seq<Ref>) returns (list: seq<Listed>)
      ensures list == Available(scalers, refs)
    {
      list := [];
      for k := 0 to |refs|
        invariant list + Available(scalers, refs[k..]) == Available(scalers, refs)
      {
        assert refs[k..][1..] == refs[k + 1..];
        var r := refs[k];
        var rest := Available(scalers, refs[k + 1..]);
        if r in scalers && !Finished(scalers[r]) && scalers[r].owned {
          var listed := Listed(r, scalers[r].created);
          assert Available(scalers, refs[k..]) == [listed] + rest;
          assert list + ([listed] + rest) == (list + [listed]) + rest;
          list := list + [listed];
        } else {
          assert Available(scalers, refs[k..]) == rest;
        }
      }
    }

    method SetTrainingJobScaler(api: Api)
      modifies this, status
      ensures Now() == SelectScaler(old(Now()), api)
    {
      var scaleOut := AvailableScalers(if api.scaleOuts.Some? then api.scaleOuts.value else []);
      var scaleIn := AvailableScalers(if api.scaleIns.Some? then api.scaleIns.value else []);
      var latest := LatestScaler(scaleOut + scaleIn);
      assert Latest(Now(), api) == if latest.None? then None else Some(latest.value.ref);
      if latest.None? { return; }
      var scaler := new ScalerObject(latest.value.ref, scalers[latest.value.ref]);
      UpdateScalerState(scaler, Scaling, SCALING_START, api);
      scalers := scalers[scaler.ref := scaler.Value()];
    }

    method ReconcileJobRunning(api: Api) returns (ok: bool)
      modifies this, status
      ensures Step(Now(), ok) == ReconcileRunning(spec, old(Now()), api)
    {
      SyncLauncherState(api);
      ok := SyncWorkersState(api);
      if ok && status.phase == Running { SetTrainingJobScaler(api); }
    }

    // ---------- the whole pass ----------

    /** ReconcileJobs. */
    method ReconcileJobs(api: Api) returns (ok: bool)
      modifies this, status
      ensures Step(Now(), ok) == Pass.Reconcile(spec, old(Now()), api)
      ensures Faithful(old(Now()), api) ==> System.Next(spec, old(Now()), System.Reconciled(api), Now())
    {
      if suspended { UpdateStatus(Suspended, WAIT_TIMEOUT, api); }
      match status.phase {
        case Succeeded => ok := Cleanup(api);
        case Failed => ok := RestartJob(api);
        case Suspended => ok := CleanupAll(api);
        case NoPhase =>
          InitializeJob(api);
          ok := DoSteps(api);
        case Created =>
          InitializeJob(api);
          ok := DoSteps(api);
        case Running => ok := ReconcileJobRunning(api);
        case Scaling => ok := ExecuteScaling(api);
        case _ => ok := true;
      }
    }
  }
}
