/** When the launcher is created: never before enough workers have been seen running in the same
    attempt. */
module Launching {
  import opened GoStrings
  import opened WorkerNames
  import opened Conditions
  import opened Cluster
  import opened Pass
  import opened System
  import opened Phases
  import opened Lifecycle
  import opened Workers

  // ---------- what the launcher decides ----------

  predicate LauncherIs(w: World, api: Api, phase: PodPhase) {
    api.launcherRead && w.launcher.Some? && w.launcher.value.phase == phase
  }

  /** The launcher failed, or it is gone and the policy does not bring it back. */
  predicate LauncherLost(sp: Spec, w: World, api: Api) {
    || LauncherIs(w, api, PodFailed)
    || (api.launcherRead && w.launcher.None?
        && (sp.launcherPolicy == Never || (sp.launcherPolicy == Always && !api.launcherCreated)))
  }

  /** Both phases are the same if one of them is an end. */
  predicate SameEnd(a: ConditionType, b: ConditionType) {
    (a == Succeeded <==> b == Succeeded) && (a == Failed <==> b == Failed)
  }

  lemma SyncDecides(sp: Spec, w: World, api: Api)
    requires InPhase(w) && LauncherCreated in TruthsOf(w) && w.status.phase in {Created, Running, Scaling}
    ensures var w' := SyncLauncher(sp, w, api);
            && (w'.status.phase == Succeeded <==> LauncherIs(w, api, PodSucceeded))
            && (w'.status.phase == Failed <==> LauncherLost(sp, w, api))
            && (w.status.phase == Created ==>
                  (w'.status.phase == Running <==> LauncherIs(w, api, PodRunning)))
  {
  }

  // ---------- readiness ----------

  predicate Ready(w: World) { WorkersReady in TruthsOf(w) }

  /** In this pass at least `replicas` distinct workers were seen running, and recorded. */
  ghost predicate Recorded(sp: Spec, w: World, w': World) {
    && |w'.status.currentWorkers| >= sp.replicas && NoDup(w'.status.currentWorkers)
    && forall n :: n in w'.status.currentWorkers ==> n in w.pods && w.pods[n].phase == PodRunning
  }

  lemma AfterKeepsReady(truths: set<ConditionType>, t: ConditionType)
    requires t != WorkersReady
    ensures WorkersReady in After(truths, t) <==> WorkersReady in truths
  {
  }

  lemma SyncWorkersRecords(sp: Spec, w: World, api: Api)
    requires CanonicalPods(sp, w.pods) && api.podList.Some? && Enumerates(api.podList.value, w.pods.Keys)
    requires SyncWorkers(sp, w, api).ok
    ensures var current := SyncWorkers(sp, w, api).w.status.currentWorkers;
            && NoDup(current) && AllCanonical(sp, current)
            && forall n :: n in current <==> n in w.pods && w.pods[n].phase == PodRunning
  {
    var running := SortNames(sp.name, RunningNames(w.pods, api.podList.value));
    RunningSorted(sp, w.pods, api.podList.value);
    RefreshFrame(sp, w, running, api);
    ReplaceDeadFrame(sp, RecordRunning(RefreshHostfile(sp, w, running, api).w, running), api);
  }

  lemma WaitWorkersReady(sp: Spec, w: World, api: Api)
    requires InPhase(w) && w.status.phase == Created && !Ready(w) && WorkersCreated in TruthsOf(w)
    requires CanonicalPods(sp, w.pods)
    requires api.podList.Some? ==> Enumerates(api.podList.value, w.pods.Keys)
    ensures var w' := WaitWorkers(sp, w, api).w;
            && (Ready(w') ==> Recorded(sp, w, w')) && (w'.launcher.Some? <==> w.launcher.Some?)
  {
    SyncWorkersFrame(sp, w, api);
    if SyncWorkers(sp, w, api).ok { SyncWorkersRecords(sp, w, api); }
  }

  lemma CreateJobWorkersReady(sp: Spec, w: World, api: Api)
    requires InPhase(w)
    ensures var w' := CreateJobWorkers(sp, w, api);
            (Ready(w') ==> Ready(w)) && w'.launcher == w.launcher
  {
    var workers := ReplicaWorkers(sp, w.status);
    var made := CreateWorkers(sp.name, w.pods, workers, None, api.creates);
    var w1 := w.(status := w.status.(targetWorkers := workers), pods := made.pods);
    Noted(w1, WorkersCreated, "", api);
    Noted(w1, Failed, JOB_FAILED, api);
    AfterKeepsReady(TruthsOf(w1), WorkersCreated);
    AfterKeepsReady(TruthsOf(w1), Failed);
  }

  /** Before the workers are ready, a pass either records enough running ones or changes nothing
      about readiness, and it makes no launcher. */
  ghost predicate Waits(sp: Spec, w: World, w': World) {
    (Ready(w') ==> Recorded(sp, w, w')) && (w'.launcher.Some? ==> w.launcher.Some?)
  }

  lemma StartingWaits(sp: Spec, w: World, api: Api)
    requires InPhase(w) && w.status.phase in {NoPhase, Created} && !Ready(w)
    requires CanonicalPods(sp, w.pods) && Faithful(w, api)
    ensures Waits(sp, w, DoSteps(sp, Initialize(w, api), api).w)
  {
    var w1 := Initialize(w, api);
    InitializePhases(w, api);
    if w.status.conditions == [] { Noted(w, Created, JOB_CREATED, api); }
    if WorkersCreated in TruthsOf(w1) { WaitWorkersReady(sp, w1, api); }
    else { CreateJobWorkersReady(sp, w1, api); }
  }

  /** A restarted job is not ready, and has no new launcher. */
  lemma RestartWaits(sp: Spec, w: World, api: Api)
    requires NeedRestart(sp, w.status)
    ensures var w' := Restart(sp, w, api).w;
            !Ready(w') && (w'.launcher.Some? ==> w.launcher.Some?)
  {
    ResetPhases(w, api);
    CreateJobWorkersReady(sp, DeleteLauncher(DeleteAllPods(Reset(w, api), api).w, api), api);
  }

  lemma DispatchWaits(sp: Spec, w: World, api: Api)
    requires PhaseInv(w) && CanonicalPods(sp, w.pods) && Faithful(w, api)
    requires !Ready(w)
    ensures Waits(sp, w, Dispatch(sp, w, api).w)
  {
    match w.status.phase
    case Succeeded => CleanupFrame(sp, w, api);
    case Suspended => CleanupFrame(sp, w, api);
    case Failed =>
      if NeedRestart(sp, w.status) { RestartWaits(sp, w, api); } else { CleanupFrame(sp, w, api); }
    case NoPhase => StartingWaits(sp, w, api);
    case Created => StartingWaits(sp, w, api);
    case _ =>
  }

  lemma SuspendReady(w: World, api: Api)
    requires InPhase(w)
    ensures Ready(Suspend(w, api)) <==> Ready(w)
  {
    if w.suspended {
      Noted(w, Suspended, WAIT_TIMEOUT, api);
      AfterKeepsReady(TruthsOf(w), Suspended);
    }
  }

  /** A pass makes a launcher only if the job was ready before it, and a job becomes ready only in a
      pass that saw and recorded enough running workers. */
  lemma PassWaits(sp: Spec, w: World, api: Api)
    requires PhaseInv(w) && CanonicalPods(sp, w.pods) && Faithful(w, api) && !Ready(w)
    ensures Waits(sp, w, Reconcile(sp, w, api).w)
  {
    SuspendPhases(w, api);
    SuspendReady(w, api);
    DispatchWaits(sp, Suspend(w, api), api);
  }

  /** The pass at `j` recorded the workers as running, in the attempt that state `k` belongs to. */
  ghost predicate RecordedAt(sp: Spec, ws: seq<World>, es: seq<Event>, j: nat, k: nat)
    requires |ws| == |es| + 1 && k <= |es|
  {
    && j < k && es[j].Reconciled? && Recorded(sp, ws[j], ws[j + 1]) && Ready(ws[j + 1])
    && ws[j + 1].status.restartCount == ws[k].status.restartCount
  }

  lemma ResetsUnready(sp: Spec, w: World, api: Api)
    requires PhaseInv(w) && Resets(sp, w)
    ensures !Ready(Reconcile(sp, w, api).w)
  {
    RestartWaits(sp, w, api);
  }

  /** A job that is ready after a step was ready before it, in the same attempt, or the step is a
      pass that recorded enough running workers. */
  lemma ReadyStep(sp: Spec, w: World, e: Event, w': World)
    requires PhaseInv(w) && CanonicalPods(sp, w.pods) && Next(sp, w, e, w') && Ready(w')
    ensures || (Ready(w) && w'.status.restartCount == w.status.restartCount)
            || (e.Reconciled? && Recorded(sp, w, w'))
  {
    match e
    case Reconciled(api) =>
      if Ready(w) {
        PassPhases(sp, w, api);
        if Resets(sp, w) { ResetsUnready(sp, w, api); }
      } else {
        PassWaits(sp, w, api);
      }
    case _ => OutsideKeepsStatus(sp, w, e, w');
  }

  lemma {:induction false} ReadyWasRecorded(sp: Spec, ws: seq<World>, es: seq<Event>, k: nat)
    requires Run(sp, ws, es) && Init(ws[0]) && k <= |es| && Ready(ws[k])
    ensures exists j :: RecordedAt(sp, ws, es, j, k)
  {
    if k > 0 {
      LastStep(sp, ws, es, k);
      RunPhases(sp, ws, es, k - 1);
      RunPods(sp, ws, es, k - 1);
      ReadyStep(sp, ws[k - 1], es[k - 1], ws[k]);
      if es[k - 1].Reconciled? && Recorded(sp, ws[k - 1], ws[k]) {
        assert RecordedAt(sp, ws, es, k - 1, k);
      } else {
        ReadyWasRecorded(sp, ws, es, k - 1);
        var j :| RecordedAt(sp, ws, es, j, k - 1);
        assert RecordedAt(sp, ws, es, j, k);
      }
    }
  }

  /** Whenever a launcher appears, in any state of any run and under any restart policy, an earlier
      pass of the same attempt had recorded at least `replicas` distinct running workers. */
  lemma LauncherGated(sp: Spec, ws: seq<World>, es: seq<Event>, k: nat)
    requires Run(sp, ws, es) && Init(ws[0]) && k < |es|
    requires ws[k].launcher.None? && ws[k + 1].launcher.Some?
    ensures exists j :: RecordedAt(sp, ws, es, j, k)
    ensures ws[k + 1].status.restartCount == ws[k].status.restartCount
  {
    StepOf(sp, ws, es, k);
    RunPhases(sp, ws, es, k);
    RunPods(sp, ws, es, k);
    match es[k]
    case Reconciled(api) =>
      PassPhases(sp, ws[k], api);
      if !Ready(ws[k]) { PassWaits(sp, ws[k], api); }
      if Resets(sp, ws[k]) { RestartWaits(sp, ws[k], api); }
      ReadyWasRecorded(sp, ws, es, k);
    case _ =>
  }

  /** The third step can record LauncherCreated although there is no launcher: exactly when the
      launcher could not be read, which the step takes for its being there. */
  lemma LauncherMissed(sp: Spec, w: World, api: Api)
    requires InPhase(w) && w.status.phase == Created && w.launcher.None?
    ensures var w' := CreateLauncher(sp, w, api);
            LauncherCreated in TruthsOf(w') && w'.launcher.None? && LauncherCreated !in TruthsOf(w)
            <==> LauncherCreated !in TruthsOf(w) && !api.launcherRead && EnsureConfig(sp, w, api).ok
  {
    var w1 := EnsureConfig(sp, w, api).w;
    Noted(w1, LauncherCreated, "", api);
    Noted(w1, Failed, JOB_FAILED, api);
    assert LauncherCreated in After(TruthsOf(w), LauncherCreated);
  }

  /** The workers become ready exactly in a pass whose sync gets through while at least `replicas`
      pods are running. */
  lemma ReadyExactly(sp: Spec, ws: seq<World>, es: seq<Event>, k: nat)
    requires Run(sp, ws, es) && Init(ws[0]) && k < |es| && es[k].Reconciled? && !ws[k].suspended
    requires ws[k].status.phase == Created && WorkersCreated in TruthsOf(ws[k]) && !Ready(ws[k])
    ensures Ready(ws[k + 1]) <==>
              && SyncWorkers(sp, ws[k], es[k].api).ok
              && |set n | n in ws[k].pods && ws[k].pods[n].phase == PodRunning| >= sp.replicas
  {
    StepOf(sp, ws, es, k);
    RunPhases(sp, ws, es, k);
    RunPods(sp, ws, es, k);
    WaitDecides(sp, ws[k], es[k].api);
    assert ws[k + 1] == WaitWorkers(sp, ws[k], es[k].api).w;
  }

  lemma WaitDecides(sp: Spec, w: World, api: Api)
    requires InPhase(w) && w.status.phase == Created && WorkersCreated in TruthsOf(w) && !Ready(w)
    requires CanonicalPods(sp, w.pods) && Faithful(w, api)
    ensures Ready(WaitWorkers(sp, w, api).w) <==>
              && SyncWorkers(sp, w, api).ok
              && |set n | n in w.pods && w.pods[n].phase == PodRunning| >= sp.replicas
  {
    var r := SyncWorkers(sp, w, api);
    SyncWorkersFrame(sp, w, api);
    if r.ok {
      SyncWorkersRecords(sp, w, api);
      RunningCount(w, r.w.status.currentWorkers);
      Noted(r.w, WorkersReady, "", api);
      assert WorkersReady in After(TruthsOf(w), WorkersReady);
    }
  }

  lemma RunningCount(w: World, running: seq<string>)
    requires NoDup(running) && forall n :: n in running <==> n in w.pods && w.pods[n].phase == PodRunning
    ensures |set n | n in w.pods && w.pods[n].phase == PodRunning| == |running|
  {
    NoDupSetSize(running);
    assert (set n | n in w.pods && w.pods[n].phase == PodRunning) == set n | n in running;
  }

  // ---------- the job runs after its launcher ----------

  predicate Begun(w: World) { Running in TruthsOf(w) }

  lemma DoStepsBegins(sp: Spec, w: World, api: Api)
    requires InPhase(w) && w.status.phase == Created
    requires DoSteps(sp, w, api).w.status.phase == Running
    ensures LauncherIs(w, api, PodRunning)
  {
    var truths := TruthsOf(w);
    if WorkersCreated !in truths { CreateJobWorkersPhases(sp, w, api); }
    else if WorkersReady !in truths { WaitWorkersPhases(sp, w, api); }
    else if LauncherCreated !in truths { CreateLauncherPhases(sp, w, api); }
    else { SyncDecides(sp, w, api); }
  }

  /** A pass records Running only after seeing the launcher run, and a restart forgets it. */
  lemma PassBegins(sp: Spec, w: World, api: Api)
    requires PhaseInv(w) && Begun(Reconcile(sp, w, api).w)
    ensures Begun(w) || (LauncherIs(w, api, PodRunning) && !w.suspended)
    ensures !Resets(sp, w)
  {
    PassPhases(sp, w, api);
    if w.suspended {
      Noted(w, Suspended, WAIT_TIMEOUT, api);
      CleanupFrame(sp, Suspend(w, api), api);
    } else if w.status.phase in {NoPhase, Created} {
      InitializePhases(w, api);
      DoStepsBegins(sp, Initialize(w, api), api);
    } else {
      CleanupFrame(sp, w, api);
    }
  }

  /** The pass at `j` saw the launcher running, in the attempt that state `k` belongs to. */
  ghost predicate LauncherRanAt(ws: seq<World>, es: seq<Event>, j: nat, k: nat)
    requires |ws| == |es| + 1 && k <= |es|
  {
    && j < k && es[j].Reconciled? && LauncherIs(ws[j], es[j].api, PodRunning)
    && ws[j + 1].status.restartCount == ws[k].status.restartCount
  }

  lemma BegunStep(sp: Spec, w: World, e: Event, w': World)
    requires PhaseInv(w) && Next(sp, w, e, w') && Begun(w')
    ensures || (Begun(w) && w'.status.restartCount == w.status.restartCount)
            || (e.Reconciled? && LauncherIs(w, e.api, PodRunning))
  {
    match e
    case Reconciled(api) =>
      PassPhases(sp, w, api);
      PassBegins(sp, w, api);
    case _ => OutsideKeepsStatus(sp, w, e, w');
  }

  /** Whenever the Running condition is true, and so whenever the job is Running or Scaling, an earlier
      pass of the same attempt saw the launcher pod running. */
  lemma {:induction false} JobRunsAfterLauncher(sp: Spec, ws: seq<World>, es: seq<Event>, k: nat)
    requires Run(sp, ws, es) && Init(ws[0]) && k <= |es| && Begun(ws[k])
    ensures exists j :: LauncherRanAt(ws, es, j, k)
  {
    if k > 0 {
      RunPhases(sp, ws, es, k - 1);
      LastStep(sp, ws, es, k);
      BegunStep(sp, ws[k - 1], es[k - 1], ws[k]);
      if es[k - 1].Reconciled? && LauncherIs(ws[k - 1], es[k - 1].api, PodRunning) {
        assert LauncherRanAt(ws, es, k - 1, k);
      } else {
        JobRunsAfterLauncher(sp, ws, es, k - 1);
        var j :| LauncherRanAt(ws, es, j, k - 1);
        assert LauncherRanAt(ws, es, j, k);
      }
    }
  }
}
