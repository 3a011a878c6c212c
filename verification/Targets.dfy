/** What being on the target list means: a new name has its pod, and without a restart policy for
    workers only scalers change the list. */
module Targets {
  import opened GoStrings
  import opened WorkerNames
  import opened Conditions
  import opened ScalerRefs
  import opened Cluster
  import opened Pass
  import opened System
  import opened Phases
  import opened Lifecycle
  import opened Workers
  import opened WorkerLists
  import opened Ledger
  import opened ScaleOuts

  // ---------- new target workers have pods ----------

  /** Every name that is new on the target list has a pod. */
  ghost predicate NewHavePods(w: World, w': World) {
    forall n :: n in w'.status.targetWorkers && n !in w.status.targetWorkers ==> n in w'.pods
  }

  lemma ReplaceAdds(sp: Spec, w: World, api: Api)
    requires Dead(sp, w.pods, w.status.targetWorkers) == []
      || (AllCanonical(sp, w.status.targetWorkers) && Fits(MaxIndex(w.status.targetWorkers), |w.status.targetWorkers|))
    ensures NewHavePods(w, ReplaceDead(sp, w, api).w) && w.pods.Keys <= ReplaceDead(sp, w, api).w.pods.Keys
  {
    var target := w.status.targetWorkers;
    var dead := Dead(sp, w.pods, target);
    if dead != [] {
      var added := FreshNames(sp.name, MaxIndex(target), |dead|);
      RestartMembers(WorkerPolicy(sp), w.pods, target);
      FreshAbove(sp, MaxIndex(target), |dead|);
      CreatedNames(sp.name, w.pods, added, None, api.creates);
      FilterMembers(target, dead, true);
    }
  }

  lemma SyncAdds(sp: Spec, w: World, api: Api)
    requires CanonicalPods(sp, w.pods) && Faithful(w, api)
    requires AllCanonical(sp, w.status.targetWorkers) && Room(sp, w)
    ensures NewHavePods(w, SyncWorkers(sp, w, api).w)
  {
    if api.podList.Some? {
      var running := Seen(sp, w.pods, api.podList.value);
      var r := RefreshHostfile(sp, w, running, api);
      RefreshFrame(sp, w, running, api);
      RunningSorted(sp, w.pods, api.podList.value);
      AdoptedStay(sp, w.pods, running);
      MaxIndexAtLeast(w.status.targetWorkers);
      if r.ok { ReplaceAdds(sp, RecordRunning(r.w, running), api); }
    }
  }

  lemma CreateAdds(sp: Spec, w: World, api: Api)
    requires InPhase(w) && w.status.phase == Created && AllCanonical(sp, ReplicaWorkers(sp, w.status))
    ensures var w' := CreateJobWorkers(sp, w, api);
            w'.status.phase != Failed ==> NewHavePods(w, w')
  {
    CreatedNames(sp.name, w.pods, ReplicaWorkers(sp, w.status), None, api.creates);
  }

  lemma StartAdds(sp: Spec, w: World, api: Api)
    requires InPhase(w) && w.status.phase == Created && CanonicalPods(sp, w.pods) && Faithful(w, api)
    requires AllCanonical(sp, w.status.targetWorkers) && Room(sp, w)
    ensures var w' := DoSteps(sp, w, api).w;
            w'.status.phase != Failed ==> NewHavePods(w, w')
  {
    FirstDistinct(sp);
    if !Has(w.status.conditions, WorkersCreated) {
      CreateAdds(sp, w, api);
    } else if !Has(w.status.conditions, WorkersReady) {
      SyncAdds(sp, w, api);
    } else {
      SyncLauncherWorkers(sp, w, api);
    }
  }

  lemma BeginningAdds(sp: Spec, w: World, api: Api)
    requires InPhase(w) && w.status.phase in {NoPhase, Created} && CanonicalPods(sp, w.pods) && Faithful(w, api)
    requires AllCanonical(sp, w.status.targetWorkers) && Room(sp, w)
    ensures var w' := DoSteps(sp, Initialize(w, api), api).w;
            w'.status.phase != Failed ==> NewHavePods(w, w')
  {
    InitializePhases(w, api);
    StartAdds(sp, Initialize(w, api), api);
  }

  lemma RunningAdds(sp: Spec, w: World, api: Api)
    requires CanonicalPods(sp, w.pods) && Faithful(w, api)
    requires AllCanonical(sp, w.status.targetWorkers) && Room(sp, w)
    ensures NewHavePods(w, ReconcileRunning(sp, w, api).w)
  {
    var w1 := SyncLauncher(sp, w, api);
    SyncLauncherWorkers(sp, w, api);
    SyncAdds(sp, w1, api);
    SelectKeepsCluster(SyncWorkers(sp, w1, api).w, api);
  }

  lemma RestartAdds(sp: Spec, w: World, api: Api)
    requires NeedRestart(sp, w.status) && sp.replicas <= MAX_INT32
    ensures var w' := Restart(sp, w, api).w;
            w'.status.phase != Failed ==> NewHavePods(w, w')
  {
    var w1 := DeleteLauncher(DeleteAllPods(Reset(w, api), api).w, api);
    ResetPhases(w, api);
    FirstDistinct(sp);
    CreateAdds(sp, w1, api);
    CreatedNames(sp.name, w1.pods, ReplicaWorkers(sp, w1.status), None, api.creates);
  }

  lemma GrowthAdds(sp: Spec, w: World, api: Api, r: Ref)
    requires PhaseInv(w) && AllAllocated(sp, w) && Room(sp, w) && w.status.phase == Scaling
    requires r.kind == ScaleOut && SucceedsNow(w, ExecuteScaling(sp, w, api).w, r)
    ensures NewHavePods(w, ExecuteScaling(sp, w, api).w)
  {
    var w1, w' := SyncLauncher(sp, w, api), ExecuteScaling(sp, w, api).w;
    ScalingFinishes(sp, w, api);
    SyncLauncherPhases(sp, w, api);
    SyncLauncherWorkers(sp, w, api);
    ScaleOutOutcomes(sp, w1, r, api);
    AllocatedForCanonical(sp, w1, w.scalers[r]);
    var s1 := AllocatedFor(sp, w1, w.scalers[r]);
    CreatedNames(sp.name, w1.pods, s1.pods, Some(r.name), api.creates);
    assert w' == ScaleOutPass(sp, w1, r, w.scalers[r], api).w;
  }

  lemma ScalingTargets(sp: Spec, w: World, api: Api)
    requires PhaseInv(w) && AllAllocated(sp, w) && Room(sp, w) && w.status.phase == Scaling
    ensures NewHavePods(w, ExecuteScaling(sp, w, api).w)
  {
    var w' := ExecuteScaling(sp, w, api).w;
    ExecuteScalingPhases(sp, w, api);
    if !SameWorkers(w, w') {
      var r := CurrentRef(w);
      FilterMembers(w.status.targetWorkers, w'.scalers[r].pods, true);
      if r.kind == ScaleOut { GrowthAdds(sp, w, api, r); }
    }
  }

  lemma PassTargets(sp: Spec, w: World, api: Api)
    requires PhaseInv(w) && CanonicalPods(sp, w.pods) && Faithful(w, api)
    requires AllAllocated(sp, w) && AllCanonical(sp, w.status.targetWorkers) && Room(sp, w)
    ensures var w' := Reconcile(sp, w, api).w;
            w'.status.phase != Failed ==> NewHavePods(w, w')
  {
    if w.suspended {
      CleanupFrame(sp, Suspend(w, api), api);
    } else {
      match w.status.phase
      case NoPhase => BeginningAdds(sp, w, api);
      case Created => BeginningAdds(sp, w, api);
      case Running => RunningAdds(sp, w, api);
      case Scaling => ScalingTargets(sp, w, api);
      case Failed =>
        if NeedRestart(sp, w.status) { RestartAdds(sp, w, api); } else { CleanupFrame(sp, w, api); }
      case _ => CleanupFrame(sp, w, api);
    }
  }

  /** In every run a name joins the target list, at start-up, by adoption, by recovery or by a
      scale-out, only with its pod in the cluster, unless the step fails the job. */
  lemma NewTargetsHavePods(sp: Spec, ws: seq<World>, es: seq<Event>, k: nat, n: string)
    requires Run(sp, ws, es) && Init(ws[0]) && k < |es| && RoomyFrom(sp, ws, 0, k)
    requires n in ws[k + 1].status.targetWorkers && n !in ws[k].status.targetWorkers
    requires ws[k + 1].status.phase != Failed
    ensures n in ws[k + 1].pods
  {
    StepOf(sp, ws, es, k);
    RunPhases(sp, ws, es, k);
    RunPods(sp, ws, es, k);
    RunAllocated(sp, ws, es, 0, k);
    RunCanonical(sp, ws, es, 0, k);
    RoomIn(sp, ws, 0, k, k);
    match es[k]
    case Reconciled(api) => PassTargets(sp, ws[k], api);
    case _ => OutsideKeepsStatus(sp, ws[k], es[k], ws[k + 1]);
  }

  // ---------- without a restart policy ----------

  lemma {:induction false} NeverDead(sp: Spec, pods: map<string, Pod>, target: seq<string>)
    requires WorkerPolicy(sp) in {Never, Unspecified}
    ensures Dead(sp, pods, target) == []
  {
    if target != [] { NeverDead(sp, pods, target[1..]); }
  }

  ghost predicate SomeSuccess(w: World, w': World) { exists r :: SucceedsNow(w, w', r) }

  /** In every run, when the workers have no restart policy or Never, a target list that is not empty
      changes in three ways only: with the first workers of an attempt, by a restart, and by the success
      of the current scaler. */
  lemma TargetsUnderNever(sp: Spec, ws: seq<World>, es: seq<Event>, k: nat)
    requires Run(sp, ws, es) && Init(ws[0]) && k < |es| && WorkerPolicy(sp) in {Never, Unspecified}
    requires ws[k].status.targetWorkers != [] && WorkersCreated in TruthsOf(ws[k])
    requires ws[k + 1].status.targetWorkers != ws[k].status.targetWorkers
    ensures es[k].Reconciled?
    ensures Resets(sp, ws[k]) || SomeSuccess(ws[k], ws[k + 1])
  {
    var w, w' := ws[k], ws[k + 1];
    StepOf(sp, ws, es, k);
    RunPhases(sp, ws, es, k);
    match es[k]
    case Reconciled(api) =>
      PassLists(sp, w, api);
      NeverDead(sp, w.pods, w.status.targetWorkers);
      AllKept(w.status.targetWorkers);
      if w.status.phase == Scaling { assert SucceedsNow(w, w', CurrentRef(w)); }
    case _ => OutsideKeepsStatus(sp, w, es[k], w');
  }
}
