/** What a restart leaves behind: pods, launcher and the first step of the new attempt. */
module Restarts {
  import opened GoStrings
  import opened WorkerNames
  import opened Conditions
  import opened Cluster
  import opened Pass
  import opened System
  import opened Phases
  import opened Lifecycle
  import opened Workers
  import opened Launching
  import opened WorkerLists

  /** The first pass of a new attempt: without its deletions and the listing of the services it stops
      short of the first step. */
  ghost predicate Restarted(sp: Spec, w: World, w': World, api: Api) {
    var listed := api.deleteListed && api.serviceListed;
    && w'.status.restartCount == w.status.restartCount + 1
    && w'.launcher == (if api.deleteListed && api.launcherRead && api.launcherDeleted then None else w.launcher)
    && w'.status.currentWorkers == []
    && w'.status.targetWorkers == (if listed then FirstWorkers(sp) else [])
    && (w'.status.phase == if listed && exists n :: n in FirstWorkers(sp) && n in api.creates then Failed else Created)
    && (WorkersCreated in TruthsOf(w') <==> listed && w'.status.phase == Created)
    && (!listed ==> forall n :: n in w'.pods <==> n in w.pods && (api.deleteListed ==> n in api.undeleted))
  }

  lemma FirstStep(sp: Spec, w: World, api: Api)
    requires TruthsOf(w) == {Created} && InPhase(w) && w.status.phase == Created && sp.replicas <= MAX_INT32
    requires w.status.targetWorkers == [] && w.status.currentWorkers == []
    ensures var w' := DoSteps(sp, w, api).w;
            && DoSteps(sp, w, api).ok
            && w'.launcher == w.launcher && w'.status.restartCount == w.status.restartCount
            && w'.status.targetWorkers == FirstWorkers(sp) && w'.status.currentWorkers == []
            && (w'.status.phase == if exists n :: n in FirstWorkers(sp) && n in api.creates then Failed else Created)
            && (WorkersCreated in TruthsOf(w') <==> w'.status.phase == Created)
  {
    var first := FirstWorkers(sp);
    var made := CreateWorkers(sp.name, w.pods, first, None, api.creates);
    var w1 := w.(status := w.status.(targetWorkers := first), pods := made.pods);
    FirstDistinct(sp);
    CreationSucceeds(sp.name, w.pods, first, None, api.creates);
    Noted(w1, WorkersCreated, "", api);
    Noted(w1, Failed, JOB_FAILED, api);
    assert WorkersCreated in After({Created}, WorkersCreated) && WorkersCreated !in After({Created}, Failed);
  }

  /** A restart deletes the launcher if the worker pods could be listed before and both its calls
      succeed, and otherwise keeps the old one; the first workers are made if the services could be
      listed as well. */
  lemma RestartOutcome(sp: Spec, w: World, api: Api)
    requires PhaseInv(w) && Resets(sp, w) && sp.replicas <= MAX_INT32
    ensures Restarted(sp, w, Reconcile(sp, w, api).w, api)
    ensures Reconcile(sp, w, api).ok <==> api.deleteListed && api.serviceListed
  {
    var w1 := DeleteLauncher(DeleteAllPods(Reset(w, api), api).w, api);
    ResetPhases(w, api);
    FirstStep(sp, w1, api);
  }

  // ---------- the launcher of the new attempt ----------

  lemma {:induction false} RestartsRise(sp: Spec, ws: seq<World>, es: seq<Event>, i: nat, k: nat)
    requires Run(sp, ws, es) && Init(ws[0]) && i <= k <= |es|
    ensures ws[i].status.restartCount <= ws[k].status.restartCount
  {
    if i < k {
      RestartsRise(sp, ws, es, i, k - 1);
      RestartBudget(sp, ws, es, k);
    }
  }

  lemma LauncherGone(sp: Spec, ws: seq<World>, es: seq<Event>, j: nat)
    requires Run(sp, ws, es) && Init(ws[0]) && j < |es| && sp.replicas <= MAX_INT32
    requires es[j].Reconciled? && Resets(sp, ws[j])
    requires var api := es[j].api; api.deleteListed && api.launcherRead && api.launcherDeleted
    ensures ws[j + 1].launcher.None? && ws[j + 1].status.restartCount == ws[j].status.restartCount + 1
  {
    RunPhases(sp, ws, es, j);
    StepOf(sp, ws, es, j);
    RestartOutcome(sp, ws[j], es[j].api);
  }

  lemma RecordedStill(sp: Spec, ws: seq<World>, es: seq<Event>, i: nat, k: nat)
    requires i <= k <= |es| && |ws| == |es| + 1
    requires ws[k].status.restartCount == ws[i].status.restartCount
    requires exists m :: RecordedAt(sp, ws, es, m, i)
    ensures exists m :: RecordedAt(sp, ws, es, m, k)
  {
    var m :| RecordedAt(sp, ws, es, m, i);
    assert RecordedAt(sp, ws, es, m, k);
  }

  /** After a restart that could delete the launcher, a launcher of the new attempt is never the old one:
      whenever there is one, an earlier pass of the new attempt had recorded at least `replicas` distinct
      running workers. */
  lemma {:induction false} LauncherOfAttempt(sp: Spec, ws: seq<World>, es: seq<Event>, j: nat, k: nat)
    requires Run(sp, ws, es) && Init(ws[0]) && j < k <= |es| && sp.replicas <= MAX_INT32
    requires es[j].Reconciled? && Resets(sp, ws[j])
    requires var api := es[j].api; api.deleteListed && api.launcherRead && api.launcherDeleted
    requires ws[k].status.restartCount == ws[j].status.restartCount + 1 && ws[k].launcher.Some?
    ensures exists m :: RecordedAt(sp, ws, es, m, k)
  {
    LauncherGone(sp, ws, es, j);
    if k > j + 1 {
      RestartsRise(sp, ws, es, j + 1, k - 1);
      RestartsRise(sp, ws, es, k - 1, k);
      if ws[k - 1].launcher.None? { LauncherGated(sp, ws, es, k - 1); }
      else { LauncherOfAttempt(sp, ws, es, j, k - 1); }
      RecordedStill(sp, ws, es, k - 1, k);
    }
  }
}
