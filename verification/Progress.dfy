/** Progress: start-up reaches Running, and the current workers follow the running pods. */
module Progress {
  import opened GoStrings
  import opened WorkerNames
  import opened Conditions
  import opened Cluster
  import opened Pass
  import opened System
  import opened Phases
  import opened Lifecycle
  import opened Workers
  import opened Launching
  import opened WorkerLists
  import opened Agreement
  import opened Leftovers

  // ---------- start-up ----------

  /** How many of the four start-up steps are done. */
  function StepsDone(w: World): nat {
    if Running in TruthsOf(w) then 4
    else if LauncherCreated in TruthsOf(w) then 3
    else if WorkersReady in TruthsOf(w) then 2
    else if WorkersCreated in TruthsOf(w) then 1
    else 0
  }

  predicate StartingUp(w: World) { w.status.phase in {NoPhase, Created} }

  /** The calls of a start-up pass do not fail; once the workers were created enough of them run, and
      once the launcher was created it runs. */
  ghost predicate Favourable(sp: Spec, w: World, api: Api) {
    && !w.suspended && api.creates == map[] && api.podList.Some?
    && api.config == ConfigDone && api.launcherRead && api.launcherCreated
    && (WorkersCreated in TruthsOf(w) ==>
          |set n | n in w.pods && w.pods[n].phase == PodRunning| >= sp.replicas)
    && (LauncherCreated in TruthsOf(w) ==> w.launcher.Some? && w.launcher.value.phase == PodRunning)
  }

  /** A sync without faults gets through while the job is not running yet. */
  lemma SyncGetsThrough(sp: Spec, w: World, api: Api)
    requires api.podList.Some? && api.creates == map[] && !Has(w.status.conditions, Running)
    requires CanonicalPods(sp, w.pods) && Enumerates(api.podList.value, w.pods.Keys)
    requires AllCanonical(sp, w.status.targetWorkers) && Room(sp, w)
    ensures SyncWorkers(sp, w, api).ok
  {
    var running := Seen(sp, w.pods, api.podList.value);
    RunningSorted(sp, w.pods, api.podList.value);
    AdoptedStay(sp, w.pods, running);
    var target := w.status.targetWorkers;
    var dead := Dead(sp, w.pods, target);
    RestartMembers(WorkerPolicy(sp), w.pods, target);
    MaxIndexAtLeast(target);
    FreshAbove(sp, MaxIndex(target), |dead|);
    AllMade(sp.name, w.pods, FreshNames(sp.name, MaxIndex(target), |dead|), None);
  }

  lemma CreateAdvances(sp: Spec, w: World, api: Api)
    requires InPhase(w) && w.status.phase == Created && WorkersCreated !in TruthsOf(w)
    requires api.creates == map[] && AllCanonical(sp, w.status.targetWorkers) && Room(sp, w)
    ensures var w' := CreateJobWorkers(sp, w, api); w'.status.phase == Created && StepsDone(w') == 1
  {
    var workers := ReplicaWorkers(sp, w.status);
    var made := CreateWorkers(sp.name, w.pods, workers, None, api.creates);
    var w1 := w.(status := w.status.(targetWorkers := workers), pods := made.pods);
    FirstDistinct(sp);
    AllMade(sp.name, w.pods, workers, None);
    Noted(w1, WorkersCreated, "", api);
    assert After(TruthsOf(w), WorkersCreated) == TruthsOf(w) + {WorkersCreated};
  }

  lemma WaitAdvances(sp: Spec, w: World, api: Api)
    requires InPhase(w) && w.status.phase == Created && WorkersCreated in TruthsOf(w) && !Ready(w)
    requires CanonicalPods(sp, w.pods) && Faithful(w, api) && Favourable(sp, w, api)
    requires AllCanonical(sp, w.status.targetWorkers) && Room(sp, w)
    ensures var w' := WaitWorkers(sp, w, api).w; w'.status.phase == Created && StepsDone(w') == 2
  {
    SyncGetsThrough(sp, w, api);
    WaitDecides(sp, w, api);
    WaitWorkersPhases(sp, w, api);
    WaitTruths(sp, w, api);
  }

  lemma WaitTruths(sp: Spec, w: World, api: Api)
    requires InPhase(w) && w.status.phase == Created
    ensures TruthsOf(WaitWorkers(sp, w, api).w) <= TruthsOf(w) + {WorkersReady}
  {
    SyncWorkersFrame(sp, w, api);
    Noted(SyncWorkers(sp, w, api).w, WorkersReady, "", api);
    assert After(TruthsOf(w), WorkersReady) == TruthsOf(w) + {WorkersReady};
  }

  lemma LauncherAdvances(sp: Spec, w: World, api: Api)
    requires InPhase(w) && w.status.phase == Created && Ready(w) && LauncherCreated !in TruthsOf(w)
    requires api.config == ConfigDone && api.launcherRead && api.launcherCreated
    ensures var w' := CreateLauncher(sp, w, api); w'.status.phase == Created && StepsDone(w') == 3
  {
    var w1 := EnsureConfig(sp, w, api).w;
    assert w1.status == w.status;
    Noted(w1, LauncherCreated, "", api);
    Noted(NewLauncher(w1), LauncherCreated, "", api);
    assert After(TruthsOf(w), LauncherCreated) == TruthsOf(w) + {LauncherCreated};
  }

  lemma RunAdvances(sp: Spec, w: World, api: Api)
    requires InPhase(w) && w.status.phase == Created && LauncherCreated in TruthsOf(w)
    requires api.launcherRead && w.launcher.Some? && w.launcher.value.phase == PodRunning
    ensures SyncLauncher(sp, w, api).status.phase == Running
  {
    SyncDecides(sp, w, api);
  }

  /** Every favourable pass of a job that starts up does one more step; the fourth makes it Running. */
  lemma StepsAdvance(sp: Spec, w: World, api: Api)
    requires InPhase(w) && w.status.phase == Created && CanonicalPods(sp, w.pods) && Faithful(w, api)
    requires Favourable(sp, w, api) && AllCanonical(sp, w.status.targetWorkers) && Room(sp, w)
    ensures var w' := DoSteps(sp, w, api).w;
            if StepsDone(w) == 3 then w'.status.phase == Running
            else w'.status.phase == Created && StepsDone(w') == StepsDone(w) + 1
  {
    if WorkersCreated !in TruthsOf(w) { CreateAdvances(sp, w, api); }
    else if !Ready(w) { WaitAdvances(sp, w, api); }
    else if LauncherCreated !in TruthsOf(w) { LauncherAdvances(sp, w, api); }
    else { RunAdvances(sp, w, api); }
  }

  lemma PassAdvances(sp: Spec, w: World, api: Api)
    requires PhaseInv(w) && StartingUp(w) && CanonicalPods(sp, w.pods) && Faithful(w, api)
    requires Favourable(sp, w, api) && AllCanonical(sp, w.status.targetWorkers) && Room(sp, w)
    ensures var w' := Reconcile(sp, w, api).w;
            if StepsDone(w) == 3 then w'.status.phase == Running
            else StartingUp(w') && StepsDone(w') == StepsDone(w) + 1
  {
    var w1 := Initialize(w, api);
    InitializePhases(w, api);
    if w.status.conditions == [] {
      Noted(w, Created, JOB_CREATED, api);
      assert After({}, Created) == {Created};
    }
    StepsAdvance(sp, w1, api);
  }

  /** The passes among the steps from the i-th state to the k-th. */
  function Passes(es: seq<Event>, i: nat, k: nat): nat
    requires i <= k <= |es|
  {
    if i == k then 0 else Passes(es, i, k - 1) + (if es[k - 1].Reconciled? then 1 else 0)
  }

  ghost predicate FavourableAt(sp: Spec, ws: seq<World>, es: seq<Event>, n: nat)
    requires n < |es| < |ws|
  {
    es[n].Reconciled? && StartingUp(ws[n]) ==> Favourable(sp, ws[n], es[n].api)
  }

  /** Every pass in between is favourable. */
  ghost predicate FavourableFrom(sp: Spec, ws: seq<World>, es: seq<Event>, i: nat, k: nat)
    requires i <= k <= |es| < |ws|
  {
    forall n :: i <= n < k ==> FavourableAt(sp, ws, es, n)
  }

  ghost predicate RunsBetween(ws: seq<World>, i: nat, k: nat)
    requires i <= k < |ws|
  {
    exists n :: i <= n <= k && RunsAt(ws, n)
  }

  ghost predicate RunsAt(ws: seq<World>, n: nat)
    requires n < |ws|
  {
    ws[n].status.phase == Running
  }

  lemma StepAdvances(sp: Spec, ws: seq<World>, es: seq<Event>, k: nat)
    requires Run(sp, ws, es) && Init(ws[0]) && k < |es| && RoomyFrom(sp, ws, 0, k)
    requires StartingUp(ws[k]) && FavourableAt(sp, ws, es, k)
    ensures if !es[k].Reconciled? then ws[k + 1].status == ws[k].status
            else if StepsDone(ws[k]) == 3 then RunsAt(ws, k + 1)
            else StartingUp(ws[k + 1]) && StepsDone(ws[k + 1]) == StepsDone(ws[k]) + 1
  {
    StepOf(sp, ws, es, k);
    RunPhases(sp, ws, es, k);
    RunPods(sp, ws, es, k);
    RunCanonical(sp, ws, es, 0, k);
    RoomIn(sp, ws, 0, k, k);
    match es[k]
    case Reconciled(api) => PassAdvances(sp, ws[k], api);
    case _ => OutsideKeepsStatus(sp, ws[k], es[k], ws[k + 1]);
  }

  /** Each favourable pass counts, until the job runs. */
  lemma {:induction false} StartUpAdvances(sp: Spec, ws: seq<World>, es: seq<Event>, i: nat, k: nat)
    requires Run(sp, ws, es) && Init(ws[0]) && i <= k <= |es| && RoomyFrom(sp, ws, 0, k)
    requires StartingUp(ws[i]) && FavourableFrom(sp, ws, es, i, k)
    ensures RunsBetween(ws, i, k)
         || (StartingUp(ws[k]) && StepsDone(ws[k]) == StepsDone(ws[i]) + Passes(es, i, k))
  {
    if i < k {
      StartUpAdvances(sp, ws, es, i, k - 1);
      if RunsBetween(ws, i, k - 1) {
        var n :| i <= n <= k - 1 && RunsAt(ws, n);
        assert RunsAt(ws, n);
      } else {
        assert FavourableAt(sp, ws, es, k - 1);
        StepAdvances(sp, ws, es, k - 1);
        if RunsAt(ws, k) { assert RunsBetween(ws, i, k); }
      }
    }
  }

  /** A job that starts up, at first or after a restart, is Running after as many favourable passes as it
      has steps to go, at most four, whatever happens between them. */
  lemma StartUpReachesRunning(sp: Spec, ws: seq<World>, es: seq<Event>, i: nat, k: nat)
    requires Run(sp, ws, es) && Init(ws[0]) && i <= k <= |es| && RoomyFrom(sp, ws, 0, k)
    requires StartingUp(ws[i]) && FavourableFrom(sp, ws, es, i, k)
    requires StepsDone(ws[i]) + Passes(es, i, k) >= 4
    ensures RunsBetween(ws, i, k)
  {
    StartUpAdvances(sp, ws, es, i, k);
    RunPhases(sp, ws, es, k);
  }

  // ---------- the current workers ----------

  lemma SyncRecordsSeen(sp: Spec, w: World, api: Api)
    requires api.podList.Some? && (w.launcher.None? || api.exec == ExecDone || !Has(w.status.conditions, Running))
    ensures SyncWorkers(sp, w, api).w.status.currentWorkers == Seen(sp, w.pods, api.podList.value)
  {
    var running := Seen(sp, w.pods, api.podList.value);
    var r := RefreshHostfile(sp, w, running, api);
    RefreshFrame(sp, w, running, api);
    ReplaceDeadFrame(sp, RecordRunning(r.w, running), api);
  }

  lemma RunningRecordsSeen(sp: Spec, w: World, api: Api)
    requires api.podList.Some? && api.exec == ExecDone
    ensures ReconcileRunning(sp, w, api).w.status.currentWorkers == Seen(sp, w.pods, api.podList.value)
  {
    var w1 := SyncLauncher(sp, w, api);
    SyncLauncherWorkers(sp, w, api);
    SyncRecordsSeen(sp, w1, api);
    SelectKeepsCluster(SyncWorkers(sp, w1, api).w, api);
  }

  /** After every pass of a running job that can list the pods and reach the launcher, the current
      workers are exactly the pods that were running, in ascending index order: whatever of recovery and
      of the launcher's state. */
  lemma CurrentFollowsPods(sp: Spec, ws: seq<World>, es: seq<Event>, k: nat)
    requires Run(sp, ws, es) && Init(ws[0]) && k < |es| && es[k].Reconciled? && !ws[k].suspended
    requires ws[k].status.phase == Running && es[k].api.podList.Some? && es[k].api.exec == ExecDone
    ensures Ordered(sp, ws[k + 1].status.currentWorkers)
    ensures forall n :: n in ws[k + 1].status.currentWorkers <==>
              n in ws[k].pods && ws[k].pods[n].phase == PodRunning
  {
    StepOf(sp, ws, es, k);
    RunPods(sp, ws, es, k);
    RunningRecordsSeen(sp, ws[k], es[k].api);
    RunningSorted(sp, ws[k].pods, es[k].api.podList.value);
    SeenOrdered(sp, ws[k].pods, es[k].api.podList.value);
  }
}
