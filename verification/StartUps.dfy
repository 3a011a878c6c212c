/** What a pass of a job that starts up comes to, step by step and whatever its calls answer. */
module StartUps {
  import opened GoStrings
  import opened WorkerNames
  import opened Conditions
  import opened Hostfile
  import opened Cluster
  import opened Pass
  import opened System
  import opened Phases
  import opened Lifecycle
  import opened Workers
  import opened Launching
  import opened WorkerLists
  import opened Ledger

  /** The outcomes of one start-up pass: of the four steps it takes the first that is not done. */
  ghost predicate StartUpOutcome(sp: Spec, w: World, w': World, api: Api) {
    var done, done' := TruthsOf(w), TruthsOf(w');
    if WorkersCreated !in done then
      var refused := exists n :: n in FirstWorkers(sp) && n in api.creates;
      && w'.status.phase == (if refused then Failed else Created)
      && (WorkersCreated in done' <==> !refused) && WorkersReady !in done'
      && w'.launcher == w.launcher && w'.configMap == w.configMap
    else if WorkersReady !in done then
      && w'.status.phase == Created && WorkersCreated in done' && LauncherCreated !in done'
      && w'.launcher == w.launcher && w'.configMap == w.configMap
    else if LauncherCreated !in done then
      var failed := (w.configMap.None? && api.config == ConfigRefused)
                    || (w.launcher.None? && api.launcherRead && !api.launcherCreated);
      && w'.status.phase == (if failed then Failed else Created)
      && (LauncherCreated in done' <==> !failed) && Running !in done'
      && w'.configMap == (if w.configMap.None? && api.config == ConfigDone
                          then Some(Content(w.status.currentWorkers, sp.slots)) else w.configMap)
      && w'.launcher == (if w.launcher.None? && api.launcherRead && !failed
                         then Some(Launcher(PodPending, "", if w'.configMap.Some? then w'.configMap.value else ""))
                         else w.launcher)
      && w'.pods == w.pods && SameWorkers(w, w')
    else
      && (w'.status.phase == Failed <==> LauncherLost(sp, w, api))
      && (w'.status.phase == Succeeded <==> LauncherIs(w, api, PodSucceeded))
      && (w'.status.phase == Running <==> LauncherIs(w, api, PodRunning))
      && w'.pods == w.pods && SameWorkers(w, w')
  }

  lemma CreatedOutcome(sp: Spec, w: World, api: Api)
    requires InPhase(w) && w.status.phase == Created && WorkersCreated !in TruthsOf(w)
    requires w.status.targetWorkers == [] && sp.replicas <= MAX_INT32
    ensures StartUpOutcome(sp, w, DoSteps(sp, w, api).w, api)
  {
    var first := FirstWorkers(sp);
    var made := CreateWorkers(sp.name, w.pods, first, None, api.creates);
    var w1 := w.(status := w.status.(targetWorkers := first), pods := made.pods);
    FirstDistinct(sp);
    CreationSucceeds(sp.name, w.pods, first, None, api.creates);
    Noted(w1, WorkersCreated, "", api);
    Noted(w1, Failed, JOB_FAILED, api);
    AfterCreated(TruthsOf(w));
  }

  lemma AfterCreated(truths: set<ConditionType>)
    requires WorkersCreated !in truths && StepsInOrder(truths) && Failed !in truths
    ensures WorkersCreated in After(truths, WorkersCreated) && WorkersReady !in After(truths, WorkersCreated)
    ensures WorkersCreated !in After(truths, Failed) && WorkersReady !in After(truths, Failed)
  {
  }

  /** While the job is not running the sync leaves the launcher alone. */
  lemma SyncLeavesLauncher(sp: Spec, w: World, api: Api)
    requires !Has(w.status.conditions, Running)
    ensures SyncWorkers(sp, w, api).w.launcher == w.launcher
  {
    if api.podList.Some? {
      var running := Seen(sp, w.pods, api.podList.value);
      ReplaceDeadFrame(sp, RecordRunning(RefreshHostfile(sp, w, running, api).w, running), api);
    }
  }

  lemma WaitedTruths(sp: Spec, w: World, api: Api)
    requires InPhase(w) && w.status.phase == Created && !Has(w.status.conditions, Running)
    ensures var w' := WaitWorkers(sp, w, api).w;
            && w'.status.phase == Created && w'.launcher == w.launcher && w'.configMap == w.configMap
            && (TruthsOf(w') == TruthsOf(w) || TruthsOf(w') == TruthsOf(w) + {WorkersReady})
  {
    var r := SyncWorkers(sp, w, api);
    SyncWorkersFrame(sp, w, api);
    SyncLeavesLauncher(sp, w, api);
    Noted(r.w, WorkersReady, "", api);
    assert After(TruthsOf(w), WorkersReady) == TruthsOf(w) + {WorkersReady};
  }

  lemma WaitingStep(sp: Spec, w: World, api: Api)
    requires WorkersCreated in TruthsOf(w) && !Ready(w)
    ensures DoSteps(sp, w, api) == WaitWorkers(sp, w, api)
  {
  }

  lemma WaitedOutcome(sp: Spec, w: World, api: Api)
    requires InPhase(w) && w.status.phase == Created && WorkersCreated in TruthsOf(w) && !Ready(w)
    ensures StartUpOutcome(sp, w, DoSteps(sp, w, api).w, api)
  {
    WaitingStep(sp, w, api);
    WaitedTruths(sp, w, api);
  }

  lemma ConfigOutcome(sp: Spec, w: World, api: Api)
    ensures var r := EnsureConfig(sp, w, api);
            && (r.ok <==> !(w.configMap.None? && api.config == ConfigRefused))
            && r.w == w.(configMap := if w.configMap.None? && api.config == ConfigDone
                                      then Some(Content(w.status.currentWorkers, sp.slots)) else w.configMap)
  {
  }

  lemma LauncherOutcome(sp: Spec, w: World, api: Api)
    requires InPhase(w) && w.status.phase == Created && Ready(w) && LauncherCreated !in TruthsOf(w)
    ensures StartUpOutcome(sp, w, DoSteps(sp, w, api).w, api)
  {
    var w1 := EnsureConfig(sp, w, api).w;
    ConfigOutcome(sp, w, api);
    Noted(w1, LauncherCreated, "", api);
    Noted(NewLauncher(w1), LauncherCreated, "", api);
    Noted(w1, Failed, JOB_FAILED, api);
    assert DoSteps(sp, w, api).w == CreateLauncher(sp, w, api);
  }

  lemma LaunchedOutcome(sp: Spec, w: World, api: Api)
    requires InPhase(w) && w.status.phase == Created && LauncherCreated in TruthsOf(w)
    ensures StartUpOutcome(sp, w, DoSteps(sp, w, api).w, api)
  {
    SyncDecides(sp, w, api);
    SyncLauncherWorkers(sp, w, api);
  }

  lemma StepsOutcome(sp: Spec, w: World, api: Api)
    requires InPhase(w) && w.status.phase == Created && StartsEmpty(w) && sp.replicas <= MAX_INT32
    ensures StartUpOutcome(sp, w, DoSteps(sp, w, api).w, api)
  {
    if WorkersCreated !in TruthsOf(w) { CreatedOutcome(sp, w, api); }
    else if !Ready(w) { WaitedOutcome(sp, w, api); }
    else if LauncherCreated !in TruthsOf(w) { LauncherOutcome(sp, w, api); }
    else { LaunchedOutcome(sp, w, api); }
  }

  /** What is left to do does not depend on the Created condition. */
  lemma InitializedOutcome(sp: Spec, w: World, w': World, api: Api)
    requires InPhase(w) && w.status.phase in {NoPhase, Created} && StartUpOutcome(sp, Initialize(w, api), w', api)
    ensures StartUpOutcome(sp, w, w', api)
  {
    if w.status.conditions == [] {
      Noted(w, Created, JOB_CREATED, api);
      assert After({}, Created) == {Created};
    }
  }

  /** In every run, exactly what a start-up pass comes to: which step it takes, when that step fails the
      job or is done, when the job succeeds or runs, and what it does to launcher and ConfigMap. */
  lemma StartUpDecides(sp: Spec, ws: seq<World>, es: seq<Event>, k: nat)
    requires Run(sp, ws, es) && Init(ws[0]) && k < |es| && sp.replicas <= MAX_INT32
    requires es[k].Reconciled? && !ws[k].suspended && ws[k].status.phase in {NoPhase, Created}
    ensures StartUpOutcome(sp, ws[k], ws[k + 1], es[k].api)
  {
    StepOf(sp, ws, es, k);
    RunPhases(sp, ws, es, k);
    RunStartsEmpty(sp, ws, es, k);
    PassOutcome(sp, ws[k], es[k].api);
  }

  lemma PassOutcome(sp: Spec, w: World, api: Api)
    requires InPhase(w) && StartsEmpty(w) && sp.replicas <= MAX_INT32
    requires !w.suspended && w.status.phase in {NoPhase, Created}
    ensures StartUpOutcome(sp, w, Reconcile(sp, w, api).w, api)
  {
    InitializePhases(w, api);
    InitializedEmpty(w, api);
    StepsOutcome(sp, Initialize(w, api), api);
    InitializedOutcome(sp, w, Reconcile(sp, w, api).w, api);
  }

  lemma InitializedEmpty(w: World, api: Api)
    requires InPhase(w) && StartsEmpty(w) && w.status.phase in {NoPhase, Created}
    ensures StartsEmpty(Initialize(w, api))
  {
    if w.status.conditions == [] { Noted(w, Created, JOB_CREATED, api); }
  }
}
