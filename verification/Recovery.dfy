/** Which target workers recovery replaces, by restart policy and pod. */
module Recovery {
  import opened GoStrings
  import opened WorkerNames
  import opened Conditions
  import opened Cluster
  import opened Pass
  import opened System
  import opened Phases
  import opened Lifecycle
  import opened Workers
  import opened Launching
  import opened WorkerLists

  /** A target worker is lost, by restart policy: under Always if its pod is gone, failed, finished or
      unknown; under OnFailure if its pod failed; under ExitCode if its pod failed and the first of its
      containers that terminated did so with a code strictly between 128 and 255; otherwise never. */
  ghost predicate Lost(sp: Spec, pods: map<string, Pod>, n: string) {
    match sp.workerPolicy
    case Some(Always) => n !in pods || pods[n].phase in {PodFailed, PodUnknown, PodSucceeded}
    case Some(OnFailure) => n in pods && pods[n].phase == PodFailed
    case Some(ExitCode) =>
      n in pods && pods[n].phase == PodFailed &&
      var codes := pods[n].exitCodes;
      exists k :: 0 <= k < |codes| && codes[k].Some? && 128 < codes[k].value < 255
                  && forall j :: 0 <= j < k ==> codes[j].None?
    case _ => false
  }

  lemma LostMeans(sp: Spec, pods: map<string, Pod>, n: string)
    ensures NeedsReplacement(WorkerPolicy(sp), pods, n) <==> Lost(sp, pods, n)
  {
    if n in pods { RetryableExitMeans(pods[n].exitCodes); }
  }

  // ---------- one sync ----------

  /** No name with an index above those of the target workers is refused. */
  ghost predicate NoneRefused(sp: Spec, target: seq<string>, api: Api) {
    forall m :: m in api.creates && Canonical(sp.name, m) ==> IndexOf(sp.name, m) <= MaxIndex(target)
  }

  lemma ReplacementsMade(sp: Spec, pods: map<string, Pod>, target: seq<string>, api: Api)
    requires Fits(MaxIndex(target), |target|) && NoneRefused(sp, target, api)
    ensures CreateWorkers(sp.name, pods, FreshNames(sp.name, MaxIndex(target), |Dead(sp, pods, target)|),
                          None, api.creates).ok
  {
    var dead := Dead(sp, pods, target);
    RestartMembers(WorkerPolicy(sp), pods, target);
    FreshAbove(sp, MaxIndex(target), |dead|);
    CreationSucceeds(sp.name, pods, FreshNames(sp.name, MaxIndex(target), |dead|), None, api.creates);
  }

  /** What recovery makes of a target list: exactly the lost workers are off it, and those in their place
      have higher indexes than any before, and a pod. */
  ghost predicate Recovered(sp: Spec, w: World, w': World) {
    var target, target' := w.status.targetWorkers, w'.status.targetWorkers;
    && (forall n :: n in target ==> (n !in target' <==> Lost(sp, w.pods, n)))
    && forall n :: n in target' && n !in target ==>
         n in w'.pods && Canonical(sp.name, n) && IndexOf(sp.name, n) > MaxIndex(target)
  }

  lemma ReplaceDeadRecovers(sp: Spec, w: World, api: Api)
    requires AllCanonical(sp, w.status.targetWorkers)
    requires Fits(MaxIndex(w.status.targetWorkers), |w.status.targetWorkers|)
    requires NoneRefused(sp, w.status.targetWorkers, api)
    ensures ReplaceDead(sp, w, api).ok && Recovered(sp, w, ReplaceDead(sp, w, api).w)
  {
    var target := w.status.targetWorkers;
    var dead := Dead(sp, w.pods, target);
    var added := FreshNames(sp.name, MaxIndex(target), |dead|);
    ReplacementsMade(sp, w.pods, target, api);
    RestartMembers(WorkerPolicy(sp), w.pods, target);
    FreshNamesAreNew(sp.name, target, |dead|);
    FilterMembers(target, dead, true);
    CreatedNames(sp.name, w.pods, added, None, api.creates);
    forall n | n in target ensures NeedsReplacement(WorkerPolicy(sp), w.pods, n) <==> Lost(sp, w.pods, n) {
      LostMeans(sp, w.pods, n);
    }
  }

  /** The pods can be listed, the launcher takes the hostfile, and no creation is refused. */
  ghost predicate SyncClear(sp: Spec, w: World, api: Api) {
    api.podList.Some? && api.exec == ExecDone && NoneRefused(sp, w.status.targetWorkers, api)
  }

  lemma SyncRecovers(sp: Spec, w: World, api: Api)
    requires w.status.targetWorkers != [] && AllCanonical(sp, w.status.targetWorkers) && Room(sp, w)
    requires SyncClear(sp, w, api)
    ensures SyncWorkers(sp, w, api).ok && Recovered(sp, w, SyncWorkers(sp, w, api).w)
  {
    var running := Seen(sp, w.pods, api.podList.value);
    var r := RefreshHostfile(sp, w, running, api);
    RefreshFrame(sp, w, running, api);
    MaxIndexAtLeast(w.status.targetWorkers);
    ReplaceDeadRecovers(sp, RecordRunning(r.w, running), api);
  }

  // ---------- every run ----------

  /** The passes that look after the workers: those of a running job, and those that wait for the first
      workers to run. */
  predicate LooksAfter(w: World) {
    !w.suspended &&
    (w.status.phase == Running || (w.status.phase == Created && WorkersCreated in TruthsOf(w) && !Ready(w)))
  }

  lemma RunningRecovers(sp: Spec, w: World, api: Api)
    requires w.status.phase == Running && SyncClear(sp, w, api)
    requires w.status.targetWorkers != [] && AllCanonical(sp, w.status.targetWorkers) && Room(sp, w)
    ensures Recovered(sp, w, ReconcileRunning(sp, w, api).w)
  {
    var w1 := SyncLauncher(sp, w, api);
    SyncLauncherWorkers(sp, w, api);
    SyncRecovers(sp, w1, api);
    SelectKeepsCluster(SyncWorkers(sp, w1, api).w, api);
  }

  lemma WaitingSyncs(sp: Spec, w: World, api: Api)
    requires LooksAfter(w) && w.status.phase == Created
    ensures Reconcile(sp, w, api) == WaitWorkers(sp, w, api)
  {
  }

  lemma PassRecovers(sp: Spec, w: World, api: Api)
    requires LooksAfter(w) && SyncClear(sp, w, api)
    requires w.status.targetWorkers != [] && AllCanonical(sp, w.status.targetWorkers) && Room(sp, w)
    ensures Recovered(sp, w, Reconcile(sp, w, api).w)
  {
    if w.status.phase == Running {
      RunningRecovers(sp, w, api);
    } else {
      WaitingSyncs(sp, w, api);
      SyncRecovers(sp, w, api);
    }
  }

  /** In every run, a pass that looks after the workers and whose calls do not fail takes exactly the lost
      workers off a target list that is not empty; the names that take their places are new, above all
      others, and have pods. */
  lemma WorkersReplaced(sp: Spec, ws: seq<World>, es: seq<Event>, k: nat)
    requires Run(sp, ws, es) && Init(ws[0]) && k < |es| && RoomyFrom(sp, ws, 0, k)
    requires es[k].Reconciled? && LooksAfter(ws[k]) && SyncClear(sp, ws[k], es[k].api)
    requires ws[k].status.targetWorkers != []
    ensures Recovered(sp, ws[k], ws[k + 1])
  {
    StepOf(sp, ws, es, k);
    RunPhases(sp, ws, es, k);
    RunCanonical(sp, ws, es, 0, k);
    RoomIn(sp, ws, 0, k, k);
    PassRecovers(sp, ws[k], es[k].api);
  }

  // ---------- the order of the list ----------

  lemma {:induction false} FilterBySet(names: seq<string>, a: seq<string>, b: seq<string>)
    requires forall n :: n in names ==> (n in a <==> n in b)
    ensures Filter(names, a, true) == Filter(names, b, true)
  {
    if names != [] {
      assert names[0] in names;
      FilterBySet(names[1..], a, b);
    }
  }

  /** On a list without duplicates: the workers that are not lost stay in their order, and the next free
      names follow, one for each lost worker. */
  lemma RecoveryIsComplete(sp: Spec, w: World, api: Api, lost: seq<string>)
    requires Distinct(sp, w.status.targetWorkers) && Fits(MaxIndex(w.status.targetWorkers), |w.status.targetWorkers|)
    requires ReplaceDead(sp, w, api).ok
    requires NoDup(lost) && forall n :: n in lost <==> n in w.status.targetWorkers && Lost(sp, w.pods, n)
    ensures var target, target' := w.status.targetWorkers, ReplaceDead(sp, w, api).w.status.targetWorkers;
            && target' == Filter(target, lost, true) + FreshNames(sp.name, MaxIndex(target), |lost|)
            && |target'| == |target|
  {
    var target := w.status.targetWorkers;
    var dead := Dead(sp, w.pods, target);
    RestartMembers(WorkerPolicy(sp), w.pods, target);
    forall n | n in target ensures n in dead <==> n in lost { LostMeans(sp, w.pods, n); }
    FilterBySet(target, dead, lost);
    SameElementsSameSize(dead, lost);
    ReplacedDistinct(sp, w.pods, target);
    if dead == [] { AllKept(target); }
  }
}
