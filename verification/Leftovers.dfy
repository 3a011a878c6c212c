/** What goes wrong with scale-outs that meet pods which are not theirs: names that are used again, and
    scale-outs that a restart leaves in flight. */
module Leftovers {
  import opened GoStrings
  import opened WorkerNames
  import opened Conditions
  import opened ScalerRefs
  import opened Cluster
  import opened Pass
  import opened System
  import opened Phases
  import opened Lifecycle
  import opened Workers
  import opened Launching
  import opened ScalerPasses
  import opened WorkerLists
  import opened Ledger
  import opened ScaleOuts
  import opened Decisions

  // ---------- one pass, calls that do not fail ----------

  /** The creations succeed, the labelled pods can be listed, the launcher takes the hostfile, and does
      not end the job. */
  ghost predicate CallsWork(sp: Spec, w: World, s: Scaler, ref: Ref, api: Api) {
    && api.scalerRead && api.labelListed
    && CreateWorkers(sp.name, w.pods, AllocatedFor(sp, w, s).pods, Some(ref.name), api.creates).ok
    && (w.launcher.Some? || api.launcherRead ==> api.exec == ExecDone)
    && !LauncherIs(w, api, PodSucceeded) && !LauncherLost(sp, w, api)
  }

  /** The scale-out in progress is valid and not being deleted. */
  ghost predicate Growing(w: World, r: Ref) {
    && w.status.phase == Scaling && CurrentScaleOut(w, r)
    && !w.scalers[r].deleting && ValidCount(w.scalers[r])
  }

  /** When no call fails, the pass waits for the added workers on the pods it has made. */
  lemma PassIsAwait(sp: Spec, w: World, api: Api, r: Ref)
    requires PhaseInv(w) && !w.suspended && Growing(w, r) && CallsWork(sp, w, w.scalers[r], r, api)
    ensures var s1, w1 := AllocatedFor(sp, w, w.scalers[r]), SyncLauncher(sp, w, api);
            Reconcile(sp, w, api).w
               == AwaitAdded(sp, w1.(pods := MadeFor(sp, w, r, s1, api)), r, s1, s1.count.value, api).w
  {
    var w1 := SyncLauncher(sp, w, api);
    GrowingSync(sp, w, api, r);
    SameMade(sp, w, w1, r, api);
    AwaitOnMade(sp, w1, api, r);
  }

  /** What is allocated and made depends on target list, pods and scalers only. */
  lemma SameMade(sp: Spec, w: World, w1: World, r: Ref, api: Api)
    requires SameWorkers(w, w1) && w1.pods == w.pods && w1.scalers == w.scalers && r in w.scalers
    ensures var s1 := AllocatedFor(sp, w, w.scalers[r]);
            AllocatedFor(sp, w1, w1.scalers[r]) == s1 && MadeFor(sp, w1, r, s1, api) == MadeFor(sp, w, r, s1, api)
  {
  }

  lemma GrowingSync(sp: Spec, w: World, api: Api, r: Ref)
    requires PhaseInv(w) && Growing(w, r) && !LauncherIs(w, api, PodSucceeded) && !LauncherLost(sp, w, api)
    ensures var w1 := SyncLauncher(sp, w, api);
            && InPhase(w1) && w1.status.phase == Scaling && SameWorkers(w, w1) && Growing(w1, r)
            && w1 == w.(status := w1.status, launcher := w1.launcher)
  {
    SyncDecides(sp, w, api);
    SyncLauncherPhases(sp, w, api);
    SyncLauncherWorkers(sp, w, api);
  }

  lemma AwaitOnMade(sp: Spec, w: World, api: Api, r: Ref)
    requires InPhase(w) && Growing(w, r) && api.scalerRead && w.status.currentScaler != ""
    requires CreateWorkers(sp.name, w.pods, AllocatedFor(sp, w, w.scalers[r]).pods, Some(r.name), api.creates).ok
    ensures var s1 := AllocatedFor(sp, w, w.scalers[r]);
            RunScaler(sp, w, api) == AwaitAdded(sp, w.(pods := MadeFor(sp, w, r, s1, api)), r, s1, s1.count.value, api)
  {
  }

  /** Then it finishes the scale-out exactly when enough labelled pods run or its time is up, and
      successfully exactly when enough run and the launcher took the file. */
  lemma PassDecides(sp: Spec, w: World, api: Api, r: Ref)
    requires PhaseInv(w) && !w.suspended && Growing(w, r) && CallsWork(sp, w, w.scalers[r], r, api)
    ensures var s, w' := w.scalers[r], Reconcile(sp, w, api).w;
            var enough := |ActivePods(MadeFor(sp, w, r, AllocatedFor(sp, w, s), api), r.name)| >= s.count.value;
            && r in w'.scalers
            && (Finished(w'.scalers[r]) <==> enough || TimedOut(s.conditions, s.timeout, w.now))
            && (Has(w'.scalers[r].conditions, ScaleSucceeded) <==> enough)
  {
    var s1, w1 := AllocatedFor(sp, w, w.scalers[r]), SyncLauncher(sp, w, api);
    GrowingSync(sp, w, api, r);
    PassIsAwait(sp, w, api, r);
    ScaleOutDecides(sp, w1.(pods := MadeFor(sp, w, r, s1, api)), r, s1, s1.count.value, api);
  }

  // ---------- names that are used again ----------

  /** The pods that a pass makes are pending, so they do not change which labelled pods run. */
  lemma MadeActive(sp: Spec, w: World, ref: Ref, s: Scaler, api: Api)
    requires AllCanonical(sp, s.pods)
    ensures ActivePods(MadeFor(sp, w, ref, s, api), ref.name) == ActivePods(w.pods, ref.name)
  {
    CreatedPods(sp, w.pods, s.pods, Some(ref.name), api.creates);
    MadeKeeps(sp.name, w.pods, s.pods, Some(ref.name), api.creates);
  }

  /** The very pass that allocates the workers of a scale-out, when no call fails, succeeds exactly when
      at least as many running pods carry its name before it.  These cannot be its own: they are those
      of a scale-out of the same name that is gone. */
  lemma FirstPassSucceeds(sp: Spec, w: World, api: Api, r: Ref)
    requires PhaseInv(w) && AllAllocated(sp, w) && Room(sp, w) && !w.suspended
    requires Growing(w, r) && w.scalers[r].pods == [] && CallsWork(sp, w, w.scalers[r], r, api)
    ensures var w' := Reconcile(sp, w, api).w;
            && r in w'.scalers
            && (Has(w'.scalers[r].conditions, ScaleSucceeded) <==>
                  |ActivePods(w.pods, r.name)| >= w.scalers[r].count.value)
  {
    PassDecides(sp, w, api, r);
    AllocatedForCanonical(sp, w, w.scalers[r]);
    MadeActive(sp, w, r, AllocatedFor(sp, w, w.scalers[r]), api);
  }

  /** And then it commits workers that are not running: each allocated name without a pod before is a
      target worker afterwards, with a pending pod. */
  lemma PendingCommitted(sp: Spec, w: World, api: Api, r: Ref, n: string)
    requires PhaseInv(w) && AllAllocated(sp, w) && Room(sp, w) && !w.suspended
    requires Growing(w, r) && w.scalers[r].pods == [] && CallsWork(sp, w, w.scalers[r], r, api)
    requires |ActivePods(w.pods, r.name)| >= w.scalers[r].count.value
    requires n in AllocatedFor(sp, w, w.scalers[r]).pods && n !in w.pods
    ensures var w' := Reconcile(sp, w, api).w;
            && SucceedsNow(w, w', r)
            && n in w'.status.targetWorkers && n in w'.pods && w'.pods[n].phase == PodPending
  {
    FirstPassSucceeds(sp, w, api, r);
    AllocatedForCanonical(sp, w, w.scalers[r]);
    MadePending(sp, w, AllocatedFor(sp, w, w.scalers[r]).pods, Some(r.name), api, n);
    CommitsMade(sp, w, api, r);
  }

  lemma MadePending(sp: Spec, w: World, names: seq<string>, tag: Option<string>, api: Api, n: string)
    requires AllCanonical(sp, names) && n in names && n !in w.pods
    requires CreateWorkers(sp.name, w.pods, names, tag, api.creates).ok
    ensures var made := Made(sp, w, names, tag, api); n in made && made[n].phase == PodPending
  {
    CreatedPods(sp, w.pods, names, tag, api.creates);
    CreatedNames(sp.name, w.pods, names, tag, api.creates);
  }

  /** A success commits what was allocated, on the pods that were made. */
  lemma CommitsMade(sp: Spec, w: World, api: Api, r: Ref)
    requires PhaseInv(w) && !w.suspended && Growing(w, r) && CallsWork(sp, w, w.scalers[r], r, api)
    requires var w' := Reconcile(sp, w, api).w;
             r in w'.scalers && Has(w'.scalers[r].conditions, ScaleSucceeded)
    ensures var w', s1 := Reconcile(sp, w, api).w, AllocatedFor(sp, w, w.scalers[r]);
            && SucceedsNow(w, w', r) && w'.pods == MadeFor(sp, w, r, s1, api)
            && forall n :: n in s1.pods ==> n in w'.status.targetWorkers
  {
    var s1, w1 := AllocatedFor(sp, w, w.scalers[r]), SyncLauncher(sp, w, api);
    GrowingSync(sp, w, api, r);
    PassIsAwait(sp, w, api, r);
    AwaitOutcome(sp, w1.(pods := MadeFor(sp, w, r, s1, api)), r, s1, s1.count.value, api);
    ScalingFinishes(sp, w, api);
    ScaleOutAppends(sp, w, Reconcile(sp, w, api).w, r, s1.pods);
  }

  lemma ScaleOutAppends(sp: Spec, w: World, w': World, r: Ref, pods: seq<string>)
    requires r in w'.scalers && DoneScaling(w, w', r) && r.kind == ScaleOut
    requires Has(w'.scalers[r].conditions, ScaleSucceeded) && w'.scalers[r].pods == pods
    ensures forall n :: n in pods ==> n in w'.status.targetWorkers
  {
  }

  // ---------- scale-outs that a restart leaves in flight ----------

  /** With every labelled pod recorded, enough labelled pods run exactly when every recorded worker ran
      before the pass and carries the label. */
  lemma EnoughMeansAll(sp: Spec, w: World, ref: Ref, s: Scaler, api: Api)
    requires ref in w.scalers && w.scalers[ref] == s && ref.kind == ScaleOut && LabelInv(w)
    requires Allocated(sp, s) && Room(sp, w) && ValidCount(s)
    ensures |ActivePods(MadeFor(sp, w, ref, AllocatedFor(sp, w, s), api), ref.name)| >= s.count.value
       <==> forall n :: n in AllocatedFor(sp, w, s).pods ==> n in ActivePods(w.pods, ref.name)
  {
    var names := AllocatedFor(sp, w, s).pods;
    AllocatedForCanonical(sp, w, s);
    MadeActive(sp, w, ref, AllocatedFor(sp, w, s), api);
    NoDupSetSize(names);
    var all := set n | n in names;
    if |ActivePods(w.pods, ref.name)| >= s.count.value {
      forall n | n in ActivePods(w.pods, ref.name) ensures n in all { assert n in w.scalers[ref].pods; }
      SmallerSet(ActivePods(w.pods, ref.name), all);
      assert forall n :: n in names ==> n in all;
    }
    if forall n :: n in names ==> n in ActivePods(w.pods, ref.name) {
      SmallerSet(all, ActivePods(w.pods, ref.name));
    }
  }

  /** As long as names are not used again, a scale-out whose calls do not fail succeeds exactly in the
      first pass before which every recorded worker runs and carries its label; and it fails exactly
      when its time is up before that. */
  lemma ScaleOutSucceedsExactly(sp: Spec, ws: seq<World>, es: seq<Event>, i: nat, k: nat, r: Ref)
    requires LabelledFrom(sp, ws, es, i, k) && k < |es| && es[k].Reconciled? && !ws[k].suspended
    requires Growing(ws[k], r) && CallsWork(sp, ws[k], ws[k].scalers[r], r, es[k].api)
    ensures var s, w' := ws[k].scalers[r], ws[k + 1];
            var ready := forall n :: n in AllocatedFor(sp, ws[k], s).pods ==> n in ActivePods(ws[k].pods, r.name);
            && r in w'.scalers
            && (Has(w'.scalers[r].conditions, ScaleSucceeded) <==> ready)
            && (Finished(w'.scalers[r]) <==> ready || TimedOut(s.conditions, s.timeout, ws[k].now))
  {
    StepOf(sp, ws, es, k);
    RunPhases(sp, ws, es, k);
    RunLabels(sp, ws, es, i, k);
    RoomIn(sp, ws, i, k, k);
    PassDecides(sp, ws[k], es[k].api, r);
    EnoughMeansAll(sp, ws[k], r, ws[k].scalers[r], es[k].api);
  }

  /** A recorded worker whose pod exists without the label is in the way: the pass that finishes the
      scale-out fails it, whatever its calls answer, leaves both worker lists alone, and deletes that
      pod, be it a target worker's or not. */
  lemma CollisionFails(sp: Spec, ws: seq<World>, es: seq<Event>, i: nat, k: nat, r: Ref, n: string)
    requires LabelledFrom(sp, ws, es, i, k) && k < |es| && r.kind == ScaleOut
    requires FinishesNow(ws[k], ws[k + 1], r)
    requires n in ws[k].scalers[r].pods && n in ws[k].pods && ws[k].pods[n].scaleOut != Some(r.name)
    ensures Has(ws[k + 1].scalers[r].conditions, ScaleFailed) && SameWorkers(ws[k], ws[k + 1])
    ensures n in ws[k].status.targetWorkers ==> n in ws[k + 1].status.targetWorkers
    ensures es[k].Reconciled?
    ensures es[k].api.serviceListed && es[k].api.deleteListed && n in ws[k + 1].pods ==> n in es[k].api.undeleted
  {
    ScaleOutAllOrNothing(sp, ws, es, i, k, r);
    FinishedInTurn(sp, ws, es, k, r);
    RunPhases(sp, ws, es, k);
    RunLabels(sp, ws, es, i, k);
    StepOf(sp, ws, es, k);
    RoomIn(sp, ws, i, k, k);
    ResolveFullName(r);
    assert Allocated(sp, ws[k].scalers[r]);
    RecordedStays(sp, ws[k], es[k].api, r);
    if Has(ws[k + 1].scalers[r].conditions, ScaleSucceeded) {
      UnlabelledBlocks(sp, ws[k], es[k].api, r, n);
    }
  }

  lemma RecordedStays(sp: Spec, w: World, api: Api, r: Ref)
    requires PhaseInv(w) && w.status.phase == Scaling && CurrentScaleOut(w, r) && !w.suspended
    requires AllAllocated(sp, w) && Room(sp, w) && w.scalers[r].pods != []
    ensures var w' := Reconcile(sp, w, api).w; r in w'.scalers && w'.scalers[r].pods == w.scalers[r].pods
  {
    ScalingRecords(sp, w, api);
  }

  lemma UnlabelledBlocks(sp: Spec, w: World, api: Api, r: Ref, n: string)
    requires PhaseInv(w) && AllAllocated(sp, w) && Room(sp, w) && LabelInv(w) && !w.suspended
    requires w.status.phase == Scaling && CurrentScaleOut(w, r) && FinishesNow(w, Reconcile(sp, w, api).w, r)
    requires n in w.scalers[r].pods && n in w.pods && w.pods[n].scaleOut != Some(r.name)
    ensures !Has(Reconcile(sp, w, api).w.scalers[r].conditions, ScaleSucceeded)
  {
    var w1, w', s := SyncLauncher(sp, w, api), Reconcile(sp, w, api).w, w.scalers[r];
    SyncLauncherPhases(sp, w, api);
    SyncLauncherWorkers(sp, w, api);
    ScalingFinishes(sp, w, api);
    ScaleOutOutcomes(sp, w1, r, api);
    assert w' == ScaleOutPass(sp, w1, r, s, api).w;
    if ValidCount(s) { EnoughMeansAll(sp, w1, r, s, api); }
  }

  /** A pass with calls that do not fail, over a scale-out with a recorded worker whose pod is not its
      own, deletes that pod exactly when the scale-out has timed out. */
  lemma PassDeletesTarget(sp: Spec, w: World, api: Api, r: Ref, n: string)
    requires PhaseInv(w) && AllAllocated(sp, w) && Room(sp, w) && LabelInv(w) && !w.suspended
    requires Growing(w, r) && CallsWork(sp, w, w.scalers[r], r, api)
    requires api.serviceListed && api.deleteListed && n !in api.undeleted
    requires n in w.scalers[r].pods && n in w.pods && w.pods[n].scaleOut != Some(r.name)
    ensures var s, w' := w.scalers[r], Reconcile(sp, w, api).w;
            && (n !in w'.pods <==> TimedOut(s.conditions, s.timeout, w.now))
            && SameWorkers(w, w')
  {
    var s, s1, w1 := w.scalers[r], AllocatedFor(sp, w, w.scalers[r]), SyncLauncher(sp, w, api);
    var w2 := w1.(pods := MadeFor(sp, w, r, s1, api));
    PassDecides(sp, w, api, r);
    GrowingSync(sp, w, api, r);
    PassIsAwait(sp, w, api, r);
    EnoughMeansAll(sp, w, r, s, api);
    assert s1 == s && n !in ActivePods(w.pods, r.name);
    AwaitOutcome(sp, w2, r, s1, s1.count.value, api);
    AwaitPhases(sp, w2, r, s1, s1.count.value, api);
    MadeKeeps(sp.name, w.pods, s1.pods, Some(r.name), api.creates);
  }

  /** So a scale-out that collides with a target worker takes that worker away when its time is up, and
      only then.  The worker stays a target. */
  lemma CollisionDeletesTarget(sp: Spec, ws: seq<World>, es: seq<Event>, i: nat, k: nat, r: Ref, n: string)
    requires LabelledFrom(sp, ws, es, i, k) && k < |es| && es[k].Reconciled? && !ws[k].suspended
    requires Growing(ws[k], r) && CallsWork(sp, ws[k], ws[k].scalers[r], r, es[k].api)
    requires es[k].api.serviceListed && es[k].api.deleteListed && n !in es[k].api.undeleted
    requires n in ws[k].scalers[r].pods && n in ws[k].pods && ws[k].pods[n].scaleOut != Some(r.name)
    requires n in ws[k].status.targetWorkers
    ensures n !in ws[k + 1].pods <==> TimedOut(ws[k].scalers[r].conditions, ws[k].scalers[r].timeout, ws[k].now)
    ensures n in ws[k + 1].status.targetWorkers
  {
    StepOf(sp, ws, es, k);
    RunPhases(sp, ws, es, k);
    RunLabels(sp, ws, es, i, k);
    RoomIn(sp, ws, i, k, k);
    PassDeletesTarget(sp, ws[k], es[k].api, r, n);
  }

  /** And a restart prepares this: once the first workers have been made again, the target workers are
      the names with an index below the replica count, and the pod of each carries the label it had if
      its deletion failed, and none otherwise.  So a recorded name is that of a target worker with an
      unlabelled pod exactly when its index is below the replica count and no labelled pod of that name
      was left undeleted. */
  lemma RestartMeetsLeftover(sp: Spec, w: World, api: Api, n: string)
    requires PhaseInv(w) && Resets(sp, w) && sp.replicas <= MAX_INT32 && Canonical(sp.name, n)
    requires api.deleteListed && api.serviceListed && api.creates == map[]
    ensures var w' := Reconcile(sp, w, api).w;
            var kept := n in w.pods && n in api.undeleted;
            && w'.scalers == w.scalers
            && (n in w'.status.targetWorkers <==> 0 <= IndexOf(sp.name, n) < sp.replicas)
            && (n in w'.status.targetWorkers ==>
                  n in w'.pods && w'.pods[n].scaleOut == if kept then w.pods[n].scaleOut else None)
  {
    var w1, first := DeleteLauncher(DeleteAllPods(Reset(w, api), api).w, api), FirstWorkers(sp);
    ResetPhases(w, api);
    PassMoves(sp, w, api);
    FirstDistinct(sp);
    FirstMember(sp, n);
    assert ReplicaWorkers(sp, w1.status) == first;
    AllMade(sp.name, w1.pods, first, None);
    CreatedPods(sp, w1.pods, first, None, map[]);
    CreatedNames(sp.name, w1.pods, first, None, map[]);
    MadeKeeps(sp.name, w1.pods, first, None, map[]);
  }

  /** Without faults all creations succeed. */
  lemma {:induction false} AllMade(job: string, pods: map<string, Pod>, names: seq<string>, tag: Option<string>)
    requires forall n :: n in names ==> Canonical(job, n)
    ensures CreateWorkers(job, pods, names, tag, map[]).ok
    decreases |names|
  {
    if names != [] {
      var name := names[0];
      assert name in names && WorkerName(job, Int32(IndexOf(job, name))) == name;
      forall n | n in names[1..] ensures Canonical(job, n) { assert n in names; }
      AllMade(job, AddPod(pods, name, tag), names[1..], tag);
    }
  }
}
