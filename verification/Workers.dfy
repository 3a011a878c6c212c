/** The pod set: which pods a pass can create or delete, and what the running workers are. */
module Workers {
  import opened GoStrings
  import opened WorkerNames
  import opened Conditions
  import opened ScalerRefs
  import opened Cluster
  import opened Pass
  import opened System
  import opened Phases
  import opened Lifecycle

  /** Every worker pod has the name of an int32 index. */
  ghost predicate CanonicalPods(sp: Spec, pods: map<string, Pod>) {
    forall n :: n in pods ==> Canonical(sp.name, n)
  }

  ghost predicate AllCanonical(sp: Spec, names: seq<string>) {
    forall n :: n in names ==> Canonical(sp.name, n)
  }

  /** Every pod afterwards is one from before, or a new pending one with the given tag. */
  ghost predicate PodsFrom(sp: Spec, pods: map<string, Pod>, pods': map<string, Pod>, tag: Option<string>) {
    forall n :: n in pods' ==>
      (n in pods && pods'[n] == pods[n])
      || (Canonical(sp.name, n) && pods'[n] == Pod(PodPending, [], tag))
  }

  lemma PodsFromTwice(sp: Spec, a: map<string, Pod>, b: map<string, Pod>, c: map<string, Pod>, tag: Option<string>)
    requires PodsFrom(sp, a, b, tag) && PodsFrom(sp, b, c, tag)
    ensures PodsFrom(sp, a, c, tag)
  {
  }

  lemma AddPodFrom(sp: Spec, pods: map<string, Pod>, index: int, tag: Option<string>)
    ensures PodsFrom(sp, pods, AddPod(pods, WorkerName(sp.name, Int32(index)), tag), tag)
  {
    Int32Fixpoint(Int32(index));
    CanonicalName(sp.name, Int32(index));
  }

  /** createWorkers keeps every existing pod and creates canonical names only. */
  lemma {:induction false} CreatedPods(sp: Spec, pods: map<string, Pod>, names: seq<string>,
                                       tag: Option<string>, faults: map<string, CreateFault>)
    ensures var r := CreateWorkers(sp.name, pods, names, tag, faults);
            PodsFrom(sp, pods, r.pods, tag) && pods.Keys <= r.pods.Keys
    decreases |names|
  {
    if names != [] {
      match WorkerIndex(sp.name, names[0])
      case Parsed(index) =>
        AddPodFrom(sp, pods, index, tag);
        var name := WorkerName(sp.name, Int32(index));
        if name !in faults { CreatedPods(sp, AddPod(pods, name, tag), names[1..], tag, faults); }
      case _ =>
    }
  }

  /** On canonical names createWorkers creates those names only, and all of them if it succeeds. */
  lemma {:induction false} CreatedNames(job: string, pods: map<string, Pod>, names: seq<string>,
                                        tag: Option<string>, faults: map<string, CreateFault>)
    requires forall n :: n in names ==> Canonical(job, n)
    ensures var r := CreateWorkers(job, pods, names, tag, faults);
            && (forall n :: n in r.pods ==> n in pods || n in names)
            && (r.ok ==> forall n :: n in names ==> n in r.pods)
    ensures pods.Keys <= CreateWorkers(job, pods, names, tag, faults).pods.Keys
    decreases |names|
  {
    if names != [] {
      var name := names[0];
      assert Canonical(job, name);
      assert names == [name] + names[1..];
      if name !in faults { CreatedNames(job, AddPod(pods, name, tag), names[1..], tag, faults); }
    }
  }

  lemma CreationStep(job: string, pods: map<string, Pod>, names: seq<string>, tag: Option<string>,
                     faults: map<string, CreateFault>)
    requires names != [] && Canonical(job, names[0])
    ensures var name := names[0];
            CreateWorkers(job, pods, names, tag, faults) ==
              if name !in faults then CreateWorkers(job, AddPod(pods, name, tag), names[1..], tag, faults)
              else Creation(if faults[name] == PodFault then pods else AddPod(pods, name, tag), false)
  {
  }

  lemma TakeTail(names: seq<string>, k: nat)
    requires 0 < k <= |names|
    ensures forall n :: n in names[..k] <==> n == names[0] || n in names[1..][..k - 1]
  {
    assert names[..k] == [names[0]] + names[1..][..k - 1];
  }

  /** Creating workers stops at the first refusal: the pods before it exist afterwards, and the refused
      one exactly if it was its service that was refused. */
  lemma {:induction false} CreationStops(job: string, pods: map<string, Pod>, names: seq<string>, k: nat,
                                         tag: Option<string>, faults: map<string, CreateFault>)
    requires forall n :: n in names ==> Canonical(job, n)
    requires k <= |names| && forall i :: 0 <= i < k ==> names[i] !in faults
    requires k < |names| ==> names[k] in faults
    ensures forall n :: n in CreateWorkers(job, pods, names, tag, faults).pods <==>
              n in pods || n in names[..k] || (k < |names| && n == names[k] && faults[n] == ServiceFault)
    decreases |names|
  {
    if names != [] {
      assert names[0] in names;
      CreationStep(job, pods, names, tag, faults);
      if k > 0 {
        forall n | n in names[1..] ensures Canonical(job, n) { assert n in names; }
        assert forall i :: 0 <= i < k - 1 ==> names[1..][i] == names[i + 1];
        TakeTail(names, k);
        CreationStops(job, AddPod(pods, names[0], tag), names[1..], k - 1, tag, faults);
      }
    }
  }

  /** It succeeds exactly when none of the names is refused. */
  lemma {:induction false} CreationSucceeds(job: string, pods: map<string, Pod>, names: seq<string>,
                                            tag: Option<string>, faults: map<string, CreateFault>)
    requires forall n :: n in names ==> Canonical(job, n)
    ensures CreateWorkers(job, pods, names, tag, faults).ok <==> forall n :: n in names ==> n !in faults
    decreases |names|
  {
    if names != [] {
      var name := names[0];
      assert name in names && WorkerName(job, Int32(IndexOf(job, name))) == name;
      assert names == [name] + names[1..];
      CreationSucceeds(job, AddPod(pods, name, tag), names[1..], tag, faults);
    }
  }

  /** The running names of a listing are the running pods, each once. */
  lemma {:induction false} RunningMembers(pods: map<string, Pod>, list: seq<string>)
    ensures forall n :: n in RunningNames(pods, list) <==>
              n in list && n in pods && pods[n].phase == PodRunning
    ensures NoDup(list) ==> NoDup(RunningNames(pods, list))
  {
    if list != [] {
      RunningMembers(pods, list[1..]);
      assert list == [list[0]] + list[1..];
    }
  }

  /** The recorded running workers: distinct, canonical, and exactly the running pods. */
  lemma RunningSorted(sp: Spec, pods: map<string, Pod>, list: seq<string>)
    requires CanonicalPods(sp, pods) && Enumerates(list, pods.Keys)
    ensures var running := SortNames(sp.name, RunningNames(pods, list));
            && NoDup(running) && AllCanonical(sp, running)
            && forall n :: n in running <==> n in pods && pods[n].phase == PodRunning
  {
    RunningMembers(pods, list);
    SortIsPermutation(sp.name, RunningNames(pods, list));
  }

  /** The workers to replace are target workers, in order, each once. */
  lemma {:induction false} RestartMembers(policy: Policy, pods: map<string, Pod>, target: seq<string>)
    ensures forall n :: n in RestartNames(policy, pods, target) <==>
              n in target && NeedsReplacement(policy, pods, n)
    ensures NoDup(target) ==> NoDup(RestartNames(policy, pods, target))
    ensures |RestartNames(policy, pods, target)| <= |target|
  {
    if target != [] {
      RestartMembers(policy, pods, target[1..]);
      assert target == [target[0]] + target[1..];
    }
  }

  // ---------- restart policies ----------

  /** The exit codes ask for a retry exactly when the first terminated container ended with a code
      strictly between 128 and 255. */
  lemma {:induction false} RetryableExitMeans(exitCodes: seq<Option<int>>)
    ensures RetryableExit(exitCodes) <==>
              exists k :: 0 <= k < |exitCodes| && exitCodes[k].Some? && 128 < exitCodes[k].value < 255
                          && forall j :: 0 <= j < k ==> exitCodes[j].None?
  {
    if exitCodes != [] && exitCodes[0].None? {
      RetryableExitMeans(exitCodes[1..]);
      if k :| 0 <= k < |exitCodes| && exitCodes[k].Some? && 128 < exitCodes[k].value < 255
              && forall j :: 0 <= j < k ==> exitCodes[j].None?
      {
        assert exitCodes[1..][k - 1] == exitCodes[k];
        assert forall j :: 0 <= j < k - 1 ==> exitCodes[1..][j] == exitCodes[j + 1];
      }
      if k :| 0 <= k < |exitCodes[1..]| && exitCodes[1..][k].Some? && 128 < exitCodes[1..][k].value < 255
              && forall j :: 0 <= j < k ==> exitCodes[1..][j].None?
      {
        forall j | 0 <= j < k + 1 ensures exitCodes[j].None? {
          if j > 0 { assert exitCodes[1..][j - 1] == exitCodes[j]; }
        }
        assert exitCodes[k + 1].Some?;
      }
    }
  }

  // ---------- pods across a pass ----------

  /** What createWorkers makes of the pods of `w` in this pass. */
  function Made(sp: Spec, w: World, names: seq<string>, tag: Option<string>, api: Api): map<string, Pod> {
    CreateWorkers(sp.name, w.pods, names, tag, api.creates).pods
  }

  lemma ReplaceDeadMakes(sp: Spec, w: World, api: Api) returns (names: seq<string>)
    ensures ReplaceDead(sp, w, api).w.pods == Made(sp, w, names, None, api)
  {
    var target := w.status.targetWorkers;
    var dead := RestartNames(WorkerPolicy(sp), w.pods, target);
    names := if dead == [] then [] else FreshNames(sp.name, MaxIndex(target), |dead|);
  }

  lemma SyncWorkersMakes(sp: Spec, w: World, api: Api) returns (names: seq<string>)
    ensures SyncWorkers(sp, w, api).w.pods == Made(sp, w, names, None, api)
  {
    names := [];
    if api.podList.Some? {
      var running := SortNames(sp.name, RunningNames(w.pods, api.podList.value));
      RefreshFrame(sp, w, running, api);
      var r := RefreshHostfile(sp, w, running, api);
      if r.ok { names := ReplaceDeadMakes(sp, RecordRunning(r.w, running), api); }
    }
  }

  lemma DoStepsMakes(sp: Spec, w: World, api: Api) returns (names: seq<string>)
    ensures DoSteps(sp, w, api).w.pods == Made(sp, w, names, None, api)
  {
    names := [];
    if !Has(w.status.conditions, WorkersCreated) {
      names := ReplicaWorkers(sp, w.status);
    } else if !Has(w.status.conditions, WorkersReady) {
      names := SyncWorkersMakes(sp, w, api);
    }
  }

  /** A pass over a scale-in deletes what it chose to delete now, or nothing. */
  lemma DeleteAndCommitDeletes(sp: Spec, w: World, ref: Ref, s: Scaler, hosts: seq<string>, listing: string, api: Api)
    ensures var w' := DeleteAndCommit(sp, w, ref, s, hosts, listing, api).w;
            && w'.launcher == w.launcher && w'.configMap == w.configMap
            && (w'.pods == w.pods || w'.pods == DeletePods(w.pods, ToDeleteNow(sp, s, listing), api.undeleted))
            && (DeleteWorkers(w, ToDeleteNow(sp, s, listing), api).ok ==>
                  w'.pods == DeletePods(w.pods, ToDeleteNow(sp, s, listing), api.undeleted))
  {
  }

  /** The process listing a scale-in pass goes by: none is read for a user script. */
  function ListingFor(w: World, s: Scaler, api: Api): Option<string> {
    if s.script != "" then Some("") else Listing(w, api)
  }

  lemma RemoveChosenDeletes(sp: Spec, w: World, ref: Ref, s: Scaler, api: Api)
    ensures var r := ScaleScript(sp, w, s, AfterScaler(w.status.currentWorkers, ScaleIn, s.pods), api);
            var w' := RemoveChosen(sp, w, ref, s, api).w;
            && w'.launcher == r.w.launcher && w'.configMap == w.configMap
            && (|| w'.pods == w.pods
                || (&& r.ok && ListingFor(r.w, s, api).Some?
                    && w'.pods == DeletePods(w.pods, ToDeleteNow(sp, s, ListingFor(r.w, s, api).value), api.undeleted)))
  {
    var hosts := AfterScaler(w.status.currentWorkers, ScaleIn, s.pods);
    var r := ScaleScript(sp, w, s, hosts, api);
    ScaleScriptPods(sp, w, s, hosts, api);
    if r.ok && ListingFor(r.w, s, api).Some? {
      DeleteAndCommitDeletes(sp, r.w, ref, r.s, hosts, ListingFor(r.w, s, api).value, api);
    }
  }

  lemma ScaleScriptPods(sp: Spec, w: World, s: Scaler, workers: seq<string>, api: Api)
    ensures var r := ScaleScript(sp, w, s, workers, api);
            && r.w == w.(launcher := r.w.launcher)
            && r.s == s.(conditions := r.s.conditions)
  {
  }

  lemma DeletedFrom(sp: Spec, pods: map<string, Pod>, names: Option<seq<string>>, undeleted: set<string>,
                    tag: Option<string>)
    ensures PodsFrom(sp, pods, DeletePods(pods, names, undeleted), tag)
  {
  }

  lemma ScaleInPods(sp: Spec, w: World, ref: Ref, s: Scaler, api: Api)
    ensures PodsFrom(sp, w.pods, ScaleInPass(sp, w, ref, s, api).w.pods, None)
  {
    if !s.deleting {
      match ChooseToDelete(sp, s, api)
      case Chosen(pods) =>
        var s1 := s.(pods := pods);
        RemoveChosenDeletes(sp, w, ref, s1, api);
        var r := ScaleScript(sp, w, s1, AfterScaler(w.status.currentWorkers, ScaleIn, pods), api);
        if ListingFor(r.w, s1, api).Some? {
          DeletedFrom(sp, w.pods, ToDeleteNow(sp, s1, ListingFor(r.w, s1, api).value), api.undeleted, None);
        }
      case _ =>
    }
  }

  /** A scale-out keeps the pods it made, or rolls back. */
  lemma AwaitDeletes(sp: Spec, w: World, ref: Ref, s: Scaler, count: nat, api: Api)
    ensures var w' := AwaitAdded(sp, w, ref, s, count, api).w;
            w'.pods == w.pods || w'.pods == DeletePods(w.pods, NilIfEmpty(s.pods), api.undeleted)
  {
    ScaleScriptPods(sp, w, s, AfterScaler(w.status.currentWorkers, ScaleOut, s.pods), api);
  }

  lemma ScaleOutPods(sp: Spec, w: World, ref: Ref, s: Scaler, api: Api)
    ensures PodsFrom(sp, w.pods, ScaleOutPass(sp, w, ref, s, api).w.pods, Some(ref.name))
  {
    if !s.deleting && s.count.Some? && s.count.value > 0 {
      var s1 := Allocate(sp, w, s, s.count.value);
      var made := Made(sp, w, s1.pods, Some(ref.name), api);
      CreatedPods(sp, w.pods, s1.pods, Some(ref.name), api.creates);
      AwaitDeletes(sp, w.(pods := made), ref, s1, s.count.value, api);
      DeletedFrom(sp, made, NilIfEmpty(s1.pods), api.undeleted, Some(ref.name));
    }
  }

  /** The tag of the pods a pass may create: a scale-out marks its own. */
  function PassTag(w: World): Option<string> {
    if w.suspended || w.status.phase != Scaling then None
    else match Resolve(w.status.currentScaler)
      case Some(ref) => if ref.kind == ScaleOut then Some(ref.name) else None
      case None => None
  }

  lemma ScalingPods(sp: Spec, w: World, api: Api)
    requires w.status.phase == Scaling && !w.suspended
    ensures PodsFrom(sp, w.pods, ExecuteScaling(sp, w, api).w.pods, PassTag(w))
  {
    var w1 := SyncLauncher(sp, w, api);
    SyncLauncherWorkers(sp, w, api);
    SyncLauncherKeepsScaler(sp, w, api);
    RunScalerPods(sp, w1, api);
  }

  lemma SyncLauncherKeepsScaler(sp: Spec, w: World, api: Api)
    ensures SyncLauncher(sp, w, api).status.currentScaler == w.status.currentScaler
  {
  }

  lemma RunScalerPods(sp: Spec, w: World, api: Api)
    ensures var tag := match Resolve(w.status.currentScaler)
              case Some(ref) => if ref.kind == ScaleOut then Some(ref.name) else None
              case None => None;
            PodsFrom(sp, w.pods, RunScaler(sp, w, api).w.pods, tag)
  {
    match Resolve(w.status.currentScaler)
    case Some(ref) =>
      if ref in w.scalers {
        if ref.kind == ScaleIn { ScaleInPods(sp, w, ref, w.scalers[ref], api); }
        else { ScaleOutPods(sp, w, ref, w.scalers[ref], api); }
      }
    case None =>
  }

  lemma RunningPods(sp: Spec, w: World, api: Api)
    ensures PodsFrom(sp, w.pods, ReconcileRunning(sp, w, api).w.pods, None)
  {
    var w1 := SyncLauncher(sp, w, api);
    SyncLauncherWorkers(sp, w, api);
    var names := SyncWorkersMakes(sp, w1, api);
    CreatedPods(sp, w1.pods, names, None, api.creates);
    SelectKeepsCluster(SyncWorkers(sp, w1, api).w, api);
  }

  lemma SelectKeepsCluster(w: World, api: Api)
    ensures var w' := SelectScaler(w, api);
            w' == w.(status := w'.status, scalers := w'.scalers) && SameWorkers(w, w')
  {
  }

  lemma StartingPods(sp: Spec, w: World, api: Api)
    ensures PodsFrom(sp, w.pods, DoSteps(sp, Initialize(w, api), api).w.pods, None)
  {
    var names := DoStepsMakes(sp, Initialize(w, api), api);
    CreatedPods(sp, w.pods, names, None, api.creates);
  }

  lemma RestartPods(sp: Spec, w: World, api: Api)
    ensures PodsFrom(sp, w.pods, Restart(sp, w, api).w.pods, None)
  {
    if NeedRestart(sp, w.status) {
      var w1 := DeleteLauncher(DeleteAllPods(Reset(w, api), api).w, api);
      ResetPods(sp, w, api);
      var names := DoStepsMakes(sp, w1, api);
      CreatedPods(sp, w1.pods, names, None, api.creates);
      PodsFromTwice(sp, w.pods, w1.pods, DoSteps(sp, w1, api).w.pods, None);
    } else {
      DeletedFrom(sp, w.pods, None, api.undeleted, None);
    }
  }

  lemma ResetPods(sp: Spec, w: World, api: Api)
    ensures PodsFrom(sp, w.pods, DeleteAllPods(Reset(w, api), api).w.pods, None)
  {
    DeletedFrom(sp, w.pods, None, api.undeleted, None);
  }

  lemma DispatchPods(sp: Spec, w: World, api: Api)
    requires !w.suspended || w.status.phase == Suspended
    ensures PodsFrom(sp, w.pods, Dispatch(sp, w, api).w.pods, PassTag(w))
  {
    match w.status.phase
    case Succeeded => DeletedFrom(sp, w.pods, None, api.undeleted, None);
    case Suspended => DeletedFrom(sp, w.pods, None, api.undeleted, None);
    case Failed => RestartPods(sp, w, api);
    case NoPhase => StartingPods(sp, w, api);
    case Created => StartingPods(sp, w, api);
    case Running => RunningPods(sp, w, api);
    case Scaling => ScalingPods(sp, w, api);
    case _ =>
  }

  /** A pass keeps or deletes pods, and creates canonical pending ones that carry the name of the
      running scale-out if there is one. */
  lemma PassPods(sp: Spec, w: World, api: Api)
    ensures PodsFrom(sp, w.pods, Reconcile(sp, w, api).w.pods, PassTag(w))
  {
    DispatchPods(sp, Suspend(w, api), api);
  }

  lemma NextPods(sp: Spec, w: World, e: Event, w': World)
    requires CanonicalPods(sp, w.pods) && Next(sp, w, e, w')
    ensures CanonicalPods(sp, w'.pods)
  {
    if e.Reconciled? { PassPods(sp, w, e.api); }
  }

  lemma {:induction false} RunPods(sp: Spec, ws: seq<World>, es: seq<Event>, k: nat)
    requires Run(sp, ws, es) && Init(ws[0]) && k <= |es|
    ensures CanonicalPods(sp, ws[k].pods)
  {
    if k > 0 {
      LastStep(sp, ws, es, k);
      RunPods(sp, ws, es, k - 1);
      NextPods(sp, ws[k - 1], es[k - 1], ws[k]);
    }
  }

  // ---------- ended jobs ----------

  predicate CleansPods(sp: Spec) { sp.cleanPods.None? || sp.cleanPods.value in {CleanAll, CleanRunning} }

  /** The job has ended for good: it succeeded, was suspended, or failed without a restart left. */
  predicate Ended(sp: Spec, w: World) {
    w.status.phase in {Succeeded, Suspended} || (w.status.phase == Failed && !NeedRestart(sp, w.status))
  }

  /** The pass deletes worker pods: always when suspended, otherwise by policy. */
  predicate Cleans(sp: Spec, w: World) { w.suspended || w.status.phase == Suspended || CleansPods(sp) }

  lemma PassEnded(sp: Spec, w: World, api: Api)
    requires PhaseInv(w) && Ended(sp, w)
    ensures var w' := Reconcile(sp, w, api).w;
            && Ended(sp, w') && w'.pods.Keys <= w.pods.Keys
            && (w'.launcher.Some? ==> w.launcher.Some?)
            && (Cleans(sp, w) && api.deleteListed ==> w'.pods.Keys <= api.undeleted)
  {
    PassPhases(sp, w, api);
    CleanupFrame(sp, Suspend(w, api), api);
  }

  lemma NextEnded(sp: Spec, w: World, e: Event, w': World)
    requires PhaseInv(w) && Ended(sp, w) && Next(sp, w, e, w')
    ensures Ended(sp, w') && w'.pods.Keys <= w.pods.Keys && (w'.launcher.Some? ==> w.launcher.Some?)
  {
    if e.Reconciled? { PassEnded(sp, w, e.api); }
  }

  /** A job that has ended stays ended, and never gets a pod or a launcher again. */
  lemma {:induction false} EndedForGood(sp: Spec, ws: seq<World>, es: seq<Event>, i: nat, k: nat)
    requires Run(sp, ws, es) && Init(ws[0]) && i <= k <= |es| && Ended(sp, ws[i])
    ensures Ended(sp, ws[k]) && ws[k].pods.Keys <= ws[i].pods.Keys
    ensures ws[k].launcher.Some? ==> ws[i].launcher.Some?
  {
    if i < k {
      EndedForGood(sp, ws, es, i, k - 1);
      RunPhases(sp, ws, es, k - 1);
      LastStep(sp, ws, es, k);
      NextEnded(sp, ws[k - 1], es[k - 1], ws[k]);
    }
  }

  /** One pass that can list and delete the pods leaves an ended job without any, for good: under
      suspension whatever the policy, otherwise under All, Running or an absent policy. */
  lemma EndedJobIsCleaned(sp: Spec, ws: seq<World>, es: seq<Event>, j: nat, k: nat)
    requires Run(sp, ws, es) && Init(ws[0]) && j < k <= |es| && Ended(sp, ws[j]) && Cleans(sp, ws[j])
    requires es[j].Reconciled? && es[j].api.deleteListed && es[j].api.undeleted == {}
    ensures ws[k].pods == map[]
  {
    RunPhases(sp, ws, es, j);
    StepOf(sp, ws, es, j);
    PassEnded(sp, ws[j], es[j].api);
    EndedForGood(sp, ws, es, j + 1, k);
    assert ws[k].pods.Keys == {};
  }

  /** Exactly what a pass over an ended job removes: the pods, if it is to clean and can list them, but
      for those whose deletion fails; and the launcher only of a suspended job, if every call succeeds. */
  lemma EndedPassRemoves(sp: Spec, w: World, api: Api)
    requires PhaseInv(w) && (Ended(sp, w) || w.suspended)
    ensures var w' := Reconcile(sp, w, api).w;
            && (forall n :: n in w'.pods <==>
                  n in w.pods && (Cleans(sp, w) && api.deleteListed ==> n in api.undeleted))
            && w'.launcher ==
                 if (w.suspended || w.status.phase == Suspended) && api.deleteListed && api.serviceListed
                    && api.launcherRead && api.launcherDeleted
                 then None else w.launcher
  {
    SuspendPhases(w, api);
    if w.suspended || w.status.phase == Suspended { CleanupAllRemoves(Suspend(w, api), api); }
    else { CleanupRemoves(sp, w, api); }
  }

  lemma CleanupRemoves(sp: Spec, w: World, api: Api)
    ensures var w' := Cleanup(sp, w, api).w;
            && (forall n :: n in w'.pods <==>
                  n in w.pods && (CleansPods(sp) && api.deleteListed ==> n in api.undeleted))
            && w'.launcher == w.launcher
  {
  }

  lemma CleanupAllRemoves(w: World, api: Api)
    ensures var w' := CleanupAll(w, api).w;
            && (forall n :: n in w'.pods <==> n in w.pods && (api.deleteListed ==> n in api.undeleted))
            && w'.launcher ==
                 if api.deleteListed && api.serviceListed && api.launcherRead && api.launcherDeleted
                 then None else w.launcher
  {
  }

  /** One pass whose calls succeed leaves a suspended job without its launcher, for good. */
  lemma SuspendedLosesLauncher(sp: Spec, ws: seq<World>, es: seq<Event>, j: nat, k: nat)
    requires Run(sp, ws, es) && Init(ws[0]) && j < k <= |es| && es[j].Reconciled?
    requires ws[j].suspended || ws[j].status.phase == Suspended
    requires var api := es[j].api;
             api.deleteListed && api.serviceListed && api.launcherRead && api.launcherDeleted
    ensures ws[k].launcher == None && ws[k].status.phase == Suspended
  {
    RunPhases(sp, ws, es, j);
    StepOf(sp, ws, es, j);
    PassPhases(sp, ws[j], es[j].api);
    EndedPassRemoves(sp, ws[j], es[j].api);
    EndedForGood(sp, ws, es, j + 1, k);
    SuspendedStays(sp, ws, es, j + 1, k);
  }

  lemma {:induction false} SuspendedStays(sp: Spec, ws: seq<World>, es: seq<Event>, i: nat, k: nat)
    requires Run(sp, ws, es) && Init(ws[0]) && i <= k <= |es| && ws[i].status.phase == Suspended
    ensures ws[k].status.phase == Suspended
  {
    if i < k {
      SuspendedStays(sp, ws, es, i, k - 1);
      RunPhases(sp, ws, es, k - 1);
      LastStep(sp, ws, es, k);
      if es[k - 1].Reconciled? { PassPhases(sp, ws[k - 1], es[k - 1].api); }
      else { OutsideKeepsStatus(sp, ws[k - 1], es[k - 1], ws[k]); }
    }
  }
}
