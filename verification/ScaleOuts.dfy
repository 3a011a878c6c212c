/** Scale-out is all or nothing. */
module ScaleOuts {
  import opened GoStrings
  import opened WorkerNames
  import opened Conditions
  import opened ScalerRefs
  import opened Cluster
  import opened Pass
  import opened System
  import opened Phases
  import opened Lifecycle
  import opened Workers
  import opened ScalerPasses
  import opened WorkerLists
  import opened Ledger
  import opened ScaleIns

  // ---------- the label of added pods ----------

  /** Every pod that carries the name of a scale-out is recorded on that scale-out. */
  ghost predicate Labelled(w: World) {
    forall n, r :: n in w.pods && r in w.scalers && r.kind == ScaleOut && w.pods[n].scaleOut == Some(r.name) ==>
      n in w.scalers[r].pods
  }

  /** No two scale-outs share a name. */
  ghost predicate UniqueNames(w: World) {
    forall a, b :: a in w.scalers && b in w.scalers && a.kind == ScaleOut && b.kind == ScaleOut && a.name == b.name ==>
      a == b
  }

  ghost predicate LabelInv(w: World) { Labelled(w) && UniqueNames(w) }

  /** Pods after a pass over the scale-out `ref`: those from before, and new ones that are recorded
      on it and carry its name. */
  ghost predicate AddedBy(w: World, w': World, ref: Ref) {
    ref in w'.scalers &&
    forall n :: n in w'.pods ==>
      (n in w.pods && w'.pods[n] == w.pods[n])
      || (n in w'.scalers[ref].pods && w'.pods[n].scaleOut == Some(ref.name))
  }

  function MadeFor(sp: Spec, w: World, ref: Ref, s: Scaler, api: Api): map<string, Pod> {
    Made(sp, w, s.pods, Some(ref.name), api)
  }

  lemma MadeAdded(sp: Spec, w: World, ref: Ref, s: Scaler, api: Api)
    requires AllCanonical(sp, s.pods)
    ensures forall n :: n in MadeFor(sp, w, ref, s, api) ==>
              (n in w.pods && MadeFor(sp, w, ref, s, api)[n] == w.pods[n])
              || (n in s.pods && MadeFor(sp, w, ref, s, api)[n].scaleOut == Some(ref.name))
    ensures w.pods.Keys <= MadeFor(sp, w, ref, s, api).Keys
  {
    CreatedPods(sp, w.pods, s.pods, Some(ref.name), api.creates);
    CreatedNames(sp.name, w.pods, s.pods, Some(ref.name), api.creates);
    MadeKeeps(sp.name, w.pods, s.pods, Some(ref.name), api.creates);
  }

  lemma {:induction false} MadeKeeps(job: string, pods: map<string, Pod>, names: seq<string>,
                                     tag: Option<string>, faults: map<string, CreateFault>)
    ensures var r := CreateWorkers(job, pods, names, tag, faults);
            forall n :: n in pods ==> n in r.pods && r.pods[n] == pods[n]
    decreases |names|
  {
    if names != [] {
      match WorkerIndex(job, names[0])
      case Parsed(index) =>
        var name := WorkerName(job, Int32(index));
        if name !in faults { MadeKeeps(job, AddPod(pods, name, tag), names[1..], tag, faults); }
      case _ =>
    }
  }

  // ---------- the outcomes of one pass ----------

  function AllocatedFor(sp: Spec, w: World, s: Scaler): Scaler {
    if ValidCount(s) then Allocate(sp, w, s, s.count.value) else s
  }

  /** What a pass over a scale-out leaves in the pod set, by outcome. */
  ghost predicate ScaleOutOutcome(sp: Spec, w: World, w': World, ref: Ref, s: Scaler, api: Api)
    requires ref in w'.scalers
  {
    var s1 := AllocatedFor(sp, w, s);
    var made := MadeFor(sp, w, ref, s1, api);
    var s' := w'.scalers[ref];
    if Has(s'.conditions, ScaleSucceeded) then
      && !s.deleting && ValidCount(s) && w'.pods == made && s'.pods == s1.pods
      && CreateWorkers(sp.name, w.pods, s1.pods, Some(ref.name), api.creates).ok
      && |ActivePods(made, ref.name)| >= s.count.value
    else if Has(s'.conditions, ScaleFailed) then
      if !ValidCount(s) then w'.pods == w.pods
      else s'.pods == s1.pods && RolledBack(made, w'.pods, s1.pods, api)
    else w'.pods == w.pods || (!s.deleting && ValidCount(s) && s'.pods == s1.pods && w'.pods == made)
  }

  /** The pods of a failed scale-out are deleted if the listings succeed. */
  predicate RolledBack(pods: map<string, Pod>, pods': map<string, Pod>, added: seq<string>, api: Api) {
    pods' == if api.serviceListed && api.deleteListed
             then DeletePods(pods, NilIfEmpty(added), api.undeleted) else pods
  }

  lemma RollBackOutcome(w: World, ref: Ref, s: Scaler, api: Api)
    requires InPhase(w) && w.status.phase == Scaling && Sane(s) && !Finished(s)
    ensures var w' := RollBack(w, ref, s, api);
            && ref in w'.scalers && w'.scalers[ref].pods == s.pods
            && Has(w'.scalers[ref].conditions, ScaleFailed) && !Has(w'.scalers[ref].conditions, ScaleSucceeded)
            && RolledBack(w.pods, w'.pods, s.pods, api)
  {
    FinishScalerPhases(w, ref, s, ScaleFailed, api);
  }

  lemma AnnounceOutcome(sp: Spec, w: World, ref: Ref, s: Scaler, api: Api)
    requires InPhase(w) && w.status.phase == Scaling && Sane(s) && !Finished(s)
    ensures var w' := AnnounceScaleOut(sp, w, ref, s, api).w;
            && ref in w'.scalers && w'.scalers[ref].pods == s.pods
            && (if Has(w'.scalers[ref].conditions, ScaleSucceeded) then w'.pods == w.pods
                else Has(w'.scalers[ref].conditions, ScaleFailed) && RolledBack(w.pods, w'.pods, s.pods, api))
  {
    var hosts := AfterScaler(w.status.currentWorkers, ScaleOut, s.pods);
    ScaleScriptFrame(sp, w, s, hosts, api);
    var r := ScaleScript(sp, w, s, hosts, api);
    if r.ok {
      FinishScalerPhases(
        r.w.(status := r.w.status.(targetWorkers := AfterScaler(r.w.status.targetWorkers, ScaleOut, r.s.pods))),
        ref, r.s, ScaleSucceeded, api);
    } else {
      RollBackOutcome(r.w, ref, r.s, api);
    }
  }

  lemma AwaitOutcome(sp: Spec, w: World, ref: Ref, s: Scaler, count: nat, api: Api)
    requires InPhase(w) && w.status.phase == Scaling && Sane(s) && !Finished(s)
    ensures var w' := AwaitAdded(sp, w, ref, s, count, api).w;
            && ref in w'.scalers && w'.scalers[ref].pods == s.pods
            && (if Has(w'.scalers[ref].conditions, ScaleSucceeded)
                then w'.pods == w.pods && |ActivePods(w.pods, ref.name)| >= count
                else if Has(w'.scalers[ref].conditions, ScaleFailed) then RolledBack(w.pods, w'.pods, s.pods, api)
                else w'.pods == w.pods)
  {
    if api.labelListed {
      if |ActivePods(w.pods, ref.name)| >= count { AnnounceOutcome(sp, w, ref, s, api); }
      else if TimedOut(s.conditions, s.timeout, w.now) { RollBackOutcome(w, ref, s, api); }
    }
  }

  lemma ScaleOutOutcomes(sp: Spec, w: World, ref: Ref, api: Api)
    requires InPhase(w) && w.status.phase == Scaling && ref in w.scalers && ref.kind == ScaleOut
    requires Sane(w.scalers[ref]) && !Finished(w.scalers[ref])
    ensures var w' := ScaleOutPass(sp, w, ref, w.scalers[ref], api).w;
            ref in w'.scalers && ScaleOutOutcome(sp, w, w', ref, w.scalers[ref], api)
  {
    var s := w.scalers[ref];
    if !s.deleting {
      if !ValidCount(s) {
        FinishScalerPhases(w, ref, s, ScaleFailed, api);
      } else {
        var s1 := Allocate(sp, w, s, s.count.value);
        var made := CreateWorkers(sp.name, w.pods, s1.pods, Some(ref.name), api.creates);
        var w1 := w.(pods := made.pods);
        if made.ok { AwaitOutcome(sp, w1, ref, s1, s.count.value, api); }
        else { RollBackOutcome(w1, ref, s1, api); }
      }
    }
  }

  // ---------- the invariant ----------

  lemma OutcomeAdds(sp: Spec, w: World, w': World, ref: Ref, s: Scaler, api: Api)
    requires ref in w'.scalers && ScaleOutOutcome(sp, w, w', ref, s, api)
    requires AllCanonical(sp, AllocatedFor(sp, w, s).pods)
    ensures AddedBy(w, w', ref)
  {
    MadeAdded(sp, w, ref, AllocatedFor(sp, w, s), api);
  }

  lemma AllocatedForCanonical(sp: Spec, w: World, s: Scaler)
    requires Allocated(sp, s) && Room(sp, w)
    requires exists r :: r in w.scalers && r.kind == ScaleOut && w.scalers[r] == s
    ensures Allocated(sp, AllocatedFor(sp, w, s)) && AllCanonical(sp, AllocatedFor(sp, w, s).pods)
    ensures ValidCount(s) ==> |AllocatedFor(sp, w, s).pods| == s.count.value
  {
    if ValidCount(s) { AllocateAllocates(sp, w, s); }
  }

  /** Phase Scaling: pods are kept or deleted, or the current scale-out adds its own. */
  lemma ScalingAdds(sp: Spec, w: World, api: Api)
    requires PhaseInv(w) && w.status.phase == Scaling && AllAllocated(sp, w) && Room(sp, w)
    ensures var w' := ExecuteScaling(sp, w, api).w;
            PodsFrom(sp, w.pods, w'.pods, None)
            || (CurrentRef(w).kind == ScaleOut && AddedBy(w, w', CurrentRef(w)))
  {
    var w1, ref := SyncLauncher(sp, w, api), CurrentRef(w);
    SyncLauncherPhases(sp, w, api);
    SyncLauncherWorkers(sp, w, api);
    if w1.status.phase == Scaling && api.scalerRead && ref in w.scalers && !Finished(w.scalers[ref]) {
      if ref.kind == ScaleIn {
        ScaleInPods(sp, w1, ref, w.scalers[ref], api);
      } else {
        ScaleOutAdds(sp, w1, ref, api);
      }
    }
  }

  lemma ScaleOutAdds(sp: Spec, w: World, ref: Ref, api: Api)
    requires InPhase(w) && w.status.phase == Scaling && ref in w.scalers && ref.kind == ScaleOut
    requires Sane(w.scalers[ref]) && !Finished(w.scalers[ref]) && AllAllocated(sp, w) && Room(sp, w)
    ensures AddedBy(w, ScaleOutPass(sp, w, ref, w.scalers[ref], api).w, ref)
  {
    ScaleOutOutcomes(sp, w, ref, api);
    AllocatedForCanonical(sp, w, w.scalers[ref]);
    OutcomeAdds(sp, w, ScaleOutPass(sp, w, ref, w.scalers[ref], api).w, ref, w.scalers[ref], api);
  }

  /** What a scale-out has recorded stays. */
  ghost predicate RecordsStay(w: World, w': World) {
    && w'.scalers.Keys == w.scalers.Keys
    && forall r :: r in w.scalers && r.kind == ScaleOut && w.scalers[r].pods != [] ==>
         w'.scalers[r].pods == w.scalers[r].pods
  }

  lemma ScalingRecords(sp: Spec, w: World, api: Api)
    requires PhaseInv(w) && w.status.phase == Scaling && AllAllocated(sp, w) && Room(sp, w)
    ensures RecordsStay(w, ExecuteScaling(sp, w, api).w)
  {
    var w', ref := ExecuteScaling(sp, w, api).w, CurrentRef(w);
    ExecuteScalingPhases(sp, w, api);
    ScalingObject(sp, w, api);
    if w'.scalers != w.scalers && ref.kind == ScaleOut { WorkedOnAllocated(sp, w, w', ref, api); }
  }

  lemma AddedLabels(w: World, w': World, ref: Ref)
    requires LabelInv(w) && RecordsStay(w, w') && AddedBy(w, w', ref) && ref.kind == ScaleOut
    ensures LabelInv(w')
  {
    forall n, r | n in w'.pods && r in w'.scalers && r.kind == ScaleOut && w'.pods[n].scaleOut == Some(r.name)
      ensures n in w'.scalers[r].pods
    {
      if n in w.pods && w'.pods[n] == w.pods[n] { assert n in w.scalers[r].pods; }
    }
  }

  lemma KeptLabels(sp: Spec, w: World, w': World)
    requires LabelInv(w) && RecordsStay(w, w') && PodsFrom(sp, w.pods, w'.pods, None)
    ensures LabelInv(w')
  {
    forall n, r | n in w'.pods && r in w'.scalers && r.kind == ScaleOut && w'.pods[n].scaleOut == Some(r.name)
      ensures n in w'.scalers[r].pods
    {
      assert n in w.scalers[r].pods;
    }
  }

  lemma ScalingLabels(sp: Spec, w: World, api: Api)
    requires PhaseInv(w) && w.status.phase == Scaling && AllAllocated(sp, w) && Room(sp, w) && LabelInv(w)
    ensures LabelInv(ExecuteScaling(sp, w, api).w)
  {
    var w' := ExecuteScaling(sp, w, api).w;
    ScalingAdds(sp, w, api);
    ScalingRecords(sp, w, api);
    if PodsFrom(sp, w.pods, w'.pods, None) { KeptLabels(sp, w, w'); }
    else { AddedLabels(w, w', CurrentRef(w)); }
  }

  /** Outside phase Scaling a pass creates no labelled pod and records nothing. */
  lemma IdleLabels(sp: Spec, w: World, api: Api)
    requires PhaseInv(w) && (w.suspended || w.status.phase != Scaling)
    ensures var w' := Reconcile(sp, w, api).w;
            PodsFrom(sp, w.pods, w'.pods, None) && RecordsStay(w, w')
  {
    PassPods(sp, w, api);
    PassMoves(sp, w, api);
  }

  lemma PassLabels(sp: Spec, w: World, api: Api)
    requires PhaseInv(w) && AllAllocated(sp, w) && Room(sp, w) && LabelInv(w)
    ensures LabelInv(Reconcile(sp, w, api).w)
  {
    if !w.suspended && w.status.phase == Scaling {
      ScalingLabels(sp, w, api);
    } else {
      IdleLabels(sp, w, api);
      KeptLabels(sp, w, Reconcile(sp, w, api).w);
    }
  }

  /** The name of a new ScaleOut marks no pod and names no other ScaleOut.  Pods outlive the ScaleOut
      that added them, so a name that is used again can mark the pods of its predecessor. */
  ghost predicate NewName(w: World, e: Event) {
    e.ScalerCreated? && e.ref.kind == ScaleOut ==>
      && (forall n :: n in w.pods ==> w.pods[n].scaleOut != Some(e.ref.name))
      && (forall r :: r in w.scalers && r.kind == ScaleOut ==> r.name != e.ref.name)
  }

  ghost predicate NewNameAt(ws: seq<World>, es: seq<Event>, n: nat)
    requires n < |es| < |ws|
  {
    NewName(ws[n], es[n])
  }

  ghost predicate NewNamesFrom(ws: seq<World>, es: seq<Event>, i: nat, k: nat)
    requires i <= k <= |es| < |ws|
  {
    forall n :: i <= n < k ==> NewNameAt(ws, es, n)
  }

  /** A part of a run that starts with every labelled pod recorded on its scale-out, and in which no
      name of a scale-out is used again while it marks pods and indexes stay below 2^31. */
  ghost predicate LabelledFrom(sp: Spec, ws: seq<World>, es: seq<Event>, i: nat, k: nat) {
    && Run(sp, ws, es) && i <= k <= |es| && Init(ws[0])
    && AllAllocated(sp, ws[i]) && LabelInv(ws[i])
    && NewNamesFrom(ws, es, i, k) && RoomyFrom(sp, ws, i, k)
  }

  lemma SubmissionIsLabelled(sp: Spec, w: World)
    requires Init(w)
    ensures AllAllocated(sp, w) && LabelInv(w)
  {
  }

  lemma NextLabels(sp: Spec, w: World, e: Event, w': World)
    requires PhaseInv(w) && AllAllocated(sp, w) && Room(sp, w) && LabelInv(w)
    requires NewName(w, e) && Next(sp, w, e, w')
    ensures LabelInv(w')
  {
    if e.Reconciled? { PassLabels(sp, w, e.api); }
  }

  lemma {:induction false} RunLabels(sp: Spec, ws: seq<World>, es: seq<Event>, i: nat, k: nat)
    requires LabelledFrom(sp, ws, es, i, k)
    ensures LabelInv(ws[k]) && AllAllocated(sp, ws[k])
  {
    RunAllocated(sp, ws, es, i, k);
    if i < k {
      assert NewNameAt(ws, es, k - 1);
      RoomIn(sp, ws, i, k, k - 1);
      RunLabels(sp, ws, es, i, k - 1);
      RunPhases(sp, ws, es, k - 1);
      LastStep(sp, ws, es, k);
      NextLabels(sp, ws[k - 1], es[k - 1], ws[k]);
    }
  }

  // ---------- all or nothing ----------

  /** As many labelled running pods as recorded names, all of them recorded: every name runs. */
  lemma AllActive(pods: map<string, Pod>, tag: string, names: seq<string>)
    requires NoDup(names) && |ActivePods(pods, tag)| >= |names|
    requires forall n :: n in ActivePods(pods, tag) ==> n in names
    ensures forall n :: n in names ==> n in pods && pods[n].phase == PodRunning
  {
    var active, all := ActivePods(pods, tag), set n | n in names;
    NoDupSetSize(names);
    SmallerSet(active, all);
    forall n | n in names ensures n in active { assert n in all; }
  }

  /** Every worker that a scale-out commits was counted as running in the very pass. */
  ghost predicate Complete(w: World, w': World, r: Ref)
    requires r in w'.scalers
  {
    var added := w'.scalers[r].pods;
    && w'.status.targetWorkers == w.status.targetWorkers + added
    && w'.status.currentWorkers == w.status.currentWorkers
    && w'.scalers[r].count == Some(|added|) && NoDup(added)
    && (forall n :: n in added ==> n in w'.pods && w'.pods[n].phase == PodRunning)
    && w.pods.Keys <= w'.pods.Keys
  }

  /** A failed scale-out changes no worker list and deletes none but its own pods. */
  ghost predicate Undone(w: World, w': World, r: Ref)
    requires r in w'.scalers
  {
    && SameWorkers(w, w')
    && forall n :: n in w.pods && n !in w'.pods ==> n in w'.scalers[r].pods
  }

  /** And it deletes all of these, but for deletions that fail. */
  ghost predicate Removed(w': World, r: Ref, api: Api)
    requires r in w'.scalers
  {
    api.serviceListed && api.deleteListed ==>
      forall n :: n in w'.scalers[r].pods && n in w'.pods ==> n in api.undeleted
  }

  lemma CommittedRuns(sp: Spec, w: World, w': World, ref: Ref, s: Scaler, api: Api)
    requires ref in w.scalers && w.scalers[ref] == s && ref.kind == ScaleOut && LabelInv(w)
    requires Allocated(sp, s) && Room(sp, w)
    requires ref in w'.scalers && ScaleOutOutcome(sp, w, w', ref, s, api)
    requires Has(w'.scalers[ref].conditions, ScaleSucceeded)
    ensures forall n :: n in w'.scalers[ref].pods ==> n in w'.pods && w'.pods[n].phase == PodRunning
    ensures Some(|w'.scalers[ref].pods|) == s.count && NoDup(w'.scalers[ref].pods)
    ensures w.pods.Keys <= w'.pods.Keys
  {
    var s1 := AllocatedFor(sp, w, s);
    AllocatedForCanonical(sp, w, s);
    MadeAdded(sp, w, ref, s1, api);
    forall n | n in ActivePods(w'.pods, ref.name) ensures n in s1.pods {
      if n in w.pods && w'.pods[n] == w.pods[n] { assert n in w.scalers[ref].pods; }
    }
    AllActive(w'.pods, ref.name, s1.pods);
  }

  lemma FailedUndone(sp: Spec, w: World, w': World, ref: Ref, s: Scaler, api: Api)
    requires ref in w.scalers && w.scalers[ref] == s && ref.kind == ScaleOut
    requires Allocated(sp, s) && Room(sp, w)
    requires ref in w'.scalers && ScaleOutOutcome(sp, w, w', ref, s, api)
    requires !Has(w'.scalers[ref].conditions, ScaleSucceeded) && Has(w'.scalers[ref].conditions, ScaleFailed)
    ensures forall n :: n in w.pods && n !in w'.pods ==> n in w'.scalers[ref].pods
    ensures ValidCount(s) ==> Removed(w', ref, api)
  {
    AllocatedForCanonical(sp, w, s);
    MadeAdded(sp, w, ref, AllocatedFor(sp, w, s), api);
  }

  /** One pass over a scale-out. */
  lemma PassAllOrNothing(sp: Spec, w: World, api: Api, r: Ref)
    requires PhaseInv(w) && AllAllocated(sp, w) && Room(sp, w) && LabelInv(w)
    requires r.kind == ScaleOut && FinishesNow(w, Reconcile(sp, w, api).w, r)
    requires w.status.phase == Scaling && !w.suspended && CurrentRef(w) == r
    ensures var w' := Reconcile(sp, w, api).w;
            if Has(w'.scalers[r].conditions, ScaleSucceeded) then Complete(w, w', r)
            else Undone(w, w', r) && (ValidCount(w.scalers[r]) ==> Removed(w', r, api))
  {
    var w1, w' := SyncLauncher(sp, w, api), Reconcile(sp, w, api).w;
    SyncLauncherPhases(sp, w, api);
    SyncLauncherWorkers(sp, w, api);
    ScalingFinishes(sp, w, api);
    ScaleOutOutcomes(sp, w1, r, api);
    assert w' == ScaleOutPass(sp, w1, r, w.scalers[r], api).w;
    if Has(w'.scalers[r].conditions, ScaleSucceeded) {
      CommittedRuns(sp, w1, w', r, w.scalers[r], api);
      ScaleOutObject(sp, w1, r, api);
    } else {
      FailedUndone(sp, w1, w', r, w.scalers[r], api);
    }
  }

  /** As long as names of scale-outs are not used again: the step that finishes a scale-out either
      commits all of the workers it added, each of them running, or leaves both worker lists as they
      were and takes its pods away. */
  lemma ScaleOutAllOrNothing(sp: Spec, ws: seq<World>, es: seq<Event>, i: nat, k: nat, r: Ref)
    requires LabelledFrom(sp, ws, es, i, k) && k < |es|
    requires r.kind == ScaleOut && FinishesNow(ws[k], ws[k + 1], r)
    ensures if Has(ws[k + 1].scalers[r].conditions, ScaleSucceeded) then Complete(ws[k], ws[k + 1], r)
            else Undone(ws[k], ws[k + 1], r)
                 && (ValidCount(ws[k].scalers[r]) ==> es[k].Reconciled? && Removed(ws[k + 1], r, es[k].api))
  {
    StepOf(sp, ws, es, k);
    RunPhases(sp, ws, es, k);
    RunLabels(sp, ws, es, i, k);
    OnlyCurrentFinishes(sp, ws[k], es[k], ws[k + 1], r);
    SuspendedFinishesNone(sp, ws[k], es[k], ws[k + 1], r);
    RoomIn(sp, ws, i, k, k);
    PassAllOrNothing(sp, ws[k], es[k].api, r);
  }

  /** So it is in every run from the submission of the job on in which no name is used again. */
  lemma AllOrNothingInRun(sp: Spec, ws: seq<World>, es: seq<Event>, k: nat, r: Ref)
    requires Run(sp, ws, es) && Init(ws[0]) && k < |es|
    requires NewNamesFrom(ws, es, 0, k) && RoomyFrom(sp, ws, 0, k)
    requires r.kind == ScaleOut && FinishesNow(ws[k], ws[k + 1], r)
    ensures if Has(ws[k + 1].scalers[r].conditions, ScaleSucceeded) then Complete(ws[k], ws[k + 1], r)
            else Undone(ws[k], ws[k + 1], r)
  {
    SubmissionIsLabelled(sp, ws[0]);
    ScaleOutAllOrNothing(sp, ws, es, 0, k, r);
  }

  /** In any attempt the pods of an unfinished scale-out are not target workers. */
  lemma AddedAreNew(sp: Spec, ws: seq<World>, es: seq<Event>, i: nat, k: nat, r: Ref, n: string)
    requires RegularFrom(sp, ws, es, i, k)
    requires r in ws[k].scalers && r.kind == ScaleOut && !Finished(ws[k].scalers[r]) && n in ws[k].scalers[r].pods
    ensures n !in ws[k].status.targetWorkers
  {
    RunLists(sp, ws, es, i, k);
    MaxIndexAtLeast(ws[k].status.targetWorkers);
    RoomIn(sp, ws, i, k, k);
    AboveIsDisjoint(sp, ws[k].status.targetWorkers, ws[k].scalers[r].pods);
  }

  // ---------- workers first, hostfile afterwards ----------

  /** Enough labelled pods run after the creations of a pass: then every recorded worker was there
      and running before it, since a pod made in the pass is pending. */
  lemma RanBefore(sp: Spec, w: World, ref: Ref, s: Scaler, api: Api)
    requires ref in w.scalers && w.scalers[ref] == s && ref.kind == ScaleOut && LabelInv(w)
    requires Allocated(sp, s) && Room(sp, w) && ValidCount(s)
    requires |ActivePods(MadeFor(sp, w, ref, AllocatedFor(sp, w, s), api), ref.name)| >= s.count.value
    ensures forall n :: n in AllocatedFor(sp, w, s).pods ==> n in w.pods && w.pods[n].phase == PodRunning
  {
    var s1 := AllocatedFor(sp, w, s);
    var made := MadeFor(sp, w, ref, s1, api);
    AllocatedForCanonical(sp, w, s);
    MadeAdded(sp, w, ref, s1, api);
    CreatedPods(sp, w.pods, s1.pods, Some(ref.name), api.creates);
    forall n | n in ActivePods(made, ref.name) ensures n in s1.pods {
      if n in w.pods && made[n] == w.pods[n] { assert n in w.scalers[ref].pods; }
    }
    AllActive(made, ref.name, s1.pods);
  }

  /** A pass over a scale-out touches the launcher's file only when enough labelled pods run. */
  lemma FileAfterCount(sp: Spec, w: World, ref: Ref, api: Api)
    requires ref in w.scalers
    ensures var s := w.scalers[ref];
            ScaleOutPass(sp, w, ref, s, api).w.launcher == w.launcher
            || (&& !s.deleting && ValidCount(s)
                && |ActivePods(MadeFor(sp, w, ref, AllocatedFor(sp, w, s), api), ref.name)| >= s.count.value)
  {
    var s := w.scalers[ref];
    if !s.deleting && ValidCount(s) {
      var s1 := Allocate(sp, w, s, s.count.value);
      AwaitLauncher(sp, w.(pods := MadeFor(sp, w, ref, s1, api)), ref, s1, s.count.value, api);
    }
  }

  lemma AwaitLauncher(sp: Spec, w: World, ref: Ref, s: Scaler, count: nat, api: Api)
    ensures AwaitAdded(sp, w, ref, s, count, api).w.launcher == w.launcher
            || |ActivePods(w.pods, ref.name)| >= count
  {
  }

  /** As long as names of scale-outs are not used again: while one is in progress the hostfile changes
      only in a pass before which every worker it adds, as many as it asks for, was running. */
  lemma HostfileAfterWorkers(sp: Spec, ws: seq<World>, es: seq<Event>, i: nat, k: nat, r: Ref)
    requires LabelledFrom(sp, ws, es, i, k) && k < |es|
    requires ws[k].status.phase == Scaling && CurrentScaleOut(ws[k], r) && !ws[k].suspended
    requires ws[k].launcher.Some? && ws[k + 1].launcher.Some?
    requires ws[k + 1].launcher.value.hostfile != ws[k].launcher.value.hostfile
    ensures r in ws[k + 1].scalers && Some(|ws[k + 1].scalers[r].pods|) == ws[k].scalers[r].count
    ensures forall n :: n in ws[k + 1].scalers[r].pods ==> n in ws[k].pods && ws[k].pods[n].phase == PodRunning
  {
    StepOf(sp, ws, es, k);
    RunPhases(sp, ws, es, k);
    RunLabels(sp, ws, es, i, k);
    RoomIn(sp, ws, i, k, k);
    PassFileAfterWorkers(sp, ws[k], es[k].api, r);
  }

  /** The job is working on the scale-out. */
  ghost predicate CurrentScaleOut(w: World, r: Ref) {
    && r.kind == ScaleOut && r in w.scalers && !Finished(w.scalers[r])
    && Printed(w.status.currentScaler) && CurrentRef(w) == r
  }

  lemma PassOverScaleOut(sp: Spec, w: World, api: Api, r: Ref)
    requires PhaseInv(w) && w.status.phase == Scaling && CurrentScaleOut(w, r) && w.launcher.Some?
    ensures var w' := ExecuteScaling(sp, w, api).w;
            w'.launcher == w.launcher || w' == ScaleOutPass(sp, w, r, w.scalers[r], api).w
  {
    SyncKeepsWorld(sp, w, api);
    SyncLauncherPhases(sp, w, api);
  }

  lemma PassFileAfterWorkers(sp: Spec, w: World, api: Api, r: Ref)
    requires PhaseInv(w) && AllAllocated(sp, w) && LabelInv(w) && Room(sp, w)
    requires w.status.phase == Scaling && CurrentScaleOut(w, r) && w.launcher.Some?
    requires ExecuteScaling(sp, w, api).w.launcher != w.launcher
    ensures var w' := ExecuteScaling(sp, w, api).w;
            && r in w'.scalers && Some(|w'.scalers[r].pods|) == w.scalers[r].count
            && forall n :: n in w'.scalers[r].pods ==> n in w.pods && w.pods[n].phase == PodRunning
  {
    PassOverScaleOut(sp, w, api, r);
    FileAfterCount(sp, w, r, api);
    RanBefore(sp, w, r, w.scalers[r], api);
    ScaleOutObject(sp, w, r, api);
    AllocatedForCanonical(sp, w, w.scalers[r]);
  }
}
