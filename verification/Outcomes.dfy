/** What a pass over the scaler in progress comes to, whatever its calls answer. */
module Outcomes {
  import opened GoStrings
  import opened WorkerNames
  import opened Conditions
  import opened ScalerRefs
  import opened ScaleInSelection
  import opened Hostfile
  import opened Cluster
  import opened Pass
  import opened System
  import opened Phases
  import opened Lifecycle
  import opened Workers
  import opened Launching
  import opened ScalerPasses
  import opened WorkerLists
  import opened ScaleIns
  import opened ScaleOuts
  import opened Decisions
  import opened ScalerHistory
  import opened Leftovers

  /** The scaler can be read, and the launcher does not end the job. */
  predicate Reached(sp: Spec, w: World, api: Api) {
    api.scalerRead && !LauncherIs(w, api, PodSucceeded) && !LauncherLost(sp, w, api)
  }

  /** Looking at a launcher that does not end the job leaves it Scaling. */
  lemma ScalingGoesOn(sp: Spec, w: World, api: Api)
    requires PhaseInv(w) && w.status.phase == Scaling && Reached(sp, w, api)
    ensures var w1 := SyncLauncher(sp, w, api);
            && InPhase(w1) && w1.status.phase == Scaling && SameWorkers(w, w1)
            && w1 == w.(status := w1.status, launcher := w1.launcher)
            && w1.status.currentScaler == w.status.currentScaler
            && (w.launcher.Some? ==> w1.launcher == w.launcher)
  {
    SyncDecides(sp, w, api);
    SyncLauncherPhases(sp, w, api);
    SyncLauncherWorkers(sp, w, api);
  }

  lemma PassOverScaler(sp: Spec, w: World, api: Api, ref: Ref)
    requires PhaseInv(w) && !w.suspended && InProgress(w, ref) && Reached(sp, w, api)
    ensures var w1 := SyncLauncher(sp, w, api);
            Reconcile(sp, w, api) == if ref.kind == ScaleIn then ScaleInPass(sp, w1, ref, w.scalers[ref], api)
                                     else ScaleOutPass(sp, w1, ref, w.scalers[ref], api)
  {
    ScalingGoesOn(sp, w, api);
  }

  // ---------- which chosen workers a scale-in deletes ----------

  /** A worker that is held by a launcher process, or may be, is not deleted. */
  lemma HeldBack(sp: Spec, w: World, ref: Ref, s: Scaler, api: Api, n: string)
    requires s.script == "" && s.pods != [] && w.launcher.Some? && n in w.pods
    requires api.processes.Some? ==> Attached(sp, api.processes.value, n)
    ensures n in RemoveChosen(sp, w, ref, s, api).w.pods
  {
    var r := ScaleScript(sp, w, s, Remaining(w, s.pods), api);
    RemoveChosenDeletes(sp, w, ref, s, api);
    if r.ok && ListingFor(r.w, s, api).Some? { AskedToDelete(sp, s, ListingFor(r.w, s, api).value); }
  }

  lemma ScriptNeedsLauncher(sp: Spec, w: World, s: Scaler, workers: seq<string>, api: Api)
    ensures ScaleScript(sp, w, s, workers, api).w.launcher.Some? <==> w.launcher.Some?
  {
  }

  lemma RemoveChosenLauncher(sp: Spec, w: World, ref: Ref, s: Scaler, api: Api)
    ensures RemoveChosen(sp, w, ref, s, api).w.launcher.Some? <==> w.launcher.Some?
  {
    ScriptNeedsLauncher(sp, w, s, Remaining(w, s.pods), api);
    RemoveChosenDeletes(sp, w, ref, s, api);
  }

  /** The same from the request on: nothing is deleted unless a choice could be made. */
  lemma ScaleInHoldsBack(sp: Spec, w: World, ref: Ref, api: Api, n: string)
    requires ref in w.scalers && w.scalers[ref].script == "" && n in w.pods
    requires var w' := ScaleInPass(sp, w, ref, w.scalers[ref], api).w;
             w'.launcher.Some? && ref in w'.scalers && w'.scalers[ref].pods != []
    requires api.processes.Some? ==> Attached(sp, api.processes.value, n)
    ensures n in ScaleInPass(sp, w, ref, w.scalers[ref], api).w.pods
  {
    var s := w.scalers[ref];
    if !s.deleting {
      match ChooseToDelete(sp, s, api)
      case Chosen(pods) =>
        RemoveChosenObject(sp, w, ref, s.(pods := pods), api);
        RemoveChosenLauncher(sp, w, ref, s.(pods := pods), api);
        HeldBack(sp, w, ref, s.(pods := pods), api, n);
      case _ =>
    }
  }

  /** A pass of a script-less scale-in that has chosen, the launcher being there, never deletes a worker
      whose attach line occurs anywhere in the process listing, and none at all without the listing. */
  lemma AttachedStays(sp: Spec, w: World, api: Api, ref: Ref, n: string)
    requires PhaseInv(w) && !w.suspended && Shrinking(w, ref) && n in w.pods
    requires var w' := Reconcile(sp, w, api).w;
             w'.launcher.Some? && ref in w'.scalers && w'.scalers[ref].pods != []
    requires var command := if sp.kubexec then "/etc/mpi/kubexec.sh "
                            else "ssh -o PasswordAuthentication=no -o StrictHostKeyChecking=no ";
             api.processes.Some? ==> Occurs(command + n, api.processes.value)
    ensures n in Reconcile(sp, w, api).w.pods
  {
    if api.processes.Some? { AttachedMeans(sp, api.processes.value, n); }
    if Reached(sp, w, api) {
      ScalingGoesOn(sp, w, api);
      PassOverScaler(sp, w, api, ref);
      ScaleInHoldsBack(sp, SyncLauncher(sp, w, api), ref, api, n);
    } else {
      UnreachedKeepsPods(sp, w, api);
    }
  }

  lemma UnreachedKeepsPods(sp: Spec, w: World, api: Api)
    requires PhaseInv(w) && !w.suspended && w.status.phase == Scaling && !Reached(sp, w, api)
    ensures Reconcile(sp, w, api).w == SyncLauncher(sp, w, api) && Reconcile(sp, w, api).w.pods == w.pods
  {
    SyncDecides(sp, w, api);
    SyncLauncherPhases(sp, w, api);
    SyncLauncherWorkers(sp, w, api);
  }

  lemma ChosenDecided(sp: Spec, w: World, ref: Ref, s: Scaler, api: Api, n: string)
    requires api.exec == ExecDone && api.processes.Some? && api.serviceListed && api.deleteListed
    requires n in s.pods && n in w.pods && n !in api.undeleted
    ensures n in RemoveChosen(sp, w, ref, s, api).w.pods <==>
              s.script == "" && w.launcher.Some? && Attached(sp, api.processes.value, n)
  {
    var r := ScaleScript(sp, w, s, Remaining(w, s.pods), api);
    ChosenIsDeleted(sp, w, ref, s, api);
    var listing := ListingFor(r.w, s, api).value;
    NotAttachedMembers(sp, listing, s.pods);
    DeleteAndCommitDeletes(sp, r.w, ref, r.s, Remaining(w, s.pods), listing, api);
    NothingAttached(sp, n);
  }

  lemma NothingAttached(sp: Spec, n: string)
    ensures !Attached(sp, "", n)
  {
    assert |AttachCommand(sp) + " " + n| > 0;
  }

  lemma ChoiceDecided(sp: Spec, w: World, ref: Ref, api: Api, n: string)
    requires ref in w.scalers && !w.scalers[ref].deleting
    requires api.exec == ExecDone && api.processes.Some? && api.serviceListed && api.deleteListed
    requires var w' := ScaleInPass(sp, w, ref, w.scalers[ref], api).w;
             ref in w'.scalers && n in w'.scalers[ref].pods
    requires n in w.pods && n !in api.undeleted
    ensures var w' := ScaleInPass(sp, w, ref, w.scalers[ref], api).w;
            n in w'.pods <==>
              w.scalers[ref].script == "" && w'.launcher.Some? && Attached(sp, api.processes.value, n)
  {
    var s := w.scalers[ref];
    match ChooseToDelete(sp, s, api)
    case Chosen(pods) =>
      RemoveChosenObject(sp, w, ref, s.(pods := pods), api);
      RemoveChosenLauncher(sp, w, ref, s.(pods := pods), api);
      ChosenDecided(sp, w, ref, s.(pods := pods), api, n);
    case _ =>
  }

  /** When no call fails, a chosen worker stays exactly when the scale-in has no user script and the
      process listing of the launcher has its attach line anywhere. */
  lemma AttachDecides(sp: Spec, w: World, api: Api, ref: Ref, n: string)
    requires PhaseInv(w) && !w.suspended && CallsMade(sp, w, api)
    requires InProgress(w, ref) && ref.kind == ScaleIn && !w.scalers[ref].deleting
    requires var w' := Reconcile(sp, w, api).w; ref in w'.scalers && n in w'.scalers[ref].pods
    requires n in w.pods && n !in api.undeleted
    ensures var w' := Reconcile(sp, w, api).w;
            var command := if sp.kubexec then "/etc/mpi/kubexec.sh "
                           else "ssh -o PasswordAuthentication=no -o StrictHostKeyChecking=no ";
            n in w'.pods <==>
              && w.scalers[ref].script == "" && w'.launcher.Some?
              && Occurs(command + n, api.processes.value)
  {
    ScalingGoesOn(sp, w, api);
    PassOverScaler(sp, w, api, ref);
    ChoiceDecided(sp, SyncLauncher(sp, w, api), ref, api, n);
    AttachedMeans(sp, api.processes.value, n);
  }

  // ---------- a pass over a scale-in ----------

  /** No choice can be made: the pods cannot be listed, or the count is not between 1 and one less than
      the number of workers. */
  predicate NoChoice(w: World, s: Scaler, api: Api) {
    s.pods == [] &&
    (api.podList.None? || (s.toDelete.podNames.None? && !(0 < s.toDelete.count < |w.pods|)))
  }

  lemma ChoiceExists(sp: Spec, w: World, s: Scaler, api: Api)
    requires Faithful(w, api) && CanonicalPods(sp, w.pods)
    ensures ChooseToDelete(sp, s, api) == Refused <==> NoChoice(w, s, api)
    ensures !NoChoice(w, s, api) ==> ChooseToDelete(sp, s, api).Chosen?
  {
    if s.pods == [] && api.podList.Some? && s.toDelete.podNames.None? {
      ListedCount(w, api.podList.value);
      assert s.toDelete == ToDelete(s.toDelete.count, None);
      if 0 < s.toDelete.count < |w.pods| { SelectByCount(sp.name, api.podList.value, s.toDelete.count); }
    }
  }

  /** The outcomes of one pass over a scale-in. */
  ghost predicate ShrinkOutcome(w: World, w': World, ref: Ref, api: Api)
    requires ref in w.scalers
  {
    var s := w.scalers[ref];
    var scripted := Has(s.conditions, ScriptExecuted) || w'.launcher.None? || api.exec.ExecDone?;
    var seen := s.script != "" || w'.launcher.None? || api.processes.Some?;
    var listed := api.serviceListed && api.deleteListed;
    && ref in w'.scalers
    && var s' := w'.scalers[ref];
    && (Has(s'.conditions, ScaleFailed) <==> NoChoice(w, s, api) || !scripted || (seen && !listed))
    && (Has(s'.conditions, ScaleSucceeded) <==>
          && !NoChoice(w, s, api) && scripted && seen && listed
          && forall n :: n in s'.pods ==> n !in w'.pods && n !in api.unreadable)
  }

  lemma ShrinkDecides(sp: Spec, w: World, ref: Ref, api: Api)
    requires InPhase(w) && w.status.phase == Scaling && ref in w.scalers && ref.kind == ScaleIn
    requires Sane(w.scalers[ref]) && !Finished(w.scalers[ref]) && !w.scalers[ref].deleting
    requires Faithful(w, api) && CanonicalPods(sp, w.pods)
    ensures ShrinkOutcome(w, ScaleInPass(sp, w, ref, w.scalers[ref], api).w, ref, api)
  {
    var s := w.scalers[ref];
    ChoiceExists(sp, w, s, api);
    match ChooseToDelete(sp, s, api)
    case Chosen(pods) => ChosenOutcome(sp, w, ref, s.(pods := pods), api);
    case Refused => FinishScalerPhases(w, ref, s, ScaleFailed, api);
    case OutOfRange =>
  }

  lemma ChosenOutcome(sp: Spec, w: World, ref: Ref, s: Scaler, api: Api)
    requires InPhase(w) && w.status.phase == Scaling && ref in w.scalers && ref.kind == ScaleIn
    requires Sane(s) && !Finished(s) && s == w.scalers[ref].(pods := s.pods) && !NoChoice(w, w.scalers[ref], api)
    ensures ShrinkOutcome(w, RemoveChosen(sp, w, ref, s, api).w, ref, api)
  {
    ScaleInDecides(sp, w, ref, s, api);
    RemoveChosenPhases(sp, w, ref, s, api);
    RemoveChosenObject(sp, w, ref, s, api);
    RemoveChosenLauncher(sp, w, ref, s, api);
  }

  /** Every pass that reaches a scale-in: it fails exactly when no choice can be made, its script fails,
      or the deletions cannot be listed once the processes were; it succeeds exactly when all that went
      well and every chosen worker is seen to be gone; and otherwise it goes on. */
  lemma ScaleInPassDecides(sp: Spec, w: World, api: Api, ref: Ref)
    requires PhaseInv(w) && Faithful(w, api) && CanonicalPods(sp, w.pods) && !w.suspended && Reached(sp, w, api)
    requires InProgress(w, ref) && ref.kind == ScaleIn && !w.scalers[ref].deleting
    ensures ShrinkOutcome(w, Reconcile(sp, w, api).w, ref, api)
  {
    var w1 := SyncLauncher(sp, w, api);
    ScalingGoesOn(sp, w, api);
    PassOverScaler(sp, w, api, ref);
    ShrinkDecides(sp, w1, ref, api);
  }

  // ---------- a pass over a scale-out ----------

  /** The names of a scale-out that has none recorded: as many as it asks for, numbered from just above
      the highest index of the target workers. */
  ghost predicate Numbered(sp: Spec, w: World, s: Scaler, added: seq<string>)
    requires ValidCount(s)
  {
    if s.pods != [] then added == s.pods
    else |added| == s.count.value
         && forall i :: 0 <= i < |added| ==> added[i] == WorkerName(sp.name, MaxIndex(w.status.targetWorkers) + 1 + i)
  }

  /** The outcomes of one pass over a valid scale-out. */
  ghost predicate GrowOutcome(sp: Spec, w: World, w': World, r: Ref, api: Api)
    requires r in w.scalers && ValidCount(w.scalers[r])
  {
    var s := w.scalers[r];
    var enough := |set n | n in w.pods && w.pods[n].scaleOut == Some(r.name) && w.pods[n].phase == PodRunning|
                  >= s.count.value;
    var scripted := Has(s.conditions, ScriptExecuted) || w'.launcher.None? || api.exec.ExecDone?;
    && r in w'.scalers
    && var s' := w'.scalers[r];
    var refused := exists n :: n in s'.pods && n in api.creates;
    && Numbered(sp, w, s, s'.pods)
    && (Has(s'.conditions, ScaleFailed) <==>
          refused || (api.labelListed && if enough then !scripted else TimedOut(s.conditions, s.timeout, w.now)))
    && (Has(s'.conditions, ScaleSucceeded) <==> !refused && api.labelListed && enough && scripted)
  }

  lemma ActiveMeans(w: World, r: Ref)
    ensures ActivePods(w.pods, r.name)
         == set n | n in w.pods && w.pods[n].scaleOut == Some(r.name) && w.pods[n].phase == PodRunning
  {
  }

  lemma AllocatedNumbered(sp: Spec, w: World, s: Scaler)
    requires ValidCount(s)
    ensures Numbered(sp, w, s, AllocatedFor(sp, w, s).pods)
  {
  }

  lemma AwaitLauncher(sp: Spec, w: World, ref: Ref, s: Scaler, count: nat, api: Api)
    ensures AwaitAdded(sp, w, ref, s, count, api).w.launcher.Some? <==> w.launcher.Some?
  {
  }

  /** The pods are made: what is left is to wait for them. */
  lemma MadeOutcome(sp: Spec, w: World, r: Ref, api: Api)
    requires InPhase(w) && w.status.phase == Scaling && r in w.scalers && r.kind == ScaleOut
    requires var s := w.scalers[r]; Sane(s) && !Finished(s) && !s.deleting && ValidCount(s) && Allocated(sp, s)
    requires Room(sp, w)
    requires CreateWorkers(sp.name, w.pods, AllocatedFor(sp, w, w.scalers[r]).pods, Some(r.name), api.creates).ok
    ensures GrowOutcome(sp, w, ScaleOutPass(sp, w, r, w.scalers[r], api).w, r, api)
  {
    var s, s1 := w.scalers[r], AllocatedFor(sp, w, w.scalers[r]);
    AllocatedForCanonical(sp, w, s);
    AllocatedNumbered(sp, w, s);
    CreationSucceeds(sp.name, w.pods, s1.pods, Some(r.name), api.creates);
    MadeActive(sp, w, r, s1, api);
    ActiveMeans(w, r);
    MadeAwaits(sp, w.(pods := MadeFor(sp, w, r, s1, api)), r, s1, api);
  }

  lemma MadeAwaits(sp: Spec, w1: World, r: Ref, s: Scaler, api: Api)
    requires InPhase(w1) && w1.status.phase == Scaling && Sane(s) && !Finished(s) && r.kind == ScaleOut
    requires ValidCount(s)
    ensures var w' := AwaitAdded(sp, w1, r, s, s.count.value, api).w;
            var enough := |ActivePods(w1.pods, r.name)| >= s.count.value;
            var scripted := Has(s.conditions, ScriptExecuted) || w'.launcher.None? || api.exec.ExecDone?;
            && r in w'.scalers && w'.scalers[r].pods == s.pods
            && (Has(w'.scalers[r].conditions, ScaleFailed) <==>
                  api.labelListed && if enough then !scripted else TimedOut(s.conditions, s.timeout, w1.now))
            && (Has(w'.scalers[r].conditions, ScaleSucceeded) <==> api.labelListed && enough && scripted)
  {
    AwaitLauncher(sp, w1, r, s, s.count.value, api);
    AwaitPhases(sp, w1, r, s, s.count.value, api);
    AwaitOutcome(sp, w1, r, s, s.count.value, api);
    if api.labelListed { ScaleOutDecides(sp, w1, r, s, s.count.value, api); }
  }

  /** A creation is refused: nothing is waited for. */
  lemma RefusedOutcome(sp: Spec, w: World, r: Ref, api: Api)
    requires InPhase(w) && w.status.phase == Scaling && r in w.scalers && r.kind == ScaleOut
    requires var s := w.scalers[r]; Sane(s) && !Finished(s) && !s.deleting && ValidCount(s) && Allocated(sp, s)
    requires Room(sp, w)
    requires !CreateWorkers(sp.name, w.pods, AllocatedFor(sp, w, w.scalers[r]).pods, Some(r.name), api.creates).ok
    ensures GrowOutcome(sp, w, ScaleOutPass(sp, w, r, w.scalers[r], api).w, r, api)
  {
    var s, s1 := w.scalers[r], AllocatedFor(sp, w, w.scalers[r]);
    AllocatedForCanonical(sp, w, s);
    AllocatedNumbered(sp, w, s);
    CreationSucceeds(sp.name, w.pods, s1.pods, Some(r.name), api.creates);
    RollBackOutcome(w.(pods := MadeFor(sp, w, r, s1, api)), r, s1, api);
  }

  lemma GrowDecides(sp: Spec, w: World, r: Ref, api: Api)
    requires InPhase(w) && w.status.phase == Scaling && r in w.scalers && r.kind == ScaleOut
    requires var s := w.scalers[r]; Sane(s) && !Finished(s) && !s.deleting && ValidCount(s) && Allocated(sp, s)
    requires Room(sp, w)
    ensures GrowOutcome(sp, w, ScaleOutPass(sp, w, r, w.scalers[r], api).w, r, api)
  {
    var s1 := AllocatedFor(sp, w, w.scalers[r]);
    if CreateWorkers(sp.name, w.pods, s1.pods, Some(r.name), api.creates).ok { MadeOutcome(sp, w, r, api); }
    else { RefusedOutcome(sp, w, r, api); }
  }

  /** Every pass that reaches a valid scale-out: it fails exactly when the creation of one of its workers
      is refused, or its running pods can be listed and either they are enough and the launcher does not
      take the hostfile, or they are not and its time is up; it succeeds exactly when no creation is
      refused and enough pods with its label ran before the pass. */
  lemma ScaleOutPassDecides(sp: Spec, w: World, api: Api, r: Ref)
    requires PhaseInv(w) && AllAllocated(sp, w) && Room(sp, w) && !w.suspended && Reached(sp, w, api)
    requires Growing(w, r)
    ensures GrowOutcome(sp, w, Reconcile(sp, w, api).w, r, api)
  {
    ScalingGoesOn(sp, w, api);
    PassOverScaler(sp, w, api, r);
    assert Allocated(sp, w.scalers[r]);
    GrowDecides(sp, SyncLauncher(sp, w, api), r, api);
  }

  /** A failed scale-out is rolled back: its pods are gone but for those whose deletion failed, if the
      deletions could be listed, and no other pod is touched. */
  ghost predicate Withdrawn(w: World, w': World, added: seq<string>, api: Api) {
    && (forall n :: n !in added ==> (n in w'.pods <==> n in w.pods))
    && (api.serviceListed && api.deleteListed ==> forall n :: n in added && n in w'.pods ==> n in api.undeleted)
  }

  lemma FailureWithdraws(sp: Spec, w: World, r: Ref, api: Api)
    requires InPhase(w) && w.status.phase == Scaling && r in w.scalers && r.kind == ScaleOut
    requires var s := w.scalers[r]; Sane(s) && !Finished(s) && !s.deleting && ValidCount(s) && Allocated(sp, s)
    requires Room(sp, w)
    requires var w' := ScaleOutPass(sp, w, r, w.scalers[r], api).w;
             r in w'.scalers && Has(w'.scalers[r].conditions, ScaleFailed)
    ensures var w' := ScaleOutPass(sp, w, r, w.scalers[r], api).w;
            Withdrawn(w, w', w'.scalers[r].pods, api)
  {
    var s1 := AllocatedFor(sp, w, w.scalers[r]);
    ScaleOutOutcomes(sp, w, r, api);
    ScaleOutPhases(sp, w, r, w.scalers[r], api);
    AllocatedForCanonical(sp, w, w.scalers[r]);
    CreatedNames(sp.name, w.pods, s1.pods, Some(r.name), api.creates);
  }

  /** A pass over a valid scale-out in which the creation of one of its workers is refused, be they
      recorded already or numbered in this pass: the scale-out fails, the job runs on without a scaler and
      with the same worker lists, and the scale-out's pods are withdrawn. */
  lemma RefusedCreation(sp: Spec, w: World, api: Api, r: Ref, n: string)
    requires PhaseInv(w) && AllAllocated(sp, w) && Room(sp, w) && !w.suspended && Reached(sp, w, api)
    requires Growing(w, r) && n in api.creates
    requires var s, max := w.scalers[r], MaxIndex(w.status.targetWorkers);
             if s.pods != [] then n in s.pods
             else exists i: int :: max < i <= max + s.count.value && n == WorkerName(sp.name, i)
    ensures var w' := Reconcile(sp, w, api).w;
            && r in w'.scalers && n in w'.scalers[r].pods
            && Has(w'.scalers[r].conditions, ScaleFailed) && !Has(w'.scalers[r].conditions, ScaleSucceeded)
            && w'.status.phase == Running && w'.status.currentScaler == "" && SameWorkers(w, w')
            && Withdrawn(w, w', w'.scalers[r].pods, api)
  {
    var w1, w', s := SyncLauncher(sp, w, api), Reconcile(sp, w, api).w, w.scalers[r];
    ScalingGoesOn(sp, w, api);
    PassOverScaler(sp, w, api, r);
    assert Allocated(sp, s);
    ScaleOutPassDecides(sp, w, api, r);
    if s.pods == [] {
      var i: int :| MaxIndex(w.status.targetWorkers) < i <= MaxIndex(w.status.targetWorkers) + s.count.value
                    && n == WorkerName(sp.name, i);
      assert w'.scalers[r].pods[i - MaxIndex(w.status.targetWorkers) - 1] == n;
    }
    ScaleOutPhases(sp, w1, r, s, api);
    FailureWithdraws(sp, w1, r, api);
  }

  // ---------- scalers that are not worked on ----------

  /** A scale-out without a positive count fails at once, and nothing else happens. */
  lemma InvalidScaleOut(sp: Spec, w: World, api: Api, r: Ref)
    requires PhaseInv(w) && !w.suspended && Reached(sp, w, api) && InProgress(w, r) && r.kind == ScaleOut
    requires !w.scalers[r].deleting && (w.scalers[r].count.None? || w.scalers[r].count.value <= 0)
    ensures var w' := Reconcile(sp, w, api).w;
            && r in w'.scalers && Has(w'.scalers[r].conditions, ScaleFailed)
            && w'.status.phase == Running && w'.status.currentScaler == "" && SameWorkers(w, w')
            && w'.pods == w.pods && w'.scalers[r].pods == w.scalers[r].pods
  {
    ScalingGoesOn(sp, w, api);
    PassOverScaler(sp, w, api, r);
    FinishScalerPhases(SyncLauncher(sp, w, api), r, w.scalers[r], ScaleFailed, api);
  }

  /** A scaler that is being deleted is left alone until it is gone, and the job with it. */
  lemma DeletedScalerWaits(sp: Spec, w: World, api: Api, r: Ref)
    requires PhaseInv(w) && !w.suspended && Reached(sp, w, api) && InProgress(w, r) && w.scalers[r].deleting
    ensures var w' := Reconcile(sp, w, api).w;
            && w'.scalers == w.scalers && w'.pods == w.pods && SameWorkers(w, w')
            && w'.status.phase == Scaling && w'.status.currentScaler == w.status.currentScaler
  {
    ScalingGoesOn(sp, w, api);
    PassOverScaler(sp, w, api, r);
  }

  // ---------- scripts run once ----------

  /** The text a scaler has the launcher write: that of its script, or the current workers without those
      taken off, or with those added. */
  function FileOf(sp: Spec, w: World, s: Scaler, kind: Kind, pods: seq<string>, api: Api): string {
    if s.script != "" then api.scriptHostfile
    else if kind == ScaleIn then Content(Filter(w.status.currentWorkers, pods, true), sp.slots) + "\n"
    else Content(w.status.currentWorkers + pods, sp.slots) + "\n"
  }

  /** What a pass over a scaler does to the launcher: nothing once its script has run; otherwise it can
      write the file of this scaler, and a script that the launcher took is marked as executed. */
  ghost predicate ScriptedOnce(sp: Spec, w: World, w': World, ref: Ref, api: Api)
    requires ref in w.scalers
  {
    && (Has(w.scalers[ref].conditions, ScriptExecuted) ==> w'.launcher == w.launcher)
    && (w'.launcher != w.launcher ==>
          && ref in w'.scalers && w.launcher.Some?
          && w'.launcher == Some(w.launcher.value.(
               hostfile := FileOf(sp, w, w.scalers[ref], ref.kind, w'.scalers[ref].pods, api)))
          && (api.exec.ExecDone? ==> Has(w'.scalers[ref].conditions, ScriptExecuted)))
  }

  lemma FinishKeepsMark(w: World, ref: Ref, s: Scaler, t: ConditionType, api: Api)
    requires Sane(s) && !Finished(s) && t in {ScaleSucceeded, ScaleFailed}
    ensures Truths(FinishScaler(w, ref, s, t, api).scalers[ref].conditions) == Truths(s.conditions) + {t}
  {
    var reason := (if ref.kind == ScaleIn then "ScalingIn" else "ScalingOut")
                  + (if t == ScaleSucceeded then "Succeeded" else "Failed");
    ScalerNoted(s, NewCondition(t, reason, api.message, w.now));
  }

  lemma DeleteAndCommitKeepsMark(sp: Spec, w: World, ref: Ref, s: Scaler, hosts: seq<string>, listing: string,
                                 api: Api)
    requires Sane(s) && !Finished(s)
    ensures var w' := DeleteAndCommit(sp, w, ref, s, hosts, listing, api).w;
            && w'.launcher == w.launcher
            && ref in w'.scalers && Truths(s.conditions) <= Truths(w'.scalers[ref].conditions)
  {
    var r := DeleteWorkers(w, ToDeleteNow(sp, s, listing), api);
    if !r.ok {
      FinishKeepsMark(r.w, ref, s, ScaleFailed, api);
    } else if AllGone(r.w.pods, s.pods, api) {
      var w1 := r.w.(status := r.w.status.(
        targetWorkers := AfterScaler(r.w.status.targetWorkers, ScaleIn, s.pods), currentWorkers := hosts));
      FinishKeepsMark(w1, ref, s, ScaleSucceeded, api);
    }
  }

  lemma ScriptFile(sp: Spec, w: World, s: Scaler, workers: seq<string>, api: Api)
    ensures var w' := ScaleScript(sp, w, s, workers, api).w;
            && (Has(s.conditions, ScriptExecuted) ==> w'.launcher == w.launcher)
            && (w'.launcher != w.launcher ==>
                  && w.launcher.Some?
                  && w'.launcher == Some(w.launcher.value.(
                       hostfile := if s.script != "" then api.scriptHostfile else Content(workers, sp.slots) + "\n")))
  {
  }

  lemma RemoveChosenOnce(sp: Spec, w: World, ref: Ref, s: Scaler, api: Api)
    requires ref in w.scalers && Sane(s) && !Finished(s) && s == w.scalers[ref].(pods := s.pods)
    requires ref.kind == ScaleIn
    ensures ScriptedOnce(sp, w, RemoveChosen(sp, w, ref, s, api).w, ref, api)
  {
    var hosts := Remaining(w, s.pods);
    var r := ScaleScript(sp, w, s, hosts, api);
    ScaleScriptFrame(sp, w, s, hosts, api);
    ScriptFile(sp, w, s, hosts, api);
    RemoveChosenObject(sp, w, ref, s, api);
    if r.ok && ListingFor(r.w, s, api).Some? {
      DeleteAndCommitKeepsMark(sp, r.w, ref, r.s, hosts, ListingFor(r.w, s, api).value, api);
    }
  }

  lemma AnnounceOnce(sp: Spec, w: World, ref: Ref, s: Scaler, api: Api)
    requires Sane(s) && !Finished(s) && ref in w.scalers && s == w.scalers[ref].(pods := s.pods) && ref.kind == ScaleOut
    ensures ScriptedOnce(sp, w, AnnounceScaleOut(sp, w, ref, s, api).w, ref, api)
  {
    AnnounceObject(sp, w, ref, s, api);
    var hosts := AfterScaler(w.status.currentWorkers, ScaleOut, s.pods);
    var r := ScaleScript(sp, w, s, hosts, api);
    ScaleScriptFrame(sp, w, s, hosts, api);
    ScriptFile(sp, w, s, hosts, api);
    if r.ok {
      FinishKeepsMark(
        r.w.(status := r.w.status.(targetWorkers := AfterScaler(r.w.status.targetWorkers, ScaleOut, r.s.pods))),
        ref, r.s, ScaleSucceeded, api);
    }
  }

  lemma AwaitOnce(sp: Spec, w: World, ref: Ref, s: Scaler, count: nat, api: Api)
    requires Sane(s) && !Finished(s) && ref in w.scalers && s == w.scalers[ref].(pods := s.pods) && ref.kind == ScaleOut
    ensures ScriptedOnce(sp, w, AwaitAdded(sp, w, ref, s, count, api).w, ref, api)
  {
    AnnounceOnce(sp, w, ref, s, api);
  }

  lemma ScaleOutOnce(sp: Spec, w: World, ref: Ref, api: Api)
    requires ref in w.scalers && ref.kind == ScaleOut && Sane(w.scalers[ref]) && !Finished(w.scalers[ref])
    ensures ScriptedOnce(sp, w, ScaleOutPass(sp, w, ref, w.scalers[ref], api).w, ref, api)
  {
    var s := w.scalers[ref];
    if !s.deleting && ValidCount(s) {
      var s1 := Allocate(sp, w, s, s.count.value);
      AwaitOnce(sp, w.(pods := Made(sp, w, s1.pods, Some(ref.name), api)), ref, s1, s.count.value, api);
    }
  }

  lemma ScaleInOnce(sp: Spec, w: World, ref: Ref, api: Api)
    requires ref in w.scalers && ref.kind == ScaleIn && Sane(w.scalers[ref]) && !Finished(w.scalers[ref])
    ensures ScriptedOnce(sp, w, ScaleInPass(sp, w, ref, w.scalers[ref], api).w, ref, api)
  {
    var s := w.scalers[ref];
    if !s.deleting {
      match ChooseToDelete(sp, s, api)
      case Chosen(pods) => RemoveChosenOnce(sp, w, ref, s.(pods := pods), api);
      case _ =>
    }
  }

  lemma PassScriptedOnce(sp: Spec, w: World, api: Api, ref: Ref)
    requires PhaseInv(w) && !w.suspended && InProgress(w, ref) && w.launcher.Some?
    ensures ScriptedOnce(sp, w, Reconcile(sp, w, api).w, ref, api)
  {
    if Reached(sp, w, api) {
      ScalingGoesOn(sp, w, api);
      PassOverScaler(sp, w, api, ref);
      var w1 := SyncLauncher(sp, w, api);
      if ref.kind == ScaleIn { ScaleInOnce(sp, w1, ref, api); } else { ScaleOutOnce(sp, w1, ref, api); }
    } else {
      UnreachedKeepsPods(sp, w, api);
    }
  }

  /** In every run: a scaler whose script the launcher took, rewriting its hostfile, never touches the
      launcher again while the object exists: not in a later pass, and not in a later attempt of the job. */
  lemma ScriptRunsOnce(sp: Spec, ws: seq<World>, es: seq<Event>, i: nat, k: nat, ref: Ref)
    requires Run(sp, ws, es) && Init(ws[0]) && i < k < |es| && PresentFrom(ws, ref, i, k)
    requires es[i].Reconciled? && !ws[i].suspended && InProgress(ws[i], ref) && ws[i].launcher.Some?
    requires es[i].api.exec.ExecDone? && ws[i + 1].launcher != ws[i].launcher
    requires es[k].Reconciled? && !ws[k].suspended && InProgress(ws[k], ref) && ws[k].launcher.Some?
    ensures ws[k + 1].launcher == ws[k].launcher
  {
    RunScripted(sp, ws, es, i, ref);
    RunScripted(sp, ws, es, k, ref);
    MarkSurvives(sp, ws, es, i, k, ref);
  }

  /** In every run, what a pass over a scaler writes into the launcher. */
  lemma RunScripted(sp: Spec, ws: seq<World>, es: seq<Event>, k: nat, ref: Ref)
    requires Run(sp, ws, es) && Init(ws[0]) && k < |es|
    requires es[k].Reconciled? && !ws[k].suspended && InProgress(ws[k], ref) && ws[k].launcher.Some?
    ensures ScriptedOnce(sp, ws[k], ws[k + 1], ref, es[k].api)
  {
    StepOf(sp, ws, es, k);
    RunPhases(sp, ws, es, k);
    PassScriptedOnce(sp, ws[k], es[k].api, ref);
  }

  lemma MarkSurvives(sp: Spec, ws: seq<World>, es: seq<Event>, i: nat, k: nat, ref: Ref)
    requires Run(sp, ws, es) && Init(ws[0]) && i < k <= |es| && PresentFrom(ws, ref, i, k)
    ensures ref in ws[i + 1].scalers && ref in ws[k].scalers
    ensures Has(ws[i + 1].scalers[ref].conditions, ScriptExecuted) ==>
              Has(ws[k].scalers[ref].conditions, ScriptExecuted)
  {
    forall n | i + 1 <= n <= k ensures PresentAt(ws, ref, n) { assert PresentAt(ws, ref, n); }
    RecordsSurvive(sp, ws, es, i + 1, k, ref);
  }
}
