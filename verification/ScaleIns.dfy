/** Scale-in: no worker is deleted before the launcher has let go of it. */
module ScaleIns {
  import opened GoStrings
  import opened WorkerNames
  import opened Conditions
  import opened ScalerRefs
  import opened ScaleInSelection
  import opened Cluster
  import opened Pass
  import opened System
  import opened Phases
  import opened Lifecycle
  import opened Workers
  import opened Launching
  import opened ScalerPasses
  import opened Attempts
  import opened WorkerLists
  import opened Ledger

  // ---------- the process listing ----------

  /** The text by which a process listing shows that a launcher process holds the worker. */
  function AttachLine(sp: Spec, worker: string): string {
    (if sp.kubexec then "/etc/mpi/kubexec.sh " else "ssh -o PasswordAuthentication=no -o StrictHostKeyChecking=no ")
    + worker
  }

  /** A worker is taken for attached exactly when its line occurs anywhere in the listing. */
  lemma AttachedMeans(sp: Spec, listing: string, worker: string)
    ensures Attached(sp, listing, worker) <==> Occurs(AttachLine(sp, worker), listing)
  {
    assert AttachCommand(sp) + " " + worker == AttachLine(sp, worker);
    ContainsMeans(listing, AttachLine(sp, worker));
  }

  lemma {:induction false} NotAttachedMembers(sp: Spec, listing: string, workers: seq<string>)
    ensures forall n :: n in NotAttached(sp, listing, workers) <==> n in workers && !Attached(sp, listing, n)
    ensures |NotAttached(sp, listing, workers)| <= |workers|
    ensures |NotAttached(sp, listing, workers)| == |workers| <==>
              forall n :: n in workers ==> !Attached(sp, listing, n)
  {
    if workers != [] {
      NotAttachedMembers(sp, listing, workers[1..]);
      assert workers == [workers[0]] + workers[1..];
    }
  }

  /** A listing with an attach line for a worker is never taken for one without. */
  lemma AttachLineIsSeen(sp: Spec, before: string, worker: string, after: string)
    ensures var command := if sp.kubexec then "/etc/mpi/kubexec.sh "
                           else "ssh -o PasswordAuthentication=no -o StrictHostKeyChecking=no ";
            Attached(sp, before + (command + worker) + after, worker)
  {
    AttachedMeans(sp, before + AttachLine(sp, worker) + after, worker);
  }

  /** The substring test errs on the side of waiting: an attach line for worker-10 also holds back
      worker-1. */
  lemma PrefixIsHeldBack(sp: Spec, before: string, worker: string, rest: string, after: string)
    ensures var command := if sp.kubexec then "/etc/mpi/kubexec.sh "
                           else "ssh -o PasswordAuthentication=no -o StrictHostKeyChecking=no ";
            Attached(sp, before + (command + worker + rest) + after, worker)
  {
    AttachLineIsSeen(sp, before, worker, rest + after);
    assert before + (AttachLine(sp, worker) + rest) + after == before + AttachLine(sp, worker) + (rest + after);
  }

  /** What a pass of a script-less scale-in with a non-empty choice asks to delete: chosen workers
      for which the listing shows no attached process. */
  lemma AskedToDelete(sp: Spec, s: Scaler, listing: string)
    requires s.script == "" && s.pods != []
    ensures var asked := ToDeleteNow(sp, s, listing);
            && asked.Some?
            && forall n :: n in asked.value <==> n in s.pods && !Attached(sp, listing, n)
  {
    NotAttachedMembers(sp, listing, s.pods);
  }

  /** Once the deletions are made, a worker that was not chosen goes exactly when nothing was
      chosen. */
  lemma UnchosenDeleted(sp: Spec, w: World, ref: Ref, s: Scaler, listing: string, api: Api, n: string)
    requires api.serviceListed && api.deleteListed
    requires n in w.pods && n !in s.pods && n !in api.undeleted
    ensures n !in DeleteAndCommit(sp, w, ref, s, Remaining(w, s.pods), listing, api).w.pods <==> s.pods == []
  {
    NotAttachedMembers(sp, listing, s.pods);
    DeleteAndCommitDeletes(sp, w, ref, s, Remaining(w, s.pods), listing, api);
  }

  lemma {:induction false} KeptAll(names: seq<string>, removed: seq<string>)
    requires forall n :: n in removed ==> n !in names
    ensures Filter(names, removed, true) == names
  {
    if names != [] {
      assert names[0] in names;
      KeptAll(names[1..], removed);
    }
  }

  // ---------- one pass ----------

  /** The hostfile that a scale-in writes: the current workers without the chosen ones. */
  function Remaining(w: World, pods: seq<string>): seq<string> {
    AfterScaler(w.status.currentWorkers, ScaleIn, pods)
  }

  ghost predicate Wrote(sp: Spec, w: World, pods: seq<string>) {
    w.launcher.Some? && w.launcher.value.hostfile == HostfileText(sp, Remaining(w, pods))
  }

  /** If the script has run, the file in the launcher is the one for this choice. */
  ghost predicate WroteFirst(sp: Spec, w: World, s: Scaler) {
    Has(s.conditions, ScriptExecuted) ==> s.pods != [] && Wrote(sp, w, s.pods)
  }

  /** A pod that vanishes in the pass was chosen, is not in the hostfile, and had no process. */
  ghost predicate SafeDeletion(sp: Spec, w: World, w': World, pods: seq<string>, api: Api) {
    forall n :: n in w.pods && n !in w'.pods ==>
      && n in pods && n !in Remaining(w, pods)
      && w'.launcher.Some? && w'.launcher.value.hostfile == HostfileText(sp, Remaining(w, pods))
      && api.processes.Some? && !Attached(sp, api.processes.value, n)
  }

  /** After the script step the file is the one for this choice, if the step went well. */
  lemma ScriptWrites(sp: Spec, w: World, s: Scaler, api: Api)
    requires s.script == "" && w.launcher.Some? && WroteFirst(sp, w, s)
    ensures var r := ScaleScript(sp, w, s, Remaining(w, s.pods), api);
            && r.w == w.(launcher := r.w.launcher) && r.w.launcher.Some?
            && (r.ok ==> r.w.launcher.value.hostfile == HostfileText(sp, Remaining(w, s.pods)))
  {
  }

  lemma RemoveChosenSafe(sp: Spec, w: World, ref: Ref, s: Scaler, api: Api)
    requires s.script == "" && s.pods != [] && w.launcher.Some? && WroteFirst(sp, w, s)
    ensures SafeDeletion(sp, w, RemoveChosen(sp, w, ref, s, api).w, s.pods, api)
  {
    var r := ScaleScript(sp, w, s, Remaining(w, s.pods), api);
    ScriptWrites(sp, w, s, api);
    RemoveChosenDeletes(sp, w, ref, s, api);
    FilterMembers(w.status.currentWorkers, s.pods, true);
    if r.ok && ListingFor(r.w, s, api).Some? { AskedToDelete(sp, s, ListingFor(r.w, s, api).value); }
  }

  lemma ScaleInSafe(sp: Spec, w: World, ref: Ref, api: Api, w': World)
    requires ref in w.scalers && ref in w'.scalers && w' == ScaleInPass(sp, w, ref, w.scalers[ref], api).w
    requires var s := w.scalers[ref]; s.script == "" && w.launcher.Some? && WroteFirst(sp, w, s)
    requires w'.scalers[ref].pods != []
    ensures SafeDeletion(sp, w, w', w'.scalers[ref].pods, api)
  {
    var s := w.scalers[ref];
    if !s.deleting {
      match ChooseToDelete(sp, s, api)
      case Chosen(pods) =>
        RemoveChosenObject(sp, w, ref, s.(pods := pods), api);
        RemoveChosenSafe(sp, w, ref, s.(pods := pods), api);
      case _ =>
    }
  }

  /** The script of a scale-in that a pass leaves unfinished has written the file for its choice. */
  lemma ScaleInWrote(sp: Spec, w: World, ref: Ref, api: Api, w': World)
    requires ref in w.scalers && ref in w'.scalers && w' == ScaleInPass(sp, w, ref, w.scalers[ref], api).w
    requires ref.kind == ScaleIn
    requires var s := w.scalers[ref]; s.script == "" && w.launcher.Some? && WroteFirst(sp, w, s)
    requires InPhase(w) && w.status.phase == Scaling && Sane(w.scalers[ref]) && !Finished(w.scalers[ref])
    ensures w'.status.phase == Scaling && Has(w'.scalers[ref].conditions, ScriptExecuted) ==>
              Wrote(sp, w', w'.scalers[ref].pods)
  {
    var s := w.scalers[ref];
    if !s.deleting {
      match ChooseToDelete(sp, s, api)
      case Chosen(pods) => RemoveChosenWrote(sp, w, ref, s.(pods := pods), api);
      case _ => ScaleInPhases(sp, w, ref, s, api);
    }
  }

  lemma RemoveChosenWrote(sp: Spec, w: World, ref: Ref, s: Scaler, api: Api)
    requires s.script == "" && w.launcher.Some? && WroteFirst(sp, w, s) && ref.kind == ScaleIn
    requires InPhase(w) && w.status.phase == Scaling && Sane(s) && !Finished(s)
    ensures var w' := RemoveChosen(sp, w, ref, s, api).w;
            w'.status.phase == Scaling ==> ref in w'.scalers && Wrote(sp, w', w'.scalers[ref].pods)
  {
    ScriptWrites(sp, w, s, api);
    RemoveChosenObject(sp, w, ref, s, api);
    RemoveChosenDeletes(sp, w, ref, s, api);
    RemoveChosenPhases(sp, w, ref, s, api);
    var r := ScaleScript(sp, w, s, Remaining(w, s.pods), api);
    if !r.ok { FinishScalerPhases(r.w, ref, r.s, ScaleFailed, api); }
  }

  // ---------- every run ----------

  /** The scaler that the job is working on. */
  ghost predicate InProgress(w: World, ref: Ref) {
    && w.status.phase == Scaling && Printed(w.status.currentScaler) && ref == CurrentRef(w)
    && ref in w.scalers && !Finished(w.scalers[ref])
  }

  /** A script-less scale-in is in progress. */
  ghost predicate Shrinking(w: World, ref: Ref) {
    InProgress(w, ref) && ref.kind == ScaleIn && w.scalers[ref].script == ""
  }

  /** The launcher is there, and the script never ran on an empty choice. */
  ghost predicate Steady(w: World) {
    forall ref :: Shrinking(w, ref) ==>
      w.launcher.Some? && (Has(w.scalers[ref].conditions, ScriptExecuted) ==> w.scalers[ref].pods != [])
  }

  ghost predicate FileFirst(sp: Spec, w: World) {
    forall ref :: Shrinking(w, ref) ==> WroteFirst(sp, w, w.scalers[ref])
  }

  /** While the launcher exists, looking at it does not end the Scaling phase by itself unless the
      launcher has ended. */
  lemma SyncKeepsWorld(sp: Spec, w: World, api: Api)
    requires PhaseInv(w) && w.status.phase in {Running, Scaling} && w.launcher.Some?
    ensures var w' := SyncLauncher(sp, w, api);
            w' == w || (w'.status.phase in {Succeeded, Failed} && w'.launcher == w.launcher)
  {
  }

  lemma ScalingFileFirst(sp: Spec, w: World, api: Api)
    requires PhaseInv(w) && w.status.phase == Scaling && Steady(w) && FileFirst(sp, w)
    requires Steady(ExecuteScaling(sp, w, api).w)
    ensures FileFirst(sp, ExecuteScaling(sp, w, api).w)
  {
    var w', ref := ExecuteScaling(sp, w, api).w, CurrentRef(w);
    ExecuteScalingPhases(sp, w, api);
    ScalingObject(sp, w, api);
    if Shrinking(w', ref) {
      assert Shrinking(w, ref);
      PassOverScaleIn(sp, w, api, ref);
      if w' != w { ScaleInWrote(sp, w, ref, api, w'); }
    }
  }

  /** With the launcher there and not ended, the pass is one over the scale-in in progress. */
  lemma PassOverScaleIn(sp: Spec, w: World, api: Api, ref: Ref)
    requires PhaseInv(w) && InProgress(w, ref) && ref.kind == ScaleIn && w.launcher.Some?
    ensures var w' := ExecuteScaling(sp, w, api).w;
            || (w'.pods == w.pods && w'.scalers == w.scalers && w'.launcher == w.launcher
                && (w'.status.phase == Scaling ==> w' == w))
            || w' == ScaleInPass(sp, w, ref, w.scalers[ref], api).w
  {
    SyncKeepsWorld(sp, w, api);
    SyncLauncherPhases(sp, w, api);
    SyncLauncherWorkers(sp, w, api);
  }

  /** The scaler that starts has not run its script in this attempt. */
  lemma SelectedUnscripted(sp: Spec, w: World, api: Api)
    requires PhaseInv(w) && w.status.phase == Running && OneAtATime(w)
    ensures var w' := ReconcileRunning(sp, w, api).w;
            forall ref :: InProgress(w', ref) ==> !Has(w'.scalers[ref].conditions, ScriptExecuted)
  {
    IdleNoneTouched(w);
    SyncLauncherPhases(sp, w, api);
    var w1 := SyncLauncher(sp, w, api);
    SyncWorkersFrame(sp, w1, api);
    var r := SyncWorkers(sp, w1, api);
    if r.ok && r.w.status.phase == Running { StartedUnscripted(r.w, api); }
  }

  lemma StartedUnscripted(w: World, api: Api)
    requires PhaseInv(w) && w.status.phase == Running && NoneTouched(w)
    ensures var w' := SelectScaler(w, api);
            forall ref :: InProgress(w', ref) ==> !Has(w'.scalers[ref].conditions, ScriptExecuted)
  {
    match Latest(w, api)
    case None =>
    case Some(ref) =>
      LatestIsCandidate(w, api);
      ResolveFullName(ref);
      ScalerNoted(w.scalers[ref], NewCondition(Scaling, SCALING_START, api.message, w.now));
  }

  lemma PassFileFirst(sp: Spec, w: World, api: Api)
    requires PhaseInv(w) && OneAtATime(w) && Steady(w) && FileFirst(sp, w)
    requires Steady(Reconcile(sp, w, api).w)
    ensures FileFirst(sp, Reconcile(sp, w, api).w)
  {
    PassPhases(sp, w, api);
    if !w.suspended {
      if w.status.phase == Scaling { ScalingFileFirst(sp, w, api); }
      else if w.status.phase == Running { SelectedUnscripted(sp, w, api); }
    }
  }

  lemma OutsideFileFirst(sp: Spec, w: World, e: Event, w': World)
    requires PhaseInv(w) && Steady(w) && FileFirst(sp, w) && Next(sp, w, e, w') && !e.Reconciled?
    requires Steady(w')
    ensures FileFirst(sp, w')
  {
    OutsideKeepsStatus(sp, w, e, w');
    forall ref | Shrinking(w', ref) ensures WroteFirst(sp, w', w'.scalers[ref]) {
      if e.ScalerCreated? && e.ref == ref {
        NewScalerUntouched(w'.scalers[ref]);
      } else {
        if e.ScalerMarked? {
          var m :| Marked(w.scalers[e.ref], w'.scalers[e.ref], w.now, m);
          MarkedTouched(w.scalers[e.ref], w'.scalers[e.ref], w.now, m);
        }
        assert Shrinking(w, ref);
      }
    }
  }

  ghost predicate SteadyAt(ws: seq<World>, n: nat)
    requires n < |ws|
  {
    Steady(ws[n])
  }

  ghost predicate SteadyFrom(ws: seq<World>, i: nat, k: nat)
    requires i <= k < |ws|
  {
    forall n :: i <= n <= k ==> SteadyAt(ws, n)
  }

  lemma {:induction false} RunFileFirst(sp: Spec, ws: seq<World>, es: seq<Event>, i: nat, k: nat)
    requires Run(sp, ws, es) && Init(ws[0]) && i <= k <= |es|
    requires OneAtATime(ws[i]) && FileFirst(sp, ws[i])
    requires CleanFrom(sp, ws, es, i, k) && SteadyFrom(ws, i, k)
    ensures FileFirst(sp, ws[k])
  {
    if i < k {
      assert SteadyAt(ws, k - 1) && SteadyAt(ws, k);
      assert CleanAt(sp, ws, es, k - 1);
      RunFileFirst(sp, ws, es, i, k - 1);
      RunOneAtATime(sp, ws, es, i, k - 1);
      RunPhases(sp, ws, es, k - 1);
      LastStep(sp, ws, es, k);
      NextFileFirst(sp, ws[k - 1], es[k - 1], ws[k]);
    }
  }

  /** A state in which no script-less scale-in is in progress can start such a part of a run. */
  lemma IdleIsFileFirst(sp: Spec, w: World)
    requires w.status.phase != Scaling
    ensures FileFirst(sp, w)
  {
  }

  lemma NextFileFirst(sp: Spec, w: World, e: Event, w': World)
    requires PhaseInv(w) && OneAtATime(w) && Steady(w) && FileFirst(sp, w) && Next(sp, w, e, w') && Steady(w')
    ensures FileFirst(sp, w')
  {
    match e
    case Reconciled(api) => PassFileFirst(sp, w, api);
    case _ => OutsideFileFirst(sp, w, e, w');
  }

  lemma PassSafe(sp: Spec, w: World, api: Api, ref: Ref)
    requires PhaseInv(w) && Steady(w) && FileFirst(sp, w) && Shrinking(w, ref) && !w.suspended
    requires var w' := Reconcile(sp, w, api).w; ref in w'.scalers && w'.scalers[ref].pods != []
    ensures var w' := Reconcile(sp, w, api).w;
            SafeDeletion(sp, w, w', w'.scalers[ref].pods, api)
  {
    var w' := Reconcile(sp, w, api).w;
    PassOverScaleIn(sp, w, api, ref);
    if w'.pods != w.pods { ScaleInSafe(sp, w, ref, api, w'); }
  }

  /** From any state with at most the current scaler in flight and, say, none in progress: as long as
      the launcher is present and the script ran on a non-empty choice while a script-less scale-in is
      in progress, a worker that a pass deletes was chosen; the hostfile in the launcher, written in
      this pass or before and not rewritten since, leaves it out; and the process listing of the pass
      has no attach line for it anywhere. */
  lemma ScaleInOrdering(sp: Spec, ws: seq<World>, es: seq<Event>, i: nat, k: nat, ref: Ref, n: string)
    requires Run(sp, ws, es) && Init(ws[0]) && i <= k < |es|
    requires OneAtATime(ws[i]) && FileFirst(sp, ws[i])
    requires CleanFrom(sp, ws, es, i, k) && SteadyFrom(ws, i, k)
    requires es[k].Reconciled? && !ws[k].suspended && Shrinking(ws[k], ref)
    requires ref in ws[k + 1].scalers && ws[k + 1].scalers[ref].pods != []
    requires n in ws[k].pods && n !in ws[k + 1].pods
    ensures var chosen := ws[k + 1].scalers[ref].pods;
            && n in chosen && n !in Remaining(ws[k], chosen)
            && ws[k + 1].launcher.Some?
            && ws[k + 1].launcher.value.hostfile == HostfileText(sp, Remaining(ws[k], chosen))
    ensures var listing := es[k].api.processes;
            var command := if sp.kubexec then "/etc/mpi/kubexec.sh "
                           else "ssh -o PasswordAuthentication=no -o StrictHostKeyChecking=no ";
            && listing.Some?
            && forall before, after :: listing.value != before + (command + n) + after
  {
    StepOf(sp, ws, es, k);
    RunFileFirst(sp, ws, es, i, k);
    RunPhases(sp, ws, es, k);
    assert SteadyAt(ws, k);
    PassSafe(sp, ws[k], es[k].api, ref);
    AttachedMeans(sp, es[k].api.processes.value, n);
  }

  /** So it is from every state in which the job is not Scaling and no scaler is in flight, such as its
      submission: a pod that a script-less scale-in deletes is out of the hostfile already. */
  lemma OrderingFromIdle(sp: Spec, ws: seq<World>, es: seq<Event>, i: nat, k: nat, ref: Ref, n: string)
    requires Run(sp, ws, es) && Init(ws[0]) && i <= k < |es|
    requires NoneTouched(ws[i]) && ws[i].status.phase != Scaling
    requires CleanFrom(sp, ws, es, i, k) && SteadyFrom(ws, i, k)
    requires es[k].Reconciled? && !ws[k].suspended && Shrinking(ws[k], ref)
    requires ref in ws[k + 1].scalers && ws[k + 1].scalers[ref].pods != []
    requires n in ws[k].pods && n !in ws[k + 1].pods
    ensures var chosen := ws[k + 1].scalers[ref].pods;
            && n in chosen && n !in Remaining(ws[k], chosen) && ws[k + 1].launcher.Some?
            && ws[k + 1].launcher.value.hostfile == HostfileText(sp, Remaining(ws[k], chosen))
  {
    NoneTouchedStarts(ws[i]);
    IdleIsFileFirst(sp, ws[i]);
    ScaleInOrdering(sp, ws, es, i, k, ref, n);
  }

  // ---------- the outcome of a scale-in ----------

  /** A scale-in that a pass reports as successful has none of its chosen workers left. */
  ghost predicate GoneOnSuccess(w': World, ref: Ref) {
    ref in w'.scalers && Has(w'.scalers[ref].conditions, ScaleSucceeded) ==>
      forall n :: n in w'.scalers[ref].pods ==> n !in w'.pods
  }

  /** The launcher took the command, or there was none to run. */
  predicate ScriptDone(w: World, s: Scaler, api: Api) {
    Has(s.conditions, ScriptExecuted) || w.launcher.None? || api.exec.ExecDone?
  }

  lemma DeleteAndCommitDecides(sp: Spec, w: World, ref: Ref, s: Scaler, hosts: seq<string>, listing: string, api: Api)
    requires InPhase(w) && w.status.phase == Scaling && Sane(s) && !Finished(s)
    ensures var w' := DeleteAndCommit(sp, w, ref, s, hosts, listing, api).w;
            var listed := api.serviceListed && api.deleteListed;
            && ref in w'.scalers
            && (Finished(w'.scalers[ref]) <==> !listed || AllGone(w'.pods, s.pods, api))
            && (Has(w'.scalers[ref].conditions, ScaleSucceeded) <==> listed && AllGone(w'.pods, s.pods, api))
  {
    var r := DeleteWorkers(w, ToDeleteNow(sp, s, listing), api);
    if !r.ok {
      FinishScalerPhases(r.w, ref, s, ScaleFailed, api);
    } else if AllGone(r.w.pods, s.pods, api) {
      var w1 := r.w.(status := r.w.status.(
        targetWorkers := AfterScaler(r.w.status.targetWorkers, ScaleIn, s.pods), currentWorkers := hosts));
      FinishScalerPhases(w1, ref, s, ScaleSucceeded, api);
    }
  }

  /** A scale-in that has chosen finishes exactly when its script fails, or the processes can be
      listed and either the deletions cannot be made or all chosen workers are gone; it succeeds
      exactly in the last case. */
  lemma ScaleInDecides(sp: Spec, w: World, ref: Ref, s: Scaler, api: Api)
    requires InPhase(w) && w.status.phase == Scaling && Sane(s) && !Finished(s)
    ensures var w' := RemoveChosen(sp, w, ref, s, api).w;
            var listed := api.serviceListed && api.deleteListed;
            var scripted := ScriptDone(w, s, api);
            var seen := s.script != "" || w.launcher.None? || api.processes.Some?;
            && ref in w'.scalers
            && (Finished(w'.scalers[ref]) <==> !scripted || (seen && (!listed || AllGone(w'.pods, s.pods, api))))
            && (Has(w'.scalers[ref].conditions, ScaleSucceeded) <==>
                  scripted && seen && listed && AllGone(w'.pods, s.pods, api))
  {
    var hosts := Remaining(w, s.pods);
    ScaleScriptFrame(sp, w, s, hosts, api);
    var r := ScaleScript(sp, w, s, hosts, api);
    if !r.ok {
      FinishScalerPhases(r.w, ref, r.s, ScaleFailed, api);
    } else if ListingFor(r.w, s, api).Some? {
      DeleteAndCommitDecides(sp, r.w, ref, r.s, hosts, ListingFor(r.w, s, api).value, api);
    }
  }

  lemma RemoveChosenGone(sp: Spec, w: World, ref: Ref, s: Scaler, api: Api)
    requires InPhase(w) && w.status.phase == Scaling && Sane(s) && !Finished(s)
    ensures GoneOnSuccess(RemoveChosen(sp, w, ref, s, api).w, ref)
  {
    ScaleInDecides(sp, w, ref, s, api);
    RemoveChosenObject(sp, w, ref, s, api);
  }

  lemma ScaleInGone(sp: Spec, w: World, ref: Ref, api: Api)
    requires InPhase(w) && w.status.phase == Scaling && ref in w.scalers
    requires Sane(w.scalers[ref]) && !Finished(w.scalers[ref])
    ensures GoneOnSuccess(ScaleInPass(sp, w, ref, w.scalers[ref], api).w, ref)
  {
    var s := w.scalers[ref];
    if !s.deleting {
      match ChooseToDelete(sp, s, api)
      case Chosen(pods) => RemoveChosenGone(sp, w, ref, s.(pods := pods), api);
      case Refused => FinishScalerPhases(w, ref, s, ScaleFailed, api);
      case OutOfRange =>
    }
  }

  lemma ScalingGone(sp: Spec, w: World, api: Api)
    requires PhaseInv(w) && w.status.phase == Scaling && CurrentRef(w).kind == ScaleIn
    requires FinishesNow(w, ExecuteScaling(sp, w, api).w, CurrentRef(w))
    ensures GoneOnSuccess(ExecuteScaling(sp, w, api).w, CurrentRef(w))
  {
    var w1, ref := SyncLauncher(sp, w, api), CurrentRef(w);
    SyncLauncherPhases(sp, w, api);
    SyncLauncherWorkers(sp, w, api);
    if w1.status.phase == Scaling && api.scalerRead { ScaleInGone(sp, w1, ref, api); }
  }

  /** The worker lists without the chosen workers, in their order. */
  ghost predicate TakenOff(w: World, w': World, chosen: seq<string>) {
    && w'.status.targetWorkers == Filter(w.status.targetWorkers, chosen, true)
    && w'.status.currentWorkers == Filter(w.status.currentWorkers, chosen, true)
    && (forall n :: n in w'.status.targetWorkers <==> n in w.status.targetWorkers && n !in chosen)
    && (forall n :: n in w'.status.currentWorkers <==> n in w.status.currentWorkers && n !in chosen)
    && forall n :: n in chosen ==> n !in w'.pods
  }

  /** In every run: the step that finishes a scale-in, with a user script or without, either takes
      exactly the chosen workers off both lists, none of them being left in the cluster, or leaves
      both lists as they were. */
  lemma ScaleInOutcome(sp: Spec, ws: seq<World>, es: seq<Event>, k: nat, r: Ref)
    requires Run(sp, ws, es) && Init(ws[0]) && k < |es|
    requires r.kind == ScaleIn && FinishesNow(ws[k], ws[k + 1], r)
    ensures if Has(ws[k + 1].scalers[r].conditions, ScaleSucceeded)
            then TakenOff(ws[k], ws[k + 1], ws[k + 1].scalers[r].pods)
            else SameWorkers(ws[k], ws[k + 1])
  {
    StepOf(sp, ws, es, k);
    RunPhases(sp, ws, es, k);
    OnlyCurrentFinishes(sp, ws[k], es[k], ws[k + 1], r);
    SuspendedFinishesNone(sp, ws[k], es[k], ws[k + 1], r);
    ScalingGone(sp, ws[k], es[k].api);
    FilterMembers(ws[k].status.targetWorkers, ws[k + 1].scalers[r].pods, true);
    FilterMembers(ws[k].status.currentWorkers, ws[k + 1].scalers[r].pods, true);
  }

  // ---------- from the request to the deletions ----------

  /** No call of the pass fails, and the launcher does not end the job. */
  predicate CallsMade(sp: Spec, w: World, api: Api) {
    && api.scalerRead && api.podList.Some? && api.exec == ExecDone && api.processes.Some?
    && api.serviceListed && api.deleteListed
    && !LauncherIs(w, api, PodSucceeded) && !LauncherLost(sp, w, api)
  }

  /** A scale-in has just been selected: nothing is recorded on it yet. */
  ghost predicate JustSelected(w: World, ref: Ref) {
    && InProgress(w, ref) && ref.kind == ScaleIn
    && !w.scalers[ref].deleting && w.scalers[ref].pods == []
  }

  /** When no call fails, the pass is one over the scale-in in progress. */
  lemma PassIsScaleIn(sp: Spec, w: World, api: Api, ref: Ref)
    requires PhaseInv(w) && InProgress(w, ref) && ref.kind == ScaleIn && !w.suspended && CallsMade(sp, w, api)
    ensures var w1 := SyncLauncher(sp, w, api);
            && w1 == w.(status := w1.status, launcher := w1.launcher) && SameWorkers(w, w1)
            && InPhase(w1) && w1.status.phase == Scaling
            && Reconcile(sp, w, api).w == ScaleInPass(sp, w1, ref, w.scalers[ref], api).w
  {
    SyncDecides(sp, w, api);
    SyncLauncherPhases(sp, w, api);
    SyncLauncherWorkers(sp, w, api);
  }

  /** A choice whose calls do not fail reaches its deletions. */
  lemma ChosenIsDeleted(sp: Spec, w: World, ref: Ref, s: Scaler, api: Api)
    requires api.exec == ExecDone && api.processes.Some?
    ensures var r := ScaleScript(sp, w, s, Remaining(w, s.pods), api);
            && r.ok && r.w == w.(launcher := r.w.launcher) && r.s == s.(conditions := r.s.conditions)
            && ListingFor(r.w, s, api).Some?
            && RemoveChosen(sp, w, ref, s, api)
               == DeleteAndCommit(sp, r.w, ref, r.s, Remaining(w, s.pods), ListingFor(r.w, s, api).value, api)
  {
  }

  lemma EmptyChoiceCommits(sp: Spec, w: World, ref: Ref, s: Scaler, listing: string, api: Api)
    requires InPhase(w) && w.status.phase == Scaling && Sane(s) && !Finished(s) && ref.kind == ScaleIn
    requires api.serviceListed && api.deleteListed && s.pods == []
    ensures var w' := DeleteAndCommit(sp, w, ref, s, Remaining(w, s.pods), listing, api).w;
            && w'.status.phase == Running && SameWorkers(w, w')
            && ref in w'.scalers && Has(w'.scalers[ref].conditions, ScaleSucceeded)
  {
    AllKept(w.status.targetWorkers);
    AllKept(w.status.currentWorkers);
    DeleteAndCommitDecides(sp, w, ref, s, Remaining(w, s.pods), listing, api);
    DeleteAndCommitPhases(sp, w, ref, s, Remaining(w, s.pods), listing, api);
    DeleteAndCommitObject(sp, w, ref, s, Remaining(w, s.pods), listing, api);
  }

  /** Selecting by name finds something exactly when a named worker exists. */
  lemma NamedChoice(sp: Spec, w: World, s: Scaler, api: Api)
    requires s.pods == [] && s.toDelete.podNames.Some?
    requires api.podList.Some? && Enumerates(api.podList.value, w.pods.Keys)
    ensures var choice := ChooseToDelete(sp, s, api);
            && choice.Chosen?
            && (forall n :: n in choice.names <==> n in w.pods && n in s.toDelete.podNames.value)
            && (choice.names == [] <==> forall n :: n in s.toDelete.podNames.value ==> n !in w.pods)
  {
    var choice := Filter(api.podList.value, s.toDelete.podNames.value, false);
    FilterMembers(api.podList.value, s.toDelete.podNames.value, false);
    if choice != [] { assert choice[0] in choice; }
  }

  /** A scale-in by name, when no call fails: a worker that it does not name is deleted exactly when
      none of the workers it names exists.  All workers go then, the scale-in is reported as
      successful in the same pass, and both worker lists stay as they are. */
  lemma NamedScaleIn(sp: Spec, w: World, api: Api, ref: Ref, n: string)
    requires PhaseInv(w) && Faithful(w, api) && !w.suspended && CallsMade(sp, w, api)
    requires JustSelected(w, ref) && w.scalers[ref].toDelete.podNames.Some?
    requires n in w.pods && n !in w.scalers[ref].toDelete.podNames.value && n !in api.undeleted
    ensures var w' := Reconcile(sp, w, api).w;
            var none := forall m :: m in w.scalers[ref].toDelete.podNames.value ==> m !in w.pods;
            && (n !in w'.pods <==> none)
            && (none ==> w'.status.phase == Running && SameWorkers(w, w')
                         && ref in w'.scalers && Has(w'.scalers[ref].conditions, ScaleSucceeded))
  {
    var s, w1 := w.scalers[ref], SyncLauncher(sp, w, api);
    PassIsScaleIn(sp, w, api, ref);
    NamedChoice(sp, w, s, api);
    var s1 := s.(pods := ChooseToDelete(sp, s, api).names);
    NamedDeletes(sp, w1, ref, s1, api, n);
  }

  lemma NamedDeletes(sp: Spec, w: World, ref: Ref, s: Scaler, api: Api, n: string)
    requires InPhase(w) && w.status.phase == Scaling && Sane(s) && !Finished(s) && ref.kind == ScaleIn
    requires api.exec == ExecDone && api.processes.Some? && api.serviceListed && api.deleteListed
    requires n in w.pods && n !in s.pods && n !in api.undeleted
    ensures var w' := RemoveChosen(sp, w, ref, s, api).w;
            && (n !in w'.pods <==> s.pods == [])
            && (s.pods == [] ==> w'.status.phase == Running && SameWorkers(w, w')
                                 && ref in w'.scalers && Has(w'.scalers[ref].conditions, ScaleSucceeded))
  {
    var r := ScaleScript(sp, w, s, Remaining(w, s.pods), api);
    ChosenIsDeleted(sp, w, ref, s, api);
    ScaleScriptFrame(sp, w, s, Remaining(w, s.pods), api);
    UnchosenDeleted(sp, r.w, ref, r.s, ListingFor(r.w, s, api).value, api, n);
    if s.pods == [] { EmptyChoiceCommits(sp, r.w, ref, r.s, ListingFor(r.w, s, api).value, api); }
  }

  lemma ListedCount(w: World, list: seq<string>)
    requires Enumerates(list, w.pods.Keys)
    ensures |list| == |w.pods| && NoDup(list) && forall n :: n in list <==> n in w.pods
  {
    NoDupSetSize(list);
    assert (set n | n in list) == w.pods.Keys;
  }

  /** A scale-in by count, when no call fails: it is refused, with nothing deleted and no list changed,
      exactly when the count is not between 1 and one less than the number of workers; otherwise the
      pass deletes at most that many, and none with an index below a worker that is not chosen. */
  lemma CountedScaleIn(sp: Spec, w: World, api: Api, ref: Ref)
    requires PhaseInv(w) && Faithful(w, api) && !w.suspended && CallsMade(sp, w, api)
    requires JustSelected(w, ref) && w.scalers[ref].toDelete.podNames.None? && CanonicalPods(sp, w.pods)
    ensures var w' := Reconcile(sp, w, api).w;
            var count := w.scalers[ref].toDelete.count;
            if 0 < count < |w.pods| then
              && ref in w'.scalers && !Has(w'.scalers[ref].conditions, ScaleFailed)
              && var chosen := w'.scalers[ref].pods;
              && |chosen| == count && (forall n :: n in w.pods && n !in w'.pods ==> n in chosen)
              && (forall n, m :: n in chosen && m in w.pods && m !in chosen ==>
                    Canonical(sp.name, n) && IndexOf(sp.name, n) > IndexOf(sp.name, m))
            else
              && ref in w'.scalers && Has(w'.scalers[ref].conditions, ScaleFailed)
              && w'.pods == w.pods && w'.status.phase == Running && SameWorkers(w, w')
  {
    var s, w1 := w.scalers[ref], SyncLauncher(sp, w, api);
    var list, count := api.podList.value, s.toDelete.count;
    PassIsScaleIn(sp, w, api, ref);
    ListedCount(w, list);
    if 0 < count < |w.pods| {
      SelectByCount(sp.name, list, count);
      assert s.toDelete == ToDelete(count, None);
      var chosen := Select(sp.name, list, s.toDelete).names;
      FilterMembers(list, chosen, true);
      CountedDeletes(sp, w1, ref, s.(pods := chosen), api);
    } else {
      FinishScalerPhases(w1, ref, s, ScaleFailed, api);
    }
  }

  lemma CountedDeletes(sp: Spec, w: World, ref: Ref, s: Scaler, api: Api)
    requires InPhase(w) && w.status.phase == Scaling && Sane(s) && !Finished(s) && s.pods != [] && ref.kind == ScaleIn
    requires api.exec == ExecDone && api.processes.Some? && api.serviceListed && api.deleteListed
    ensures var w' := RemoveChosen(sp, w, ref, s, api).w;
            && ref in w'.scalers && w'.scalers[ref].pods == s.pods
            && !Has(w'.scalers[ref].conditions, ScaleFailed)
            && forall n :: n in w.pods && n !in w'.pods ==> n in s.pods
  {
    var r := ScaleScript(sp, w, s, Remaining(w, s.pods), api);
    var listing := ListingFor(r.w, s, api).value;
    ChosenIsDeleted(sp, w, ref, s, api);
    ScaleScriptFrame(sp, w, s, Remaining(w, s.pods), api);
    RemoveChosenObject(sp, w, ref, s, api);
    NotAttachedMembers(sp, listing, s.pods);
    DeleteAndCommitDeletes(sp, r.w, ref, r.s, Remaining(w, s.pods), listing, api);
    ScaleInDecides(sp, w, ref, s, api);
    RemoveChosenPhases(sp, w, ref, s, api);
  }
}
