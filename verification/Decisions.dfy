/** What a pass decides, exactly: the conditions under which it ends the job, and starts a scaler or
    finishes a scale-out. */
module Decisions {
  import opened Conditions
  import opened ScalerRefs
  import opened Cluster
  import opened Pass
  import opened Phases
  import opened Workers
  import opened Launching
  import opened Attempts
  import opened ScaleIns
  import opened ScaleOuts

  // ---------- the launcher ends the job ----------

  lemma RunningEnds(sp: Spec, w: World, api: Api)
    requires PhaseInv(w) && w.status.phase == Running
    ensures var w1, w' := SyncLauncher(sp, w, api), ReconcileRunning(sp, w, api).w;
            SameEnd(w1.status.phase, w'.status.phase)
  {
    var w1 := SyncLauncher(sp, w, api);
    SyncLauncherPhases(sp, w, api);
    SyncWorkersFrame(sp, w1, api);
    var r := SyncWorkers(sp, w1, api);
    if r.ok && r.w.status.phase == Running { SelectScalerPhases(r.w, api); }
  }

  lemma ScalingEnds(sp: Spec, w: World, api: Api)
    requires PhaseInv(w) && w.status.phase == Scaling
    ensures var w1, w' := SyncLauncher(sp, w, api), ExecuteScaling(sp, w, api).w;
            SameEnd(w1.status.phase, w'.status.phase)
  {
    SyncLauncherPhases(sp, w, api);
    SyncLauncherWorkers(sp, w, api);
    RunScalerPhases(sp, SyncLauncher(sp, w, api), api);
  }

  /** A job that runs or scales succeeds exactly when its launcher is seen to have succeeded, and
      fails exactly when the launcher is seen to have failed or is gone for good.  Workers never
      decide. */
  lemma LauncherDecides(sp: Spec, w: World, api: Api)
    requires PhaseInv(w) && !w.suspended && w.status.phase in {Running, Scaling}
    ensures var w' := Reconcile(sp, w, api).w;
            && (w'.status.phase == Succeeded <==> LauncherIs(w, api, PodSucceeded))
            && (w'.status.phase == Failed <==> LauncherLost(sp, w, api))
  {
    SyncDecides(sp, w, api);
    if w.status.phase == Running { RunningEnds(sp, w, api); } else { ScalingEnds(sp, w, api); }
  }

  // ---------- starting a scaler ----------

  lemma LatestExists(w: World, api: Api)
    requires Faithful(w, api)
    ensures Latest(w, api).Some? <==> exists r :: Candidate(w, api, r)
  {
    if r :| Candidate(w, api, r) { CandidatesAreAvailable(w, api, r); }
    AvailableMembers(w.scalers, if api.scaleOuts.Some? then api.scaleOuts.value else []);
    AvailableMembers(w.scalers, if api.scaleIns.Some? then api.scaleIns.value else []);
    if Candidates(w, api) != [] {
      var l := Candidates(w, api)[0];
      assert l in Candidates(w, api);
      assert Candidate(w, api, l.ref);
    }
  }

  /** A running job starts Scaling exactly when the launcher does not end it, the worker sync gets
      through, and a listed scaler is available. */
  lemma ScalingStarts(sp: Spec, w: World, api: Api)
    requires PhaseInv(w) && Faithful(w, api) && !w.suspended && w.status.phase == Running
    ensures Reconcile(sp, w, api).w.status.phase == Scaling <==>
              && !LauncherIs(w, api, PodSucceeded) && !LauncherLost(sp, w, api)
              && SyncWorkers(sp, SyncLauncher(sp, w, api), api).ok
              && exists r :: Candidate(w, api, r)
  {
    var w1 := SyncLauncher(sp, w, api);
    SyncLauncherPhases(sp, w, api);
    SyncDecides(sp, w, api);
    SyncWorkersFrame(sp, w1, api);
    var r := SyncWorkers(sp, w1, api);
    LatestOfWorld(w, r.w, api);
    LatestExists(w, api);
  }

  // ---------- finishing a scaler ----------

  lemma AnnounceDecides(sp: Spec, w: World, ref: Ref, s: Scaler, api: Api)
    requires InPhase(w) && w.status.phase == Scaling && Sane(s) && !Finished(s)
    ensures var w' := AnnounceScaleOut(sp, w, ref, s, api).w;
            && ref in w'.scalers && Finished(w'.scalers[ref])
            && (Has(w'.scalers[ref].conditions, ScaleSucceeded) <==> ScriptDone(w, s, api))
  {
    var hosts := AfterScaler(w.status.currentWorkers, ScaleOut, s.pods);
    ScaleScriptFrame(sp, w, s, hosts, api);
    var r := ScaleScript(sp, w, s, hosts, api);
    if r.ok {
      FinishScalerPhases(
        r.w.(status := r.w.status.(targetWorkers := AfterScaler(r.w.status.targetWorkers, ScaleOut, r.s.pods))),
        ref, r.s, ScaleSucceeded, api);
    } else {
      RollBackOutcome(r.w, ref, r.s, api);
    }
  }

  /** A scale-out whose workers exist finishes exactly when enough of them run or its time is up,
      and succeeds exactly when enough run and the launcher took the new hostfile. */
  lemma ScaleOutDecides(sp: Spec, w: World, ref: Ref, s: Scaler, count: nat, api: Api)
    requires InPhase(w) && w.status.phase == Scaling && Sane(s) && !Finished(s) && api.labelListed
    ensures var w' := AwaitAdded(sp, w, ref, s, count, api).w;
            var enough := |ActivePods(w.pods, ref.name)| >= count;
            && ref in w'.scalers
            && (Finished(w'.scalers[ref]) <==> enough || TimedOut(s.conditions, s.timeout, w.now))
            && (Has(w'.scalers[ref].conditions, ScaleSucceeded) <==> enough && ScriptDone(w, s, api))
  {
    if |ActivePods(w.pods, ref.name)| >= count { AnnounceDecides(sp, w, ref, s, api); }
    else if TimedOut(s.conditions, s.timeout, w.now) { RollBackOutcome(w, ref, s, api); }
  }
}
