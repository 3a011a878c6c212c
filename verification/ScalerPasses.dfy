/** What a pass does to the scaler objects: which one it works on, and which pods it records. */
module ScalerPasses {
  import opened GoStrings
  import opened Conditions
  import opened ScalerRefs
  import opened ScaleInSelection
  import opened Cluster
  import opened Pass
  import opened Phases
  import opened Lifecycle
  import opened Workers

  /** Conditions and recorded pods are all of a scaler that a pass changes. */
  predicate SameObject(s: Scaler, s': Scaler) {
    s' == s.(conditions := s'.conditions, pods := s'.pods)
  }

  predicate ValidCount(s: Scaler) { s.count.Some? && s.count.value > 0 }

  /** The pods a pass records on the scaler it works on: what was recorded stays, and otherwise a
      scale-out allocates and a scale-in selects. */
  predicate PodsRecorded(sp: Spec, w: World, ref: Ref, s: Scaler, pods: seq<string>, api: Api) {
    if ref.kind == ScaleOut then
      pods == if s.deleting || !ValidCount(s) then s.pods else Allocate(sp, w, s, s.count.value).pods
    else pods == s.pods || ChooseToDelete(sp, s, api) == Chosen(pods)
  }

  /** The scaler a pass worked on, before and after. */
  ghost predicate WorkedOn(sp: Spec, w: World, w': World, ref: Ref, api: Api) {
    && ref in w.scalers && ref in w'.scalers
    && SameObject(w.scalers[ref], w'.scalers[ref])
    && PodsRecorded(sp, w, ref, w.scalers[ref], w'.scalers[ref].pods, api)
  }

  lemma DeleteAndCommitObject(sp: Spec, w: World, ref: Ref, s: Scaler, hosts: seq<string>, listing: string, api: Api)
    ensures var w' := DeleteAndCommit(sp, w, ref, s, hosts, listing, api).w;
            ref in w'.scalers && w'.scalers[ref] == s.(conditions := w'.scalers[ref].conditions)
  {
  }

  lemma RemoveChosenObject(sp: Spec, w: World, ref: Ref, s: Scaler, api: Api)
    ensures var w' := RemoveChosen(sp, w, ref, s, api).w;
            ref in w'.scalers && w'.scalers[ref] == s.(conditions := w'.scalers[ref].conditions)
  {
    var hosts := AfterScaler(w.status.currentWorkers, ScaleIn, s.pods);
    var r := ScaleScript(sp, w, s, hosts, api);
    ScaleScriptPods(sp, w, s, hosts, api);
    if r.ok && ListingFor(r.w, s, api).Some? {
      DeleteAndCommitObject(sp, r.w, ref, r.s, hosts, ListingFor(r.w, s, api).value, api);
    }
  }

  lemma ScaleInObject(sp: Spec, w: World, ref: Ref, api: Api)
    requires ref in w.scalers && ref.kind == ScaleIn
    ensures WorkedOn(sp, w, ScaleInPass(sp, w, ref, w.scalers[ref], api).w, ref, api)
  {
    var s := w.scalers[ref];
    if !s.deleting {
      match ChooseToDelete(sp, s, api)
      case Chosen(pods) => RemoveChosenObject(sp, w, ref, s.(pods := pods), api);
      case _ =>
    }
  }

  lemma AnnounceObject(sp: Spec, w: World, ref: Ref, s: Scaler, api: Api)
    ensures var w' := AnnounceScaleOut(sp, w, ref, s, api).w;
            ref in w'.scalers && w'.scalers[ref] == s.(conditions := w'.scalers[ref].conditions)
  {
    ScaleScriptPods(sp, w, s, AfterScaler(w.status.currentWorkers, ScaleOut, s.pods), api);
  }

  lemma AwaitObject(sp: Spec, w: World, ref: Ref, s: Scaler, count: nat, api: Api)
    ensures var w' := AwaitAdded(sp, w, ref, s, count, api).w;
            ref in w'.scalers && w'.scalers[ref] == s.(conditions := w'.scalers[ref].conditions)
  {
    AnnounceObject(sp, w, ref, s, api);
  }

  lemma ScaleOutObject(sp: Spec, w: World, ref: Ref, api: Api)
    requires ref in w.scalers && ref.kind == ScaleOut
    ensures WorkedOn(sp, w, ScaleOutPass(sp, w, ref, w.scalers[ref], api).w, ref, api)
  {
    var s := w.scalers[ref];
    if !s.deleting && ValidCount(s) {
      var s1 := Allocate(sp, w, s, s.count.value);
      AwaitObject(sp, w.(pods := Made(sp, w, s1.pods, Some(ref.name), api)), ref, s1, s.count.value, api);
    }
  }

  /** In phase Scaling a pass either leaves all scalers alone or works on the current one. */
  lemma ScalingObject(sp: Spec, w: World, api: Api)
    requires PhaseInv(w) && w.status.phase == Scaling
    ensures var w' := ExecuteScaling(sp, w, api).w;
            w'.scalers == w.scalers || WorkedOn(sp, w, w', CurrentRef(w), api)
  {
    var w1 := SyncLauncher(sp, w, api);
    SyncLauncherWorkers(sp, w, api);
    SyncLauncherPhases(sp, w, api);
    var ref := CurrentRef(w);
    if w1.status.phase == Scaling && api.scalerRead && ref in w.scalers && !Finished(w.scalers[ref]) {
      if ref.kind == ScaleIn { ScaleInObject(sp, w1, ref, api); } else { ScaleOutObject(sp, w1, ref, api); }
    }
  }

  /** Selecting a scaler changes its conditions only. */
  lemma RunningObjects(sp: Spec, w: World, api: Api)
    requires PhaseInv(w) && w.status.phase == Running
    ensures var w' := ReconcileRunning(sp, w, api).w;
            forall r :: r in w.scalers ==>
              r in w'.scalers && w'.scalers[r] == w.scalers[r].(conditions := w'.scalers[r].conditions)
  {
    SyncLauncherPhases(sp, w, api);
    var w1 := SyncLauncher(sp, w, api);
    SyncWorkersFrame(sp, w1, api);
  }

  /** How a pass moves job and scalers, phase by phase. */
  ghost predicate PassMove(sp: Spec, w: World, w': World, api: Api) {
    if w.suspended || w.status.phase !in {Running, Scaling} then
      w'.scalers == w.scalers && w'.status.currentScaler == w.status.currentScaler
    else if w.status.phase == Scaling then
      ScalingMove(w, w') && (w'.scalers == w.scalers || WorkedOn(sp, w, w', CurrentRef(w), api))
    else
      w'.status.phase in {Running, Scaling, Succeeded, Failed} && Selects(w, w')
  }

  /** A pass in phase Running: no scaler is touched, or one is selected and the job starts Scaling. */
  ghost predicate Selects(w: World, w': World) {
    if w'.status.phase != Scaling then
      w'.scalers == w.scalers && w'.status.currentScaler == w.status.currentScaler
    else
      && Printed(w'.status.currentScaler)
      && var ref := CurrentRef(w');
      && ref in w.scalers && !Finished(w.scalers[ref]) && w.scalers[ref].owned
      && ref in w'.scalers && w'.scalers == w.scalers[ref := w'.scalers[ref]]
      && w'.scalers[ref] == w.scalers[ref].(conditions := w'.scalers[ref].conditions)
  }

  lemma RestartScalers(sp: Spec, w: World, api: Api)
    requires PhaseInv(w) && w.status.phase == Failed
    ensures var w' := Restart(sp, w, api).w;
            w'.scalers == w.scalers && w'.status.currentScaler == w.status.currentScaler
  {
    RestartPhases(sp, w, api);
  }

  lemma PassMoves(sp: Spec, w: World, api: Api)
    requires PhaseInv(w)
    ensures PassMove(sp, w, Reconcile(sp, w, api).w, api)
  {
    SuspendPhases(w, api);
    if w.suspended {
      CleanupFrame(sp, Suspend(w, api), api);
    } else {
      match w.status.phase
      case Succeeded => CleanupFrame(sp, w, api);
      case Suspended => CleanupFrame(sp, w, api);
      case Failed => RestartScalers(sp, w, api);
      case NoPhase =>
        InitializePhases(w, api);
        DoStepsPhases(sp, Initialize(w, api), api);
      case Created =>
        InitializePhases(w, api);
        DoStepsPhases(sp, Initialize(w, api), api);
      case Running =>
        ReconcileRunningPhases(sp, w, api);
        RunningObjects(sp, w, api);
      case Scaling =>
        ExecuteScalingPhases(sp, w, api);
        ScalingObject(sp, w, api);
      case _ =>
    }
  }
}
