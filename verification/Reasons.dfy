/** The reasons recorded with the conditions that a pass sets: why a job ended, and how a scaler did. */
module Reasons {
  import opened GoStrings
  import opened Conditions
  import opened ScalerRefs
  import opened Cluster
  import opened Pass
  import opened System
  import opened Phases
  import opened Lifecycle
  import opened Workers
  import opened Launching
  import opened ScalerPasses
  import opened Attempts
  import opened ScalerHistory
  import opened ScaleIns
  import opened Outcomes

  /** Looking up the type finds a true condition with the reason and the message of the pass. */
  predicate Says(conds: seq<Condition>, t: ConditionType, reason: string, api: Api) {
    var c := Get(conds, t);
    c.Some? && c.value.status && c.value.reason == reason && c.value.message == api.message
  }

  lemma NoteSays(w: World, t: ConditionType, reason: string, api: Api)
    requires !Has(w.status.conditions, Failed)
    ensures Says(NoteEnter(w, t, reason, api).status.conditions, t, reason, api)
    ensures Says(Note(w, t, reason, api).status.conditions, t, reason, api)
  {
    SetRecords(w.status.conditions, NewCondition(t, reason, api.message, w.now));
  }

  // ---------- why the job ended ----------

  /** The reason of a failed launcher pod, with a name of its own for an eviction. */
  function LauncherReason(l: Launcher): string {
    if l.reason == "" then "TrainingJobFailed"
    else if l.reason == "Evicted" then "TrainingJobEvicted"
    else l.reason
  }

  /** What a look at the launcher records. */
  predicate LauncherTold(sp: Spec, w: World, w': World, api: Api) {
    var conds := w'.status.conditions;
    && (LauncherIs(w, api, PodSucceeded) ==> Says(conds, Succeeded, "TrainingJobSucceeded", api))
    && (LauncherIs(w, api, PodFailed) ==> Says(conds, Failed, LauncherReason(w.launcher.value), api))
    && (LauncherLost(sp, w, api) && w.launcher.None? ==> Says(conds, Failed, "TrainingJobFailed", api))
    && (LauncherIs(w, api, PodRunning) && Running !in TruthsOf(w) ==> Says(conds, Running, "TrainingJobRunning", api))
  }

  lemma SyncTells(sp: Spec, w: World, api: Api)
    requires !Has(w.status.conditions, Failed)
    ensures LauncherTold(sp, w, SyncLauncher(sp, w, api), api)
  {
    if api.launcherRead {
      match w.launcher
      case None => NoteSays(w, Failed, JOB_FAILED, api);
      case Some(l) =>
        match l.phase
        case PodSucceeded => NoteSays(w, Succeeded, JOB_SUCCEEDED, api);
        case PodFailed => NoteSays(w, Failed, FailureReason(l), api);
        case PodRunning => NoteSays(w, Running, JOB_RUNNING, api);
        case _ =>
    }
  }

  /** The pass looks at the launcher. */
  predicate LooksAtLauncher(w: World) {
    !w.suspended && (w.status.phase in {Running, Scaling}
                     || (w.status.phase == Created && LauncherCreated in TruthsOf(w) && Running !in TruthsOf(w)))
  }

  /** Every pass that looks at the launcher records why the job ended, or that it runs. */
  lemma LauncherReasons(sp: Spec, w: World, api: Api)
    requires PhaseInv(w) && LooksAtLauncher(w)
    ensures LauncherTold(sp, w, Reconcile(sp, w, api).w, api)
  {
    SyncTells(sp, w, api);
    SyncDecides(sp, w, api);
    if w.status.phase == Running { RunningKeepsReasons(sp, w, api); }
    else if w.status.phase == Scaling { ScalingKeepsReasons(sp, w, api); }
    else { LaunchedKeepsReasons(sp, w, api); }
  }

  lemma RunningKeepsReasons(sp: Spec, w: World, api: Api)
    requires PhaseInv(w) && w.status.phase == Running && !w.suspended
    ensures var w1, w' := SyncLauncher(sp, w, api), Reconcile(sp, w, api).w;
            w1.status.phase != Running ==> w'.status.conditions == w1.status.conditions
  {
    var w1 := SyncLauncher(sp, w, api);
    SyncWorkersFrame(sp, w1, api);
  }

  lemma ScalingKeepsReasons(sp: Spec, w: World, api: Api)
    requires PhaseInv(w) && w.status.phase == Scaling && !w.suspended
    ensures var w1, w' := SyncLauncher(sp, w, api), Reconcile(sp, w, api).w;
            w1.status.phase != Scaling ==> w' == w1
  {
    SyncLauncherPhases(sp, w, api);
    SyncLauncherWorkers(sp, w, api);
  }

  lemma LaunchedKeepsReasons(sp: Spec, w: World, api: Api)
    requires InPhase(w) && LooksAtLauncher(w) && w.status.phase == Created
    ensures Reconcile(sp, w, api).w == SyncLauncher(sp, w, api)
  {
  }

  // ---------- suspension and restart ----------

  /** A suspended job says what it waits for, unless a failure has frozen its conditions. */
  lemma SuspensionReason(sp: Spec, w: World, api: Api)
    requires PhaseInv(w) && w.suspended && Failed !in TruthsOf(w)
    ensures Says(Reconcile(sp, w, api).w.status.conditions, Suspended, "WaitingResourceTimeout", api)
  {
    NoteSays(w, Suspended, WAIT_TIMEOUT, api);
    CleanupFrame(sp, Suspend(w, api), api);
  }

  lemma CreatedStays(w: World, t: ConditionType, reason: string, api: Api)
    requires w.status.conditions == [NewCondition(Created, "TrainingJobCreated", api.message, w.now)]
    requires t in {WorkersCreated, Failed}
    ensures Says(Note(w, t, reason, api).status.conditions, Created, "TrainingJobCreated", api)
  {
    SetRefinesMap(w.status.conditions, NewCondition(t, reason, api.message, w.now));
  }

  lemma OnlyCreated(w: World, api: Api)
    requires w.status.conditions == []
    ensures NoteEnter(w, Created, JOB_CREATED, api).status.conditions
         == [NewCondition(Created, "TrainingJobCreated", api.message, w.now)]
  {
  }

  lemma OneTruth(c: Condition)
    requires c.status
    ensures Truths([c]) == {c.ctype}
  {
    assert [c][1..] == [];
  }

  lemma FirstStepReason(sp: Spec, w: World, api: Api)
    requires w.status.conditions == [NewCondition(Created, "TrainingJobCreated", api.message, w.now)]
    ensures Says(DoSteps(sp, w, api).w.status.conditions, Created, "TrainingJobCreated", api)
  {
    var workers := ReplicaWorkers(sp, w.status);
    var made := CreateWorkers(sp.name, w.pods, workers, None, api.creates);
    var w1 := w.(status := w.status.(targetWorkers := workers), pods := made.pods);
    OneTruth(w.status.conditions[0]);
    CreatedStays(w1, WorkersCreated, "", api);
    CreatedStays(w1, Failed, JOB_FAILED, api);
  }

  /** The first pass of a job, and of every later attempt, records that the job was created. */
  lemma CreationReason(sp: Spec, w: World, api: Api)
    requires PhaseInv(w) && ((!w.suspended && w.status.phase == NoPhase) || Resets(sp, w))
    ensures Says(Reconcile(sp, w, api).w.status.conditions, Created, "TrainingJobCreated", api)
  {
    if Resets(sp, w) {
      var w0 := w.(status := w.status.(restartCount := w.status.restartCount + 1,
                                       conditions := [], currentWorkers := [], targetWorkers := []));
      OnlyCreated(w0, api);
      FirstStepReason(sp, DeleteLauncher(DeleteAllPods(Reset(w, api), api).w, api), api);
    } else {
      OnlyCreated(w, api);
      FirstStepReason(sp, Initialize(w, api), api);
    }
  }

  // ---------- the start-up steps ----------

  /** A step that is done now is recorded as any other condition, with an empty reason. */
  predicate StepsTold(w: World, w': World, api: Api) {
    forall t :: t in {WorkersCreated, WorkersReady, LauncherCreated} && t in TruthsOf(w') && t !in TruthsOf(w) ==>
      Says(w'.status.conditions, t, "", api)
  }

  lemma NoteTells(w: World, t: ConditionType, reason: string, api: Api)
    requires InPhase(w) && w.status.phase == Created
    requires (t in {WorkersCreated, WorkersReady, LauncherCreated} && reason == "") || t == Failed
    ensures StepsTold(w, Note(w, t, reason, api), api)
  {
    NoteSays(w, t, reason, api);
    Noted(w, t, reason, api);
  }

  lemma WaitTells(sp: Spec, w: World, api: Api)
    requires InPhase(w) && w.status.phase == Created
    ensures StepsTold(w, WaitWorkers(sp, w, api).w, api)
  {
    var r := SyncWorkers(sp, w, api);
    SyncWorkersFrame(sp, w, api);
    NoteTells(r.w, WorkersReady, "", api);
  }

  lemma CreateTells(sp: Spec, w: World, api: Api)
    requires InPhase(w) && w.status.phase == Created
    ensures StepsTold(w, CreateJobWorkers(sp, w, api), api)
  {
    var workers := ReplicaWorkers(sp, w.status);
    var made := CreateWorkers(sp.name, w.pods, workers, None, api.creates);
    var w1 := w.(status := w.status.(targetWorkers := workers), pods := made.pods);
    NoteTells(w1, WorkersCreated, "", api);
    NoteTells(w1, Failed, JOB_FAILED, api);
  }

  lemma CreateLauncherTells(sp: Spec, w: World, api: Api)
    requires InPhase(w) && w.status.phase == Created
    ensures StepsTold(w, CreateLauncher(sp, w, api), api)
  {
    var w1 := EnsureConfig(sp, w, api).w;
    assert w1.status == w.status;
    NoteTells(w1, Failed, JOB_FAILED, api);
    NoteTells(w1, LauncherCreated, "", api);
    NoteTells(NewLauncher(w1), LauncherCreated, "", api);
  }

  lemma DoStepsTells(sp: Spec, w: World, api: Api)
    requires InPhase(w) && w.status.phase == Created
    ensures StepsTold(w, DoSteps(sp, w, api).w, api)
  {
    if WorkersCreated !in TruthsOf(w) { CreateTells(sp, w, api); }
    else if WorkersReady !in TruthsOf(w) { WaitTells(sp, w, api); }
    else if LauncherCreated !in TruthsOf(w) { CreateLauncherTells(sp, w, api); }
  }

  /** Every pass of a job that starts up records the step it has done. */
  lemma StepReasons(sp: Spec, w: World, api: Api)
    requires PhaseInv(w) && !w.suspended && w.status.phase in {NoPhase, Created}
    ensures StepsTold(w, Reconcile(sp, w, api).w, api)
  {
    InitializePhases(w, api);
    DoStepsTells(sp, Initialize(w, api), api);
    InitializeTells(w, api);
  }

  lemma InitializeTells(w: World, api: Api)
    requires InPhase(w) && w.status.phase in {NoPhase, Created}
    ensures TruthsOf(Initialize(w, api)) <= TruthsOf(w) + {Created}
  {
    if w.status.conditions == [] {
      Noted(w, Created, JOB_CREATED, api);
      assert After({}, Created) == {Created};
    }
  }

  // ---------- when a scaler started ----------

  lemma StartSets(sp: Spec, w: World, api: Api)
    requires PhaseInv(w) && Faithful(w, api) && w.status.phase == Running
    requires Reconcile(sp, w, api).w.status.phase == Scaling
    ensures var cond, w' := NewCondition(Scaling, "ScalingStart", api.message, w.now), Reconcile(sp, w, api).w;
            && Printed(w'.status.currentScaler) && CurrentRef(w') in w.scalers && CurrentRef(w') in w'.scalers
            && w'.scalers[CurrentRef(w')].conditions == Set(w.scalers[CurrentRef(w')].conditions, cond)
            && Says(w'.status.conditions, Scaling, "ScalingStart", api)
  {
    var w1 := SyncLauncher(sp, w, api);
    PassMoves(sp, w, api);
    PassStartsLatest(sp, w, api);
    SyncLauncherPhases(sp, w, api);
    SyncLauncherWorkers(sp, w, api);
    SyncWorkersFrame(sp, w1, api);
    LatestOfWorld(w, SyncWorkers(sp, w1, api).w, api);
    SetRecords(w1.status.conditions, NewCondition(Scaling, "ScalingStart", api.message, w.now));
  }

  /** The transition time of the Scaling condition is that of the pass. */
  ghost predicate StartedAt(s: Scaler, now: int) {
    var c := Get(s.conditions, Scaling);
    c.Some? && c.value.status && c.value.reason == "ScalingStart" && c.value.lastTransitionTime == now
  }

  lemma PassStartsClock(sp: Spec, w: World, api: Api, r: Ref)
    requires PhaseInv(w) && Faithful(w, api) && w.status.phase == Running
    requires Reconcile(sp, w, api).w.status.phase == Scaling
    requires Resolve(Reconcile(sp, w, api).w.status.currentScaler) == Some(r) && r in w.scalers
    requires WellKept(w.scalers[r].conditions) && !Has(w.scalers[r].conditions, Scaling)
    ensures r in Reconcile(sp, w, api).w.scalers && StartedAt(Reconcile(sp, w, api).w.scalers[r], w.now)
  {
    StartSets(sp, w, api);
    FirstSetting(w.scalers[r], api.message, w.now);
  }

  /** In every run the clock of a scaler starts with the pass that selects it first: the transition time of
      its Scaling condition, from which the timeout is counted, is the time of that pass. */
  lemma ClockStarts(sp: Spec, ws: seq<World>, es: seq<Event>, k: nat, r: Ref)
    requires Run(sp, ws, es) && Init(ws[0]) && k < |es| && es[k].Reconciled?
    requires ws[k].status.phase == Running && ws[k + 1].status.phase == Scaling
    requires Resolve(ws[k + 1].status.currentScaler) == Some(r) && r in ws[k].scalers
    requires !Has(ws[k].scalers[r].conditions, Scaling)
    ensures r in ws[k + 1].scalers && StartedAt(ws[k + 1].scalers[r], ws[k].now)
  {
    StepOf(sp, ws, es, k);
    RunPhases(sp, ws, es, k);
    RunWellKept(sp, ws, es, k);
    PassStartsClock(sp, ws[k], es[k].api, r);
  }

  lemma FirstSetting(s: Scaler, message: string, now: int)
    requires WellKept(s.conditions) && Sane(s) && !Has(s.conditions, Scaling)
    ensures StartedAt(s.(conditions := Set(s.conditions, NewCondition(Scaling, "ScalingStart", message, now))), now)
  {
    SetRefinesMap(s.conditions, NewCondition(Scaling, "ScalingStart", message, now));
    HasIsGet(s.conditions, Scaling);
    HasIsGet(s.conditions, Failed);
  }

  // ---------- how a scaler did ----------

  function OutcomeReason(kind: Kind, t: ConditionType): string {
    match kind
    case ScaleIn => if t == ScaleSucceeded then "ScalingInSucceeded" else "ScalingInFailed"
    case ScaleOut => if t == ScaleSucceeded then "ScalingOutSucceeded" else "ScalingOutFailed"
  }

  /** The outcome of a scaler is recorded with its reason, on the scaler and on the job. */
  predicate OutcomeTold(w: World, ref: Ref, t: ConditionType, api: Api) {
    && ref in w.scalers
    && (Has(w.scalers[ref].conditions, t) ==>
          && Says(w.scalers[ref].conditions, t, OutcomeReason(ref.kind, t), api)
          && Says(w.status.conditions, t, OutcomeReason(ref.kind, t), api))
  }

  predicate Told(w: World, ref: Ref, api: Api) {
    OutcomeTold(w, ref, ScaleSucceeded, api) && OutcomeTold(w, ref, ScaleFailed, api)
  }

  lemma ReasonText(kind: Kind, t: ConditionType)
    ensures OutcomeReason(kind, t) == (if kind == ScaleIn then "ScalingIn" else "ScalingOut")
                                      + (if t == ScaleSucceeded then "Succeeded" else "Failed")
  {
  }

  lemma FinishSets(w: World, ref: Ref, s: Scaler, t: ConditionType, api: Api)
    ensures var cond, w' := NewCondition(t, OutcomeReason(ref.kind, t), api.message, w.now),
                            FinishScaler(w, ref, s, t, api);
            && w'.status.conditions == Set(w.status.conditions, cond)
            && ref in w'.scalers && w'.scalers[ref].conditions == Set(s.conditions, cond)
  {
    ReasonText(ref.kind, t);
  }

  lemma FinishTells(w: World, ref: Ref, s: Scaler, t: ConditionType, api: Api)
    requires InPhase(w) && w.status.phase == Scaling && Sane(s) && !Finished(s)
    requires t in {ScaleSucceeded, ScaleFailed}
    ensures Told(FinishScaler(w, ref, s, t, api), ref, api)
  {
    var cond := NewCondition(t, OutcomeReason(ref.kind, t), api.message, w.now);
    FinishSets(w, ref, s, t, api);
    SetRecords(w.status.conditions, cond);
    SetRecords(s.conditions, cond);
    ScalerNoted(s, cond);
  }

  lemma DeleteAndCommitTells(sp: Spec, w: World, ref: Ref, s: Scaler, hosts: seq<string>, listing: string, api: Api)
    requires InPhase(w) && w.status.phase == Scaling && Sane(s) && !Finished(s)
    ensures Told(DeleteAndCommit(sp, w, ref, s, hosts, listing, api).w, ref, api)
  {
    var r := DeleteWorkers(w, ToDeleteNow(sp, s, listing), api);
    if !r.ok {
      FinishTells(r.w, ref, s, ScaleFailed, api);
    } else if AllGone(r.w.pods, s.pods, api) {
      var w1 := r.w.(status := r.w.status.(
        targetWorkers := AfterScaler(r.w.status.targetWorkers, ScaleIn, s.pods), currentWorkers := hosts));
      FinishTells(w1, ref, s, ScaleSucceeded, api);
    }
  }

  lemma RemoveChosenTells(sp: Spec, w: World, ref: Ref, s: Scaler, api: Api)
    requires InPhase(w) && w.status.phase == Scaling && Sane(s) && !Finished(s)
    ensures Told(RemoveChosen(sp, w, ref, s, api).w, ref, api)
  {
    var hosts := Remaining(w, s.pods);
    var r := ScaleScript(sp, w, s, hosts, api);
    ScaleScriptFrame(sp, w, s, hosts, api);
    if !r.ok {
      FinishTells(r.w, ref, r.s, ScaleFailed, api);
    } else if ListingFor(r.w, s, api).Some? {
      DeleteAndCommitTells(sp, r.w, ref, r.s, hosts, ListingFor(r.w, s, api).value, api);
    }
  }

  lemma ScaleInTells(sp: Spec, w: World, ref: Ref, api: Api)
    requires InPhase(w) && w.status.phase == Scaling && ref in w.scalers
    requires Sane(w.scalers[ref]) && !Finished(w.scalers[ref])
    ensures Told(ScaleInPass(sp, w, ref, w.scalers[ref], api).w, ref, api)
  {
    var s := w.scalers[ref];
    if !s.deleting {
      match ChooseToDelete(sp, s, api)
      case Chosen(pods) => RemoveChosenTells(sp, w, ref, s.(pods := pods), api);
      case Refused => FinishTells(w, ref, s, ScaleFailed, api);
      case OutOfRange =>
    }
  }

  lemma RollBackTells(w: World, ref: Ref, s: Scaler, api: Api)
    requires InPhase(w) && w.status.phase == Scaling && Sane(s) && !Finished(s)
    ensures Told(RollBack(w, ref, s, api), ref, api)
  {
    FinishTells(w, ref, s, ScaleFailed, api);
  }

  lemma AnnounceTells(sp: Spec, w: World, ref: Ref, s: Scaler, api: Api)
    requires InPhase(w) && w.status.phase == Scaling && Sane(s) && !Finished(s)
    ensures Told(AnnounceScaleOut(sp, w, ref, s, api).w, ref, api)
  {
    var hosts := AfterScaler(w.status.currentWorkers, ScaleOut, s.pods);
    var r := ScaleScript(sp, w, s, hosts, api);
    ScaleScriptFrame(sp, w, s, hosts, api);
    if r.ok {
      FinishTells(
        r.w.(status := r.w.status.(targetWorkers := AfterScaler(r.w.status.targetWorkers, ScaleOut, r.s.pods))),
        ref, r.s, ScaleSucceeded, api);
    } else {
      RollBackTells(r.w, ref, r.s, api);
    }
  }

  lemma AwaitTells(sp: Spec, w: World, ref: Ref, s: Scaler, count: nat, api: Api)
    requires InPhase(w) && w.status.phase == Scaling && Sane(s) && !Finished(s)
    ensures Told(AwaitAdded(sp, w, ref, s, count, api).w, ref, api)
  {
    if api.labelListed {
      if |ActivePods(w.pods, ref.name)| >= count { AnnounceTells(sp, w, ref, s, api); }
      else { RollBackTells(w, ref, s, api); }
    }
  }

  lemma ScaleOutTells(sp: Spec, w: World, ref: Ref, api: Api)
    requires InPhase(w) && w.status.phase == Scaling && ref in w.scalers
    requires Sane(w.scalers[ref]) && !Finished(w.scalers[ref])
    ensures Told(ScaleOutPass(sp, w, ref, w.scalers[ref], api).w, ref, api)
  {
    var s := w.scalers[ref];
    if !s.deleting {
      if !ValidCount(s) {
        FinishTells(w, ref, s, ScaleFailed, api);
      } else {
        var s1 := Allocate(sp, w, s, s.count.value);
        var w1 := w.(pods := Made(sp, w, s1.pods, Some(ref.name), api));
        RollBackTells(w1, ref, s1, api);
        AwaitTells(sp, w1, ref, s1, s.count.value, api);
      }
    }
  }

  /** Every pass over the scaler in progress records the outcome, if there is one, with its reason: the
      kind of scaler and how it did, on the scaler and on the job alike. */
  lemma OutcomeReasons(sp: Spec, w: World, api: Api, ref: Ref)
    requires PhaseInv(w) && !w.suspended && InProgress(w, ref)
    ensures Told(Reconcile(sp, w, api).w, ref, api)
  {
    if Reached(sp, w, api) {
      ScalingGoesOn(sp, w, api);
      PassOverScaler(sp, w, api, ref);
      ScalerTells(sp, SyncLauncher(sp, w, api), ref, api);
    } else {
      UnreachedTells(sp, w, api, ref);
    }
  }

  lemma ScalerTells(sp: Spec, w: World, ref: Ref, api: Api)
    requires InPhase(w) && w.status.phase == Scaling && ref in w.scalers
    requires Sane(w.scalers[ref]) && !Finished(w.scalers[ref])
    ensures Told(if ref.kind == ScaleIn then ScaleInPass(sp, w, ref, w.scalers[ref], api).w
                 else ScaleOutPass(sp, w, ref, w.scalers[ref], api).w, ref, api)
  {
    if ref.kind == ScaleIn { ScaleInTells(sp, w, ref, api); } else { ScaleOutTells(sp, w, ref, api); }
  }

  lemma UnreachedTells(sp: Spec, w: World, api: Api, ref: Ref)
    requires PhaseInv(w) && !w.suspended && InProgress(w, ref) && !Reached(sp, w, api)
    ensures Told(Reconcile(sp, w, api).w, ref, api)
  {
    UnreachedKeepsPods(sp, w, api);
    SyncLauncherPhases(sp, w, api);
  }
}
