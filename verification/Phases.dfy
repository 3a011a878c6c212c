/** The phase machine: what holds of phase and conditions in every state, and which phase changes
    a pass can make. */
module Phases {
  import opened GoStrings
  import opened WorkerNames
  import opened Conditions
  import opened ScalerRefs
  import opened Cluster
  import opened Pass

  /** The true start-up conditions are a prefix of the four steps. */
  predicate StepsInOrder(truths: set<ConditionType>) {
    && (WorkersReady in truths ==> WorkersCreated in truths)
    && (LauncherCreated in truths ==> WorkersReady in truths)
    && (Running in truths ==> LauncherCreated in truths)
  }

  /** Phase and true conditions agree. */
  predicate Phased(phase: ConditionType, truths: set<ConditionType>) {
    && StepsInOrder(truths)
    && phase in {NoPhase, Created, Running, Scaling, Succeeded, Failed, Suspended}
    && (phase == NoPhase ==> truths == {})
    && (phase in {Running, Scaling} ==> Running in truths)
    && (phase == Failed ==> Failed in truths)
    && (phase == Succeeded ==> Succeeded in truths)
    && (Running in truths ==> phase in {Running, Scaling, Suspended})
    && (Failed in truths ==> phase in {Failed, Suspended})
    && (Succeeded in truths ==> phase in {Succeeded, Suspended})
    && !(Running in truths && (Succeeded in truths || Failed in truths))
    && !(Succeeded in truths && Failed in truths)
    && Restarting !in truths
  }

  /** currentScaler is empty or the printed reference of some object, and is not empty while
      scaling. */
  predicate ScalerNamed(st: Status) {
    && (st.phase == Scaling ==> st.currentScaler != "")
    && (st.currentScaler != "" ==> Printed(st.currentScaler))
  }

  /** The text is the full name of the clean reference it resolves to. */
  predicate Printed(text: string) {
    Resolve(text).Some? && Clean(Resolve(text).value) && FullName(Resolve(text).value) == text
  }

  function TruthsOf(w: World): set<ConditionType> { Truths(w.status.conditions) }

  predicate InPhase(w: World) {
    Phased(w.status.phase, TruthsOf(w)) && (w.status.phase == NoPhase ==> w.status.conditions == [])
  }

  /** A scaler carries only scaler conditions and has not both succeeded and failed. */
  predicate Sane(s: Scaler) {
    var truths := Truths(s.conditions);
    && truths <= {Created, Scaling, ScriptExecuted, ScaleSucceeded, ScaleFailed}
    && !(ScaleSucceeded in truths && ScaleFailed in truths)
  }

  ghost predicate SaneScalers(scalers: map<Ref, Scaler>) {
    forall r :: r in scalers ==> Clean(r) && Sane(scalers[r])
  }

  ghost predicate PhaseInv(w: World) { InPhase(w) && ScalerNamed(w.status) && SaneScalers(w.scalers) }

  // ---------- single status updates ----------

  /** A condition that is neither a phase of its own nor excludes another keeps the agreement. */
  lemma PlainKeepsPhase(phase: ConditionType, truths: set<ConditionType>, t: ConditionType)
    requires Phased(phase, truths) && phase != NoPhase
    requires t in {Created, Suspended, WorkersCreated, WorkersReady, LauncherCreated,
                   Scaling, ScaleFailed, ScaleSucceeded}
    requires StepsInOrder(truths + {t})
    ensures Phased(phase, After(truths, t))
  {
    assert Failed !in truths ==> After(truths, t) == truths + {t};
  }

  /** An unfinished job can fail, succeed, or start running. */
  lemma TurningKeepsPhase(phase: ConditionType, truths: set<ConditionType>, t: ConditionType)
    requires Phased(phase, truths) && phase in {Created, Running, Scaling}
    requires t == Failed || t == Succeeded || (t == Running && LauncherCreated in truths)
    ensures Phased(t, After(truths, t))
  {
    assert After(truths, t) == truths - {Running} + {t};
  }

  lemma Noted(w: World, t: ConditionType, reason: string, api: Api)
    requires Settled(TruthsOf(w))
    ensures TruthsOf(Note(w, t, reason, api)) == After(TruthsOf(w), t)
  {
    SetEffect(w.status.conditions, NewCondition(t, reason, api.message, w.now));
  }

  /** Turning a job into phase `t`, with the condition. */
  lemma Turned(w: World, t: ConditionType, reason: string, api: Api)
    requires InPhase(w) && w.status.phase in {Created, Running, Scaling}
    requires t == Failed || t == Succeeded || (t == Running && LauncherCreated in TruthsOf(w))
    ensures InPhase(NoteEnter(w, t, reason, api))
  {
    Noted(w, t, reason, api);
    TurningKeepsPhase(w.status.phase, TruthsOf(w), t);
  }

  // ---------- the parts of a pass ----------

  /** Nothing of the job status but phase, conditions and worker lists has changed. */
  predicate SameJob(w: World, w': World) {
    && w'.status.currentScaler == w.status.currentScaler
    && w'.status.restartCount == w.status.restartCount
    && w'.scalers == w.scalers
  }

  /** What looking at the launcher makes of job and phase. */
  ghost predicate Synchronised(w: World, w': World) {
    && InPhase(w') && SameJob(w, w')
    && w'.status.phase in {w.status.phase, Running, Succeeded, Failed}
    && (w.status.phase == Scaling ==> w'.status.phase != Running)
  }

  lemma EndsPhases(w: World, t: ConditionType, reason: string, api: Api)
    requires InPhase(w) && w.status.phase in {Created, Running, Scaling} && t in {Succeeded, Failed}
    ensures Synchronised(w, NoteEnter(w, t, reason, api))
  {
    Turned(w, t, reason, api);
  }

  lemma LauncherRunsPhases(w: World, api: Api)
    requires InPhase(w) && LauncherCreated in TruthsOf(w) && w.status.phase in {Created, Running, Scaling}
    requires !Has(w.status.conditions, Running)
    ensures Synchronised(w, NoteEnter(w, Running, JOB_RUNNING, api))
  {
    Turned(w, Running, JOB_RUNNING, api);
  }

  lemma SyncLauncherPhases(sp: Spec, w: World, api: Api)
    requires InPhase(w) && LauncherCreated in TruthsOf(w)
    requires w.status.phase in {Created, Running, Scaling}
    ensures Synchronised(w, SyncLauncher(sp, w, api))
  {
    if api.launcherRead {
      match w.launcher
      case None => EndsPhases(w, Failed, JOB_FAILED, api);
      case Some(l) =>
        match l.phase
        case PodSucceeded => EndsPhases(w, Succeeded, JOB_SUCCEEDED, api);
        case PodFailed => EndsPhases(w, Failed, FailureReason(l), api);
        case PodRunning => if !Has(w.status.conditions, Running) { LauncherRunsPhases(w, api); }
        case _ =>
    }
  }

  /** Synchronising workers changes worker lists, pods and the hostfile, and nothing else. */
  lemma SyncWorkersFrame(sp: Spec, w: World, api: Api)
    ensures var w' := SyncWorkers(sp, w, api).w;
            && w'.status == w.status.(targetWorkers := w'.status.targetWorkers,
                                      currentWorkers := w'.status.currentWorkers)
            && w' == w.(status := w'.status, pods := w'.pods, launcher := w'.launcher)
            && (w'.launcher.Some? <==> w.launcher.Some?)
  {
    if api.podList.Some? {
      var running := SortNames(sp.name, RunningNames(w.pods, api.podList.value));
      RefreshFrame(sp, w, running, api);
      var r := RefreshHostfile(sp, w, running, api);
      if r.ok { ReplaceDeadFrame(sp, RecordRunning(r.w, running), api); }
    }
  }

  lemma RefreshFrame(sp: Spec, w: World, running: seq<string>, api: Api)
    ensures var w' := RefreshHostfile(sp, w, running, api).w;
            w' == w.(launcher := w'.launcher) && (w'.launcher.Some? <==> w.launcher.Some?)
  {
  }

  lemma ReplaceDeadFrame(sp: Spec, w: World, api: Api)
    ensures var w' := ReplaceDead(sp, w, api).w;
            && w' == w.(status := w'.status, pods := w'.pods)
            && w'.status == w.status.(targetWorkers := w'.status.targetWorkers)
  {
  }

  lemma CreateJobWorkersPhases(sp: Spec, w: World, api: Api)
    requires InPhase(w) && w.status.phase == Created
    ensures var w' := CreateJobWorkers(sp, w, api);
            && InPhase(w') && SameJob(w, w') && w'.status.phase in {Created, Failed}
  {
    var workers := ReplicaWorkers(sp, w.status);
    var made := CreateWorkers(sp.name, w.pods, workers, None, api.creates);
    var w1 := w.(status := w.status.(targetWorkers := workers), pods := made.pods);
    if made.ok {
      Noted(w1, WorkersCreated, "", api);
      PlainKeepsPhase(Created, TruthsOf(w1), WorkersCreated);
    } else {
      Turned(w1, Failed, JOB_FAILED, api);
    }
  }

  lemma WaitWorkersPhases(sp: Spec, w: World, api: Api)
    requires InPhase(w) && w.status.phase == Created && WorkersCreated in TruthsOf(w)
    ensures var w' := WaitWorkers(sp, w, api).w;
            InPhase(w') && SameJob(w, w') && w'.status.phase == Created
  {
    SyncWorkersFrame(sp, w, api);
    var w1 := SyncWorkers(sp, w, api).w;
    Noted(w1, WorkersReady, "", api);
    PlainKeepsPhase(Created, TruthsOf(w1), WorkersReady);
  }

  lemma CreateLauncherPhases(sp: Spec, w: World, api: Api)
    requires InPhase(w) && w.status.phase == Created && WorkersReady in TruthsOf(w)
    ensures var w' := CreateLauncher(sp, w, api);
            && InPhase(w') && SameJob(w, w') && w'.status.phase in {Created, Failed}
  {
    var w1 := EnsureConfig(sp, w, api).w;
    assert w1.status == w.status && w1.scalers == w.scalers;
    Turned(w1, Failed, JOB_FAILED, api);
    PlainKeepsPhase(Created, TruthsOf(w1), LauncherCreated);
    Noted(w1, LauncherCreated, "", api);
    Noted(NewLauncher(w1), LauncherCreated, "", api);
  }

  lemma DoStepsPhases(sp: Spec, w: World, api: Api)
    requires InPhase(w) && w.status.phase == Created
    ensures var w' := DoSteps(sp, w, api).w;
            && InPhase(w') && SameJob(w, w') && w'.status.phase in {Created, Running, Succeeded, Failed}
  {
    var truths := TruthsOf(w);
    if WorkersCreated !in truths { CreateJobWorkersPhases(sp, w, api); }
    else if WorkersReady !in truths { WaitWorkersPhases(sp, w, api); }
    else if LauncherCreated !in truths { CreateLauncherPhases(sp, w, api); }
    else if Running !in truths { SyncLauncherPhases(sp, w, api); }
  }

  lemma InitializePhases(w: World, api: Api)
    requires InPhase(w) && w.status.phase in {NoPhase, Created}
    ensures var w' := Initialize(w, api);
            InPhase(w') && SameJob(w, w') && w'.status.phase == Created
  {
    if w.status.conditions == [] {
      Noted(w, Created, JOB_CREATED, api);
      assert After({}, Created) == {Created};
    }
  }

  lemma ResetPhases(w: World, api: Api)
    ensures var w' := Reset(w, api);
            && InPhase(w') && w'.scalers == w.scalers && w'.pods == w.pods && w'.launcher == w.launcher
            && w'.status == Status(Created, w'.status.conditions, w.status.currentScaler,
                                   w.status.restartCount + 1, [], [])
            && TruthsOf(w') == {Created}
  {
    var w0 := w.(status := w.status.(conditions := []));
    Noted(w0, Created, JOB_CREATED, api);
    assert After({}, Created) == {Created};
  }

  /** Cleaning up touches pods and launcher only. */
  lemma CleanupFrame(sp: Spec, w: World, api: Api)
    ensures Cleanup(sp, w, api).w == w.(pods := Cleanup(sp, w, api).w.pods)
    ensures var w' := CleanupAll(w, api).w;
            w' == w.(pods := w'.pods, launcher := w'.launcher)
  {
  }

  lemma RestartPhases(sp: Spec, w: World, api: Api)
    requires InPhase(w) && w.status.phase == Failed
    ensures var w' := Restart(sp, w, api).w;
            && InPhase(w') && w'.scalers == w.scalers
            && w'.status.currentScaler == w.status.currentScaler
            && (if NeedRestart(sp, w.status)
                then w'.status.restartCount == w.status.restartCount + 1 && w'.status.phase in {Created, Failed}
                else w'.status == w.status)
  {
    CleanupFrame(sp, w, api);
    if NeedRestart(sp, w.status) {
      ResetPhases(w, api);
      var w1 := DeleteLauncher(DeleteAllPods(Reset(w, api), api).w, api);
      CreateJobWorkersPhases(sp, w1, api);
    }
  }

  // ---------- scaling ----------

  /** The worker lists are the same. */
  predicate SameWorkers(w: World, w': World) {
    && w'.status.targetWorkers == w.status.targetWorkers
    && w'.status.currentWorkers == w.status.currentWorkers
  }

  /** The worker lists after a successful scaling: a scale-in takes its pods off both lists, a
      scale-out appends its pods to the target list only. */
  predicate ScaledWorkers(w: World, w': World, kind: Kind, pods: seq<string>) {
    && w'.status.targetWorkers == AfterScaler(w.status.targetWorkers, kind, pods)
    && w'.status.currentWorkers
       == (if kind == ScaleIn then AfterScaler(w.status.currentWorkers, ScaleIn, pods)
           else w.status.currentWorkers)
  }

  /** Job and scalers after one pass over the scaler `ref` that leaves it unfinished. */
  ghost predicate StillScaling(w: World, w': World, ref: Ref)
    requires ref in w'.scalers
  {
    && w'.status.phase == Scaling && w'.status.currentScaler == w.status.currentScaler
    && !Finished(w'.scalers[ref]) && SameWorkers(w, w')
  }

  /** Job and scalers after the pass that finishes `ref`: back to Running without a scaler; the
      worker lists change exactly on success. */
  ghost predicate DoneScaling(w: World, w': World, ref: Ref)
    requires ref in w'.scalers
  {
    && w'.status.phase == Running && w'.status.currentScaler == ""
    && Finished(w'.scalers[ref])
    && (if Has(w'.scalers[ref].conditions, ScaleSucceeded)
        then ScaledWorkers(w, w', ref.kind, w'.scalers[ref].pods) else SameWorkers(w, w'))
  }

  /** What one pass over the current scaler does to job and scalers. */
  ghost predicate ScaledBy(w: World, w': World, ref: Ref) {
    && InPhase(w') && w'.status.restartCount == w.status.restartCount
    && ref in w'.scalers && Sane(w'.scalers[ref])
    && w'.scalers == w.scalers[ref := w'.scalers[ref]]
    && (StillScaling(w, w', ref) || DoneScaling(w, w', ref))
  }

  /** A condition set on a scaler. */
  lemma ScalerNoted(s: Scaler, c: Condition)
    requires Sane(s) && !Finished(s) && c.status
    requires c.ctype in {Created, Scaling, ScriptExecuted, ScaleSucceeded, ScaleFailed}
    ensures var s' := s.(conditions := Set(s.conditions, c));
            && Sane(s') && Truths(s'.conditions) == Truths(s.conditions) + {c.ctype}
            && (Finished(s') <==> c.ctype in {ScaleSucceeded, ScaleFailed})
  {
    SetEffect(s.conditions, c);
    assert After(Truths(s.conditions), c.ctype) == Truths(s.conditions) + {c.ctype};
  }

  lemma FinishScalerPhases(w: World, ref: Ref, s: Scaler, t: ConditionType, api: Api)
    requires InPhase(w) && w.status.phase == Scaling && Sane(s) && !Finished(s)
    requires t == ScaleSucceeded || t == ScaleFailed
    ensures var w' := FinishScaler(w, ref, s, t, api);
            && InPhase(w') && w'.status.phase == Running && w'.status.currentScaler == ""
            && w'.status.restartCount == w.status.restartCount && SameWorkers(w, w')
            && Sane(w'.scalers[ref]) && Finished(w'.scalers[ref])
            && (Has(w'.scalers[ref].conditions, ScaleSucceeded) <==> t == ScaleSucceeded)
            && w'.scalers[ref].pods == s.pods
            && w'.scalers == w.scalers[ref := w'.scalers[ref]]
  {
    var w' := FinishScaler(w, ref, s, t, api);
    var reason := (if ref.kind == ScaleIn then "ScalingIn" else "ScalingOut")
                  + (if t == ScaleSucceeded then "Succeeded" else "Failed");
    ScalerNoted(s, NewCondition(t, reason, api.message, w.now));
    SetEffect(w.status.conditions, NewCondition(t, reason, api.message, w.now));
    PlainKeepsPhase(Running, TruthsOf(w), t);
  }

  /** Running the script changes the launcher's file and marks the scaler. */
  lemma ScaleScriptFrame(sp: Spec, w: World, s: Scaler, workers: seq<string>, api: Api)
    requires Sane(s) && !Finished(s)
    ensures var r := ScaleScript(sp, w, s, workers, api);
            && r.w == w.(launcher := r.w.launcher) && (r.w.launcher.Some? <==> w.launcher.Some?)
            && r.s == s.(conditions := r.s.conditions)
            && Sane(r.s) && !Finished(r.s)
            && (if r.ok then Truths(r.s.conditions) == Truths(s.conditions) + {ScriptExecuted}
                else r.s == s)
  {
    if Has(s.conditions, ScriptExecuted) {
      assert Truths(s.conditions) == Truths(s.conditions) + {ScriptExecuted};
    } else {
      ScalerNoted(s, NewCondition(ScriptExecuted, "", api.message, w.now));
    }
  }

  lemma DeleteAndCommitPhases(sp: Spec, w: World, ref: Ref, s: Scaler, hosts: seq<string>, listing: string, api: Api)
    requires InPhase(w) && w.status.phase == Scaling && Sane(s) && !Finished(s)
    requires ref.kind == ScaleIn && hosts == AfterScaler(w.status.currentWorkers, ScaleIn, s.pods)
    ensures ScaledBy(w, DeleteAndCommit(sp, w, ref, s, hosts, listing, api).w, ref)
  {
    var r := DeleteWorkers(w, ToDeleteNow(sp, s, listing), api);
    if !r.ok {
      FinishScalerPhases(r.w, ref, s, ScaleFailed, api);
    } else if AllGone(r.w.pods, s.pods, api) {
      var w1 := r.w.(status := r.w.status.(
        targetWorkers := AfterScaler(r.w.status.targetWorkers, ScaleIn, s.pods), currentWorkers := hosts));
      FinishScalerPhases(w1, ref, s, ScaleSucceeded, api);
    }
  }

  lemma ScaleInPhases(sp: Spec, w: World, ref: Ref, s: Scaler, api: Api)
    requires InPhase(w) && w.status.phase == Scaling && Sane(s) && !Finished(s)
    requires ref in w.scalers && w.scalers[ref] == s && ref.kind == ScaleIn
    ensures ScaledBy(w, ScaleInPass(sp, w, ref, s, api).w, ref)
  {
    assert w.scalers[ref := s] == w.scalers;
    if !s.deleting {
      match ChooseToDelete(sp, s, api)
      case Refused => FinishScalerPhases(w, ref, s, ScaleFailed, api);
      case OutOfRange =>
      case Chosen(pods) => RemoveChosenPhases(sp, w, ref, s.(pods := pods), api);
    }
  }

  lemma RemoveChosenPhases(sp: Spec, w: World, ref: Ref, s: Scaler, api: Api)
    requires InPhase(w) && w.status.phase == Scaling && Sane(s) && !Finished(s) && ref.kind == ScaleIn
    ensures ScaledBy(w, RemoveChosen(sp, w, ref, s, api).w, ref)
  {
    var hosts := AfterScaler(w.status.currentWorkers, ScaleIn, s.pods);
    ScaleScriptFrame(sp, w, s, hosts, api);
    var r := ScaleScript(sp, w, s, hosts, api);
    var w' := RemoveChosen(sp, w, ref, s, api).w;
    if !r.ok {
      FinishScalerPhases(r.w, ref, r.s, ScaleFailed, api);
    } else if r.s.script != "" {
      DeleteAndCommitPhases(sp, r.w, ref, r.s, hosts, "", api);
      ScaledByLauncher(w, r.w, w', ref);
    } else {
      match Listing(r.w, api)
      case None =>
      case Some(listing) =>
        DeleteAndCommitPhases(sp, r.w, ref, r.s, hosts, listing, api);
        ScaledByLauncher(w, r.w, w', ref);
    }
  }

  /** The launcher's file plays no part in what happens to job and scaler. */
  lemma ScaledByLauncher(w: World, w1: World, w': World, ref: Ref)
    requires w1 == w.(launcher := w1.launcher) && ScaledBy(w1, w', ref)
    ensures ScaledBy(w, w', ref)
  {
  }

  lemma RollBackPhases(w: World, ref: Ref, s: Scaler, api: Api)
    requires InPhase(w) && w.status.phase == Scaling && Sane(s) && !Finished(s)
    ensures ScaledBy(w, RollBack(w, ref, s, api), ref)
  {
    FinishScalerPhases(w, ref, s, ScaleFailed, api);
  }

  lemma AnnouncePhases(sp: Spec, w: World, ref: Ref, s: Scaler, api: Api)
    requires InPhase(w) && w.status.phase == Scaling && Sane(s) && !Finished(s) && ref.kind == ScaleOut
    ensures ScaledBy(w, AnnounceScaleOut(sp, w, ref, s, api).w, ref)
  {
    var hosts := AfterScaler(w.status.currentWorkers, ScaleOut, s.pods);
    ScaleScriptFrame(sp, w, s, hosts, api);
    var r := ScaleScript(sp, w, s, hosts, api);
    if r.ok {
      FinishScalerPhases(
        r.w.(status := r.w.status.(targetWorkers := AfterScaler(r.w.status.targetWorkers, ScaleOut, r.s.pods))),
        ref, r.s, ScaleSucceeded, api);
    } else {
      RollBackPhases(r.w, ref, r.s, api);
    }
  }

  lemma AwaitPhases(sp: Spec, w: World, ref: Ref, s: Scaler, count: nat, api: Api)
    requires InPhase(w) && w.status.phase == Scaling && Sane(s) && !Finished(s) && ref.kind == ScaleOut
    ensures ScaledBy(w, AwaitAdded(sp, w, ref, s, count, api).w, ref)
  {
    if api.labelListed {
      if |ActivePods(w.pods, ref.name)| >= count { AnnouncePhases(sp, w, ref, s, api); }
      else if TimedOut(s.conditions, s.timeout, w.now) { RollBackPhases(w, ref, s, api); }
    }
  }

  lemma ScaleOutPhases(sp: Spec, w: World, ref: Ref, s: Scaler, api: Api)
    requires InPhase(w) && w.status.phase == Scaling && Sane(s) && !Finished(s)
    requires ref in w.scalers && w.scalers[ref] == s && ref.kind == ScaleOut
    ensures ScaledBy(w, ScaleOutPass(sp, w, ref, s, api).w, ref)
  {
    assert w.scalers[ref := s] == w.scalers;
    if !s.deleting {
      if s.count.None? || s.count.value <= 0 {
        FinishScalerPhases(w, ref, s, ScaleFailed, api);
      } else {
        var s1 := Allocate(sp, w, s, s.count.value);
        var w1 := w.(pods := CreateWorkers(sp.name, w.pods, s1.pods, Some(ref.name), api.creates).pods);
        if CreateWorkers(sp.name, w.pods, s1.pods, Some(ref.name), api.creates).ok {
          AwaitPhases(sp, w1, ref, s1, s.count.value, api);
        } else {
          RollBackPhases(w1, ref, s1, api);
        }
      }
    }
  }

  /** The scaler that the job's currentScaler names. */
  function CurrentRef(w: World): Ref
    requires Printed(w.status.currentScaler)
  {
    Resolve(w.status.currentScaler).value
  }

  /** A pass over the scaler after the launcher was looked at: nothing happens to a finished job;
      a scaler that is gone or finished is dropped; otherwise the pass is one over that scaler. */
  lemma RunScalerPhases(sp: Spec, w: World, api: Api)
    requires PhaseInv(w) && w.status.phase in {Scaling, Succeeded, Failed}
    requires w.status.currentScaler != ""
    ensures var w' := RunScaler(sp, w, api).w;
            var ref := CurrentRef(w);
            || (w' == w)
            || (w.status.phase == Scaling && w' == DropScaler(w)
                && (ref !in w.scalers || Finished(w.scalers[ref])))
            || (w.status.phase == Scaling && ref in w.scalers && !Finished(w.scalers[ref])
                && ScaledBy(w, w', ref))
  {
    var ref := CurrentRef(w);
    if w.status.phase == Scaling && ref in w.scalers && !Finished(w.scalers[ref]) {
      if ref.kind == ScaleIn { ScaleInPhases(sp, w, ref, w.scalers[ref], api); }
      else { ScaleOutPhases(sp, w, ref, w.scalers[ref], api); }
    }
  }

  /** What a pass in phase Scaling does, as a whole. */
  ghost predicate ScalingMove(w: World, w': World) {
    && PhaseInv(w') && w'.status.restartCount == w.status.restartCount
    && w'.scalers.Keys == w.scalers.Keys && OnlyCurrentMoves(w, w')
    && (w'.status.phase == Running || (w'.status.phase in {Scaling, Succeeded, Failed}
         && SameWorkers(w, w') && w'.status.currentScaler == w.status.currentScaler))
    && (w'.status.phase in {Succeeded, Failed} ==> w'.scalers == w.scalers)
    && (w'.status.phase == Running ==> w'.status.currentScaler == "" && LeftScaling(w, w'))
  }

  /** The pass that leads from Scaling back to Running: the scaler was dropped because it was gone
      or finished, or it is finished now. */
  ghost predicate LeftScaling(w: World, w': World) {
    Printed(w.status.currentScaler) &&
    var ref := CurrentRef(w);
    if ref !in w.scalers || Finished(w.scalers[ref]) then SameWorkers(w, w') && w'.scalers == w.scalers
    else ref in w'.scalers && DoneScaling(w, w', ref)
  }

  /** Scalers other than the current one, and finished ones, are untouched. */
  ghost predicate OnlyCurrentMoves(w: World, w': World) {
    Printed(w.status.currentScaler) &&
    forall r :: r in w.scalers && r in w'.scalers && (r != CurrentRef(w) || Finished(w.scalers[r])) ==>
      w'.scalers[r] == w.scalers[r]
  }

  lemma ExecuteScalingPhases(sp: Spec, w: World, api: Api)
    requires PhaseInv(w) && w.status.phase == Scaling
    ensures ScalingMove(w, ExecuteScaling(sp, w, api).w)
  {
    SyncLauncherPhases(sp, w, api);
    SyncLauncherWorkers(sp, w, api);
    RunScalerMove(sp, SyncLauncher(sp, w, api), api);
  }

  lemma SyncLauncherWorkers(sp: Spec, w: World, api: Api)
    ensures var w' := SyncLauncher(sp, w, api);
            SameWorkers(w, w') && w' == w.(status := w'.status, launcher := w'.launcher)
  {
  }

  lemma RunScalerMove(sp: Spec, w: World, api: Api)
    requires PhaseInv(w) && w.status.phase in {Scaling, Succeeded, Failed}
    requires w.status.currentScaler != ""
    ensures ScalingMove(w, RunScaler(sp, w, api).w)
  {
    var w', ref := RunScaler(sp, w, api).w, CurrentRef(w);
    RunScalerPhases(sp, w, api);
    if w' != w && ref in w.scalers && !Finished(w.scalers[ref]) { ScaledIsMove(w, w', ref); }
  }

  lemma ScaledIsMove(w: World, w': World, ref: Ref)
    requires PhaseInv(w) && w.status.phase == Scaling && w.status.currentScaler != "" && ref == CurrentRef(w)
    requires ref in w.scalers && !Finished(w.scalers[ref]) && ScaledBy(w, w', ref)
    ensures ScalingMove(w, w')
  {
  }

  // ---------- starting a scaler ----------

  /** What selecting a scaler does: nothing, or the job starts Scaling on an unfinished, owned
      object. */
  ghost predicate SelectMove(w: World, w': World) {
    || w' == w
    || (&& w'.status.phase == Scaling && Printed(w'.status.currentScaler)
        && var ref := CurrentRef(w');
        && ref in w.scalers && !Finished(w.scalers[ref]) && w.scalers[ref].owned
        && w'.status == w.status.(phase := Scaling, conditions := w'.status.conditions,
                                  currentScaler := FullName(ref))
        && ref in w'.scalers && w'.scalers == w.scalers[ref := w'.scalers[ref]]
        && Sane(w'.scalers[ref]) && !Finished(w'.scalers[ref])
        && w' == w.(status := w'.status, scalers := w'.scalers))
  }

  lemma SelectScalerPhases(w: World, api: Api)
    requires PhaseInv(w) && w.status.phase == Running
    ensures SelectMove(w, SelectScaler(w, api)) && PhaseInv(SelectScaler(w, api))
  {
    match Latest(w, api)
    case None =>
    case Some(ref) =>
      LatestIsCandidate(w, api);
      ResolveFullName(ref);
      StartScalerPhases(w, ref, api);
  }

  lemma StartScalerPhases(w: World, ref: Ref, api: Api)
    requires InPhase(w) && w.status.phase == Running
    requires ref in w.scalers && Sane(w.scalers[ref]) && !Finished(w.scalers[ref])
    ensures var w' := StartScaler(w, ref, api);
            InPhase(w') && Sane(w'.scalers[ref]) && !Finished(w'.scalers[ref])
  {
    var cond := NewCondition(Scaling, SCALING_START, api.message, w.now);
    ScalerNoted(w.scalers[ref], cond);
    SetEffect(w.status.conditions, cond);
    PlainKeepsPhase(Running, TruthsOf(w), Scaling);
  }

  /** The selected scaler is unfinished and owned, and of those no listed one is strictly later. */
  lemma LatestIsCandidate(w: World, api: Api)
    ensures Latest(w, api).Some? ==>
      var ref := Latest(w, api).value;
      && !Finished(w.scalers[ref]) && w.scalers[ref].owned
      && forall l :: l in Candidates(w, api) ==> l.created <= w.scalers[ref].created
  {
    var candidates := Candidates(w, api);
    AvailableMembers(w.scalers, if api.scaleOuts.Some? then api.scaleOuts.value else []);
    AvailableMembers(w.scalers, if api.scaleIns.Some? then api.scaleIns.value else []);
    if candidates != [] {
      LatestIsLatest(candidates[0], candidates[1..]);
      assert candidates == [candidates[0]] + candidates[1..];
      assert candidates[0] in candidates;
    }
  }

  lemma ReconcileRunningPhases(sp: Spec, w: World, api: Api)
    requires PhaseInv(w) && w.status.phase == Running
    ensures var w' := ReconcileRunning(sp, w, api).w;
            && PhaseInv(w') && w'.status.restartCount == w.status.restartCount
            && w'.status.phase in {Running, Scaling, Succeeded, Failed}
            && (w'.status.phase != Scaling ==>
                  w'.scalers == w.scalers && w'.status.currentScaler == w.status.currentScaler)
            && (w'.status.phase == Scaling ==>
                  && w'.status.currentScaler != ""
                  && var ref := CurrentRef(w');
                  && ref in w.scalers && !Finished(w.scalers[ref]) && w.scalers[ref].owned
                  && ref in w'.scalers && w'.scalers == w.scalers[ref := w'.scalers[ref]])
  {
    SyncLauncherPhases(sp, w, api);
    var w1 := SyncLauncher(sp, w, api);
    SyncWorkersFrame(sp, w1, api);
    var r := SyncWorkers(sp, w1, api);
    if r.ok && r.w.status.phase == Running { SelectScalerPhases(r.w, api); }
  }
}
