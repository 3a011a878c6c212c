/** Exactly when each kind of disturbance breaks the agreement of hostfile and current workers. */
module Disturbances {
  import opened GoStrings
  import opened WorkerNames
  import opened Conditions
  import opened ScalerRefs
  import opened Hostfile
  import opened Cluster
  import opened Pass
  import opened System
  import opened Phases
  import opened Lifecycle
  import opened Workers
  import opened Launching
  import opened ScalerPasses
  import opened WorkerLists
  import opened Ledger
  import opened ScaleIns
  import opened ScaleOuts
  import opened Decisions
  import opened Agreement

  // ---------- scale-ins that do not commit ----------

  /** A file without the chosen workers lists all current ones exactly when no current one was chosen. */
  lemma StruckOff(sp: Spec, w: World, w': World, pods: seq<string>)
    requires PlainJob(sp) && AllCanonical(sp, w.status.currentWorkers)
    requires w.launcher.Some? && Shows(sp, w.launcher.value.hostfile, Remaining(w, pods))
    requires w'.launcher == w.launcher && SameWorkers(w, w')
    ensures Agrees(sp, w') <==> forall n :: n in pods ==> n !in w.status.currentWorkers
  {
    FilterMembers(w.status.currentWorkers, pods, true);
    if forall n :: n in pods ==> n !in w.status.currentWorkers {
      KeptAll(w.status.currentWorkers, pods);
    } else if Agrees(sp, w') {
      ShowsOne(sp, w.launcher.value.hostfile, Remaining(w, pods), w.status.currentWorkers);
    }
  }

  lemma ScriptedLauncher(sp: Spec, w: World, ref: Ref, api: Api)
    requires ref in w.scalers && Has(w.scalers[ref].conditions, ScriptExecuted)
    ensures ScaleInPass(sp, w, ref, w.scalers[ref], api).w.launcher == w.launcher
  {
    var s := w.scalers[ref];
    if !s.deleting {
      match ChooseToDelete(sp, s, api)
      case Chosen(pods) => RemoveChosenDeletes(sp, w, ref, s.(pods := pods), api);
      case _ =>
    }
  }

  /** A scale-in that fails after its script has run leaves a short file behind: file and list agree
      afterwards exactly when none of the chosen workers was a current one. */
  lemma FailedScaleIn(sp: Spec, ws: seq<World>, es: seq<Event>, k: nat, r: Ref)
    requires PlainJob(sp) && Run(sp, ws, es) && Init(ws[0]) && k < |es|
    requires Shrinking(ws[k], r) && Rewritten(ws[k]) && FileListed(sp, ws[k])
    requires FinishesNow(ws[k], ws[k + 1], r) && !Has(ws[k + 1].scalers[r].conditions, ScaleSucceeded)
    ensures Agrees(sp, ws[k + 1]) <==>
              forall n :: n in ws[k].scalers[r].pods ==> n !in ws[k].status.currentWorkers
  {
    RunOrdered(sp, ws, es, k);
    FinishedInTurn(sp, ws, es, k, r);
    RunPhases(sp, ws, es, k);
    StepOf(sp, ws, es, k);
    FinishKeepsLauncher(sp, ws[k], es[k].api, r);
    StruckOff(sp, ws[k], ws[k + 1], ws[k].scalers[r].pods);
  }

  lemma FinishKeepsLauncher(sp: Spec, w: World, api: Api, r: Ref)
    requires PhaseInv(w) && InProgress(w, r) && r.kind == ScaleIn && w.launcher.Some? && !w.suspended
    requires Has(w.scalers[r].conditions, ScriptExecuted)
    ensures Reconcile(sp, w, api).w.launcher == w.launcher
  {
    PassOverScaleIn(sp, w, api, r);
    ScriptedLauncher(sp, w, r, api);
  }

  /** A scale-in that is removed after its script has run: the next pass gives it up, the job runs on
      with the short file, and file and list agree exactly when none of the chosen workers was a
      current one. */
  lemma DroppedScaleIn(sp: Spec, ws: seq<World>, es: seq<Event>, k: nat, r: Ref)
    requires PlainJob(sp) && Run(sp, ws, es) && Init(ws[0]) && k + 1 < |es|
    requires Shrinking(ws[k], r) && Rewritten(ws[k]) && FileListed(sp, ws[k])
    requires es[k] == ScalerRemoved(r) && es[k + 1].Reconciled? && !ws[k].suspended
    requires var api := es[k + 1].api;
             api.scalerRead && !LauncherIs(ws[k], api, PodSucceeded) && !LauncherIs(ws[k], api, PodFailed)
    ensures ws[k + 2].status.phase == Running && ws[k + 2].status.currentScaler == ""
    ensures SameWorkers(ws[k], ws[k + 2]) && ws[k + 2].launcher == ws[k].launcher
    ensures Agrees(sp, ws[k + 2]) <==>
              forall n :: n in ws[k].scalers[r].pods ==> n !in ws[k].status.currentWorkers
  {
    StepOf(sp, ws, es, k);
    StepOf(sp, ws, es, k + 1);
    RunPhases(sp, ws, es, k + 1);
    RunOrdered(sp, ws, es, k);
    DropsCurrent(sp, ws[k + 1], es[k + 1].api);
    StruckOff(sp, ws[k], ws[k + 2], ws[k].scalers[r].pods);
  }

  lemma DropsCurrent(sp: Spec, w: World, api: Api)
    requires PhaseInv(w) && !w.suspended && w.status.phase == Scaling && api.scalerRead && w.launcher.Some?
    requires CurrentRef(w) !in w.scalers
    requires !LauncherIs(w, api, PodSucceeded) && !LauncherIs(w, api, PodFailed)
    ensures var w' := Reconcile(sp, w, api).w;
            && w'.status.phase == Running && w'.status.currentScaler == ""
            && SameWorkers(w, w') && w'.launcher == w.launcher
  {
    SyncDecides(sp, w, api);
    SyncKeepsWorld(sp, w, api);
  }

  // ---------- a script that ran in an earlier attempt ----------

  /** The file after the deletions of a scale-in lists what is left, unless its script was marked as
      executed before: then the file is the one from before. */
  lemma FileAfterDeletion(sp: Spec, w: World, ref: Ref, s: Scaler, api: Api)
    requires s.script == "" && w.launcher.Some? && api.exec == ExecDone && api.processes.Some?
    ensures var w' := RemoveChosen(sp, w, ref, s, api).w;
            && w'.launcher.Some?
            && w'.launcher.value.hostfile ==
                 if Has(s.conditions, ScriptExecuted) then w.launcher.value.hostfile
                 else HostfileText(sp, Remaining(w, s.pods))
  {
    ChosenIsDeleted(sp, w, ref, s, api);
    RemoveChosenDeletes(sp, w, ref, s, api);
  }

  lemma ChosenGoes(sp: Spec, w: World, ref: Ref, s: Scaler, api: Api, n: string)
    requires s.script == "" && w.launcher.Some? && api.exec == ExecDone && api.processes.Some?
    requires api.serviceListed && api.deleteListed && n !in api.undeleted
    requires n in s.pods && !Attached(sp, api.processes.value, n)
    ensures n !in RemoveChosen(sp, w, ref, s, api).w.pods
  {
    var r := ScaleScript(sp, w, s, Remaining(w, s.pods), api);
    ChosenIsDeleted(sp, w, ref, s, api);
    AskedToDelete(sp, s, api.processes.value);
    DeleteAndCommitDeletes(sp, r.w, ref, r.s, Remaining(w, s.pods), api.processes.value, api);
  }

  /** A script-less scale-in whose choice is recorded, on a launcher whose file lists the current
      workers: its next pass deletes a chosen worker that no process holds, and afterwards the file
      still lists that worker exactly when the script was marked as executed already.  Records survive
      a restart of the job (`ScalerHistory.RecordsSurvive`), so a scale-in left in flight by one comes
      to this. */
  lemma StaleScript(sp: Spec, w: World, api: Api, ref: Ref, n: string)
    requires PlainJob(sp) && PhaseInv(w) && AllCanonical(sp, w.status.currentWorkers) && Agrees(sp, w)
    requires !w.suspended && CallsMade(sp, w, api) && Shrinking(w, ref) && !w.scalers[ref].deleting
    requires n in w.scalers[ref].pods && n in w.status.currentWorkers && n in w.pods
    requires n !in api.undeleted && !Attached(sp, api.processes.value, n)
    ensures var w' := Reconcile(sp, w, api).w;
            && n !in w'.pods && w'.launcher.Some?
            && (Shows(sp, w'.launcher.value.hostfile, w.status.currentWorkers) <==>
                  Has(w.scalers[ref].conditions, ScriptExecuted))
            && (!Has(w.scalers[ref].conditions, ScriptExecuted) ==>
                  Shows(sp, w'.launcher.value.hostfile, Remaining(w, w.scalers[ref].pods)))
  {
    var s, w' := w.scalers[ref], Reconcile(sp, w, api).w;
    PassIsScaleIn(sp, w, api, ref);
    SyncKeepsWorld(sp, w, api);
    FileAfterDeletion(sp, w, ref, s, api);
    ChosenGoes(sp, w, ref, s, api, n);
    ShortFile(sp, w, s.pods, n);
  }

  /** A file that leaves a current worker out does not list the current workers. */
  lemma ShortFile(sp: Spec, w: World, pods: seq<string>, n: string)
    requires PlainJob(sp) && AllCanonical(sp, w.status.currentWorkers)
    requires n in pods && n in w.status.currentWorkers
    ensures !Shows(sp, HostfileText(sp, Remaining(w, pods)), w.status.currentWorkers)
  {
    var text := HostfileText(sp, Remaining(w, pods));
    FilterMembers(w.status.currentWorkers, pods, true);
    if Shows(sp, text, w.status.currentWorkers) {
      ShowsOne(sp, text, Remaining(w, pods), w.status.currentWorkers);
    }
  }

  // ---------- scale-outs ----------

  /** A scale-out that succeeds by running its script lists current and added workers in the file. */
  lemma AnnounceWrites(sp: Spec, w: World, ref: Ref, s: Scaler, api: Api)
    requires InPhase(w) && w.status.phase == Scaling && Sane(s) && !Finished(s)
    requires w.launcher.Some? && s.script == "" && !Has(s.conditions, ScriptExecuted)
    ensures var w' := AnnounceScaleOut(sp, w, ref, s, api).w;
            ref in w'.scalers && Has(w'.scalers[ref].conditions, ScaleSucceeded) ==>
              && w'.launcher.Some?
              && w'.launcher.value.hostfile == HostfileText(sp, w.status.currentWorkers + s.pods)
  {
    AnnounceDecides(sp, w, ref, s, api);
  }

  lemma AwaitWrites(sp: Spec, w: World, ref: Ref, s: Scaler, count: nat, api: Api)
    requires InPhase(w) && w.status.phase == Scaling && Sane(s) && !Finished(s)
    requires w.launcher.Some? && s.script == "" && !Has(s.conditions, ScriptExecuted)
    ensures var w' := AwaitAdded(sp, w, ref, s, count, api).w;
            ref in w'.scalers && Has(w'.scalers[ref].conditions, ScaleSucceeded) ==>
              && w'.launcher.Some?
              && w'.launcher.value.hostfile == HostfileText(sp, w.status.currentWorkers + s.pods)
  {
    if api.labelListed {
      if |ActivePods(w.pods, ref.name)| >= count { AnnounceWrites(sp, w, ref, s, api); }
      else if TimedOut(s.conditions, s.timeout, w.now) { RollBackOutcome(w, ref, s, api); }
    }
  }

  lemma ScaleOutWrites(sp: Spec, w: World, ref: Ref, api: Api, w': World)
    requires InPhase(w) && w.status.phase == Scaling && ref in w.scalers && ref in w'.scalers
    requires w' == ScaleOutPass(sp, w, ref, w.scalers[ref], api).w
    requires var s := w.scalers[ref];
             Sane(s) && !Finished(s) && s.script == "" && !Has(s.conditions, ScriptExecuted)
    requires w.launcher.Some? && Has(w'.scalers[ref].conditions, ScaleSucceeded)
    ensures w'.launcher.Some?
    ensures w'.launcher.value.hostfile == HostfileText(sp, w.status.currentWorkers + w'.scalers[ref].pods)
  {
    var s := w.scalers[ref];
    if !s.deleting {
      if !ValidCount(s) {
        FinishScalerPhases(w, ref, s, ScaleFailed, api);
      } else {
        var s1 := Allocate(sp, w, s, s.count.value);
        var made := CreateWorkers(sp.name, w.pods, s1.pods, Some(ref.name), api.creates);
        var w1 := w.(pods := made.pods);
        if made.ok {
          AwaitWrites(sp, w1, ref, s1, s.count.value, api);
          AwaitOutcome(sp, w1, ref, s1, s.count.value, api);
        } else {
          RollBackOutcome(w1, ref, s1, api);
        }
      }
    }
  }

  /** A scale-out that succeeds lists the added workers in the file at once but not among the current
      workers, and the job runs on with the two disagreeing.  The next sync that gets through brings
      them together exactly when it sees the running workers changed: not if the added ones are gone. */
  lemma ScaleOutThenSync(sp: Spec, ws: seq<World>, es: seq<Event>, k: nat, r: Ref)
    requires PlainJob(sp) && Run(sp, ws, es) && Init(ws[0]) && k + 1 < |es| && RoomyFrom(sp, ws, 0, k)
    requires r.kind == ScaleOut && SucceedsNow(ws[k], ws[k + 1], r) && ws[k].launcher.Some?
    requires ws[k].scalers[r].script == "" && !Has(ws[k].scalers[r].conditions, ScriptExecuted)
    requires es[k + 1].Reconciled? && !ws[k + 1].suspended
    requires var api := es[k + 1].api;
             && api.exec == ExecDone && api.podList.Some?
             && !LauncherIs(ws[k + 1], api, PodSucceeded) && !LauncherIs(ws[k + 1], api, PodFailed)
    ensures ws[k + 1].status.phase == Running && !Agrees(sp, ws[k + 1])
    ensures Agrees(sp, ws[k + 2]) <==>
              Seen(sp, ws[k + 1].pods, es[k + 1].api.podList.value) != ws[k + 1].status.currentWorkers
  {
    AddedToFile(sp, ws, es, k, r);
    var w, added := ws[k + 1], ws[k + 1].scalers[r].pods;
    RunOrdered(sp, ws, es, k + 1);
    RunPhases(sp, ws, es, k + 1);
    RunPods(sp, ws, es, k + 1);
    StepOf(sp, ws, es, k + 1);
    if Agrees(sp, w) {
      ShowsOne(sp, w.launcher.value.hostfile, w.status.currentWorkers + added, w.status.currentWorkers);
    }
    RunningSync(sp, w, w.status.currentWorkers + added, es[k + 1].api);
  }

  lemma AddedToFile(sp: Spec, ws: seq<World>, es: seq<Event>, k: nat, r: Ref)
    requires Run(sp, ws, es) && Init(ws[0]) && k < |es| && RoomyFrom(sp, ws, 0, k)
    requires r.kind == ScaleOut && SucceedsNow(ws[k], ws[k + 1], r) && ws[k].launcher.Some?
    requires ws[k].scalers[r].script == "" && !Has(ws[k].scalers[r].conditions, ScriptExecuted)
    ensures var w', added := ws[k + 1], ws[k + 1].scalers[r].pods;
            && w'.status.phase == Running && w'.launcher.Some?
            && Shows(sp, w'.launcher.value.hostfile, w'.status.currentWorkers + added)
            && added != [] && AllCanonical(sp, added)
  {
    RunPhases(sp, ws, es, k);
    RoomIn(sp, ws, 0, k, k);
    RunAllocated(sp, ws, es, 0, k);
    StepOf(sp, ws, es, k);
    NextAddsToFile(sp, ws[k], es[k], ws[k + 1], r);
  }

  lemma NextAddsToFile(sp: Spec, w: World, e: Event, w': World, r: Ref)
    requires PhaseInv(w) && Next(sp, w, e, w') && r.kind == ScaleOut && SucceedsNow(w, w', r)
    requires AllAllocated(sp, w) && Room(sp, w) && w.launcher.Some?
    requires w.scalers[r].script == "" && !Has(w.scalers[r].conditions, ScriptExecuted)
    ensures var added := w'.scalers[r].pods;
            && w'.status.phase == Running && w'.launcher.Some?
            && Shows(sp, w'.launcher.value.hostfile, w'.status.currentWorkers + added)
            && added != [] && AllCanonical(sp, added)
  {
    OnlyCurrentFinishes(sp, w, e, w', r);
    SuspendedFinishesNone(sp, w, e, w', r);
    PassAddsToFile(sp, w, e.api, r, w');
  }

  lemma PassAddsToFile(sp: Spec, w: World, api: Api, r: Ref, w': World)
    requires PhaseInv(w) && w.status.phase == Scaling && CurrentScaleOut(w, r) && w.launcher.Some?
    requires w' == Reconcile(sp, w, api).w && !w.suspended && SucceedsNow(w, w', r)
    requires AllAllocated(sp, w) && Room(sp, w)
    requires w.scalers[r].script == "" && !Has(w.scalers[r].conditions, ScriptExecuted)
    ensures var added := w'.scalers[r].pods;
            && w'.launcher.Some?
            && w'.launcher.value.hostfile == HostfileText(sp, w.status.currentWorkers + added)
            && added != [] && AllCanonical(sp, added)
  {
    SucceededIsValid(sp, w, api);
    PassIsScaleOut(sp, w, api, r);
    ScaleOutObject(sp, w, r, api);
    WorkedOnAllocated(sp, w, w', r, api);
    ScaleOutWrites(sp, w, r, api, w');
  }

  /** A pass that finishes the scale-out is one over it on the world as it was. */
  lemma PassIsScaleOut(sp: Spec, w: World, api: Api, r: Ref)
    requires PhaseInv(w) && w.status.phase == Scaling && CurrentScaleOut(w, r) && w.launcher.Some?
    requires ExecuteScaling(sp, w, api).w.scalers != w.scalers
    ensures ExecuteScaling(sp, w, api).w == ScaleOutPass(sp, w, r, w.scalers[r], api).w
  {
    SyncKeepsWorld(sp, w, api);
    SyncLauncherPhases(sp, w, api);
  }

  /** A pass of a running job whose launcher lists something else than the current workers. */
  lemma RunningSync(sp: Spec, w: World, shown: seq<string>, api: Api)
    requires PlainJob(sp) && PhaseInv(w) && w.status.phase == Running && !w.suspended
    requires CanonicalPods(sp, w.pods) && Faithful(w, api) && AllCanonical(sp, w.status.currentWorkers)
    requires w.launcher.Some? && Shows(sp, w.launcher.value.hostfile, shown)
    requires AllCanonical(sp, shown) && shown != w.status.currentWorkers
    requires api.exec == ExecDone && api.podList.Some?
    requires !LauncherIs(w, api, PodSucceeded) && !LauncherIs(w, api, PodFailed)
    ensures Agrees(sp, Reconcile(sp, w, api).w) <==>
              Seen(sp, w.pods, api.podList.value) != w.status.currentWorkers
  {
    SyncDecides(sp, w, api);
    SyncKeepsWorld(sp, w, api);
    SyncRepairs(sp, w, shown, api);
    SelectKeepsCluster(SyncWorkers(sp, w, api).w, api);
  }

  // ---------- the ConfigMap and later launchers ----------

  lemma AwaitConfig(sp: Spec, w: World, ref: Ref, s: Scaler, count: nat, api: Api)
    ensures AwaitAdded(sp, w, ref, s, count, api).w.configMap == w.configMap
  {
    ScaleScriptPods(sp, w, s, AfterScaler(w.status.currentWorkers, ScaleOut, s.pods), api);
  }

  lemma ScalingConfig(sp: Spec, w: World, api: Api)
    requires PhaseInv(w) && w.status.phase == Scaling
    ensures ExecuteScaling(sp, w, api).w.configMap == w.configMap
  {
    var w1, ref := SyncLauncher(sp, w, api), CurrentRef(w);
    SyncLauncherWorkers(sp, w, api);
    SyncLauncherPhases(sp, w, api);
    if ref in w.scalers {
      if ref.kind == ScaleIn { ScaleInConfig(sp, w1, ref, w.scalers[ref], api); }
      else { ScaleOutConfig(sp, w1, ref, w.scalers[ref], api); }
    }
  }

  lemma ScaleInConfig(sp: Spec, w: World, ref: Ref, s: Scaler, api: Api)
    ensures ScaleInPass(sp, w, ref, s, api).w.configMap == w.configMap
  {
    if !s.deleting {
      match ChooseToDelete(sp, s, api)
      case Chosen(pods) => RemoveChosenDeletes(sp, w, ref, s.(pods := pods), api);
      case _ =>
    }
  }

  lemma ScaleOutConfig(sp: Spec, w: World, ref: Ref, s: Scaler, api: Api)
    ensures ScaleOutPass(sp, w, ref, s, api).w.configMap == w.configMap
  {
    if !s.deleting && ValidCount(s) {
      var s1 := Allocate(sp, w, s, s.count.value);
      AwaitConfig(sp, w.(pods := Made(sp, w, s1.pods, Some(ref.name), api)), ref, s1, s.count.value, api);
    }
  }

  lemma RunningConfig(sp: Spec, w: World, api: Api)
    ensures ReconcileRunning(sp, w, api).w.configMap == w.configMap
  {
    var w1 := SyncLauncher(sp, w, api);
    SyncLauncherWorkers(sp, w, api);
    SyncWorkersFrame(sp, w1, api);
    SelectKeepsCluster(SyncWorkers(sp, w1, api).w, api);
  }

  /** ConfigMap and launcher after a start-up pass: the ConfigMap, once there, stays; a new one lists
      the current workers; and a new launcher starts from it. */
  ghost predicate StartsFromConfig(sp: Spec, w: World, w': World) {
    && (w.configMap.Some? ==> w'.configMap == w.configMap)
    && (w.configMap.None? && w'.configMap.Some? ==>
          && w'.configMap == Some(Content(w.status.currentWorkers, sp.slots))
          && w'.status.currentWorkers == w.status.currentWorkers)
    && (w.launcher.None? && w'.launcher.Some? ==>
          && w'.launcher.value.hostfile == (if w'.configMap.Some? then w'.configMap.value else "")
          && w'.status.currentWorkers == w.status.currentWorkers)
  }

  lemma StartingConfig(sp: Spec, w: World, api: Api)
    ensures StartsFromConfig(sp, w, DoSteps(sp, w, api).w)
  {
    if !Has(w.status.conditions, WorkersCreated) {
    } else if !Has(w.status.conditions, WorkersReady) {
      SyncWorkersFrame(sp, w, api);
    } else if !Has(w.status.conditions, LauncherCreated) {
    } else if !Has(w.status.conditions, Running) {
      SyncLauncherWorkers(sp, w, api);
    }
  }

  lemma RestartConfig(sp: Spec, w: World, api: Api)
    requires NeedRestart(sp, w.status)
    ensures Restart(sp, w, api).w.configMap == w.configMap
  {
    ResetPhases(w, api);
  }

  /** The ConfigMap is written once: only start-up writes it, when there is none, from the current
      workers. */
  lemma PassConfig(sp: Spec, w: World, api: Api)
    requires PhaseInv(w)
    ensures var w' := Reconcile(sp, w, api).w;
            && (w.configMap.Some? ==> w'.configMap == w.configMap)
            && (w.configMap.None? && w'.configMap.Some? ==>
                  && w'.configMap == Some(Content(w.status.currentWorkers, sp.slots))
                  && w'.status.currentWorkers == w.status.currentWorkers)
  {
    if w.suspended {
      CleanupFrame(sp, Suspend(w, api), api);
    } else {
      match w.status.phase
      case Succeeded => CleanupFrame(sp, w, api);
      case Suspended => CleanupFrame(sp, w, api);
      case Failed =>
        if NeedRestart(sp, w.status) { RestartConfig(sp, w, api); } else { CleanupFrame(sp, w, api); }
      case NoPhase => StartingConfig(sp, Initialize(w, api), api);
      case Created => StartingConfig(sp, Initialize(w, api), api);
      case Running => RunningConfig(sp, w, api);
      case Scaling => ScalingConfig(sp, w, api);
      case _ =>
    }
  }

  /** The ConfigMap appears in the step from the j-th state. */
  ghost predicate ConfigWritten(ws: seq<World>, j: nat)
    requires j + 1 < |ws|
  {
    ws[j].configMap.None? && ws[j + 1].configMap.Some?
  }

  lemma ConfigStep(sp: Spec, ws: seq<World>, es: seq<Event>, k: nat)
    requires Run(sp, ws, es) && Init(ws[0]) && k < |es|
    ensures ws[k].configMap.Some? ==> ws[k + 1].configMap == ws[k].configMap
    ensures ConfigWritten(ws, k) ==>
              && ws[k + 1].configMap == Some(Content(ws[k].status.currentWorkers, sp.slots))
              && ws[k + 1].status.currentWorkers == ws[k].status.currentWorkers
  {
    StepOf(sp, ws, es, k);
    RunPhases(sp, ws, es, k);
    if es[k].Reconciled? { PassConfig(sp, ws[k], es[k].api); }
  }

  /** From its only writing on, through every restart, the ConfigMap lists the workers recorded then. */
  lemma {:induction false} ConfigStays(sp: Spec, ws: seq<World>, es: seq<Event>, j: nat, k: nat)
    requires Run(sp, ws, es) && Init(ws[0]) && j < k <= |es| && ConfigWritten(ws, j)
    ensures ws[k].configMap == Some(Content(ws[j].status.currentWorkers, sp.slots))
  {
    ConfigStep(sp, ws, es, k - 1);
    if j + 1 < k { ConfigStays(sp, ws, es, j, k - 1); }
  }

  /** A ConfigMap that is there was written by some earlier step. */
  lemma {:induction false} ConfigOrigin(sp: Spec, ws: seq<World>, es: seq<Event>, k: nat) returns (j: nat)
    requires Run(sp, ws, es) && Init(ws[0]) && k <= |es| && ws[k].configMap.Some?
    ensures j < k && ConfigWritten(ws, j)
  {
    if ws[k - 1].configMap.None? { j := k - 1; } else { j := ConfigOrigin(sp, ws, es, k - 1); }
  }

  /** The launcher of any attempt, when start-up makes it: its hostfile reads to the workers recorded
      when the ConfigMap was written, in the first attempt that came that far, so it agrees with the
      current workers exactly when they are the same list again. */
  lemma LaterHostfile(sp: Spec, ws: seq<World>, es: seq<Event>, j: nat, k: nat)
    requires PlainJob(sp) && Run(sp, ws, es) && Init(ws[0]) && j <= k < |es| && ConfigWritten(ws, j)
    requires ws[k].status.phase in {NoPhase, Created} && ws[k].launcher.None? && ws[k + 1].launcher.Some?
    ensures ReadHostfile(ws[k + 1].launcher.value.hostfile) == Some(Hosts(ws[j].status.currentWorkers, sp.slots))
    ensures Agrees(sp, ws[k + 1]) <==> ws[k].status.currentWorkers == ws[j].status.currentWorkers
  {
    var first := ws[j].status.currentWorkers;
    LauncherFromConfig(sp, ws, es, k);
    ConfigStays(sp, ws, es, j, k + 1);
    RunOrdered(sp, ws, es, j);
    RunOrdered(sp, ws, es, k);
    ShowsReads(sp, ws[k + 1].launcher.value.hostfile, first);
    if Agrees(sp, ws[k + 1]) {
      ShowsOne(sp, ws[k + 1].launcher.value.hostfile, first, ws[k].status.currentWorkers);
    }
  }

  /** Without a ConfigMap the new launcher lists nobody. */
  lemma BareLauncher(sp: Spec, ws: seq<World>, es: seq<Event>, k: nat)
    requires PlainJob(sp) && Run(sp, ws, es) && Init(ws[0]) && k < |es| && ws[k + 1].configMap.None?
    requires ws[k].status.phase in {NoPhase, Created} && ws[k].launcher.None? && ws[k + 1].launcher.Some?
    ensures Agrees(sp, ws[k + 1]) <==> ws[k].status.currentWorkers == []
  {
    LauncherFromConfig(sp, ws, es, k);
    RunOrdered(sp, ws, es, k);
    assert Shows(sp, "", []);
    if Agrees(sp, ws[k + 1]) { ShowsOne(sp, "", [], ws[k].status.currentWorkers); }
  }

  lemma LauncherFromConfig(sp: Spec, ws: seq<World>, es: seq<Event>, k: nat)
    requires Run(sp, ws, es) && Init(ws[0]) && k < |es|
    requires ws[k].status.phase in {NoPhase, Created} && ws[k].launcher.None? && ws[k + 1].launcher.Some?
    ensures var w' := ws[k + 1];
            && w'.launcher.value.hostfile == (if w'.configMap.Some? then w'.configMap.value else "")
            && w'.status.currentWorkers == ws[k].status.currentWorkers
  {
    StepOf(sp, ws, es, k);
    RunPhases(sp, ws, es, k);
    if es[k].Reconciled? {
      if ws[k].suspended { CleanupFrame(sp, Suspend(ws[k], es[k].api), es[k].api); }
      else { StartingConfig(sp, Initialize(ws[k], es[k].api), es[k].api); }
    }
  }

  /** The same for a launcher that a running job brings back under policy Always: the sync of the pass
      repairs the file exactly when it sees the running workers changed, so file and list agree after
      the pass exactly when that is so or the current workers are the ones of the ConfigMap. */
  lemma RecreatedHostfile(sp: Spec, ws: seq<World>, es: seq<Event>, j: nat, k: nat)
    requires PlainJob(sp) && Run(sp, ws, es) && Init(ws[0]) && j < k < |es| && ConfigWritten(ws, j)
    requires ws[k].status.phase == Running && ws[k].launcher.None? && ws[k + 1].launcher.Some?
    requires es[k].Reconciled? && es[k].api.exec == ExecDone && es[k].api.podList.Some?
    ensures Agrees(sp, ws[k + 1]) <==>
              || ws[k].status.currentWorkers == ws[j].status.currentWorkers
              || Seen(sp, ws[k].pods, es[k].api.podList.value) != ws[k].status.currentWorkers
  {
    StepOf(sp, ws, es, k);
    RunPhases(sp, ws, es, k);
    RunPods(sp, ws, es, k);
    RunOrdered(sp, ws, es, k);
    RunOrdered(sp, ws, es, j);
    ConfigStays(sp, ws, es, j, k);
    RecreatedPass(sp, ws[k], es[k].api, ws[j].status.currentWorkers);
  }

  lemma RecreatedPass(sp: Spec, w: World, api: Api, first: seq<string>)
    requires PlainJob(sp) && PhaseInv(w) && w.status.phase == Running && w.launcher.None?
    requires CanonicalPods(sp, w.pods) && Faithful(w, api)
    requires AllCanonical(sp, w.status.currentWorkers) && AllCanonical(sp, first)
    requires w.configMap == Some(Content(first, sp.slots)) && !w.suspended
    requires api.exec == ExecDone && api.podList.Some? && Reconcile(sp, w, api).w.launcher.Some?
    ensures Agrees(sp, Reconcile(sp, w, api).w) <==>
              || w.status.currentWorkers == first
              || Seen(sp, w.pods, api.podList.value) != w.status.currentWorkers
  {
    var w1 := SyncLauncher(sp, w, api);
    SyncWorkersFrame(sp, w1, api);
    SelectKeepsCluster(SyncWorkers(sp, w1, api).w, api);
    assert w1 == NewLauncher(w);
    if w.status.currentWorkers == first { SyncKeepsAgreement(sp, w1, api); }
    else { SyncRepairs(sp, w1, first, api); }
  }
}
