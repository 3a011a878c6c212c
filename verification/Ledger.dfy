/** The target list over whole runs: it never holds a name twice, and its length is accounted for
    by the scalers that succeeded. */
module Ledger {
  import opened GoStrings
  import opened WorkerNames
  import opened Conditions
  import opened ScalerRefs
  import opened Cluster
  import opened Pass
  import opened System
  import opened Phases
  import opened Lifecycle
  import opened Workers
  import opened ScalerPasses
  import opened Attempts
  import opened WorkerLists

  // ---------- the pods of the scale-out in flight stay above the target list ----------

  /** A scale-out in flight after a pass other than one over it was in flight before. */
  lemma InFlightBefore(sp: Spec, w: World, api: Api, r: Ref)
    requires PhaseInv(w) && OneAtATime(w) && (Resets(sp, w) ==> NoneTouched(w))
    requires w.suspended || w.status.phase != Scaling
    requires var w' := Reconcile(sp, w, api).w;
             r in w'.scalers && !Finished(w'.scalers[r]) && w'.scalers[r].pods != []
    ensures r in w.scalers && !Finished(w.scalers[r]) && w.scalers[r].pods == Reconcile(sp, w, api).w.scalers[r].pods
    ensures SameWorkers(w, Reconcile(sp, w, api).w)
  {
    PassPhases(sp, w, api);
    PassMoves(sp, w, api);
    PassLists(sp, w, api);
    if w.status.phase in {NoPhase, Created, Running} { IdleNoneTouched(w); }
  }

  lemma PassAbove(sp: Spec, w: World, api: Api)
    requires PhaseInv(w) && OneAtATime(w) && (Resets(sp, w) ==> NoneTouched(w))
    requires ListInv(sp, w) && Room(sp, w)
    ensures AboveTarget(sp, Reconcile(sp, w, api).w)
  {
    var w' := Reconcile(sp, w, api).w;
    if w.suspended || w.status.phase != Scaling {
      forall r | r in w'.scalers && r.kind == ScaleOut && !Finished(w'.scalers[r]) && w'.scalers[r].pods != []
        ensures w'.scalers[r].pods == FreshNames(sp.name, MaxIndex(w'.status.targetWorkers), |w'.scalers[r].pods|)
      {
        InFlightBefore(sp, w, api, r);
      }
    } else {
      PassMoves(sp, w, api);
      ScalingAbove(sp, w, w', api);
    }
  }

  lemma ScalingAbove(sp: Spec, w: World, w': World, api: Api)
    requires PhaseInv(w) && OneAtATime(w) && w.status.phase == Scaling && ScalingMove(w, w')
    requires w'.scalers == w.scalers || WorkedOn(sp, w, w', CurrentRef(w), api)
    requires ListInv(sp, w) && Room(sp, w)
    ensures AboveTarget(sp, w')
  {
    var ref := CurrentRef(w);
    ScalingOneAtATime(w, w');
    forall r | r in w'.scalers && r.kind == ScaleOut && !Finished(w'.scalers[r]) && w'.scalers[r].pods != []
      ensures w'.scalers[r].pods == FreshNames(sp.name, MaxIndex(w'.status.targetWorkers), |w'.scalers[r].pods|)
    {
      FullNameInjective(r, ref);
      if w'.scalers != w.scalers { CurrentAbove(sp, w, w', ref, api); }
    }
  }

  lemma OutsideAbove(sp: Spec, w: World, e: Event, w': World)
    requires PhaseInv(w) && Next(sp, w, e, w') && !e.Reconciled? && AboveTarget(sp, w)
    ensures AboveTarget(sp, w')
  {
    OutsidePhases(sp, w, e, w');
    OutsideKeepsStatus(sp, w, e, w');
  }

  // ---------- no duplicates, in any state ----------

  /** A part of a run that starts with the lists in order and with at most the current scaler in
      flight, in which no restart leaves a scaler in flight behind and indexes stay below 2^31. */
  ghost predicate RegularFrom(sp: Spec, ws: seq<World>, es: seq<Event>, i: nat, k: nat) {
    && Run(sp, ws, es) && i <= k <= |es| && Init(ws[0])
    && OneAtATime(ws[i]) && ListInv(sp, ws[i])
    && CleanFrom(sp, ws, es, i, k) && RoomyFrom(sp, ws, i, k)
  }

  /** The submission of the job can start such a part, and so can any later state in which no scaler
      is in flight and the lists hold no duplicate. */
  lemma RegularStarts(sp: Spec, w: World)
    requires Init(w)
      || (NoneTouched(w) && AllAllocated(sp, w)
          && Distinct(sp, w.status.targetWorkers) && Distinct(sp, w.status.currentWorkers))
    ensures OneAtATime(w) && ListInv(sp, w)
  {
  }

  lemma NextLists(sp: Spec, w: World, e: Event, w': World)
    requires PhaseInv(w) && CanonicalPods(sp, w.pods) && OneAtATime(w) && CleanRestart(sp, w, e)
    requires ListInv(sp, w) && Room(sp, w) && Next(sp, w, e, w')
    ensures ListInv(sp, w')
  {
    NextAllocated(sp, w, e, w');
    match e
    case Reconciled(api) =>
      PassDistinct(sp, w, api);
      PassAbove(sp, w, api);
    case _ =>
      OutsideAbove(sp, w, e, w');
      OutsideKeepsStatus(sp, w, e, w');
  }

  lemma {:induction false} RunLists(sp: Spec, ws: seq<World>, es: seq<Event>, i: nat, k: nat)
    requires RegularFrom(sp, ws, es, i, k)
    ensures ListInv(sp, ws[k])
  {
    if i < k {
      assert CleanAt(sp, ws, es, k - 1);
      RoomIn(sp, ws, i, k, k - 1);
      RunLists(sp, ws, es, i, k - 1);
      RunOneAtATime(sp, ws, es, i, k - 1);
      ListsStep(sp, ws, es, k - 1);
    }
  }

  lemma ListsStep(sp: Spec, ws: seq<World>, es: seq<Event>, k: nat)
    requires Run(sp, ws, es) && Init(ws[0]) && k < |es| && CleanRestart(sp, ws[k], es[k])
    requires OneAtATime(ws[k]) && ListInv(sp, ws[k]) && Room(sp, ws[k])
    ensures ListInv(sp, ws[k + 1])
  {
    StepOf(sp, ws, es, k);
    RunPhases(sp, ws, es, k);
    RunPods(sp, ws, es, k);
    NextLists(sp, ws[k], es[k], ws[k + 1]);
  }

  /** In any attempt no state has a duplicate in the target list or the current list, whatever the
      interleaving of start-up, adoption, recovery, scale-outs and scale-ins. */
  lemma NoDuplicateWorkers(sp: Spec, ws: seq<World>, es: seq<Event>, i: nat, k: nat, a: nat, b: nat)
    requires RegularFrom(sp, ws, es, i, k) && a < b
    ensures b < |ws[k].status.targetWorkers| ==> ws[k].status.targetWorkers[a] != ws[k].status.targetWorkers[b]
    ensures b < |ws[k].status.currentWorkers| ==> ws[k].status.currentWorkers[a] != ws[k].status.currentWorkers[b]
  {
    RunLists(sp, ws, es, i, k);
  }

  /** So it is in every state of a run from the submission of the job on, while restarts are clean. */
  lemma NoDuplicatesInRun(sp: Spec, ws: seq<World>, es: seq<Event>, k: nat)
    requires Run(sp, ws, es) && Init(ws[0]) && k <= |es|
    requires CleanFrom(sp, ws, es, 0, k) && RoomyFrom(sp, ws, 0, k)
    ensures NoDup(ws[k].status.targetWorkers) && NoDup(ws[k].status.currentWorkers)
  {
    RegularStarts(sp, ws[0]);
    RunLists(sp, ws, es, 0, k);
  }

  /** The commit of a scale-out keeps the target list free of duplicates exactly when none of its
      pods is a target worker already.  Pods allocated before a restart can be. */
  lemma CommitKeepsDistinct(target: seq<string>, pods: seq<string>)
    requires NoDup(target) && NoDup(pods)
    ensures NoDup(AfterScaler(target, ScaleOut, pods)) <==> forall n :: n in pods ==> n !in target
  {
    var all := target + pods;
    if n :| n in pods && n in target {
      var i :| 0 <= i < |target| && target[i] == n;
      var j :| 0 <= j < |pods| && pods[j] == n;
      assert all[i] == all[|target| + j];
    }
    if forall n :: n in pods ==> n !in target {
      forall i, j | 0 <= i < j < |all| ensures all[i] != all[j] {
        if i < |target| <= j { assert pods[j - |target|] in pods && target[i] in target; }
      }
    }
  }

  /** The first workers of an attempt are those with an index below the replica count. */
  lemma FirstMember(sp: Spec, n: string)
    requires Canonical(sp.name, n) && sp.replicas <= MAX_INT32
    ensures n in FirstWorkers(sp) <==> 0 <= IndexOf(sp.name, n) < sp.replicas
  {
    var i := IndexOf(sp.name, n);
    FreshAbove(sp, -1, if sp.replicas > 0 then sp.replicas else 0);
    if 0 <= i < sp.replicas { assert FirstWorkers(sp)[i] == WorkerName(sp.name, i) == n; }
  }

  // ---------- what the success of a scaler is worth ----------

  /** A scaler is finished by the step from w to w'. */
  ghost predicate FinishesNow(w: World, w': World, r: Ref) {
    r in w.scalers && r in w'.scalers && !Finished(w.scalers[r]) && Finished(w'.scalers[r])
  }

  ghost predicate SucceedsNow(w: World, w': World, r: Ref) {
    FinishesNow(w, w', r) && Has(w'.scalers[r].conditions, ScaleSucceeded)
  }

  /** What a success is worth: a scale-out adds its count, a scale-in takes off the target workers
      it names. */
  ghost function Worth(w: World, w': World, r: Ref): int
    requires r in w'.scalers
  {
    if r.kind == ScaleOut then (if w'.scalers[r].count.Some? then w'.scalers[r].count.value else 0)
    else -|Filter(w.status.targetWorkers, w'.scalers[r].pods, false)|
  }

  /** The worth of the scaler that succeeds in this step; it can only be the current one. */
  ghost function Gain(w: World, w': World): int {
    if w.status.phase == Scaling && Printed(w.status.currentScaler) && SucceedsNow(w, w', CurrentRef(w))
    then Worth(w, w', CurrentRef(w)) else 0
  }

  lemma ScalingFinishes(sp: Spec, w: World, api: Api)
    requires PhaseInv(w) && w.status.phase == Scaling
    ensures var w' := ExecuteScaling(sp, w, api).w;
            forall r :: FinishesNow(w, w', r) ==>
              r == CurrentRef(w) && w'.status.phase == Running && DoneScaling(w, w', r)
  {
    var w1, w' := SyncLauncher(sp, w, api), ExecuteScaling(sp, w, api).w;
    SyncLauncherPhases(sp, w, api);
    SyncLauncherWorkers(sp, w, api);
    RunScalerPhases(sp, w1, api);
    forall r | FinishesNow(w, w', r)
      ensures r == CurrentRef(w) && w'.status.phase == Running && DoneScaling(w, w', r)
    {
      assert w'.scalers[r] != w.scalers[r];
      assert w1.status.phase == Scaling && ScaledBy(w1, w', CurrentRef(w));
    }
  }

  /** Only the current scaler can be finished, only while the job is Scaling, and only in a pass. */
  lemma OnlyCurrentFinishes(sp: Spec, w: World, e: Event, w': World, r: Ref)
    requires PhaseInv(w) && Next(sp, w, e, w') && FinishesNow(w, w', r)
    ensures e.Reconciled? && w.status.phase == Scaling && r == CurrentRef(w)
    ensures w'.status.phase == Running && DoneScaling(w, w', r)
  {
    match e
    case Reconciled(api) => PassFinishes(sp, w, api, r);
    case _ => OutsidePhases(sp, w, e, w');
  }

  lemma PassFinishes(sp: Spec, w: World, api: Api, r: Ref)
    requires PhaseInv(w) && FinishesNow(w, Reconcile(sp, w, api).w, r)
    ensures var w' := Reconcile(sp, w, api).w;
            w.status.phase == Scaling && r == CurrentRef(w) && w'.status.phase == Running && DoneScaling(w, w', r)
  {
    if w.status.phase == Running && !w.suspended {
      SelectedUnfinished(sp, w, api);
      RunningObjects(sp, w, api);
    } else if w.status.phase == Scaling && !w.suspended {
      ScalingFinishes(sp, w, api);
    } else {
      PassMoves(sp, w, api);
    }
  }

  lemma SuspendedFinishesNone(sp: Spec, w: World, e: Event, w': World, r: Ref)
    requires PhaseInv(w) && Next(sp, w, e, w') && FinishesNow(w, w', r) && e.Reconciled?
    ensures !w.suspended
  {
    PassMoves(sp, w, e.api);
  }

  lemma SelectedUnfinished(sp: Spec, w: World, api: Api)
    requires PhaseInv(w) && w.status.phase == Running
    ensures var w' := ReconcileRunning(sp, w, api).w;
            forall r :: r in w.scalers && r in w'.scalers && Finished(w'.scalers[r]) ==> Finished(w.scalers[r])
  {
    SyncLauncherPhases(sp, w, api);
    var w1 := SyncLauncher(sp, w, api);
    SyncWorkersFrame(sp, w1, api);
    var r := SyncWorkers(sp, w1, api);
    if r.ok && r.w.status.phase == Running { StartedUnfinished(r.w, api); }
  }

  lemma StartedUnfinished(w: World, api: Api)
    requires PhaseInv(w) && w.status.phase == Running
    ensures var w' := SelectScaler(w, api);
            forall r :: r in w.scalers && r in w'.scalers && Finished(w'.scalers[r]) ==> Finished(w.scalers[r])
  {
    SelectScalerPhases(w, api);
  }

  /** In every run a scaler is finished only by a pass, while the job is Scaling and names it as the
      current one; the job is Running afterwards and the lists are as the outcome says. */
  lemma FinishedInTurn(sp: Spec, ws: seq<World>, es: seq<Event>, k: nat, r: Ref)
    requires Run(sp, ws, es) && Init(ws[0]) && k < |es| && FinishesNow(ws[k], ws[k + 1], r)
    ensures es[k].Reconciled? && !ws[k].suspended
    ensures ws[k].status.phase == Scaling && ws[k].status.currentScaler == FullName(r)
    ensures ws[k + 1].status.phase == Running && DoneScaling(ws[k], ws[k + 1], r)
  {
    StepOf(sp, ws, es, k);
    RunPhases(sp, ws, es, k);
    OnlyCurrentFinishes(sp, ws[k], es[k], ws[k + 1], r);
    SuspendedFinishesNone(sp, ws[k], es[k], ws[k + 1], r);
  }

  /** With workers in the target list, a pass that is no restart changes their number by what the
      scaler that succeeds in it is worth: recovery and syncing keep it. */
  lemma PassLedger(sp: Spec, w: World, api: Api)
    requires PhaseInv(w) && CanonicalPods(sp, w.pods) && Faithful(w, api)
    requires Distinct(sp, w.status.targetWorkers) && AllAllocated(sp, w) && Room(sp, w)
    requires w.status.targetWorkers != [] && WorkersCreated in TruthsOf(w) && !Resets(sp, w)
    ensures var w' := Reconcile(sp, w, api).w;
            |w'.status.targetWorkers| == |w.status.targetWorkers| + Gain(w, w')
  {
    var w' := Reconcile(sp, w, api).w;
    PassLists(sp, w, api);
    if w.status.phase == Scaling {
      PassMoves(sp, w, api);
      if !w.suspended { ScalingLedger(sp, w, api); }
    } else if Synced(sp, w, w', api) {
      SyncedDistinct(sp, w, w', api);
    }
  }

  lemma ScalingLedger(sp: Spec, w: World, api: Api)
    requires PhaseInv(w) && w.status.phase == Scaling && !w.suspended
    requires AllAllocated(sp, w) && Room(sp, w)
    ensures var w' := ExecuteScaling(sp, w, api).w;
            |w'.status.targetWorkers| == |w.status.targetWorkers| + Gain(w, w')
  {
    var w' := ExecuteScaling(sp, w, api).w;
    var ref := CurrentRef(w);
    ScalingFinishes(sp, w, api);
    ExecuteScalingPhases(sp, w, api);
    if SucceedsNow(w, w', ref) {
      ScalingObject(sp, w, api);
      if ref.kind == ScaleOut {
        SucceededIsValid(sp, w, api);
        SucceededCount(sp, w, w', ref, api);
      }
      FilterSizes(w.status.targetWorkers, w'.scalers[ref].pods);
    }
  }

  /** Only a scale-out with a positive count that is not being deleted can succeed. */
  lemma SucceededIsValid(sp: Spec, w: World, api: Api)
    requires PhaseInv(w) && w.status.phase == Scaling && CurrentRef(w).kind == ScaleOut
    requires SucceedsNow(w, ExecuteScaling(sp, w, api).w, CurrentRef(w))
    ensures var s := w.scalers[CurrentRef(w)]; ValidCount(s) && !s.deleting
  {
    var w1, ref := SyncLauncher(sp, w, api), CurrentRef(w);
    var s := w.scalers[ref];
    SyncLauncherPhases(sp, w, api);
    if w1.status.phase == Scaling && !ValidCount(s) { FinishScalerPhases(w1, ref, s, ScaleFailed, api); }
  }

  lemma SucceededCount(sp: Spec, w: World, w': World, ref: Ref, api: Api)
    requires WorkedOn(sp, w, w', ref, api) && ref.kind == ScaleOut && SucceedsNow(w, w', ref)
    requires AllAllocated(sp, w) && Room(sp, w)
    requires ValidCount(w.scalers[ref]) && !w.scalers[ref].deleting
    ensures |w'.scalers[ref].pods| == Worth(w, w', ref)
  {
    WorkedOnAllocated(sp, w, w', ref, api);
  }

  // ---------- the account of an attempt ----------

  /** The sum of the gains since the workers of the current attempt were created. */
  ghost function Balance(sp: Spec, ws: seq<World>, es: seq<Event>, k: nat): int
    requires k <= |es| < |ws|
  {
    if k == 0 || WorkersCreated !in TruthsOf(ws[k - 1]) || (es[k - 1].Reconciled? && Resets(sp, ws[k - 1])) then 0
    else Balance(sp, ws, es, k - 1) + Gain(ws[k - 1], ws[k])
  }

  /** Before the workers are created the target list is empty. */
  ghost predicate StartsEmpty(w: World) {
    WorkersCreated !in TruthsOf(w) && w.status.phase in {NoPhase, Created} ==> w.status.targetWorkers == []
  }

  lemma AfterKeepsCreated(truths: set<ConditionType>, t: ConditionType)
    requires WorkersCreated in truths
    ensures WorkersCreated in After(truths, t)
  {
  }

  /** The first step either records WorkersCreated or fails the job; later steps keep the record. */
  lemma DoStepsCreated(sp: Spec, w: World, api: Api)
    requires InPhase(w) && w.status.phase == Created
    ensures var w' := DoSteps(sp, w, api).w;
            WorkersCreated in TruthsOf(w') || (WorkersCreated !in TruthsOf(w) && w'.status.phase == Failed)
  {
    if WorkersCreated !in TruthsOf(w) {
      CreatedOrFailed(sp, w, api);
    } else {
      DoStepsPhases(sp, w, api);
      LaterStepsCreated(sp, w, api);
    }
  }

  lemma CreatedOrFailed(sp: Spec, w: World, api: Api)
    requires InPhase(w) && w.status.phase == Created
    ensures var w' := CreateJobWorkers(sp, w, api);
            WorkersCreated in TruthsOf(w') || w'.status.phase == Failed
  {
    var workers := ReplicaWorkers(sp, w.status);
    var made := CreateWorkers(sp.name, w.pods, workers, None, api.creates);
    var w1 := w.(status := w.status.(targetWorkers := workers), pods := made.pods);
    Noted(w1, WorkersCreated, "", api);
  }

  lemma LaterStepsCreated(sp: Spec, w: World, api: Api)
    requires InPhase(w) && w.status.phase == Created && WorkersCreated in TruthsOf(w)
    ensures WorkersCreated in TruthsOf(DoSteps(sp, w, api).w)
  {
    if WorkersReady !in TruthsOf(w) {
      SyncWorkersFrame(sp, w, api);
      NoteKeepsCreated(SyncWorkers(sp, w, api).w, WorkersReady, "", api);
    } else if LauncherCreated !in TruthsOf(w) {
      CreateLauncherCreated(sp, w, api);
    } else {
      SyncLauncherCreated(sp, w, api);
    }
  }

  lemma NoteKeepsCreated(w: World, t: ConditionType, reason: string, api: Api)
    requires InPhase(w) && WorkersCreated in TruthsOf(w)
    ensures WorkersCreated in TruthsOf(Note(w, t, reason, api))
  {
    Noted(w, t, reason, api);
    AfterKeepsCreated(TruthsOf(w), t);
  }

  lemma CreateLauncherCreated(sp: Spec, w: World, api: Api)
    requires InPhase(w) && WorkersCreated in TruthsOf(w)
    ensures WorkersCreated in TruthsOf(CreateLauncher(sp, w, api))
  {
    var w1 := EnsureConfig(sp, w, api).w;
    assert w1.status == w.status;
    NoteKeepsCreated(w1, LauncherCreated, "", api);
    NoteKeepsCreated(w1, Failed, JOB_FAILED, api);
    NoteKeepsCreated(NewLauncher(w1), LauncherCreated, "", api);
  }

  lemma SyncLauncherCreated(sp: Spec, w: World, api: Api)
    requires InPhase(w) && WorkersCreated in TruthsOf(w)
    ensures WorkersCreated in TruthsOf(SyncLauncher(sp, w, api))
  {
    match w.launcher
    case None => NoteKeepsCreated(w, Failed, JOB_FAILED, api);
    case Some(launcher) =>
      match launcher.phase
      case PodSucceeded => NoteKeepsCreated(w, Succeeded, JOB_SUCCEEDED, api);
      case PodFailed => NoteKeepsCreated(w, Failed, FailureReason(launcher), api);
      case PodRunning => NoteKeepsCreated(w, Running, JOB_RUNNING, api);
      case _ =>
  }

  /** The workers of an attempt are recorded as created in its first pass only. */
  lemma PassCreated(sp: Spec, w: World, api: Api)
    requires PhaseInv(w)
    ensures var w' := Reconcile(sp, w, api).w;
            && (WorkersCreated !in TruthsOf(w) && WorkersCreated in TruthsOf(w') ==>
                  !w.suspended && (Resets(sp, w) || w.status.phase in {NoPhase, Created}))
            && (WorkersCreated !in TruthsOf(w') && w'.status.phase in {NoPhase, Created} ==> Resets(sp, w))
  {
    if w.suspended {
      SuspendPhases(w, api);
      Noted(w, Suspended, WAIT_TIMEOUT, api);
      CleanupFrame(sp, Suspend(w, api), api);
    } else {
      match w.status.phase
      case Succeeded => CleanupFrame(sp, w, api);
      case Suspended => CleanupFrame(sp, w, api);
      case Failed => CleanupFrame(sp, w, api);
      case NoPhase =>
        InitializePhases(w, api);
        DoStepsCreated(sp, Initialize(w, api), api);
      case Created =>
        InitializePhases(w, api);
        DoStepsCreated(sp, Initialize(w, api), api);
      case _ => PassPhases(sp, w, api);
    }
  }

  lemma PassStartsEmpty(sp: Spec, w: World, api: Api)
    requires PhaseInv(w) && StartsEmpty(w)
    ensures var w' := Reconcile(sp, w, api).w;
            && StartsEmpty(w')
            && (WorkersCreated in TruthsOf(w') && (WorkersCreated !in TruthsOf(w) || Resets(sp, w)) ==>
                  w'.status.targetWorkers == FirstWorkers(sp))
  {
    PassCreated(sp, w, api);
    PassLists(sp, w, api);
    if Resets(sp, w) || (!w.suspended && w.status.phase in {NoPhase, Created} && WorkersCreated !in TruthsOf(w)) {
      PassPhases(sp, w, api);
      OpeningList(sp, w, Reconcile(sp, w, api).w, api);
    }
  }

  lemma OpeningList(sp: Spec, w: World, w': World, api: Api)
    requires StartsEmpty(w) && ListMove(sp, w, w', api) && !w.suspended && w'.status.phase != NoPhase
    requires Resets(sp, w) || (w.status.phase in {NoPhase, Created} && WorkersCreated !in TruthsOf(w))
    ensures WorkersCreated in TruthsOf(w') ==> w'.status.targetWorkers == FirstWorkers(sp)
    ensures Resets(sp, w) ==> StartsEmpty(w')
  {
  }

  /** The target list has not run empty since the workers were created. */
  predicate Manned(w: World) { WorkersCreated in TruthsOf(w) ==> w.status.targetWorkers != [] }

  /** The target list is neither empty after the workers were created, nor does it hold a duplicate. */
  ghost predicate Sound(w: World) { Manned(w) && NoDup(w.status.targetWorkers) }

  ghost predicate SoundAt(ws: seq<World>, n: nat)
    requires n < |ws|
  {
    Sound(ws[n])
  }

  ghost predicate SoundFrom(ws: seq<World>, i: nat, k: nat)
    requires i <= k < |ws|
  {
    forall n :: i <= n < k ==> SoundAt(ws, n)
  }

  /** The account is open and balanced. */
  ghost predicate Balanced(sp: Spec, ws: seq<World>, es: seq<Event>, k: nat)
    requires k <= |es| < |ws|
  {
    WorkersCreated in TruthsOf(ws[k]) ==>
      |ws[k].status.targetWorkers| == (if sp.replicas > 0 then sp.replicas else 0) + Balance(sp, ws, es, k)
  }

  lemma NextStartsEmpty(sp: Spec, w: World, e: Event, w': World)
    requires PhaseInv(w) && StartsEmpty(w) && Next(sp, w, e, w')
    ensures StartsEmpty(w')
  {
    match e
    case Reconciled(api) => PassStartsEmpty(sp, w, api);
    case _ => OutsideKeepsStatus(sp, w, e, w');
  }

  lemma {:induction false} RunStartsEmpty(sp: Spec, ws: seq<World>, es: seq<Event>, k: nat)
    requires Run(sp, ws, es) && Init(ws[0]) && k <= |es|
    ensures StartsEmpty(ws[k])
  {
    if k > 0 {
      RunStartsEmpty(sp, ws, es, k - 1);
      RunPhases(sp, ws, es, k - 1);
      LastStep(sp, ws, es, k);
      NextStartsEmpty(sp, ws[k - 1], es[k - 1], ws[k]);
    }
  }

  lemma NextBalanced(sp: Spec, ws: seq<World>, es: seq<Event>, k: nat)
    requires Run(sp, ws, es) && Init(ws[0]) && k < |es| && Balanced(sp, ws, es, k)
    requires AllAllocated(sp, ws[k]) && AllCanonical(sp, ws[k].status.targetWorkers) && Room(sp, ws[k])
    requires Sound(ws[k])
    ensures Balanced(sp, ws, es, k + 1)
  {
    StepOf(sp, ws, es, k);
    var w, w' := ws[k], ws[k + 1];
    RunPhases(sp, ws, es, k);
    RunPods(sp, ws, es, k);
    RunStartsEmpty(sp, ws, es, k);
    match es[k]
    case Reconciled(api) =>
      PassStartsEmpty(sp, w, api);
      if WorkersCreated in TruthsOf(w) && !Resets(sp, w) { PassLedger(sp, w, api); }
    case _ =>
      OutsideKeepsStatus(sp, w, es[k], w');
      OutsidePhases(sp, w, es[k], w');
  }

  /** The account is balanced when the job is submitted and after every restart. */
  lemma AccountOpens(sp: Spec, ws: seq<World>, es: seq<Event>, k: nat)
    requires Run(sp, ws, es) && Init(ws[0]) && k <= |es|
    requires k == 0 || (es[k - 1].Reconciled? && Resets(sp, ws[k - 1]))
    ensures Balanced(sp, ws, es, k)
  {
    if k > 0 {
      LastStep(sp, ws, es, k);
      RunPhases(sp, ws, es, k - 1);
      RunStartsEmpty(sp, ws, es, k - 1);
      PassStartsEmpty(sp, ws[k - 1], es[k - 1].api);
    }
  }

  /** While the target list neither runs empty nor holds a duplicate, and whatever scalers a restart
      left in flight, the number of target workers is the replica count plus the counts of the
      scale-outs that succeeded in the attempt minus the workers that its successful scale-ins took
      off. */
  lemma {:induction false} LedgerBalances(sp: Spec, ws: seq<World>, es: seq<Event>, i: nat, k: nat)
    requires Run(sp, ws, es) && Init(ws[0]) && i <= k <= |es| && Balanced(sp, ws, es, i)
    requires RoomyFrom(sp, ws, i, k) && SoundFrom(ws, i, k)
    requires AllAllocated(sp, ws[i]) && AllCanonical(sp, ws[i].status.targetWorkers)
    ensures Balanced(sp, ws, es, k)
  {
    if i < k {
      assert SoundAt(ws, k - 1);
      RoomIn(sp, ws, i, k, k - 1);
      LedgerBalances(sp, ws, es, i, k - 1);
      RunAllocated(sp, ws, es, i, k - 1);
      RunCanonical(sp, ws, es, i, k - 1);
      NextBalanced(sp, ws, es, k - 1);
    }
  }

  /** The record of a scale-out that succeeds, against the record and the target list before the step:
      what was recorded is kept, and a fresh allocation avoids the target list. */
  lemma RecordAtSuccess(sp: Spec, w: World, e: Event, w': World, r: Ref)
    requires PhaseInv(w) && Next(sp, w, e, w') && r.kind == ScaleOut && SucceedsNow(w, w', r)
    requires AllAllocated(sp, w) && AllCanonical(sp, w.status.targetWorkers) && Room(sp, w)
    ensures NoDup(w'.scalers[r].pods) && w'.status.targetWorkers == w.status.targetWorkers + w'.scalers[r].pods
    ensures if w.scalers[r].pods != [] then w'.scalers[r].pods == w.scalers[r].pods
            else forall n :: n in w'.scalers[r].pods ==> n !in w.status.targetWorkers
  {
    OnlyCurrentFinishes(sp, w, e, w', r);
    SuspendedFinishesNone(sp, w, e, w', r);
    PassMoves(sp, w, e.api);
    WorkedOnAllocated(sp, w, w', r, e.api);
    var pods := w'.scalers[r].pods;
    if w.scalers[r].pods == [] && pods != [] {
      MaxIndexAtLeast(w.status.targetWorkers);
      AboveIsDisjoint(sp, w.status.targetWorkers, pods);
    }
  }

  /** Whatever the workers' policy and whatever happened before: a scale-out's success makes a
      duplicate exactly when one of the pods recorded on it before the step is a target worker.  One
      that allocates in the step makes none. */
  lemma DuplicatingCommit(sp: Spec, ws: seq<World>, es: seq<Event>, k: nat, r: Ref)
    requires Run(sp, ws, es) && Init(ws[0]) && k < |es| && r.kind == ScaleOut
    requires SucceedsNow(ws[k], ws[k + 1], r) && RoomyFrom(sp, ws, 0, k) && NoDup(ws[k].status.targetWorkers)
    ensures NoDup(ws[k + 1].status.targetWorkers) <==>
              forall n :: n in ws[k].scalers[r].pods ==> n !in ws[k].status.targetWorkers
  {
    RunPhases(sp, ws, es, k);
    RoomIn(sp, ws, 0, k, k);
    RunAllocated(sp, ws, es, 0, k);
    RunCanonical(sp, ws, es, 0, k);
    StepOf(sp, ws, es, k);
    RecordAtSuccess(sp, ws[k], es[k], ws[k + 1], r);
    CommitKeepsDistinct(ws[k].status.targetWorkers, ws[k + 1].scalers[r].pods);
  }
}
