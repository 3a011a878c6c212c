/** The target and current worker lists: how a pass can change them, and why the target list never
    holds a name twice. */
module WorkerLists {
  import opened GoStrings
  import opened WorkerNames
  import opened Conditions
  import opened ScalerRefs
  import opened Cluster
  import opened Pass
  import opened System
  import opened Phases
  import opened Lifecycle
  import opened Workers
  import opened ScalerPasses

  // ---------- how lists change ----------

  /** The running workers in numeric order, as a pass that got the listing sees them. */
  function Seen(sp: Spec, pods: map<string, Pod>, list: seq<string>): seq<string> {
    SortNames(sp.name, RunningNames(pods, list))
  }

  function Adopted(target: seq<string>, running: seq<string>): seq<string> {
    if target == [] then running else target
  }

  function Dead(sp: Spec, pods: map<string, Pod>, target: seq<string>): seq<string> {
    RestartNames(WorkerPolicy(sp), pods, target)
  }

  /** The target list after recovery. */
  function Replaced(sp: Spec, pods: map<string, Pod>, target: seq<string>): seq<string> {
    Filter(target, Dead(sp, pods, target), true)
    + FreshNames(sp.name, MaxIndex(target), |Dead(sp, pods, target)|)
  }

  /** The lists after a worker sync that got through. */
  predicate Synced(sp: Spec, w: World, w': World, api: Api) {
    && api.podList.Some?
    && var running := Seen(sp, w.pods, api.podList.value);
    && w'.status.currentWorkers == running
    && (w'.status.targetWorkers == Adopted(w.status.targetWorkers, running)
        || w'.status.targetWorkers == Replaced(sp, w.pods, Adopted(w.status.targetWorkers, running)))
  }

  /** Every way in which one pass changes the lists. */
  ghost predicate ListMove(sp: Spec, w: World, w': World, api: Api) {
    if w.suspended then SameWorkers(w, w')
    else match w.status.phase
      case NoPhase => Begins(sp, w, w', api)
      case Created => Begins(sp, w, w', api)
      case Running => SameWorkers(w, w') || Synced(sp, w, w', api)
      case Scaling => SameWorkers(w, w') || (w'.status.phase == Running && LeftScaling(w, w'))
      case Failed => if NeedRestart(sp, w.status) then Emptied(sp, w') else SameWorkers(w, w')
      case _ => SameWorkers(w, w')
  }

  /** Start-up: the first step sets the target list, the second one syncs the workers. */
  predicate Begins(sp: Spec, w: World, w': World, api: Api) {
    if WorkersCreated !in TruthsOf(w) then
      && w'.status.targetWorkers == ReplicaWorkers(sp, w.status)
      && w'.status.currentWorkers == w.status.currentWorkers
    else SameWorkers(w, w') || Synced(sp, w, w', api)
  }

  function FirstWorkers(sp: Spec): seq<string> {
    FreshNames(sp.name, -1, if sp.replicas > 0 then sp.replicas else 0)
  }

  /** After a restart the lists are empty, or the first step has already set the target list. */
  predicate Emptied(sp: Spec, w': World) {
    && w'.status.currentWorkers == []
    && (if WorkersCreated !in TruthsOf(w') && w'.status.phase == Created
        then w'.status.targetWorkers == [] else w'.status.targetWorkers == FirstWorkers(sp))
  }

  lemma SyncWorkersLists(sp: Spec, w: World, api: Api)
    ensures var w' := SyncWorkers(sp, w, api).w;
            SameWorkers(w, w') || Synced(sp, w, w', api)
  {
    if api.podList.Some? {
      var running := Seen(sp, w.pods, api.podList.value);
      RefreshFrame(sp, w, running, api);
      var r := RefreshHostfile(sp, w, running, api);
      if r.ok { ReplaceDeadLists(sp, RecordRunning(r.w, running), api); }
    }
  }

  lemma ReplaceDeadLists(sp: Spec, w: World, api: Api)
    ensures var w' := ReplaceDead(sp, w, api).w;
            && w'.status.currentWorkers == w.status.currentWorkers
            && (w'.status.targetWorkers == w.status.targetWorkers
                || w'.status.targetWorkers == Replaced(sp, w.pods, w.status.targetWorkers))
  {
  }

  lemma DoStepsLists(sp: Spec, w: World, api: Api)
    ensures Begins(sp, w, DoSteps(sp, w, api).w, api)
  {
    if !Has(w.status.conditions, WorkersCreated) {
    } else if !Has(w.status.conditions, WorkersReady) {
      SyncWorkersLists(sp, w, api);
    } else if !Has(w.status.conditions, LauncherCreated) {
    } else if !Has(w.status.conditions, Running) {
      SyncLauncherWorkers(sp, w, api);
    }
  }

  lemma RunningLists(sp: Spec, w: World, api: Api)
    ensures var w' := ReconcileRunning(sp, w, api).w;
            SameWorkers(w, w') || Synced(sp, w, w', api)
  {
    var w1 := SyncLauncher(sp, w, api);
    SyncLauncherWorkers(sp, w, api);
    SyncWorkersLists(sp, w1, api);
    SelectKeepsCluster(SyncWorkers(sp, w1, api).w, api);
  }

  lemma RestartLists(sp: Spec, w: World, api: Api)
    requires NeedRestart(sp, w.status)
    ensures Emptied(sp, Restart(sp, w, api).w)
  {
    ResetPhases(w, api);
    var r := DeleteAllPods(Reset(w, api), api);
    if r.ok {
      var w1 := DeleteLauncher(r.w, api);
      if api.serviceListed { CreatedFirst(sp, w1, api); }
    }
  }

  lemma CreatedFirst(sp: Spec, w: World, api: Api)
    requires TruthsOf(w) == {Created} && w.status.phase == Created
    requires w.status.targetWorkers == [] && w.status.currentWorkers == []
    ensures Emptied(sp, DoSteps(sp, w, api).w)
  {
    var workers := ReplicaWorkers(sp, w.status);
    var made := CreateWorkers(sp.name, w.pods, workers, None, api.creates);
    var w1 := w.(status := w.status.(targetWorkers := workers), pods := made.pods);
    Noted(w1, WorkersCreated, "", api);
    assert WorkersCreated in After({Created}, WorkersCreated);
  }

  lemma StartingLists(sp: Spec, w: World, api: Api)
    requires InPhase(w) && w.status.phase in {NoPhase, Created}
    ensures Begins(sp, w, DoSteps(sp, Initialize(w, api), api).w, api)
  {
    if w.status.conditions == [] { Noted(w, Created, JOB_CREATED, api); }
    DoStepsLists(sp, Initialize(w, api), api);
  }

  lemma PassLists(sp: Spec, w: World, api: Api)
    requires PhaseInv(w)
    ensures ListMove(sp, w, Reconcile(sp, w, api).w, api)
  {
    if w.suspended {
      CleanupFrame(sp, Suspend(w, api), api);
    } else {
      match w.status.phase
      case Succeeded => CleanupFrame(sp, w, api);
      case Suspended => CleanupFrame(sp, w, api);
      case Failed =>
        if NeedRestart(sp, w.status) { RestartLists(sp, w, api); } else { CleanupFrame(sp, w, api); }
      case NoPhase => StartingLists(sp, w, api);
      case Created => StartingLists(sp, w, api);
      case Running => RunningLists(sp, w, api);
      case Scaling => ExecuteScalingPhases(sp, w, api);
      case _ =>
    }
  }

  // ---------- recovery ----------

  ghost predicate Distinct(sp: Spec, names: seq<string>) { NoDup(names) && AllCanonical(sp, names) }

  lemma MaxIndexAtLeast(names: seq<string>)
    ensures MaxIndex(names) >= -1
  {
    MaxFromBounds(names, 0, 0);
  }

  lemma AppendDistinct(sp: Spec, a: seq<string>, b: seq<string>)
    requires Distinct(sp, a) && Distinct(sp, b) && forall n :: n in b ==> n !in a
    ensures Distinct(sp, a + b)
  {
    forall i, j | 0 <= i < j < |a + b| ensures (a + b)[i] != (a + b)[j] {
      if i < |a| <= j { assert b[j - |a|] in b && a[i] in a; }
    }
  }

  /** Recovery keeps the number of workers, and replaces the dead ones by names never used in the
      list before. */
  lemma ReplacedDistinct(sp: Spec, pods: map<string, Pod>, target: seq<string>)
    requires Distinct(sp, target) && Fits(MaxIndex(target), |target|)
    ensures Distinct(sp, Replaced(sp, pods, target)) && |Replaced(sp, pods, target)| == |target|
    ensures forall n :: n in Replaced(sp, pods, target) && n in target ==>
              !NeedsReplacement(WorkerPolicy(sp), pods, n)
  {
    var dead := Dead(sp, pods, target);
    RestartMembers(WorkerPolicy(sp), pods, target);
    FreshNamesAreNew(sp.name, target, |dead|);
    FilterMembers(target, dead, true);
    FilterNoDup(target, dead, true);
    FilterSizes(target, dead);
    FilterCount(target, dead);
    AppendDistinct(sp, Filter(target, dead, true), FreshNames(sp.name, MaxIndex(target), |dead|));
  }

  /** Running workers that have just been adopted need no replacement. */
  lemma {:induction false} AdoptedStay(sp: Spec, pods: map<string, Pod>, running: seq<string>)
    requires forall n :: n in running ==> n in pods && pods[n].phase == PodRunning
    ensures Dead(sp, pods, running) == []
  {
    if running != [] {
      assert running[0] in running;
      AdoptedStay(sp, pods, running[1..]);
    }
  }

  /** There are unused indexes below 2^31 for every allocation a pass may make. */
  ghost predicate Room(sp: Spec, w: World) {
    var max := MaxIndex(w.status.targetWorkers);
    && sp.replicas <= MAX_INT32
    && max + |w.status.targetWorkers| <= MAX_INT32
    && forall r :: r in w.scalers && r.kind == ScaleOut && w.scalers[r].count.Some? ==>
         max + w.scalers[r].count.value <= MAX_INT32
  }

  lemma SyncedDistinct(sp: Spec, w: World, w': World, api: Api)
    requires Synced(sp, w, w', api) && Faithful(w, api) && CanonicalPods(sp, w.pods)
    requires Distinct(sp, w.status.targetWorkers) && Room(sp, w)
    ensures Distinct(sp, w'.status.targetWorkers) && Distinct(sp, w'.status.currentWorkers)
    ensures w.status.targetWorkers != [] ==> |w'.status.targetWorkers| == |w.status.targetWorkers|
  {
    var target, running := w.status.targetWorkers, Seen(sp, w.pods, api.podList.value);
    RunningSorted(sp, w.pods, api.podList.value);
    if target == [] {
      AdoptedStay(sp, w.pods, running);
      AllKept(running);
    } else {
      MaxIndexAtLeast(target);
      ReplacedDistinct(sp, w.pods, target);
    }
  }

  lemma {:induction false} AllKept(names: seq<string>)
    ensures Filter(names, [], true) == names
  {
    if names != [] { AllKept(names[1..]); }
  }

  lemma FirstDistinct(sp: Spec)
    requires sp.replicas <= MAX_INT32
    ensures Distinct(sp, FirstWorkers(sp))
  {
    FreshNamesAreNew(sp.name, [], if sp.replicas > 0 then sp.replicas else 0);
  }

  // ---------- what scale-outs have allocated ----------

  /** The pods recorded on a scale-out: as many distinct canonical names as it asks for. */
  ghost predicate Allocated(sp: Spec, s: Scaler) {
    s.pods != [] ==> ValidCount(s) && |s.pods| == s.count.value && Distinct(sp, s.pods)
  }

  ghost predicate AllAllocated(sp: Spec, w: World) {
    forall r :: r in w.scalers && r.kind == ScaleOut ==> Allocated(sp, w.scalers[r])
  }

  /** In this attempt: the pods of the scale-out in flight are numbered just above the target list. */
  ghost predicate AboveTarget(sp: Spec, w: World) {
    forall r :: r in w.scalers && r.kind == ScaleOut && !Finished(w.scalers[r]) && w.scalers[r].pods != [] ==>
      w.scalers[r].pods == FreshNames(sp.name, MaxIndex(w.status.targetWorkers), |w.scalers[r].pods|)
  }

  lemma AllocateAllocates(sp: Spec, w: World, s: Scaler)
    requires Allocated(sp, s) && ValidCount(s)
    requires MaxIndex(w.status.targetWorkers) + s.count.value <= MAX_INT32
    ensures Allocated(sp, Allocate(sp, w, s, s.count.value))
    ensures s.pods == [] ==> AllocatedAbove(sp, w, Allocate(sp, w, s, s.count.value).pods, s.count.value)
  {
    if s.pods == [] {
      var max := MaxIndex(w.status.targetWorkers);
      MaxIndexAtLeast(w.status.targetWorkers);
      assert Fits(max, s.count.value);
      FreshAbove(sp, max, s.count.value);
    }
  }

  predicate AllocatedAbove(sp: Spec, w: World, pods: seq<string>, count: nat) {
    pods == FreshNames(sp.name, MaxIndex(w.status.targetWorkers), count)
  }

  lemma FreshAbove(sp: Spec, above: int, count: nat)
    requires Fits(above, count)
    ensures Distinct(sp, FreshNames(sp.name, above, count))
    ensures forall n :: n in FreshNames(sp.name, above, count) ==>
              Canonical(sp.name, n) && above < IndexOf(sp.name, n) <= above + count
  {
    var names := FreshNames(sp.name, above, count);
    forall i | 0 <= i < count
      ensures Canonical(sp.name, names[i]) && IndexOf(sp.name, names[i]) == above + 1 + i
    {
      CanonicalName(sp.name, above + 1 + i);
    }
  }

  lemma WorkedOnAllocated(sp: Spec, w: World, w': World, ref: Ref, api: Api)
    requires WorkedOn(sp, w, w', ref, api) && ref.kind == ScaleOut
    requires Allocated(sp, w.scalers[ref]) && Room(sp, w)
    ensures Allocated(sp, w'.scalers[ref])
    ensures w.scalers[ref].pods != [] ==> w'.scalers[ref].pods == w.scalers[ref].pods
    ensures w.scalers[ref].pods == [] && w'.scalers[ref].pods != [] ==>
              AllocatedAbove(sp, w, w'.scalers[ref].pods, |w'.scalers[ref].pods|)
  {
    var s := w.scalers[ref];
    if !s.deleting && ValidCount(s) { AllocateAllocates(sp, w, s); }
  }

  lemma PassAllocated(sp: Spec, w: World, api: Api)
    requires PhaseInv(w) && AllAllocated(sp, w) && Room(sp, w)
    ensures AllAllocated(sp, Reconcile(sp, w, api).w)
  {
    PassMoves(sp, w, api);
    if !w.suspended && w.status.phase == Scaling {
      MovedAllocated(sp, w, Reconcile(sp, w, api).w, api);
    }
  }

  lemma MovedAllocated(sp: Spec, w: World, w': World, api: Api)
    requires PhaseInv(w) && w.status.phase == Scaling && ScalingMove(w, w')
    requires w'.scalers == w.scalers || WorkedOn(sp, w, w', CurrentRef(w), api)
    requires AllAllocated(sp, w) && Room(sp, w)
    ensures AllAllocated(sp, w')
  {
    var ref := CurrentRef(w);
    if w'.scalers != w.scalers && ref.kind == ScaleOut { WorkedOnAllocated(sp, w, w', ref, api); }
  }

  lemma OutsideAllocated(sp: Spec, w: World, e: Event, w': World)
    requires Next(sp, w, e, w') && !e.Reconciled? && AllAllocated(sp, w)
    ensures AllAllocated(sp, w')
  {
  }

  lemma NextAllocated(sp: Spec, w: World, e: Event, w': World)
    requires PhaseInv(w) && Next(sp, w, e, w') && AllAllocated(sp, w) && Room(sp, w)
    ensures AllAllocated(sp, w')
  {
    match e
    case Reconciled(api) => PassAllocated(sp, w, api);
    case _ => OutsideAllocated(sp, w, e, w');
  }

  ghost predicate RoomAt(sp: Spec, ws: seq<World>, n: nat)
    requires n < |ws|
  {
    Room(sp, ws[n])
  }

  /** There is room in every state from the i-th to the k-th. */
  ghost predicate RoomyFrom(sp: Spec, ws: seq<World>, i: nat, k: nat)
    requires i <= k < |ws|
  {
    forall n :: i <= n <= k ==> RoomAt(sp, ws, n)
  }

  lemma RoomIn(sp: Spec, ws: seq<World>, i: nat, k: nat, n: nat)
    requires i <= n <= k < |ws| && RoomyFrom(sp, ws, i, k)
    ensures Room(sp, ws[n])
  {
    assert RoomAt(sp, ws, n);
  }

  lemma {:induction false} RunAllocated(sp: Spec, ws: seq<World>, es: seq<Event>, i: nat, k: nat)
    requires Run(sp, ws, es) && Init(ws[0]) && i <= k <= |es|
    requires AllAllocated(sp, ws[i]) && RoomyFrom(sp, ws, i, k)
    ensures AllAllocated(sp, ws[k])
  {
    if i < k {
      RoomIn(sp, ws, i, k, k - 1);
      RunAllocated(sp, ws, es, i, k - 1);
      AllocatedStep(sp, ws, es, k - 1);
    }
  }

  lemma AllocatedStep(sp: Spec, ws: seq<World>, es: seq<Event>, k: nat)
    requires Run(sp, ws, es) && Init(ws[0]) && k < |es| && AllAllocated(sp, ws[k]) && Room(sp, ws[k])
    ensures AllAllocated(sp, ws[k + 1])
  {
    StepOf(sp, ws, es, k);
    RunPhases(sp, ws, es, k);
    NextAllocated(sp, ws[k], es[k], ws[k + 1]);
  }

  // ---------- no duplicates ----------

  /** Pods that a scale-out allocated above the target list are not in it. */
  lemma AboveIsDisjoint(sp: Spec, target: seq<string>, pods: seq<string>)
    requires AllCanonical(sp, target) && Fits(MaxIndex(target), |pods|)
    requires pods == FreshNames(sp.name, MaxIndex(target), |pods|)
    ensures forall n :: n in pods ==> n !in target
  {
    FreshNamesAreNew(sp.name, target, |pods|);
  }

  /** What holds of the lists in every state of an attempt. */
  ghost predicate ListInv(sp: Spec, w: World) {
    && Distinct(sp, w.status.targetWorkers) && Distinct(sp, w.status.currentWorkers)
    && AllAllocated(sp, w) && AboveTarget(sp, w)
  }

  /** The pods of the scale-out that a pass works on, against the target list before the pass. */
  lemma CurrentAbove(sp: Spec, w: World, w': World, ref: Ref, api: Api)
    requires WorkedOn(sp, w, w', ref, api) && ref.kind == ScaleOut && !Finished(w.scalers[ref])
    requires ListInv(sp, w) && Room(sp, w)
    ensures var pods := w'.scalers[ref].pods;
            && Allocated(sp, w'.scalers[ref])
            && (pods != [] ==> AllocatedAbove(sp, w, pods, |pods|))
            && forall n :: n in pods ==> n !in w.status.targetWorkers
  {
    WorkedOnAllocated(sp, w, w', ref, api);
    var pods := w'.scalers[ref].pods;
    if pods != [] {
      MaxIndexAtLeast(w.status.targetWorkers);
      AboveIsDisjoint(sp, w.status.targetWorkers, pods);
    }
  }

  lemma ScalingDistinct(sp: Spec, w: World, w': World, api: Api)
    requires PhaseInv(w) && w.status.phase == Scaling && ScalingMove(w, w')
    requires w'.scalers == w.scalers || WorkedOn(sp, w, w', CurrentRef(w), api)
    requires ListInv(sp, w) && Room(sp, w)
    ensures Distinct(sp, w'.status.targetWorkers) && Distinct(sp, w'.status.currentWorkers)
  {
    var ref := CurrentRef(w);
    if w'.status.phase == Running && !SameWorkers(w, w') {
      var pods := w'.scalers[ref].pods;
      if ref.kind == ScaleOut {
        CurrentAbove(sp, w, w', ref, api);
        AppendDistinct(sp, w.status.targetWorkers, pods);
      } else {
        FilterDistinct(sp, w.status.targetWorkers, pods);
        FilterDistinct(sp, w.status.currentWorkers, pods);
      }
    }
  }

  lemma FilterDistinct(sp: Spec, names: seq<string>, removed: seq<string>)
    requires Distinct(sp, names)
    ensures Distinct(sp, Filter(names, removed, true))
  {
    FilterNoDup(names, removed, true);
    FilterMembers(names, removed, true);
  }

  lemma PassDistinct(sp: Spec, w: World, api: Api)
    requires PhaseInv(w) && CanonicalPods(sp, w.pods) && Faithful(w, api)
    requires ListInv(sp, w) && Room(sp, w)
    ensures var w' := Reconcile(sp, w, api).w;
            Distinct(sp, w'.status.targetWorkers) && Distinct(sp, w'.status.currentWorkers)
  {
    var w' := Reconcile(sp, w, api).w;
    PassLists(sp, w, api);
    if w.status.phase == Scaling && !w.suspended {
      PassMoves(sp, w, api);
      ScalingDistinct(sp, w, w', api);
    } else {
      FirstDistinct(sp);
      if Synced(sp, w, w', api) { SyncedDistinct(sp, w, w', api); }
    }
  }

  // ---------- canonical targets, clean restarts or not ----------

  lemma SyncedCanonical(sp: Spec, w: World, w': World, api: Api)
    requires Synced(sp, w, w', api) && Faithful(w, api) && CanonicalPods(sp, w.pods)
    requires AllCanonical(sp, w.status.targetWorkers) && Room(sp, w)
    ensures AllCanonical(sp, w'.status.targetWorkers)
  {
    var target, running := w.status.targetWorkers, Seen(sp, w.pods, api.podList.value);
    RunningSorted(sp, w.pods, api.podList.value);
    if target == [] {
      AdoptedStay(sp, w.pods, running);
      AllKept(running);
    } else {
      var dead := Dead(sp, w.pods, target);
      MaxIndexAtLeast(target);
      RestartMembers(WorkerPolicy(sp), w.pods, target);
      FreshAbove(sp, MaxIndex(target), |dead|);
      FilterMembers(target, dead, true);
    }
  }

  lemma ScaledCanonical(sp: Spec, w: World, w': World, api: Api)
    requires PhaseInv(w) && w.status.phase == Scaling && ScalingMove(w, w')
    requires w'.scalers == w.scalers || WorkedOn(sp, w, w', CurrentRef(w), api)
    requires AllCanonical(sp, w.status.targetWorkers) && AllAllocated(sp, w) && Room(sp, w)
    ensures AllCanonical(sp, w'.status.targetWorkers)
  {
    var ref := CurrentRef(w);
    if w'.status.phase == Running && !SameWorkers(w, w') {
      var pods := w'.scalers[ref].pods;
      FilterMembers(w.status.targetWorkers, pods, true);
      if ref.kind == ScaleOut && w'.scalers != w.scalers { WorkedOnAllocated(sp, w, w', ref, api); }
    }
  }

  lemma PassCanonical(sp: Spec, w: World, api: Api)
    requires PhaseInv(w) && CanonicalPods(sp, w.pods) && Faithful(w, api)
    requires AllCanonical(sp, w.status.targetWorkers) && AllAllocated(sp, w) && Room(sp, w)
    ensures AllCanonical(sp, Reconcile(sp, w, api).w.status.targetWorkers)
  {
    var w' := Reconcile(sp, w, api).w;
    PassLists(sp, w, api);
    if w.status.phase == Scaling && !w.suspended {
      PassMoves(sp, w, api);
      ScaledCanonical(sp, w, w', api);
    } else {
      FirstDistinct(sp);
      if Synced(sp, w, w', api) { SyncedCanonical(sp, w, w', api); }
    }
  }

  lemma NextCanonical(sp: Spec, w: World, e: Event, w': World)
    requires PhaseInv(w) && CanonicalPods(sp, w.pods) && Next(sp, w, e, w')
    requires AllCanonical(sp, w.status.targetWorkers) && AllAllocated(sp, w) && Room(sp, w)
    ensures AllCanonical(sp, w'.status.targetWorkers)
  {
    match e
    case Reconciled(api) => PassCanonical(sp, w, api);
    case _ => OutsideKeepsStatus(sp, w, e, w');
  }

  /** Every target worker has a canonical name, duplicates or not. */
  lemma {:induction false} RunCanonical(sp: Spec, ws: seq<World>, es: seq<Event>, i: nat, k: nat)
    requires Run(sp, ws, es) && Init(ws[0]) && i <= k <= |es| && RoomyFrom(sp, ws, i, k)
    requires AllAllocated(sp, ws[i]) && AllCanonical(sp, ws[i].status.targetWorkers)
    ensures AllCanonical(sp, ws[k].status.targetWorkers)
  {
    if i < k {
      RoomIn(sp, ws, i, k, k - 1);
      RunCanonical(sp, ws, es, i, k - 1);
      RunAllocated(sp, ws, es, i, k - 1);
      CanonicalStep(sp, ws, es, k - 1);
    }
  }

  lemma CanonicalStep(sp: Spec, ws: seq<World>, es: seq<Event>, k: nat)
    requires Run(sp, ws, es) && Init(ws[0]) && k < |es| && Room(sp, ws[k])
    requires AllAllocated(sp, ws[k]) && AllCanonical(sp, ws[k].status.targetWorkers)
    ensures AllCanonical(sp, ws[k + 1].status.targetWorkers)
  {
    RunPhases(sp, ws, es, k);
    RunPods(sp, ws, es, k);
    StepOf(sp, ws, es, k);
    NextCanonical(sp, ws[k], es[k], ws[k + 1]);
  }
}
