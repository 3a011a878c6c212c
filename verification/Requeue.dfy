/** When a pass asks to be made again after the poll interval, exactly: phase by phase, from the world
    and the answers of the calls. */
module Requeue {
  import opened GoStrings
  import opened WorkerNames
  import opened Conditions
  import opened ScalerRefs
  import opened Cluster
  import opened Pass
  import opened System
  import opened Phases
  import opened Lifecycle
  import opened Workers
  import opened Launching
  import opened ScalerPasses
  import opened WorkerLists
  import opened ScaleIns
  import opened ScaleOuts
  import opened Decisions
  import opened Agreement
  import opened Recovery
  import opened Restarts
  import opened Outcomes

  // ---------- jobs that have ended ----------

  /** A job that is suspended, or restarts, is done once pods and services could be listed; one that
      succeeded likewise if its pods are to be cleaned up; a failure that is final asks for nothing. */
  predicate EndedQuiet(sp: Spec, w: World, api: Api) {
    var listed := api.deleteListed && api.serviceListed;
    if w.suspended || w.status.phase == Suspended then listed
    else if w.status.phase == Succeeded then
      sp.cleanPods in {Some(CleanNone), Some(CleanUndefined)} || listed
    else sp.restartPolicy == OnFailure && w.status.restartCount < sp.backoffLimit ==> listed
  }

  lemma CleanupRequeues(sp: Spec, w: World, api: Api)
    ensures Cleanup(sp, w, api).ok <==>
              sp.cleanPods in {Some(CleanNone), Some(CleanUndefined)} || (api.deleteListed && api.serviceListed)
  {
    if sp.cleanPods.Some? {
      match sp.cleanPods.value
      case CleanUndefined => assert sp.cleanPods == Some(CleanUndefined);
      case CleanNone => assert sp.cleanPods == Some(CleanNone);
      case _ =>
    }
  }

  lemma EndedRequeues(sp: Spec, w: World, api: Api)
    requires PhaseInv(w) && sp.replicas <= MAX_INT32
    requires w.suspended || w.status.phase in {Succeeded, Failed, Suspended}
    ensures Reconcile(sp, w, api).ok <==> EndedQuiet(sp, w, api)
  {
    SuspendPhases(w, api);
    if w.suspended || w.status.phase == Suspended {
      assert Reconcile(sp, w, api) == CleanupAll(Suspend(w, api), api);
    } else if w.status.phase == Succeeded {
      CleanupRequeues(sp, w, api);
    } else if Resets(sp, w) {
      RestartOutcome(sp, w, api);
    }
  }

  // ---------- the worker sync ----------

  /** The running pods are not those recorded as current workers. */
  ghost predicate RunningChanged(w: World) {
    !(forall n :: n in w.status.currentWorkers <==> n in w.pods && w.pods[n].phase == PodRunning)
  }

  /** The creation of one of the names that would replace the lost target workers is refused. */
  ghost predicate ReplacementRefused(sp: Spec, w: World, api: Api) {
    var target := w.status.targetWorkers;
    var lost := |set n | n in target && Lost(sp, w.pods, n)|;
    exists m :: m in api.creates && Canonical(sp.name, m)
                && MaxIndex(target) < IndexOf(sp.name, m) <= MaxIndex(target) + lost
  }

  lemma FirstIsMember(names: seq<string>)
    ensures names == [] || names[0] in names
  {
  }

  lemma SameIndex(sp: Spec, a: string, b: string)
    requires Canonical(sp.name, a) && Canonical(sp.name, b) && IndexOf(sp.name, a) == IndexOf(sp.name, b)
    ensures a == b
  {
    assert a == WorkerName(sp.name, IndexOf(sp.name, a)) && b == WorkerName(sp.name, IndexOf(sp.name, b));
  }

  /** Two ascending lists with the same members are the same. */
  lemma {:induction false} OrderedUnique(sp: Spec, a: seq<string>, b: seq<string>)
    requires Ordered(sp, a) && Ordered(sp, b) && forall n :: n in a <==> n in b
    ensures a == b
  {
    if a == [] {
      FirstIsMember(b);
    } else {
      assert a[0] in a && a[0] in b && b[0] in b && b[0] in a;
      OrderedFirst(sp, a, b[0]);
      OrderedFirst(sp, b, a[0]);
      SameIndex(sp, a[0], b[0]);
      forall n ensures n in a[1..] <==> n in b[1..] {
        OrderedRest(sp, a, n);
        OrderedRest(sp, b, n);
      }
      OrderedUnique(sp, a[1..], b[1..]);
    }
  }

  lemma OrderedFirst(sp: Spec, names: seq<string>, n: string)
    requires Ordered(sp, names) && n in names
    ensures IndexOf(sp.name, names[0]) <= IndexOf(sp.name, n)
  {
  }

  lemma OrderedRest(sp: Spec, names: seq<string>, n: string)
    requires Ordered(sp, names) && names != []
    ensures n in names[1..] <==> n in names && n != names[0]
  {
    assert names == [names[0]] + names[1..];
  }

  lemma ChangeMeans(sp: Spec, w: World, list: seq<string>)
    requires PlainJob(sp) && CanonicalPods(sp, w.pods) && Enumerates(list, w.pods.Keys)
    requires Ordered(sp, w.status.currentWorkers)
    ensures Join(Seen(sp, w.pods, list), ',') != Join(w.status.currentWorkers, ',') <==> RunningChanged(w)
  {
    var running := Seen(sp, w.pods, list);
    SeenOrdered(sp, w.pods, list);
    RunningSorted(sp, w.pods, list);
    ChangeIsSeen(sp, running, w.status.currentWorkers);
    if !RunningChanged(w) { OrderedUnique(sp, running, w.status.currentWorkers); }
  }

  lemma DeadCount(sp: Spec, pods: map<string, Pod>, target: seq<string>)
    requires NoDup(target)
    ensures |Dead(sp, pods, target)| == |set n | n in target && Lost(sp, pods, n)|
  {
    var dead := Dead(sp, pods, target);
    RestartMembers(WorkerPolicy(sp), pods, target);
    NoDupSetSize(dead);
    forall n | n in target ensures n in dead <==> Lost(sp, pods, n) { LostMeans(sp, pods, n); }
    assert (set n | n in dead) == set n | n in target && Lost(sp, pods, n);
  }

  lemma ReplacementsRefused(sp: Spec, w: World, api: Api)
    requires Distinct(sp, w.status.targetWorkers)
    requires Fits(MaxIndex(w.status.targetWorkers), |w.status.targetWorkers|)
    ensures ReplaceDead(sp, w, api).ok <==> !ReplacementRefused(sp, w, api)
  {
    var target := w.status.targetWorkers;
    var dead := Dead(sp, w.pods, target);
    var added := FreshNames(sp.name, MaxIndex(target), |dead|);
    RestartMembers(WorkerPolicy(sp), w.pods, target);
    DeadCount(sp, w.pods, target);
    FreshAbove(sp, MaxIndex(target), |dead|);
    CreationSucceeds(sp.name, w.pods, added, None, api.creates);
    forall m | Canonical(sp.name, m) && MaxIndex(target) < IndexOf(sp.name, m) <= MaxIndex(target) + |dead|
      ensures m in added
    {
      assert added[IndexOf(sp.name, m) - MaxIndex(target) - 1] == m;
    }
  }

  /** The answers under which a worker sync gets through: the pods are listed, a launcher that is there
      takes the hostfile if it has to be rewritten, and no replacement is refused. */
  ghost predicate SyncQuiet(sp: Spec, w: World, rewrites: bool, api: Api) {
    && api.podList.Some?
    && (rewrites && RunningChanged(w) ==> api.exec == ExecDone)
    && !ReplacementRefused(sp, w, api)
  }

  lemma SyncRequeues(sp: Spec, w: World, api: Api)
    requires PlainJob(sp) && CanonicalPods(sp, w.pods) && Faithful(w, api)
    requires Distinct(sp, w.status.targetWorkers) && Room(sp, w) && Ordered(sp, w.status.currentWorkers)
    ensures SyncWorkers(sp, w, api).ok <==>
              SyncQuiet(sp, w, Has(w.status.conditions, Running) && w.launcher.Some?, api)
  {
    if api.podList.Some? {
      var running := Seen(sp, w.pods, api.podList.value);
      ChangeMeans(sp, w, api.podList.value);
      RefreshFrame(sp, w, running, api);
      var r := RefreshHostfile(sp, w, running, api);
      if r.ok { RecordedRefused(sp, w, r.w, running, api); }
    }
  }

  lemma RecordedRefused(sp: Spec, w: World, w1: World, running: seq<string>, api: Api)
    requires CanonicalPods(sp, w.pods) && api.podList.Some? && Faithful(w, api)
    requires running == Seen(sp, w.pods, api.podList.value) && w1 == w.(launcher := w1.launcher)
    requires Distinct(sp, w.status.targetWorkers) && Room(sp, w)
    ensures ReplaceDead(sp, RecordRunning(w1, running), api).ok <==> !ReplacementRefused(sp, w, api)
  {
    RunningSorted(sp, w.pods, api.podList.value);
    AdoptedStay(sp, w.pods, running);
    MaxIndexAtLeast(w.status.targetWorkers);
    if w.status.targetWorkers != [] {
      ReplacementsRefused(sp, RecordRunning(w1, running), api);
    } else {
      assert (set n | n in w.status.targetWorkers && Lost(sp, w.pods, n)) == {};
    }
  }

  // ---------- jobs that run or start up ----------

  /** The launcher is there when the workers are synchronised, having been recreated if need be. */
  predicate LauncherThere(sp: Spec, w: World, api: Api) {
    w.launcher.Some? || (api.launcherRead && sp.launcherPolicy == Always && api.launcherCreated)
  }

  lemma LaunchersAfterLook(sp: Spec, w: World, api: Api)
    requires InPhase(w) && w.status.phase == Running
    requires !LauncherIs(w, api, PodSucceeded) && !LauncherLost(sp, w, api)
    ensures SyncLauncher(sp, w, api).launcher.Some? <==> LauncherThere(sp, w, api)
  {
  }

  /** A pass of a running job asks for another exactly when its worker sync does not get through.  The
      hostfile plays no part once the launcher has ended the job. */
  lemma RunningRequeues(sp: Spec, w: World, api: Api)
    requires PhaseInv(w) && !w.suspended && w.status.phase == Running
    requires PlainJob(sp) && CanonicalPods(sp, w.pods) && Faithful(w, api)
    requires Distinct(sp, w.status.targetWorkers) && Room(sp, w) && Ordered(sp, w.status.currentWorkers)
    ensures var ended := LauncherIs(w, api, PodSucceeded) || LauncherLost(sp, w, api);
            Reconcile(sp, w, api).ok <==> SyncQuiet(sp, w, !ended && LauncherThere(sp, w, api), api)
  {
    var w1 := SyncLauncher(sp, w, api);
    SyncLauncherPhases(sp, w, api);
    SyncLauncherWorkers(sp, w, api);
    SyncDecides(sp, w, api);
    SyncRequeues(sp, w1, api);
    LookedQuiet(sp, w, w1, Has(w1.status.conditions, Running) && w1.launcher.Some?, api);
    if w1.status.phase == Running { LaunchersAfterLook(sp, w, api); }
  }

  lemma LookedQuiet(sp: Spec, w: World, w1: World, rewrites: bool, api: Api)
    requires w1 == w.(status := w1.status, launcher := w1.launcher) && SameWorkers(w, w1)
    ensures SyncQuiet(sp, w1, rewrites, api) <==> SyncQuiet(sp, w, rewrites, api)
  {
  }

  /** A pass of a job that starts up asks for another exactly when it waits for the first workers and its
      worker sync does not get through. */
  lemma StartUpRequeues(sp: Spec, w: World, api: Api)
    requires PhaseInv(w) && !w.suspended && w.status.phase in {NoPhase, Created}
    requires PlainJob(sp) && CanonicalPods(sp, w.pods) && Faithful(w, api)
    requires Distinct(sp, w.status.targetWorkers) && Room(sp, w) && Ordered(sp, w.status.currentWorkers)
    ensures Reconcile(sp, w, api).ok <==>
              (WorkersCreated in TruthsOf(w) && !Ready(w) ==> SyncQuiet(sp, w, false, api))
  {
    if WorkersCreated in TruthsOf(w) && !Ready(w) {
      WaitingSyncs(sp, w, api);
      SyncRequeues(sp, w, api);
    } else {
      OtherSteps(sp, w, api);
    }
  }

  lemma OtherSteps(sp: Spec, w: World, api: Api)
    requires InPhase(w) && !w.suspended && w.status.phase in {NoPhase, Created}
    requires !(WorkersCreated in TruthsOf(w) && !Ready(w))
    ensures Reconcile(sp, w, api).ok
  {
    if w.status.conditions == [] {
      Noted(w, Created, JOB_CREATED, api);
      assert After({}, Created) == {Created};
    }
  }

  // ---------- jobs that scale ----------

  /** A pass over a scale-in asks for another only when it leaves it unfinished because the processes
      could not be listed, or one of the chosen workers is still held by one. */
  ghost predicate ShrinkQuiet(sp: Spec, w: World, w': World, ref: Ref, api: Api)
    requires ref in w.scalers
  {
    var command := if sp.kubexec then "/etc/mpi/kubexec.sh "
                   else "ssh -o PasswordAuthentication=no -o StrictHostKeyChecking=no ";
    || w.scalers[ref].deleting || w.scalers[ref].script != "" || w'.launcher.None?
    || (ref in w'.scalers && Finished(w'.scalers[ref]))
    || (ref in w'.scalers && api.processes.Some?
        && forall n :: n in w'.scalers[ref].pods ==> !Occurs(command + n, api.processes.value))
  }

  lemma DeleteAndCommitRequeues(sp: Spec, w: World, ref: Ref, s: Scaler, hosts: seq<string>, listing: string,
                                api: Api)
    requires InPhase(w) && w.status.phase == Scaling && Sane(s) && !Finished(s)
    ensures var r := DeleteAndCommit(sp, w, ref, s, hosts, listing, api);
            && ref in r.w.scalers && r.w.scalers[ref].pods == s.pods
            && (r.ok <==> || Finished(r.w.scalers[ref]) || s.script != ""
                          || forall n :: n in s.pods ==> !Attached(sp, listing, n))
  {
    DeleteAndCommitDecides(sp, w, ref, s, hosts, listing, api);
    DeleteAndCommitObject(sp, w, ref, s, hosts, listing, api);
    NotAttachedMembers(sp, listing, s.pods);
  }

  lemma RemoveChosenRequeues(sp: Spec, w: World, ref: Ref, s: Scaler, api: Api)
    requires InPhase(w) && w.status.phase == Scaling && Sane(s) && !Finished(s)
    ensures var r := RemoveChosen(sp, w, ref, s, api);
            && ref in r.w.scalers && r.w.scalers[ref].pods == s.pods
            && (r.ok <==> || Finished(r.w.scalers[ref]) || s.script != "" || w.launcher.None?
                          || (api.processes.Some?
                              && forall n :: n in s.pods ==> !Attached(sp, api.processes.value, n)))
  {
    var hosts := Remaining(w, s.pods);
    var r := ScaleScript(sp, w, s, hosts, api);
    ScaleScriptFrame(sp, w, s, hosts, api);
    RemoveChosenObject(sp, w, ref, s, api);
    if !r.ok {
      FinishScalerPhases(r.w, ref, r.s, ScaleFailed, api);
    } else if ListingFor(r.w, s, api).Some? {
      DeleteAndCommitRequeues(sp, r.w, ref, r.s, hosts, ListingFor(r.w, s, api).value, api);
      forall n ensures !Attached(sp, "", n) { NothingAttached(sp, n); }
    }
  }

  lemma ScaleInRequeues(sp: Spec, w: World, ref: Ref, api: Api)
    requires InPhase(w) && w.status.phase == Scaling && ref in w.scalers && ref.kind == ScaleIn
    requires Sane(w.scalers[ref]) && !Finished(w.scalers[ref])
    requires Faithful(w, api) && CanonicalPods(sp, w.pods)
    ensures var r := ScaleInPass(sp, w, ref, w.scalers[ref], api);
            r.ok <==> ShrinkQuiet(sp, w, r.w, ref, api)
  {
    var s := w.scalers[ref];
    if !s.deleting {
      ChoiceExists(sp, w, s, api);
      match ChooseToDelete(sp, s, api)
      case Chosen(pods) => ChosenRequeues(sp, w, ref, s.(pods := pods), api);
      case _ => FinishScalerPhases(w, ref, s, ScaleFailed, api);
    }
  }

  lemma ChosenRequeues(sp: Spec, w: World, ref: Ref, s: Scaler, api: Api)
    requires InPhase(w) && w.status.phase == Scaling && Sane(s) && !Finished(s)
    requires ref in w.scalers && s == w.scalers[ref].(pods := s.pods) && !s.deleting
    ensures var r := RemoveChosen(sp, w, ref, s, api);
            r.ok <==> ShrinkQuiet(sp, w, r.w, ref, api)
  {
    RemoveChosenRequeues(sp, w, ref, s, api);
    RemoveChosenLauncher(sp, w, ref, s, api);
    if api.processes.Some? {
      forall n ensures Attached(sp, api.processes.value, n) <==> Occurs(AttachLine(sp, n), api.processes.value) {
        AttachedMeans(sp, api.processes.value, n);
      }
    }
  }

  /** A pass over a scale-out asks for another exactly if the scale-out has not succeeded in it: not only
      while it waits, but also when it fails. */
  ghost predicate GrowQuiet(w: World, w': World, ref: Ref)
    requires ref in w.scalers
  {
    w.scalers[ref].deleting || (ref in w'.scalers && Has(w'.scalers[ref].conditions, ScaleSucceeded))
  }

  lemma AwaitRequeues(sp: Spec, w: World, ref: Ref, s: Scaler, count: nat, api: Api)
    requires InPhase(w) && w.status.phase == Scaling && Sane(s) && !Finished(s)
    ensures var r := AwaitAdded(sp, w, ref, s, count, api);
            ref in r.w.scalers && (r.ok <==> Has(r.w.scalers[ref].conditions, ScaleSucceeded))
  {
    if api.labelListed {
      if |ActivePods(w.pods, ref.name)| >= count { AnnounceDecides(sp, w, ref, s, api); }
      else { ScaleOutDecides(sp, w, ref, s, count, api); }
    }
  }

  lemma ScaleOutRequeues(sp: Spec, w: World, ref: Ref, api: Api)
    requires InPhase(w) && w.status.phase == Scaling && ref in w.scalers && ref.kind == ScaleOut
    requires Sane(w.scalers[ref]) && !Finished(w.scalers[ref])
    ensures var r := ScaleOutPass(sp, w, ref, w.scalers[ref], api);
            r.ok <==> GrowQuiet(w, r.w, ref)
  {
    var s := w.scalers[ref];
    if !s.deleting {
      if !ValidCount(s) {
        FinishScalerPhases(w, ref, s, ScaleFailed, api);
      } else {
        var s1 := Allocate(sp, w, s, s.count.value);
        var made := CreateWorkers(sp.name, w.pods, s1.pods, Some(ref.name), api.creates);
        if made.ok { AwaitRequeues(sp, w.(pods := made.pods), ref, s1, s.count.value, api); }
        else { RollBackOutcome(w.(pods := made.pods), ref, s1, api); }
      }
    }
  }

  /** What a pass in phase Scaling leaves to be done. */
  ghost predicate ScalingQuiet(sp: Spec, w: World, w': World, api: Api)
    requires Printed(w.status.currentScaler)
  {
    var ref := CurrentRef(w);
    || LauncherIs(w, api, PodSucceeded) || LauncherLost(sp, w, api)
    || (api.scalerRead &&
        (|| ref !in w.scalers || Finished(w.scalers[ref])
         || if ref.kind == ScaleIn then ShrinkQuiet(sp, w, w', ref, api) else GrowQuiet(w, w', ref)))
  }

  /** A pass of a job that scales asks for no other exactly if the launcher ends the job, or the scaler can
      be read and is gone, finished or leaves nothing to wait for. */
  lemma ScalingRequeues(sp: Spec, w: World, api: Api)
    requires PhaseInv(w) && !w.suspended && w.status.phase == Scaling && CanonicalPods(sp, w.pods) && Faithful(w, api)
    ensures Reconcile(sp, w, api).ok <==> ScalingQuiet(sp, w, Reconcile(sp, w, api).w, api)
  {
    var ref := CurrentRef(w);
    if !Reached(sp, w, api) {
      UnreachedRequeues(sp, w, api);
    } else if ref !in w.scalers || Finished(w.scalers[ref]) {
      ScalingGoesOn(sp, w, api);
    } else {
      ScalingGoesOn(sp, w, api);
      PassOverScaler(sp, w, api, ref);
      if ref.kind == ScaleIn { ScaleInRequeues(sp, SyncLauncher(sp, w, api), ref, api); }
      else { ScaleOutRequeues(sp, SyncLauncher(sp, w, api), ref, api); }
    }
  }

  lemma UnreachedRequeues(sp: Spec, w: World, api: Api)
    requires PhaseInv(w) && !w.suspended && w.status.phase == Scaling && !Reached(sp, w, api)
    ensures Reconcile(sp, w, api).ok <==> LauncherIs(w, api, PodSucceeded) || LauncherLost(sp, w, api)
  {
    SyncDecides(sp, w, api);
    SyncLauncherPhases(sp, w, api);
    SyncLauncherWorkers(sp, w, api);
  }

  // ---------- every run ----------

  /** Nothing is left that only another pass can find out. */
  ghost predicate Quiet(sp: Spec, w: World, w': World, api: Api) {
    if w.suspended then EndedQuiet(sp, w, api)
    else match w.status.phase
      case NoPhase => true
      case Created => WorkersCreated in TruthsOf(w) && !Ready(w) ==> SyncQuiet(sp, w, false, api)
      case Running =>
        var ended := LauncherIs(w, api, PodSucceeded) || LauncherLost(sp, w, api);
        SyncQuiet(sp, w, !ended && LauncherThere(sp, w, api), api)
      case Scaling => Printed(w.status.currentScaler) && ScalingQuiet(sp, w, w', api)
      case _ => EndedQuiet(sp, w, api)
  }

  /** In every run a pass asks to be made again after the poll interval exactly when something is left to
      be waited for or to be tried again. */
  lemma RequeuesExactly(sp: Spec, ws: seq<World>, es: seq<Event>, k: nat)
    requires PlainJob(sp) && Run(sp, ws, es) && Init(ws[0]) && k < |es| && es[k].Reconciled?
    requires RoomyFrom(sp, ws, 0, k) && NoDup(ws[k].status.targetWorkers)
    ensures Reconcile(sp, ws[k], es[k].api).ok <==> Quiet(sp, ws[k], ws[k + 1], es[k].api)
  {
    StepOf(sp, ws, es, k);
    RunPhases(sp, ws, es, k);
    RunPods(sp, ws, es, k);
    RunCanonical(sp, ws, es, 0, k);
    RunOrdered(sp, ws, es, k);
    RoomIn(sp, ws, 0, k, k);
    PassRequeues(sp, ws[k], es[k].api);
  }

  lemma PassRequeues(sp: Spec, w: World, api: Api)
    requires PhaseInv(w) && PlainJob(sp) && CanonicalPods(sp, w.pods) && Faithful(w, api)
    requires Distinct(sp, w.status.targetWorkers) && Room(sp, w) && Ordered(sp, w.status.currentWorkers)
    ensures Reconcile(sp, w, api).ok <==> Quiet(sp, w, Reconcile(sp, w, api).w, api)
  {
    if w.suspended || w.status.phase in {Succeeded, Failed, Suspended} { EndedRequeues(sp, w, api); }
    else if w.status.phase == Running { RunningRequeues(sp, w, api); }
    else if w.status.phase == Scaling { ScalingRequeues(sp, w, api); }
    else { StartUpRequeues(sp, w, api); }
  }
}
