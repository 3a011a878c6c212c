/** The hostfile on the launcher and the recorded current workers: they agree whenever an undisturbed
    job runs. */
module Agreement {
  import opened GoStrings
  import opened WorkerNames
  import opened Conditions
  import opened ScalerRefs
  import opened ScaleInSelection
  import opened Hostfile
  import opened Cluster
  import opened Pass
  import opened System
  import opened Phases
  import opened Lifecycle
  import opened Workers
  import opened ScalerPasses
  import opened Attempts
  import opened WorkerLists
  import opened ScaleIns

  // ---------- names and texts ----------

  /** The job name has none of the characters that separate host entries. */
  predicate PlainJob(sp: Spec) {
    (forall c :: c in sp.name ==> c !in {':', ' ', ',', '\n', '\''}) && IsInt64(sp.slots)
  }

  lemma CanonicalPlain(sp: Spec, names: seq<string>)
    requires PlainJob(sp) && AllCanonical(sp, names)
    ensures PlainNames(names) && forall n :: n in names ==> n != "" && ',' !in n
  {
    forall n | n in names ensures PlainName(n) && ',' !in n { WorkerIsPlain(sp, n); }
  }

  lemma WorkerIsPlain(sp: Spec, n: string)
    requires PlainJob(sp) && Canonical(sp.name, n)
    ensures PlainName(n) && ',' !in n
  {
    var index := Itoa(IndexOf(sp.name, n));
    assert n == sp.name + WORKER_SUFFIX + "-" + index;
    assert forall c :: c in WORKER_SUFFIX ==> c !in {':', ' ', ',', '\n', '\''};
  }

  /** The text is the printed list, as the ConfigMap holds it or as echo writes it. */
  predicate Shows(sp: Spec, text: string, workers: seq<string>) {
    text == Content(workers, sp.slots) || text == HostfileText(sp, workers)
  }

  lemma ShowsReads(sp: Spec, text: string, workers: seq<string>)
    requires PlainJob(sp) && AllCanonical(sp, workers) && Shows(sp, text, workers)
    ensures ReadHostfile(text) == Some(Hosts(workers, sp.slots))
  {
    CanonicalPlain(sp, workers);
    HostfileRoundTrip(workers, sp.slots);
  }

  /** A text shows at most one list of workers. */
  lemma ShowsOne(sp: Spec, text: string, a: seq<string>, b: seq<string>)
    requires PlainJob(sp) && AllCanonical(sp, a) && AllCanonical(sp, b)
    requires Shows(sp, text, a) && Shows(sp, text, b)
    ensures a == b
  {
    ShowsReads(sp, text, a);
    ShowsReads(sp, text, b);
    HostsInjective(a, b, sp.slots);
  }

  /** The launcher's hostfile reads back to the recorded current workers. */
  ghost predicate Agrees(sp: Spec, w: World) {
    w.launcher.Some? && Shows(sp, w.launcher.value.hostfile, w.status.currentWorkers)
  }

  // ---------- the order of the current workers ----------

  /** Canonical names in strictly ascending index order. */
  ghost predicate Ordered(sp: Spec, names: seq<string>) {
    AllCanonical(sp, names)
    && forall i, j :: 0 <= i < j < |names| ==> IndexOf(sp.name, names[i]) < IndexOf(sp.name, names[j])
  }

  lemma {:induction false} FilterOrdered(sp: Spec, names: seq<string>, removed: seq<string>)
    requires Ordered(sp, names)
    ensures Ordered(sp, Filter(names, removed, true))
  {
    FilterMembers(names, removed, true);
    if names != [] {
      FilterOrdered(sp, names[1..], removed);
      FilterMembers(names[1..], removed, true);
      var rest := Filter(names[1..], removed, true);
      forall j | 0 <= j < |rest| ensures IndexOf(sp.name, names[0]) < IndexOf(sp.name, rest[j]) {
        assert rest[j] in names[1..];
      }
    }
  }

  lemma SeenOrdered(sp: Spec, pods: map<string, Pod>, list: seq<string>)
    requires CanonicalPods(sp, pods) && Enumerates(list, pods.Keys)
    ensures Ordered(sp, Seen(sp, pods, list))
  {
    var running := RunningNames(pods, list);
    RunningMembers(pods, list);
    SortIsPermutation(sp.name, running);
    var sorted := Seen(sp, pods, list);
    forall i, j | 0 <= i < j < |sorted| ensures IndexOf(sp.name, sorted[i]) < IndexOf(sp.name, sorted[j]) {
      CanonicalInjective(sp.name, sorted[i], sorted[j]);
    }
  }

  lemma PassOrdered(sp: Spec, w: World, api: Api)
    requires PhaseInv(w) && CanonicalPods(sp, w.pods) && Faithful(w, api) && Ordered(sp, w.status.currentWorkers)
    ensures Ordered(sp, Reconcile(sp, w, api).w.status.currentWorkers)
  {
    var w' := Reconcile(sp, w, api).w;
    PassLists(sp, w, api);
    if Synced(sp, w, w', api) {
      SeenOrdered(sp, w.pods, api.podList.value);
    } else if w.status.phase == Scaling && w'.status.phase == Running && LeftScaling(w, w') {
      if CurrentRef(w) in w'.scalers {
        FilterOrdered(sp, w.status.currentWorkers, w'.scalers[CurrentRef(w)].pods);
      }
    }
  }

  lemma {:induction false} RunOrdered(sp: Spec, ws: seq<World>, es: seq<Event>, k: nat)
    requires Run(sp, ws, es) && Init(ws[0]) && k <= |es|
    ensures Ordered(sp, ws[k].status.currentWorkers)
  {
    if k > 0 {
      LastStep(sp, ws, es, k);
      RunOrdered(sp, ws, es, k - 1);
      RunPhases(sp, ws, es, k - 1);
      RunPods(sp, ws, es, k - 1);
      match es[k - 1]
      case Reconciled(api) => PassOrdered(sp, ws[k - 1], api);
      case _ => OutsideKeepsStatus(sp, ws[k - 1], es[k - 1], ws[k]);
    }
  }

  // ---------- the invariant ----------

  /** A scale-in in progress whose script has run. */
  ghost predicate Rewritten(w: World) {
    Printed(w.status.currentScaler) && Shrinking(w, CurrentRef(w))
    && Has(w.scalers[CurrentRef(w)].conditions, ScriptExecuted)
  }

  /** What the file should list: the current workers, less those that a scale-in in progress has
      already struck off. */
  ghost function Expected(w: World): seq<string> {
    if Rewritten(w) then Remaining(w, w.scalers[CurrentRef(w)].pods) else w.status.currentWorkers
  }

  ghost predicate FileListed(sp: Spec, w: World) {
    w.launcher.Some? && Shows(sp, w.launcher.value.hostfile, Expected(w))
  }

  /** Before the job runs: there is neither launcher nor ConfigMap, or both list the current workers. */
  ghost predicate Prepared(sp: Spec, w: World) {
    if LauncherCreated in TruthsOf(w) then
      match w.launcher
      case Some(launcher) => Shows(sp, launcher.hostfile, w.status.currentWorkers)
      case None => w.configMap.Some? && Shows(sp, w.configMap.value, w.status.currentWorkers)
    else w.launcher.None? && w.configMap.None?
  }

  ghost predicate FileInv(sp: Spec, w: World) {
    && (w.status.phase in {NoPhase, Created} ==> Prepared(sp, w))
    && (w.status.phase in {Running, Scaling} ==> FileListed(sp, w))
  }

  /** A pass over a script-less scale-in with a non-empty choice that can make its deletions. */
  ghost predicate SmoothScaling(w: World, api: Api) {
    && Printed(w.status.currentScaler) && Shrinking(w, CurrentRef(w))
    && (Has(w.scalers[CurrentRef(w)].conditions, ScriptExecuted) ==> w.scalers[CurrentRef(w)].pods != [])
    && api.serviceListed && api.deleteListed
  }

  /** Nothing in the step disturbs the agreement: no restart, no launcher or running scaler that
      vanishes, no command that fails after writing its file, and no scaler but smooth scale-ins. */
  ghost predicate Undisturbed(sp: Spec, w: World, e: Event, w': World) {
    match e
    case Reconciled(api) =>
      && !Resets(sp, w) && api.exec != ExecFailed(true) && api.config == ConfigDone
      && (w.status.phase == Scaling && !w.suspended ==> SmoothScaling(w, api))
    case LauncherMoves => w.launcher.Some? ==> w'.launcher.Some?
    case ScalerRemoved(r) => !InProgress(w, r)
    case _ => true
  }

  // ---------- start-up ----------

  lemma CreateLauncherPrepares(sp: Spec, w: World, api: Api)
    requires InPhase(w) && w.status.phase == Created && WorkersReady in TruthsOf(w)
    requires LauncherCreated !in TruthsOf(w) && Prepared(sp, w) && api.config == ConfigDone
    ensures var w' := CreateLauncher(sp, w, api);
            w'.status.phase == Created ==> Prepared(sp, w')
  {
    var w1 := EnsureConfig(sp, w, api).w;
    Noted(w1, LauncherCreated, "", api);
    Noted(NewLauncher(w1), LauncherCreated, "", api);
    assert LauncherCreated in After(TruthsOf(w1), LauncherCreated);
  }

  lemma CreateWorkersPrepares(sp: Spec, w: World, api: Api)
    requires InPhase(w) && w.status.phase == Created && Prepared(sp, w) && WorkersCreated !in TruthsOf(w)
    ensures var w' := CreateJobWorkers(sp, w, api);
            w'.status.phase == Created ==> Prepared(sp, w')
  {
    var workers := ReplicaWorkers(sp, w.status);
    var made := CreateWorkers(sp.name, w.pods, workers, None, api.creates);
    var w1 := w.(status := w.status.(targetWorkers := workers), pods := made.pods);
    Noted(w1, WorkersCreated, "", api);
    assert After(TruthsOf(w1), WorkersCreated) == TruthsOf(w) + {WorkersCreated};
  }

  lemma WaitWorkersPrepares(sp: Spec, w: World, api: Api)
    requires InPhase(w) && w.status.phase == Created && Prepared(sp, w)
    requires WorkersCreated in TruthsOf(w) && WorkersReady !in TruthsOf(w)
    ensures Prepared(sp, WaitWorkers(sp, w, api).w)
  {
    SyncWorkersFrame(sp, w, api);
    var w1 := SyncWorkers(sp, w, api).w;
    Noted(w1, WorkersReady, "", api);
    assert After(TruthsOf(w1), WorkersReady) == TruthsOf(w) + {WorkersReady};
  }

  /** Looking at the launcher makes one from the ConfigMap, or leaves the file alone. */
  lemma SyncLauncherFile(sp: Spec, w: World, api: Api)
    requires InPhase(w) && w.status.phase == Created && LauncherCreated in TruthsOf(w) && Prepared(sp, w)
    ensures var w' := SyncLauncher(sp, w, api);
            && (w'.status.phase == Created ==> Prepared(sp, w'))
            && (w'.status.phase == Running ==> Agrees(sp, w'))
  {
  }

  lemma NotScaling(w: World)
    requires w.status.phase != Scaling
    ensures Expected(w) == w.status.currentWorkers
  {
  }

  lemma StartingFile(sp: Spec, w: World, api: Api)
    requires InPhase(w) && w.status.phase == Created && Prepared(sp, w) && api.config == ConfigDone
    ensures FileInv(sp, DoSteps(sp, w, api).w)
  {
    var truths := TruthsOf(w);
    DoStepsPhases(sp, w, api);
    NotScaling(DoSteps(sp, w, api).w);
    if WorkersCreated !in truths {
      CreateWorkersPrepares(sp, w, api);
      CreateJobWorkersPhases(sp, w, api);
    } else if WorkersReady !in truths {
      WaitWorkersPrepares(sp, w, api);
      WaitWorkersPhases(sp, w, api);
    } else if LauncherCreated !in truths {
      CreateLauncherPrepares(sp, w, api);
      CreateLauncherPhases(sp, w, api);
    } else {
      SyncLauncherFile(sp, w, api);
    }
  }

  lemma InitializeFile(sp: Spec, w: World, api: Api)
    requires InPhase(w) && w.status.phase in {NoPhase, Created} && Prepared(sp, w)
    ensures Prepared(sp, Initialize(w, api))
  {
    if w.status.conditions == [] {
      Noted(w, Created, JOB_CREATED, api);
      assert After({}, Created) == {Created};
    }
  }

  // ---------- worker syncs ----------

  /** Comparing the joined lists tells whether the lists differ. */
  lemma ChangeIsSeen(sp: Spec, a: seq<string>, b: seq<string>)
    requires PlainJob(sp) && AllCanonical(sp, a) && AllCanonical(sp, b)
    ensures Join(a, ',') == Join(b, ',') <==> a == b
  {
    CanonicalPlain(sp, a);
    CanonicalPlain(sp, b);
    JoinedComparison(a, b);
  }

  /** The hostfile part of a worker sync: the file lists the running workers unless the command failed. */
  lemma RefreshFile(sp: Spec, w: World, running: seq<string>, api: Api)
    requires PlainJob(sp) && w.launcher.Some? && Has(w.status.conditions, Running)
    requires AllCanonical(sp, running) && AllCanonical(sp, w.status.currentWorkers)
    ensures var r := RefreshHostfile(sp, w, running, api);
            && r.w == w.(launcher := r.w.launcher) && r.w.launcher.Some?
            && r.ok == (running == w.status.currentWorkers || api.exec == ExecDone)
            && r.w.launcher.value.hostfile ==
                 if running != w.status.currentWorkers && api.exec != ExecFailed(false)
                 then HostfileText(sp, running) else w.launcher.value.hostfile
  {
    ChangeIsSeen(sp, running, w.status.currentWorkers);
  }

  /** One worker sync on an agreeing state: the file follows the running workers, unless the command
      wrote it and failed while the list had changed.  Then, and only then, they disagree. */
  lemma SyncKeepsAgreement(sp: Spec, w: World, api: Api)
    requires PlainJob(sp) && Agrees(sp, w) && Has(w.status.conditions, Running)
    requires CanonicalPods(sp, w.pods) && Faithful(w, api) && AllCanonical(sp, w.status.currentWorkers)
    ensures var w' := SyncWorkers(sp, w, api).w;
            Agrees(sp, w') <==>
              !(api.exec == ExecFailed(true) && api.podList.Some?
                && Seen(sp, w.pods, api.podList.value) != w.status.currentWorkers)
  {
    if api.podList.Some? {
      var running := Seen(sp, w.pods, api.podList.value);
      RunningSorted(sp, w.pods, api.podList.value);
      RefreshFile(sp, w, running, api);
      var r := RefreshHostfile(sp, w, running, api);
      if r.ok {
        ReplaceDeadFrame(sp, RecordRunning(r.w, running), api);
      } else if api.exec == ExecFailed(true) && Agrees(sp, r.w) {
        ShowsOne(sp, r.w.launcher.value.hostfile, running, w.status.currentWorkers);
      }
    }
  }

  /** A file that lists something else is put right by the next worker sync exactly when the running
      workers differ from the recorded ones: the sync does not look at the file. */
  lemma SyncRepairs(sp: Spec, w: World, shown: seq<string>, api: Api)
    requires PlainJob(sp) && Has(w.status.conditions, Running)
    requires CanonicalPods(sp, w.pods) && Faithful(w, api) && AllCanonical(sp, w.status.currentWorkers)
    requires w.launcher.Some? && Shows(sp, w.launcher.value.hostfile, shown)
    requires AllCanonical(sp, shown) && shown != w.status.currentWorkers
    requires api.exec == ExecDone && api.podList.Some?
    ensures Agrees(sp, SyncWorkers(sp, w, api).w) <==>
              Seen(sp, w.pods, api.podList.value) != w.status.currentWorkers
  {
    var running := Seen(sp, w.pods, api.podList.value);
    RunningSorted(sp, w.pods, api.podList.value);
    RefreshFile(sp, w, running, api);
    var r := RefreshHostfile(sp, w, running, api);
    ReplaceDeadFrame(sp, RecordRunning(r.w, running), api);
    if running == w.status.currentWorkers && Agrees(sp, w) {
      ShowsOne(sp, w.launcher.value.hostfile, shown, running);
    }
  }

  lemma RunningFile(sp: Spec, w: World, api: Api)
    requires PlainJob(sp) && PhaseInv(w) && w.status.phase == Running && OneAtATime(w) && FileListed(sp, w)
    requires CanonicalPods(sp, w.pods) && Faithful(w, api) && AllCanonical(sp, w.status.currentWorkers)
    requires api.exec != ExecFailed(true)
    ensures FileInv(sp, ReconcileRunning(sp, w, api).w)
  {
    var w1, w' := SyncLauncher(sp, w, api), ReconcileRunning(sp, w, api).w;
    NotScaling(w);
    SyncKeepsWorld(sp, w, api);
    ReconcileRunningPhases(sp, w, api);
    SyncWorkersFrame(sp, w1, api);
    SelectedUnscripted(sp, w, api);
    if w1 == w {
      SyncKeepsAgreement(sp, w, api);
      SelectKeepsCluster(SyncWorkers(sp, w, api).w, api);
      assert !Rewritten(w');
    }
  }

  // ---------- scale-ins ----------

  lemma DeleteAndCommitFile(sp: Spec, w: World, ref: Ref, s: Scaler, hosts: seq<string>, listing: string, api: Api)
    requires api.serviceListed && api.deleteListed
    ensures var w' := DeleteAndCommit(sp, w, ref, s, hosts, listing, api).w;
            && w'.launcher == w.launcher
            && ((w'.status.phase == Running && w'.status.currentWorkers == hosts)
                || (w'.status == w.status && w'.scalers == w.scalers[ref := s]))
  {
  }

  /** The file of a scale-in in progress lists what is left, or still the current workers if its
      script has yet to run. */
  ghost predicate FileFor(sp: Spec, w: World, s: Scaler) {
    w.launcher.Some? &&
    Shows(sp, w.launcher.value.hostfile,
          if Has(s.conditions, ScriptExecuted) then Remaining(w, s.pods) else w.status.currentWorkers)
  }

  lemma RemoveChosenFile(sp: Spec, w: World, ref: Ref, s: Scaler, api: Api)
    requires InPhase(w) && w.status.phase == Scaling && Sane(s) && !Finished(s)
    requires s.script == "" && FileFor(sp, w, s) && api.exec != ExecFailed(true)
    requires api.serviceListed && api.deleteListed
    ensures var w' := RemoveChosen(sp, w, ref, s, api).w;
            || (w'.status.phase == Running && Agrees(sp, w'))
            || (w'.status == w.status && ref in w'.scalers && FileFor(sp, w', w'.scalers[ref]))
  {
    var hosts := Remaining(w, s.pods);
    ScaleScriptFrame(sp, w, s, hosts, api);
    var r := ScaleScript(sp, w, s, hosts, api);
    if !r.ok {
      FinishScalerPhases(r.w, ref, r.s, ScaleFailed, api);
    } else if Listing(r.w, api).Some? {
      DeleteAndCommitFile(sp, r.w, ref, r.s, hosts, Listing(r.w, api).value, api);
    }
  }

  lemma ScaleInFile(sp: Spec, w: World, ref: Ref, api: Api, w': World)
    requires InPhase(w) && Shrinking(w, ref) && Sane(w.scalers[ref])
    requires w' == ScaleInPass(sp, w, ref, w.scalers[ref], api).w
    requires FileFor(sp, w, w.scalers[ref]) && api.exec != ExecFailed(true)
    requires api.serviceListed && api.deleteListed
    requires Has(w.scalers[ref].conditions, ScriptExecuted) ==> w.scalers[ref].pods != []
    ensures || (w'.status.phase == Running && Agrees(sp, w'))
            || (w'.status == w.status && ref in w'.scalers && FileFor(sp, w', w'.scalers[ref]))
  {
    var s := w.scalers[ref];
    if !s.deleting {
      match ChooseToDelete(sp, s, api)
      case Chosen(pods) => RemoveChosenFile(sp, w, ref, s.(pods := pods), api);
      case Refused => FinishScalerPhases(w, ref, s, ScaleFailed, api);
      case OutOfRange =>
    }
  }

  lemma ScalingFile(sp: Spec, w: World, api: Api)
    requires PhaseInv(w) && w.status.phase == Scaling && FileListed(sp, w)
    requires SmoothScaling(w, api) && api.exec != ExecFailed(true)
    ensures FileInv(sp, ExecuteScaling(sp, w, api).w)
  {
    var w', ref := ExecuteScaling(sp, w, api).w, CurrentRef(w);
    PassOverScaleIn(sp, w, api, ref);
    ExecuteScalingPhases(sp, w, api);
    ListedFor(sp, w, ref);
    if w'.status.phase in {Running, Scaling} && w' != w { CommittedFile(sp, w, ref, api, w'); }
  }

  lemma ListedFor(sp: Spec, w: World, ref: Ref)
    requires Shrinking(w, ref)
    ensures FileListed(sp, w) <==> FileFor(sp, w, w.scalers[ref])
  {
  }

  lemma CommittedFile(sp: Spec, w: World, ref: Ref, api: Api, w': World)
    requires PhaseInv(w) && Shrinking(w, ref) && SmoothScaling(w, api) && api.exec != ExecFailed(true)
    requires FileFor(sp, w, w.scalers[ref]) && w' == ScaleInPass(sp, w, ref, w.scalers[ref], api).w
    ensures w'.status.phase in {Running, Scaling} && FileListed(sp, w')
  {
    ScaleInPhases(sp, w, ref, w.scalers[ref], api);
    ScaleInObject(sp, w, ref, api);
    ScaleInFile(sp, w, ref, api, w');
    if w'.status.phase == Running { NotScaling(w'); } else { ListedFor(sp, w', ref); }
  }

  // ---------- every run ----------

  lemma PassFile(sp: Spec, w: World, api: Api)
    requires PlainJob(sp) && PhaseInv(w) && OneAtATime(w) && CanonicalPods(sp, w.pods) && Faithful(w, api)
    requires AllCanonical(sp, w.status.currentWorkers) && FileInv(sp, w)
    requires Undisturbed(sp, w, Reconciled(api), Reconcile(sp, w, api).w)
    ensures FileInv(sp, Reconcile(sp, w, api).w)
  {
    PassPhases(sp, w, api);
    if !w.suspended {
      match w.status.phase
      case NoPhase =>
        InitializePhases(w, api);
        InitializeFile(sp, w, api);
        StartingFile(sp, Initialize(w, api), api);
      case Created =>
        InitializePhases(w, api);
        InitializeFile(sp, w, api);
        StartingFile(sp, Initialize(w, api), api);
      case Running => RunningFile(sp, w, api);
      case Scaling => ScalingFile(sp, w, api);
      case _ =>
    }
  }

  lemma OutsideFile(sp: Spec, w: World, e: Event, w': World)
    requires PhaseInv(w) && FileInv(sp, w) && Next(sp, w, e, w') && !e.Reconciled?
    requires Undisturbed(sp, w, e, w')
    requires w.status.phase in {NoPhase, Created} && e.LauncherMoves? ==> w.launcher.None? || w'.launcher.Some?
    ensures FileInv(sp, w')
  {
    OutsideKeepsStatus(sp, w, e, w');
    if w.status.phase == Scaling { OutsideExpected(sp, w, e, w'); }
    else { NotScaling(w); NotScaling(w'); }
  }

  /** Outside events do not change what the file of a scale-in in progress should list. */
  lemma OutsideExpected(sp: Spec, w: World, e: Event, w': World)
    requires PhaseInv(w) && w.status.phase == Scaling && Next(sp, w, e, w') && !e.Reconciled?
    requires Undisturbed(sp, w, e, w')
    ensures Expected(w') == Expected(w)
  {
    OutsideKeepsStatus(sp, w, e, w');
    OutsideRewritten(sp, w, e, w');
  }

  lemma OutsideRewritten(sp: Spec, w: World, e: Event, w': World)
    requires PhaseInv(w) && w.status.phase == Scaling && Next(sp, w, e, w') && !e.Reconciled?
    requires Undisturbed(sp, w, e, w')
    ensures Rewritten(w') <==> Rewritten(w)
    ensures Rewritten(w) ==> w'.scalers[CurrentRef(w)].pods == w.scalers[CurrentRef(w)].pods
  {
    OutsideKeepsStatus(sp, w, e, w');
    var ref := CurrentRef(w);
    OutsidePhases(sp, w, e, w');
    if ref in w'.scalers {
      if ref !in w.scalers { NewScalerUntouched(w'.scalers[ref]); } else { OutsideScaler(sp, w, e, w', ref); }
    }
  }

  lemma OutsideScaler(sp: Spec, w: World, e: Event, w': World, r: Ref)
    requires PhaseInv(w) && Next(sp, w, e, w') && !e.Reconciled? && r in w.scalers && r in w'.scalers
    ensures w'.scalers[r].pods == w.scalers[r].pods && w'.scalers[r].script == w.scalers[r].script
    ensures Has(w'.scalers[r].conditions, ScriptExecuted) <==> Has(w.scalers[r].conditions, ScriptExecuted)
  {
    if e.ScalerMarked? && e.ref == r {
      var m :| Marked(w.scalers[r], w'.scalers[r], w.now, m);
      MarkedTouched(w.scalers[r], w'.scalers[r], w.now, m);
    }
  }

  /** Nothing disturbs the steps from the i-th state to the k-th. */
  ghost predicate UndisturbedFrom(sp: Spec, ws: seq<World>, es: seq<Event>, i: nat, k: nat)
    requires i <= k <= |es| < |ws|
  {
    forall n :: i <= n < k ==> UndisturbedAt(sp, ws, es, n)
  }

  ghost predicate UndisturbedAt(sp: Spec, ws: seq<World>, es: seq<Event>, n: nat)
    requires n < |es| < |ws|
  {
    Undisturbed(sp, ws[n], es[n], ws[n + 1])
  }

  /** Where the agreement can start: with the submission of the job, or in any attempt with no scaler
      in flight and a launcher, just created or with the job running, that lists the current workers. */
  ghost predicate StartsAgreeing(sp: Spec, w: World) {
    || Init(w)
    || (NoneTouched(w) && Agrees(sp, w)
        && (w.status.phase == Running || (w.status.phase == Created && LauncherCreated in TruthsOf(w))))
  }

  lemma NextFile(sp: Spec, w: World, e: Event, w': World)
    requires PlainJob(sp) && PhaseInv(w) && OneAtATime(w) && CanonicalPods(sp, w.pods) && Next(sp, w, e, w')
    requires AllCanonical(sp, w.status.currentWorkers) && FileInv(sp, w) && Undisturbed(sp, w, e, w')
    ensures FileInv(sp, w')
  {
    match e
    case Reconciled(api) => PassFile(sp, w, api);
    case _ => OutsideFile(sp, w, e, w');
  }

  lemma {:induction false} RunFile(sp: Spec, ws: seq<World>, es: seq<Event>, i: nat, k: nat)
    requires PlainJob(sp) && Run(sp, ws, es) && Init(ws[0])
    requires i <= k <= |es| && StartsAgreeing(sp, ws[i]) && UndisturbedFrom(sp, ws, es, i, k)
    ensures FileInv(sp, ws[k]) && OneAtATime(ws[k])
  {
    if i < k {
      assert UndisturbedAt(sp, ws, es, k - 1);
      RunFile(sp, ws, es, i, k - 1);
      StepFile(sp, ws, es, k - 1);
    } else {
      NotScaling(ws[k]);
    }
  }

  lemma StepFile(sp: Spec, ws: seq<World>, es: seq<Event>, k: nat)
    requires PlainJob(sp) && Run(sp, ws, es) && Init(ws[0])
    requires k < |es| && UndisturbedAt(sp, ws, es, k) && FileInv(sp, ws[k]) && OneAtATime(ws[k])
    ensures FileInv(sp, ws[k + 1]) && OneAtATime(ws[k + 1])
  {
    StepOf(sp, ws, es, k);
    RunPhases(sp, ws, es, k);
    RunPods(sp, ws, es, k);
    RunOrdered(sp, ws, es, k);
    NextFile(sp, ws[k], es[k], ws[k + 1]);
    NextOneAtATime(sp, ws[k], es[k], ws[k + 1]);
  }

  /** In the undisturbed part of any attempt, whenever the job is Running the launcher's hostfile
      parses to exactly the recorded current workers with their slots, in ascending index order;
      scale-ins may take any number of passes. */
  lemma HostfileAgreement(sp: Spec, ws: seq<World>, es: seq<Event>, i: nat, k: nat)
    requires PlainJob(sp) && Run(sp, ws, es) && Init(ws[0])
    requires i <= k <= |es| && StartsAgreeing(sp, ws[i]) && UndisturbedFrom(sp, ws, es, i, k)
    requires ws[k].status.phase == Running
    ensures ws[k].launcher.Some?
    ensures ReadHostfile(ws[k].launcher.value.hostfile) == Some(Hosts(ws[k].status.currentWorkers, sp.slots))
    ensures Ordered(sp, ws[k].status.currentWorkers)
  {
    RunFile(sp, ws, es, i, k);
    RunOrdered(sp, ws, es, k);
    NotScaling(ws[k]);
    ShowsReads(sp, ws[k].launcher.value.hostfile, ws[k].status.currentWorkers);
  }
}
