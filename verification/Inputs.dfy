/** Inputs on which the controller fails what it is for: for each failing property one state that a job
    of two workers comes to, and the pass that fails there.  Names, labels, conditions, files and records
    are those the passes before would have left; all messages are empty and the clock stands at 0 unless
    said otherwise. */
module Inputs {
  import opened GoStrings
  import opened WorkerNames
  import opened Conditions
  import opened ScalerRefs
  import opened ScaleInSelection
  import opened Hostfile
  import opened Cluster
  import opened Pass
  import opened Phases
  import opened Workers
  import opened Launching
  import opened WorkerLists
  import opened Ledger
  import opened ScaleIns
  import opened ScaleOuts
  import opened Agreement
  import opened Disturbances
  import opened Leftovers
  import opened Restarts

  // ---------- the parts of such a state ----------

  function Mark(t: ConditionType, reason: string): Condition { NewCondition(t, reason, "", 0) }

  /** The conditions of a job after the given start-up steps, and those of a job that is Scaling. */
  function Prepared3(): seq<Condition> {
    [Mark(Created, JOB_CREATED), Mark(WorkersCreated, ""), Mark(WorkersReady, "")]
  }

  function Started(): seq<Condition> {
    Prepared3() + [Mark(LauncherCreated, ""), Mark(Running, JOB_RUNNING), Mark(Scaling, SCALING_START)]
  }

  /** The same after a scale-out that succeeded. */
  function StartedAgain(): seq<Condition> { Started() + [Mark(ScaleSucceeded, "ScalingOutSucceeded")] }

  /** The conditions of a scaler that is owned and was selected, and of one whose script has run. */
  function Selected(): seq<Condition> { [Mark(Created, ""), Mark(Scaling, SCALING_START)] }
  function Scripted2(): seq<Condition> { Selected() + [Mark(ScriptExecuted, "")] }
  function Succeeded2(): seq<Condition> { Scripted2() + [Mark(ScaleSucceeded, "ScalingOutSucceeded")] }

  lemma TruthsOfOne(t: ConditionType, reason: string)
    ensures Truths([Mark(t, reason)]) == {t}
  {
    assert [Mark(t, reason)][1..] == [];
  }

  lemma TruthsSnoc(conds: seq<Condition>, t: ConditionType, reason: string)
    ensures Truths(conds + [Mark(t, reason)]) == Truths(conds) + {t}
  {
    TruthsConcat(conds, [Mark(t, reason)]);
    TruthsOfOne(t, reason);
  }

  lemma JobTruths()
    ensures Truths(Prepared3()) == {Created, WorkersCreated, WorkersReady}
    ensures Truths(Started()) == {Created, WorkersCreated, WorkersReady, LauncherCreated, Running, Scaling}
    ensures Truths(StartedAgain()) == Truths(Started()) + {ScaleSucceeded}
  {
    var a := [Mark(Created, JOB_CREATED)];
    var b := a + [Mark(WorkersCreated, "")];
    var c := Prepared3();
    var d := c + [Mark(LauncherCreated, "")];
    var e := d + [Mark(Running, JOB_RUNNING)];
    TruthsOfOne(Created, JOB_CREATED);
    TruthsSnoc(a, WorkersCreated, "");
    assert c == b + [Mark(WorkersReady, "")];
    TruthsSnoc(b, WorkersReady, "");
    TruthsSnoc(c, LauncherCreated, "");
    TruthsSnoc(d, Running, JOB_RUNNING);
    assert Started() == e + [Mark(Scaling, SCALING_START)];
    TruthsSnoc(e, Scaling, SCALING_START);
    TruthsSnoc(Started(), ScaleSucceeded, "ScalingOutSucceeded");
  }

  lemma ScalerTruths()
    ensures Truths(Selected()) == {Created, Scaling}
    ensures Truths(Scripted2()) == {Created, Scaling, ScriptExecuted}
    ensures Truths(Succeeded2()) == {Created, Scaling, ScriptExecuted, ScaleSucceeded}
  {
    var a := [Mark(Created, "")];
    TruthsOfOne(Created, "");
    assert Selected() == a + [Mark(Scaling, SCALING_START)];
    TruthsSnoc(a, Scaling, SCALING_START);
    TruthsSnoc(Selected(), ScriptExecuted, "");
    TruthsSnoc(Scripted2(), ScaleSucceeded, "ScalingOutSucceeded");
  }

  /** The i-th worker. */
  function N(sp: Spec, i: nat): string { WorkerName(sp.name, i) }

  lemma Number(sp: Spec, i: nat)
    requires i <= MAX_INT32
    ensures Canonical(sp.name, N(sp, i)) && IndexOf(sp.name, N(sp, i)) == i
  {
    Int32Fixpoint(i);
    CanonicalName(sp.name, i);
  }

  function Worker(tag: Option<string>): Pod { Pod(PodRunning, [], tag) }

  /** The scale-out and the scale-in of the scenarios. */
  const OUT: Ref := Ref(ScaleOut, "ns", "s")
  const IN: Ref := Ref(ScaleIn, "ns", "s")

  function Growth(conds: seq<Condition>, pods: seq<string>): Scaler {
    Scaler(0, true, false, "", 60, ToDelete(0, None), Some(1), conds, pods)
  }

  function Shrink(conds: seq<Condition>, names: seq<string>, pods: seq<string>): Scaler {
    Scaler(0, true, false, "", 60, ToDelete(0, Some(names)), None, conds, pods)
  }

  /** A job that is Scaling: the ConfigMap lists the first two workers, and the launcher runs. */
  function ScalingJob(sp: Spec, conds: seq<Condition>, current: Ref, restarts: int, target: seq<string>,
                      running: seq<string>, pods: map<string, Pod>, hostfile: string,
                      scalers: map<Ref, Scaler>, now: int): World
  {
    World(Status(Scaling, conds, FullName(current), restarts, target, running), pods,
          Some(Launcher(PodRunning, "", hostfile)), Some(Content([N(sp, 0), N(sp, 1)], sp.slots)),
          scalers, false, now)
  }

  lemma RefsAreSound()
    ensures Resolve(FullName(OUT)) == Some(OUT) && Clean(OUT) && FullName(OUT) != ""
    ensures Resolve(FullName(IN)) == Some(IN) && Clean(IN) && FullName(IN) != ""
  {
    ResolveFullName(OUT);
    ResolveFullName(IN);
  }

  lemma NamesArePrinted()
    ensures Printed(FullName(OUT)) && FullName(OUT) != "" && Printed(FullName(IN)) && FullName(IN) != ""
  {
    RefsAreSound();
  }

  lemma ScalingIsPhased(conds: seq<Condition>)
    requires conds in {Started(), StartedAgain()}
    ensures Phased(Scaling, Truths(conds))
  {
    JobTruths();
  }

  /** Such a job satisfies the invariant of the phase machine. */
  lemma ScalingJobIsSound(sp: Spec, w: World)
    requires w.status.phase == Scaling && w.status.conditions in {Started(), StartedAgain()}
    requires w.status.currentScaler in {FullName(OUT), FullName(IN)} && SaneScalers(w.scalers)
    ensures PhaseInv(w)
  {
    ScalingIsPhased(w.status.conditions);
    NamesArePrinted();
  }

  /** And it is working on the scale-out if that is the current scaler and has not succeeded. */
  lemma ScalingJobGrows(w: World, pods: seq<string>)
    requires w.status.phase == Scaling && w.status.currentScaler == FullName(OUT)
    requires OUT in w.scalers && w.scalers[OUT] == Growth(Selected(), pods)
    ensures Growing(w, OUT)
  {
    RefsAreSound();
    NamesArePrinted();
    ScalerTruths();
  }

  lemma GrowthIsSound(sp: Spec, conds: seq<Condition>, pods: seq<string>)
    requires conds in {Selected(), Succeeded2()}
    requires pods == [] || (|pods| == 1 && Canonical(sp.name, pods[0]))
    ensures Sane(Growth(conds, pods)) && Allocated(sp, Growth(conds, pods))
  {
    ScalerTruths();
  }

  lemma ShrinkIsSound(conds: seq<Condition>, names: seq<string>, pods: seq<string>)
    requires conds in {Selected(), Scripted2()}
    ensures Sane(Shrink(conds, names, pods)) && !Finished(Shrink(conds, names, pods))
    ensures Has(Shrink(conds, names, pods).conditions, ScriptExecuted) <==> conds == Scripted2()
  {
    ScalerTruths();
  }

  lemma MaxOf(sp: Spec, names: seq<string>, top: nat)
    requires names != [] && top <= 9 && N(sp, top) in names
    requires forall n :: n in names ==> Canonical(sp.name, n) && 0 <= IndexOf(sp.name, n) <= top
    ensures MaxIndex(names) == top
  {
    Number(sp, top);
    MaxIndexIsMaximum(sp.name, names);
  }

  function Two(sp: Spec): seq<string> { [N(sp, 0), N(sp, 1)] }
  function Three(sp: Spec): seq<string> { [N(sp, 0), N(sp, 1), N(sp, 2)] }

  lemma TwoNames(sp: Spec)
    ensures Distinct(sp, Two(sp)) && MaxIndex(Two(sp)) == 1
  {
    Number(sp, 0);
    Number(sp, 1);
    assert Two(sp)[1] == N(sp, 1);
    MaxOf(sp, Two(sp), 1);
  }

  lemma ThreeNames(sp: Spec)
    ensures Distinct(sp, Three(sp)) && MaxIndex(Three(sp)) == 2
  {
    Number(sp, 0);
    Number(sp, 1);
    Number(sp, 2);
    assert Three(sp)[2] == N(sp, 2);
    MaxOf(sp, Three(sp), 2);
  }

  lemma HasRoom(sp: Spec, w: World)
    requires sp.replicas == 2 && w.status.targetWorkers in {Two(sp), Three(sp)}
    requires forall r :: r in w.scalers ==> w.scalers[r].count in {None, Some(1)}
    ensures Room(sp, w)
  {
    TwoNames(sp);
    ThreeNames(sp);
  }

  lemma OneActive(pods: map<string, Pod>, tag: string, n: string)
    requires n in pods && pods[n] == Worker(Some(tag))
    requires forall m :: m in pods && m != n ==> pods[m].scaleOut == None
    ensures ActivePods(pods, tag) == {n}
  {
  }

  // ---------- a scale-in that names nobody ----------

  /** A ScaleIn that names worker 7, which does not exist, has just been selected. */
  function NobodyNamed(sp: Spec): World {
    ScalingJob(sp, Started(), IN, 0, [N(sp, 0), N(sp, 1)], [N(sp, 0), N(sp, 1)],
               map[N(sp, 0) := Worker(None), N(sp, 1) := Worker(None)],
               Content([N(sp, 0), N(sp, 1)], sp.slots), map[IN := Shrink(Selected(), [N(sp, 7)], [])], 0)
  }

  lemma NobodyNamedIsSound(sp: Spec)
    ensures PhaseInv(NobodyNamed(sp)) && JustSelected(NobodyNamed(sp), IN)
    ensures forall m :: m in [N(sp, 7)] ==> m !in NobodyNamed(sp).pods
  {
    Number(sp, 0);
    Number(sp, 1);
    Number(sp, 7);
    RefsAreSound();
    NamesArePrinted();
    ShrinkIsSound(Selected(), [N(sp, 7)], []);
    ScalingJobIsSound(sp, NobodyNamed(sp));
  }

  /** The pass deletes both workers and reports success. */
  lemma NamedScaleInFails(sp: Spec, api: Api)
    requires var w := NobodyNamed(sp); Faithful(w, api) && CallsMade(sp, w, api) && api.undeleted == {}
    ensures var w' := Reconcile(sp, NobodyNamed(sp), api).w;
            && N(sp, 0) !in w'.pods && N(sp, 1) !in w'.pods
            && IN in w'.scalers && Has(w'.scalers[IN].conditions, ScaleSucceeded)
            && w'.status.targetWorkers == Two(sp)
  {
    var w := NobodyNamed(sp);
    NobodyNamedIsSound(sp);
    NamedScaleIn(sp, w, api, IN, N(sp, 0));
    NamedScaleIn(sp, w, api, IN, N(sp, 1));
  }

  // ---------- a name that is used again ----------

  /** The ScaleOut "s" has added worker 2, was deleted, applied again and selected again. */
  function NameReused(sp: Spec): World {
    var three := [N(sp, 0), N(sp, 1), N(sp, 2)];
    ScalingJob(sp, StartedAgain(), OUT, 0, three, three,
               map[N(sp, 0) := Worker(None), N(sp, 1) := Worker(None), N(sp, 2) := Worker(Some("s"))],
               HostfileText(sp, three), map[OUT := Growth(Selected(), [])], 0)
  }

  lemma NameReusedIsSound(sp: Spec)
    requires sp.replicas == 2
    ensures var w := NameReused(sp); PhaseInv(w) && AllAllocated(sp, w) && Room(sp, w) && Growing(w, OUT)
  {
    var w := NameReused(sp);
    RefsAreSound();
    GrowthIsSound(sp, Selected(), []);
    ScalingJobIsSound(sp, w);
    ScalingJobGrows(w, []);
    HasRoom(sp, w);
  }

  lemma NameReusedPods(sp: Spec)
    ensures var w := NameReused(sp);
            && AllocatedFor(sp, w, w.scalers[OUT]).pods == [N(sp, 3)] && N(sp, 3) !in w.pods
            && ActivePods(w.pods, "s") == {N(sp, 2)}
  {
    Number(sp, 0);
    Number(sp, 1);
    Number(sp, 2);
    Number(sp, 3);
    ThreeNames(sp);
    assert FreshNames(sp.name, 2, 1) == [N(sp, 3)];
    OneActive(NameReused(sp).pods, "s", N(sp, 2));
  }

  lemma OneMade(sp: Spec, pods: map<string, Pod>, n: string, tag: Option<string>)
    requires Canonical(sp.name, n)
    ensures CreateWorkers(sp.name, pods, [n], tag, map[]).ok
  {
    assert [n][1..] == [];
  }

  /** The pass commits worker 3, which it has only just created. */
  lemma ReusedName(sp: Spec, api: Api)
    requires sp.replicas == 2 && api.creates == map[]
    requires api.scalerRead && api.labelListed && api.exec == ExecDone
    ensures var w' := Reconcile(sp, NameReused(sp), api).w;
            && SucceedsNow(NameReused(sp), w', OUT) && N(sp, 3) in w'.status.targetWorkers
            && N(sp, 3) in w'.pods && w'.pods[N(sp, 3)].phase == PodPending
  {
    var w := NameReused(sp);
    NameReusedIsSound(sp);
    NameReusedPods(sp);
    Number(sp, 3);
    OneMade(sp, w.pods, N(sp, 3), Some("s"));
    PendingCommitted(sp, w, api, OUT, N(sp, 3));
  }

  // ---------- scale-outs left in flight by a restart ----------

  /** The target list had been scaled in to worker 0 when the ScaleOut "s" was started at time 0 and
      recorded worker 1; the launcher failed, the job was restarted with both workers, "s" is selected
      again, and its 60 seconds are over. */
  function LeftBehind(sp: Spec): World {
    var two := [N(sp, 0), N(sp, 1)];
    ScalingJob(sp, Started(), OUT, 1, two, two, map[N(sp, 0) := Worker(None), N(sp, 1) := Worker(None)],
               Content(two, sp.slots), map[OUT := Growth(Selected(), [N(sp, 1)])], 100)
  }

  lemma LeftBehindIsSound(sp: Spec)
    requires sp.replicas == 2
    ensures var w := LeftBehind(sp); PhaseInv(w) && AllAllocated(sp, w) && Room(sp, w) && Growing(w, OUT)
  {
    var w := LeftBehind(sp);
    Number(sp, 1);
    RefsAreSound();
    GrowthIsSound(sp, Selected(), [N(sp, 1)]);
    ScalingJobIsSound(sp, w);
    ScalingJobGrows(w, [N(sp, 1)]);
    HasRoom(sp, w);
  }

  lemma LeftBehindLabels(sp: Spec)
    ensures var w := LeftBehind(sp);
            LabelInv(w) && AllocatedFor(sp, w, w.scalers[OUT]).pods == [N(sp, 1)]
  {
  }

  lemma LeftBehindIsLate()
    ensures TimedOut(Selected(), 60, 100)
  {
    assert Selected()[1..][0] == Mark(Scaling, SCALING_START);
  }

  /** The pass deletes worker 1 of the new attempt, which is running, and worker 1 stays a target. */
  lemma LeftoverDeletesTarget(sp: Spec, api: Api)
    requires sp.replicas == 2 && api.creates == map[] && api.undeleted == {}
    requires api.scalerRead && api.labelListed && api.exec == ExecDone && api.serviceListed && api.deleteListed
    ensures var w, w' := LeftBehind(sp), Reconcile(sp, LeftBehind(sp), api).w;
            && N(sp, 1) in w.pods && w.pods[N(sp, 1)].phase == PodRunning
            && N(sp, 1) !in w'.pods && N(sp, 1) in w'.status.targetWorkers
  {
    var w := LeftBehind(sp);
    LeftBehindIsSound(sp);
    LeftBehindIsLate();
    Number(sp, 1);
    LeftBehindLabels(sp);
    OneMade(sp, w.pods, N(sp, 1), Some("s"));
    assert w.status.targetWorkers[1] == N(sp, 1);
    PassDeletesTarget(sp, w, api, OUT, N(sp, 1));
  }

  /** The ScaleOut "s" had recorded worker 2 when the job was restarted.  The later ScaleOut "t" added a
      worker 2 of its own, whose pod was deleted and, under policy Never, not replaced.  "s" was then
      selected again, and its worker 2 runs. */
  function CommittedTwice(sp: Spec): World {
    var two := [N(sp, 0), N(sp, 1)];
    ScalingJob(sp, StartedAgain(), OUT, 1, two + [N(sp, 2)], two,
               map[N(sp, 0) := Worker(None), N(sp, 1) := Worker(None), N(sp, 2) := Worker(Some("s"))],
               HostfileText(sp, two),
               map[OUT := Growth(Selected(), [N(sp, 2)]),
                   Ref(ScaleOut, "ns", "t") := Growth(Succeeded2(), [N(sp, 2)])], 10)
  }

  lemma CommittedScalers(sp: Spec)
    ensures var w := CommittedTwice(sp); SaneScalers(w.scalers) && AllAllocated(sp, w)
  {
    Number(sp, 2);
    RefsAreSound();
    GrowthIsSound(sp, Selected(), [N(sp, 2)]);
    GrowthIsSound(sp, Succeeded2(), [N(sp, 2)]);
  }

  lemma CommittedTwiceGrows(sp: Spec)
    ensures Growing(CommittedTwice(sp), OUT) && CommittedTwice(sp).status.targetWorkers == Three(sp)
  {
    ScalingJobGrows(CommittedTwice(sp), [N(sp, 2)]);
  }

  lemma CommittedTwiceRoom(sp: Spec)
    requires sp.replicas == 2
    ensures Room(sp, CommittedTwice(sp))
  {
    CommittedTwiceGrows(sp);
    HasRoom(sp, CommittedTwice(sp));
  }

  lemma CommittedTwiceIsSound(sp: Spec)
    ensures PhaseInv(CommittedTwice(sp))
  {
    CommittedScalers(sp);
    ScalingJobIsSound(sp, CommittedTwice(sp));
  }

  lemma CommittedTwiceRuns(sp: Spec, api: Api)
    requires api.creates == map[]
    ensures var w := CommittedTwice(sp);
            && AllocatedFor(sp, w, w.scalers[OUT]) == w.scalers[OUT]
            && CreateWorkers(sp.name, w.pods, w.scalers[OUT].pods, Some("s"), api.creates).ok
            && |ActivePods(MadeFor(sp, w, OUT, w.scalers[OUT], api), "s")| == 1
  {
    var w := CommittedTwice(sp);
    Number(sp, 0);
    Number(sp, 1);
    Number(sp, 2);
    OneMade(sp, w.pods, N(sp, 2), Some("s"));
    MadeActive(sp, w, OUT, w.scalers[OUT], api);
    OneActive(w.pods, "s", N(sp, 2));
  }

  /** The pass makes worker 2 a target a second time. */
  lemma CommitDuplicates(sp: Spec, api: Api)
    requires sp.replicas == 2 && api.creates == map[]
    requires api.scalerRead && api.labelListed && api.exec == ExecDone
    ensures var w' := Reconcile(sp, CommittedTwice(sp), api).w;
            && SucceedsNow(CommittedTwice(sp), w', OUT)
            && w'.status.targetWorkers == Three(sp) + [N(sp, 2)] && N(sp, 2) in Three(sp)
  {
    var w := CommittedTwice(sp);
    CommittedScalers(sp);
    CommittedTwiceGrows(sp);
    CommittedTwiceIsSound(sp);
    CommittedTwiceRoom(sp);
    CommittedTwiceRuns(sp, api);
    assert Three(sp)[2] == N(sp, 2);
    CommitAppends(sp, w, api);
  }

  lemma CommitAppends(sp: Spec, w: World, api: Api)
    requires PhaseInv(w) && Growing(w, OUT) && !w.suspended && CallsWork(sp, w, w.scalers[OUT], OUT, api)
    requires AllAllocated(sp, w) && Room(sp, w) && w.scalers[OUT].pods != []
    requires AllocatedFor(sp, w, w.scalers[OUT]) == w.scalers[OUT]
    requires |ActivePods(MadeFor(sp, w, OUT, w.scalers[OUT], api), OUT.name)| >= w.scalers[OUT].count.value
    ensures SucceedsNow(w, Reconcile(sp, w, api).w, OUT)
    ensures Reconcile(sp, w, api).w.status.targetWorkers == w.status.targetWorkers + w.scalers[OUT].pods
  {
    PassDecides(sp, w, api, OUT);
    CommitsMade(sp, w, api, OUT);
    SuccessAppends(sp, w, api);
  }

  lemma SuccessAppends(sp: Spec, w: World, api: Api)
    requires PhaseInv(w) && Growing(w, OUT) && !w.suspended && SucceedsNow(w, Reconcile(sp, w, api).w, OUT)
    requires AllAllocated(sp, w) && Room(sp, w) && w.scalers[OUT].pods != []
    ensures Reconcile(sp, w, api).w.status.targetWorkers == w.status.targetWorkers + w.scalers[OUT].pods
  {
    ScalingFinishes(sp, w, api);
    RecordedStays(sp, w, api, OUT);
  }

  // ---------- files that go wrong ----------

  /** In the first attempt workers 0 and 1 were running when the launcher was made.  In the second one
      worker 0 failed before all were ready and, under policy OnFailure, worker 2 took its place. */
  function OtherWorkers(sp: Spec): World {
    World(Status(Created, Prepared3(), "", 1, [N(sp, 1), N(sp, 2)], [N(sp, 1), N(sp, 2)]),
          map[N(sp, 0) := Pod(PodFailed, [], None), N(sp, 1) := Worker(None), N(sp, 2) := Worker(None)],
          None, Some(Content(Two(sp), sp.slots)), map[], false, 0)
  }

  lemma PreparedIsSound(w: World)
    requires w.status.phase == Created && w.status.conditions == Prepared3()
    requires w.status.currentScaler == "" && w.scalers == map[]
    ensures PhaseInv(w)
    ensures !Has(w.status.conditions, LauncherCreated) && Has(w.status.conditions, WorkersReady)
    ensures Has(w.status.conditions, WorkersCreated)
  {
    JobTruths();
  }

  lemma OtherWorkersDiffer(sp: Spec)
    ensures AllCanonical(sp, Two(sp)) && AllCanonical(sp, [N(sp, 1), N(sp, 2)]) && Two(sp) != [N(sp, 1), N(sp, 2)]
  {
    Number(sp, 0);
    Number(sp, 1);
    Number(sp, 2);
    assert IndexOf(sp.name, Two(sp)[0]) != IndexOf(sp.name, [N(sp, 1), N(sp, 2)][0]);
  }

  lemma LauncherMade(sp: Spec, api: Api)
    requires api.launcherRead && api.launcherCreated
    ensures var w, w' := OtherWorkers(sp), Reconcile(sp, OtherWorkers(sp), api).w;
            && w'.launcher.Some? && w'.status.currentWorkers == w.status.currentWorkers
            && w'.launcher.value.hostfile == Content(Two(sp), sp.slots)
  {
    PreparedIsSound(OtherWorkers(sp));
    StartingConfig(sp, OtherWorkers(sp), api);
  }

  /** The pass makes a launcher that lists worker 0, which is gone, and does not list worker 2. */
  lemma LaterHostfileFails(sp: Spec, api: Api)
    requires PlainJob(sp) && api.launcherRead && api.launcherCreated
    ensures var w, w' := OtherWorkers(sp), Reconcile(sp, OtherWorkers(sp), api).w;
            && w'.launcher.Some? && w'.status.currentWorkers == w.status.currentWorkers && !Agrees(sp, w')
            && ReadHostfile(w'.launcher.value.hostfile) == Some(Hosts(Two(sp), sp.slots))
  {
    LauncherMade(sp, api);
    OtherWorkersDiffer(sp);
    var text := Content(Two(sp), sp.slots);
    ShowsReads(sp, text, Two(sp));
    if Shows(sp, text, [N(sp, 1), N(sp, 2)]) { ShowsOne(sp, text, Two(sp), [N(sp, 1), N(sp, 2)]); }
  }

  /** A job that is about to make its first launcher. */
  function FirstLauncher(sp: Spec): World {
    World(Status(Created, Prepared3(), "", 0, Two(sp), Two(sp)),
          map[N(sp, 0) := Worker(None), N(sp, 1) := Worker(None)], None, None, map[], false, 0)
  }

  /** The launcher cannot be read: the pass records it as created, and there is none. */
  lemma LauncherMissedFails(sp: Spec, api: Api)
    requires !api.launcherRead && api.config == ConfigDone
    ensures var w' := Reconcile(sp, FirstLauncher(sp), api).w;
            Has(w'.status.conditions, LauncherCreated) && w'.launcher.None? && w'.status.phase == Created
  {
    var w := FirstLauncher(sp);
    PreparedIsSound(w);
    LauncherMissed(sp, w, api);
  }

  /** A ScaleIn of worker 1 had run its script when the job was restarted: the new launcher lists both
      workers again, and the ScaleIn has been selected again. */
  function ScriptLeftOver(sp: Spec): World {
    ScalingJob(sp, Started(), IN, 1, Two(sp), Two(sp),
               map[N(sp, 0) := Worker(None), N(sp, 1) := Worker(None)], Content(Two(sp), sp.slots),
               map[IN := Shrink(Scripted2(), [N(sp, 1)], [N(sp, 1)])], 0)
  }

  lemma ShrinkingJob(sp: Spec, w: World, names: seq<string>, pods: seq<string>)
    requires w.status.phase == Scaling && w.status.conditions == Started()
    requires w.status.currentScaler == FullName(IN) && w.scalers == map[IN := Shrink(Scripted2(), names, pods)]
    ensures PhaseInv(w) && Shrinking(w, IN) && Has(w.scalers[IN].conditions, ScriptExecuted)
  {
    RefsAreSound();
    NamesArePrinted();
    ShrinkIsSound(Scripted2(), names, pods);
    ScalingJobIsSound(sp, w);
  }

  /** The pass deletes worker 1, and the hostfile goes on listing it. */
  lemma StaleScriptFails(sp: Spec, api: Api)
    requires PlainJob(sp) && CallsMade(sp, ScriptLeftOver(sp), api) && api.processes == Some("") && api.undeleted == {}
    ensures var w' := Reconcile(sp, ScriptLeftOver(sp), api).w;
            N(sp, 1) !in w'.pods && w'.launcher.Some? && Shows(sp, w'.launcher.value.hostfile, Two(sp))
  {
    ShrinkingJob(sp, ScriptLeftOver(sp), [N(sp, 1)], [N(sp, 1)]);
    ShortFileShows(sp);
    StaleScript(sp, ScriptLeftOver(sp), api, IN, N(sp, 1));
  }

  /** A ScaleIn of worker 1 has written its hostfile, and the process of worker 1 has kept it waiting. */
  function ShortFile1(sp: Spec): World {
    ScalingJob(sp, Started(), IN, 0, Two(sp), Two(sp),
               map[N(sp, 0) := Worker(None), N(sp, 1) := Worker(None)], HostfileText(sp, [N(sp, 0)]),
               map[IN := Shrink(Scripted2(), [N(sp, 1)], [N(sp, 1)])], 0)
  }

  lemma ShortFileShows(sp: Spec)
    ensures N(sp, 1) in Two(sp) && AllCanonical(sp, Two(sp))
    ensures Remaining(ShortFile1(sp), [N(sp, 1)]) == [N(sp, 0)]
  {
    Number(sp, 0);
    Number(sp, 1);
    assert Two(sp)[1] == N(sp, 1) && Two(sp)[1..] == [N(sp, 1)] && [N(sp, 1)][1..] == [];
    assert N(sp, 0) != N(sp, 1);
    assert Filter([N(sp, 1)], [N(sp, 1)], true) == [];
  }

  /** The pods cannot be listed for deletion: the ScaleIn fails, the job runs on, and the hostfile lists
      one of its two current workers. */
  lemma FailedScaleInFails(sp: Spec, api: Api)
    requires PlainJob(sp) && api.scalerRead && api.processes.Some? && !api.deleteListed
    ensures var w' := Reconcile(sp, ShortFile1(sp), api).w;
            && IN in w'.scalers && Has(w'.scalers[IN].conditions, ScaleFailed)
            && w'.status.phase == Running && w'.status.currentWorkers == Two(sp) && !Agrees(sp, w')
  {
    var w := ShortFile1(sp);
    ShrinkingJob(sp, w, [N(sp, 1)], [N(sp, 1)]);
    ShortFileShows(sp);
    ShortFailed(sp, w, api);
    FinishKeepsLauncher(sp, w, api, IN);
    StruckOff(sp, w, Reconcile(sp, w, api).w, [N(sp, 1)]);
  }

  lemma ShortFailed(sp: Spec, w: World, api: Api)
    requires PhaseInv(w) && Shrinking(w, IN) && !w.suspended && !w.scalers[IN].deleting && w.scalers[IN].pods != []
    requires Has(w.scalers[IN].conditions, ScriptExecuted)
    requires w.launcher.Some? && w.launcher.value.phase == PodRunning
    requires api.scalerRead && api.processes.Some? && !api.deleteListed
    ensures var w' := Reconcile(sp, w, api).w;
            && IN in w'.scalers && Has(w'.scalers[IN].conditions, ScaleFailed)
            && w'.status.phase == Running && SameWorkers(w, w')
  {
    PassRemoves(sp, w, api);
    ScaleInDecides(sp, w, IN, w.scalers[IN], api);
    RemoveChosenPhases(sp, w, IN, w.scalers[IN], api);
  }

  lemma PassRemoves(sp: Spec, w: World, api: Api)
    requires PhaseInv(w) && Shrinking(w, IN) && !w.suspended && !w.scalers[IN].deleting && w.scalers[IN].pods != []
    requires w.launcher.Some? && w.launcher.value.phase == PodRunning && api.scalerRead
    ensures Reconcile(sp, w, api).w == RemoveChosen(sp, w, IN, w.scalers[IN], api).w
  {
    var s := w.scalers[IN];
    assert SyncLauncher(sp, w, api) == w;
    assert ChooseToDelete(sp, s, api) == Chosen(s.pods) && s.(pods := s.pods) == s;
  }

  /** The ScaleIn is removed while it waits: the next pass gives it up, and the file stays short. */
  lemma DroppedScaleInFails(sp: Spec, api: Api)
    requires PlainJob(sp) && api.scalerRead
    ensures var w' := Reconcile(sp, ShortFile1(sp).(scalers := map[]), api).w;
            && w'.status.phase == Running && w'.status.currentWorkers == Two(sp) && !Agrees(sp, w')
  {
    var w := ShortFile1(sp);
    var w1 := w.(scalers := map[]);
    NamesArePrinted();
    ScalingJobIsSound(sp, w1);
    ShortFileShows(sp);
    DropsCurrent(sp, w1, api);
    StruckOff(sp, w, Reconcile(sp, w1, api).w, [N(sp, 1)]);
  }

  /** The conditions of a job whose launcher failed while it ran. */
  function Broken(): seq<Condition> {
    Prepared3() + [Mark(LauncherCreated, ""), Mark(Running, JOB_RUNNING).(status := false), Mark(Failed, JOB_FAILED)]
  }

  lemma BrokenTruths()
    ensures Truths(Broken()) == {Created, WorkersCreated, WorkersReady, LauncherCreated, Failed}
  {
    var a := Prepared3() + [Mark(LauncherCreated, "")];
    var off := [Mark(Running, JOB_RUNNING).(status := false)];
    JobTruths();
    TruthsSnoc(Prepared3(), LauncherCreated, "");
    TruthsConcat(a, off);
    assert off[1..] == [] && Truths(off) == {};
    assert Broken() == a + off + [Mark(Failed, JOB_FAILED)];
    TruthsSnoc(a + off, Failed, JOB_FAILED);
  }

  /** A job of two workers whose launcher failed, in its first attempt. */
  function FailedOnce(sp: Spec): World {
    World(Status(Failed, Broken(), "", 0, Two(sp), Two(sp)),
          map[N(sp, 0) := Worker(None), N(sp, 1) := Worker(None)],
          Some(Launcher(PodFailed, "", Content(Two(sp), sp.slots))), Some(Content(Two(sp), sp.slots)), map[], false, 0)
  }

  /** The deletion of the launcher fails: the restart goes on, counts and starts the new attempt, with the
      failed launcher in it. */
  lemma RestartInVain(sp: Spec, api: Api)
    requires sp.restartPolicy == OnFailure && 0 < sp.backoffLimit && sp.replicas == 2
    requires api.deleteListed && api.serviceListed && api.launcherRead && !api.launcherDeleted && api.creates == map[]
    ensures var w' := Reconcile(sp, FailedOnce(sp), api).w;
            && w'.status.phase == Created && w'.status.restartCount == 1 && Has(w'.status.conditions, WorkersCreated)
            && w'.launcher.Some? && w'.launcher.value.phase == PodFailed
  {
    BrokenTruths();
    RestartOutcome(sp, FailedOnce(sp), api);
  }
}
