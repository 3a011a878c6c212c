/** The record kept on a scaler over whole runs: its conditions only ever grow by what the controllers
    issue, so a deadline never moves, and nothing recorded on it is taken back, restarts included. */
module ScalerHistory {
  import opened GoStrings
  import opened Conditions
  import opened ScalerRefs
  import opened Cluster
  import opened Pass
  import opened System
  import opened Phases
  import opened Lifecycle
  import opened Workers
  import opened ScalerPasses

  /** A condition that the controllers set on scalers. */
  predicate ForScaler(c: Condition) {
    Issued(c) && c.ctype in {Created, Scaling, ScriptExecuted, ScaleSucceeded, ScaleFailed}
  }

  /** The later list comes from the earlier one by a sequence of such settings. */
  ghost predicate Extends(earlier: seq<Condition>, later: seq<Condition>) {
    exists cs :: ExtendsBy(earlier, later, cs)
  }

  ghost predicate ExtendsBy(earlier: seq<Condition>, later: seq<Condition>, cs: seq<Condition>) {
    (forall c :: c in cs ==> ForScaler(c)) && later == SetAll(earlier, cs)
  }

  lemma ExtendsSelf(conds: seq<Condition>)
    ensures Extends(conds, conds)
  {
    assert ExtendsBy(conds, conds, []);
  }

  lemma ExtendsOne(conds: seq<Condition>, c: Condition)
    requires ForScaler(c)
    ensures Extends(conds, Set(conds, c))
  {
    assert SetAll(Set(conds, c), [c][1..]) == Set(conds, c);
    assert ExtendsBy(conds, Set(conds, c), [c]);
  }

  lemma {:induction false} SetAllConcat(conds: seq<Condition>, a: seq<Condition>, b: seq<Condition>)
    ensures SetAll(conds, a + b) == SetAll(SetAll(conds, a), b)
    decreases |a|
  {
    if a == [] {
      assert a + b == b;
    } else {
      assert (a + b)[1..] == a[1..] + b;
      SetAllConcat(Set(conds, a[0]), a[1..], b);
    }
  }

  lemma ExtendsTwice(a: seq<Condition>, b: seq<Condition>, c: seq<Condition>)
    requires Extends(a, b) && Extends(b, c)
    ensures Extends(a, c)
  {
    var x :| ExtendsBy(a, b, x);
    var y :| ExtendsBy(b, c, y);
    SetAllConcat(a, x, y);
    assert ExtendsBy(a, c, x + y);
  }

  // ---------- one pass ----------

  lemma FinishExtends(w: World, ref: Ref, s: Scaler, t: ConditionType, api: Api)
    requires t == ScaleSucceeded || t == ScaleFailed
    ensures var w' := FinishScaler(w, ref, s, t, api);
            ref in w'.scalers && Extends(s.conditions, w'.scalers[ref].conditions)
  {
    var reason := (if ref.kind == ScaleIn then "ScalingIn" else "ScalingOut")
                  + (if t == ScaleSucceeded then "Succeeded" else "Failed");
    ExtendsOne(s.conditions, NewCondition(t, reason, api.message, w.now));
  }

  lemma ScriptExtends(sp: Spec, w: World, s: Scaler, workers: seq<string>, api: Api)
    ensures Extends(s.conditions, ScaleScript(sp, w, s, workers, api).s.conditions)
  {
    ExtendsSelf(s.conditions);
    ExtendsOne(s.conditions, NewCondition(ScriptExecuted, "", api.message, w.now));
  }

  lemma DeleteAndCommitExtends(sp: Spec, w: World, ref: Ref, s: Scaler, hosts: seq<string>, listing: string, api: Api)
    ensures var w' := DeleteAndCommit(sp, w, ref, s, hosts, listing, api).w;
            ref in w'.scalers && Extends(s.conditions, w'.scalers[ref].conditions)
  {
    ExtendsSelf(s.conditions);
    var r := DeleteWorkers(w, ToDeleteNow(sp, s, listing), api);
    if !r.ok {
      FinishExtends(r.w, ref, s, ScaleFailed, api);
    } else if AllGone(r.w.pods, s.pods, api) {
      var w1 := r.w.(status := r.w.status.(
        targetWorkers := AfterScaler(r.w.status.targetWorkers, ScaleIn, s.pods), currentWorkers := hosts));
      FinishExtends(w1, ref, s, ScaleSucceeded, api);
    }
  }

  lemma RemoveChosenExtends(sp: Spec, w: World, ref: Ref, s: Scaler, api: Api)
    ensures var w' := RemoveChosen(sp, w, ref, s, api).w;
            ref in w'.scalers && Extends(s.conditions, w'.scalers[ref].conditions)
  {
    var hosts := AfterScaler(w.status.currentWorkers, ScaleIn, s.pods);
    var r := ScaleScript(sp, w, s, hosts, api);
    ScriptExtends(sp, w, s, hosts, api);
    ScaleScriptPods(sp, w, s, hosts, api);
    var w' := RemoveChosen(sp, w, ref, s, api).w;
    if !r.ok {
      FinishExtends(r.w, ref, r.s, ScaleFailed, api);
    } else if ListingFor(r.w, s, api).Some? {
      DeleteAndCommitExtends(sp, r.w, ref, r.s, hosts, ListingFor(r.w, s, api).value, api);
    } else {
      ExtendsSelf(r.s.conditions);
    }
    ExtendsTwice(s.conditions, r.s.conditions, w'.scalers[ref].conditions);
  }

  lemma ScaleInExtends(sp: Spec, w: World, ref: Ref, api: Api)
    requires ref in w.scalers
    ensures var w' := ScaleInPass(sp, w, ref, w.scalers[ref], api).w;
            ref in w'.scalers && Extends(w.scalers[ref].conditions, w'.scalers[ref].conditions)
  {
    var s := w.scalers[ref];
    ExtendsSelf(s.conditions);
    if !s.deleting {
      match ChooseToDelete(sp, s, api)
      case Chosen(pods) => RemoveChosenExtends(sp, w, ref, s.(pods := pods), api);
      case Refused => FinishExtends(w, ref, s, ScaleFailed, api);
      case OutOfRange =>
    }
  }

  lemma AnnounceExtends(sp: Spec, w: World, ref: Ref, s: Scaler, api: Api)
    ensures var w' := AnnounceScaleOut(sp, w, ref, s, api).w;
            ref in w'.scalers && Extends(s.conditions, w'.scalers[ref].conditions)
  {
    var hosts := AfterScaler(w.status.currentWorkers, ScaleOut, s.pods);
    var r := ScaleScript(sp, w, s, hosts, api);
    ScriptExtends(sp, w, s, hosts, api);
    var w' := AnnounceScaleOut(sp, w, ref, s, api).w;
    if r.ok {
      FinishExtends(
        r.w.(status := r.w.status.(targetWorkers := AfterScaler(r.w.status.targetWorkers, ScaleOut, r.s.pods))),
        ref, r.s, ScaleSucceeded, api);
    } else {
      FinishExtends(r.w, ref, r.s, ScaleFailed, api);
    }
    ExtendsTwice(s.conditions, r.s.conditions, w'.scalers[ref].conditions);
  }

  lemma AwaitExtends(sp: Spec, w: World, ref: Ref, s: Scaler, count: nat, api: Api)
    ensures var w' := AwaitAdded(sp, w, ref, s, count, api).w;
            ref in w'.scalers && Extends(s.conditions, w'.scalers[ref].conditions)
  {
    ExtendsSelf(s.conditions);
    if api.labelListed {
      if |ActivePods(w.pods, ref.name)| >= count { AnnounceExtends(sp, w, ref, s, api); }
      else { FinishExtends(w, ref, s, ScaleFailed, api); }
    }
  }

  lemma ScaleOutExtends(sp: Spec, w: World, ref: Ref, api: Api)
    requires ref in w.scalers
    ensures var w' := ScaleOutPass(sp, w, ref, w.scalers[ref], api).w;
            ref in w'.scalers && Extends(w.scalers[ref].conditions, w'.scalers[ref].conditions)
  {
    var s := w.scalers[ref];
    if s.deleting {
      ExtendsSelf(s.conditions);
    } else if !ValidCount(s) {
      FinishExtends(w, ref, s, ScaleFailed, api);
    } else {
      var s1 := Allocate(sp, w, s, s.count.value);
      var w1 := w.(pods := Made(sp, w, s1.pods, Some(ref.name), api));
      AwaitExtends(sp, w1, ref, s1, s.count.value, api);
      FinishExtends(w1, ref, s1, ScaleFailed, api);
    }
  }

  lemma ScalingExtends(sp: Spec, w: World, api: Api, r: Ref)
    requires PhaseInv(w) && w.status.phase == Scaling && r in w.scalers
    ensures var w' := ExecuteScaling(sp, w, api).w;
            r in w'.scalers && Extends(w.scalers[r].conditions, w'.scalers[r].conditions)
  {
    var w1, ref := SyncLauncher(sp, w, api), CurrentRef(w);
    ExtendsSelf(w.scalers[r].conditions);
    ExecuteScalingPhases(sp, w, api);
    SyncLauncherPhases(sp, w, api);
    SyncLauncherWorkers(sp, w, api);
    if r == ref && w1.status.phase == Scaling && api.scalerRead && !Finished(w.scalers[ref]) {
      if ref.kind == ScaleIn { ScaleInExtends(sp, w1, ref, api); } else { ScaleOutExtends(sp, w1, ref, api); }
    }
  }

  lemma StartExtends(w: World, api: Api, r: Ref)
    requires r in w.scalers
    ensures r in SelectScaler(w, api).scalers
    ensures Extends(w.scalers[r].conditions, SelectScaler(w, api).scalers[r].conditions)
  {
    ExtendsSelf(w.scalers[r].conditions);
    ExtendsOne(w.scalers[r].conditions, NewCondition(Scaling, SCALING_START, api.message, w.now));
  }

  lemma RunningExtends(sp: Spec, w: World, api: Api, r: Ref)
    requires PhaseInv(w) && w.status.phase == Running && r in w.scalers
    ensures var w' := ReconcileRunning(sp, w, api).w;
            r in w'.scalers && Extends(w.scalers[r].conditions, w'.scalers[r].conditions)
  {
    var w1 := SyncLauncher(sp, w, api);
    SyncLauncherWorkers(sp, w, api);
    SyncWorkersFrame(sp, w1, api);
    ExtendsSelf(w.scalers[r].conditions);
    StartExtends(SyncWorkers(sp, w1, api).w, api, r);
  }

  /** What one step keeps of a scaler that stays: its spec and recorded pods, and its conditions up to
      further settings. */
  ghost predicate KeptOn(s: Scaler, s': Scaler) {
    && Extends(s.conditions, s'.conditions)
    && s'.timeout == s.timeout
    && (s.pods != [] ==> s'.pods == s.pods)
  }

  lemma PassKeeps(sp: Spec, w: World, api: Api, r: Ref)
    requires PhaseInv(w) && r in w.scalers
    ensures var w' := Reconcile(sp, w, api).w;
            r in w'.scalers && KeptOn(w.scalers[r], w'.scalers[r])
  {
    if !w.suspended && w.status.phase == Scaling {
      ScalingKeeps(sp, w, api, r);
    } else if !w.suspended && w.status.phase == Running {
      RunningExtends(sp, w, api, r);
      RunningObjects(sp, w, api);
    } else {
      PassMoves(sp, w, api);
      ExtendsSelf(w.scalers[r].conditions);
    }
  }

  lemma ScalingKeeps(sp: Spec, w: World, api: Api, r: Ref)
    requires PhaseInv(w) && w.status.phase == Scaling && r in w.scalers
    ensures var w' := ExecuteScaling(sp, w, api).w;
            r in w'.scalers && KeptOn(w.scalers[r], w'.scalers[r])
  {
    ScalingExtends(sp, w, api, r);
    ExecuteScalingPhases(sp, w, api);
    ScalingObject(sp, w, api);
  }

  lemma NextKeeps(sp: Spec, w: World, e: Event, w': World, r: Ref)
    requires PhaseInv(w) && Next(sp, w, e, w') && r in w.scalers && r in w'.scalers
    requires e != ScalerCreated(r)
    ensures KeptOn(w.scalers[r], w'.scalers[r])
  {
    ExtendsSelf(w.scalers[r].conditions);
    match e
    case Reconciled(api) => PassKeeps(sp, w, api, r);
    case ScalerMarked(x) =>
      if x == r {
        var m :| Marked(w.scalers[r], w'.scalers[r], w.now, m);
        ExtendsOne(w.scalers[r].conditions, NewCondition(Created, "", m, w.now));
      }
    case _ =>
  }

  // ---------- every run ----------

  /** The scaler exists in every state from the i-th to the k-th. */
  ghost predicate PresentFrom(ws: seq<World>, r: Ref, i: nat, k: nat)
    requires i <= k < |ws|
  {
    forall n :: i <= n <= k ==> PresentAt(ws, r, n)
  }

  ghost predicate PresentAt(ws: seq<World>, r: Ref, n: nat)
    requires n < |ws|
  {
    r in ws[n].scalers
  }

  lemma {:induction false} RunKeeps(sp: Spec, ws: seq<World>, es: seq<Event>, i: nat, k: nat, r: Ref)
    requires Run(sp, ws, es) && Init(ws[0]) && i <= k <= |es| && PresentFrom(ws, r, i, k)
    ensures r in ws[i].scalers && r in ws[k].scalers && KeptOn(ws[i].scalers[r], ws[k].scalers[r])
  {
    assert PresentAt(ws, r, i) && PresentAt(ws, r, k);
    if i < k {
      assert PresentAt(ws, r, k - 1);
      RunKeeps(sp, ws, es, i, k - 1, r);
      KeepsStep(sp, ws, es, k - 1, r);
      ExtendsTwice(ws[i].scalers[r].conditions, ws[k - 1].scalers[r].conditions, ws[k].scalers[r].conditions);
    } else {
      ExtendsSelf(ws[i].scalers[r].conditions);
    }
  }

  lemma KeepsStep(sp: Spec, ws: seq<World>, es: seq<Event>, k: nat, r: Ref)
    requires Run(sp, ws, es) && Init(ws[0]) && k < |es| && r in ws[k].scalers && r in ws[k + 1].scalers
    ensures KeptOn(ws[k].scalers[r], ws[k + 1].scalers[r])
  {
    RunPhases(sp, ws, es, k);
    StepOf(sp, ws, es, k);
    NextKeeps(sp, ws[k], es[k], ws[k + 1], r);
  }

  /** The list of a scaler: one condition a type, no exclusive pair, and Scaling only as issued. */
  ghost predicate WellKept(conds: seq<Condition>) {
    && UniqueTypes(conds) && Exclusive(conds)
    && (Get(conds, Scaling).Some? ==>
          Get(conds, Scaling).value.status && Get(conds, Scaling).value.reason == SCALING_START)
  }

  lemma {:induction false} SetAllKeeps(conds: seq<Condition>, cs: seq<Condition>)
    requires WellKept(conds) && forall c :: c in cs ==> ForScaler(c)
    ensures WellKept(SetAll(conds, cs))
    decreases |cs|
  {
    if cs != [] {
      assert cs[0] in cs;
      SetRefinesMap(conds, cs[0]);
      SetAllKeeps(Set(conds, cs[0]), cs[1..]);
    }
  }

  lemma NewIsWellKept(s: Scaler)
    requires NewScaler(s)
    ensures WellKept(s.conditions)
  {
    GetType(s.conditions, Scaling);
    GetType(s.conditions, Running);
  }

  ghost predicate AllWellKept(w: World) { forall r :: r in w.scalers ==> WellKept(w.scalers[r].conditions) }

  lemma NextWellKept(sp: Spec, w: World, e: Event, w': World)
    requires PhaseInv(w) && Next(sp, w, e, w') && AllWellKept(w)
    ensures AllWellKept(w')
  {
    forall r | r in w'.scalers ensures WellKept(w'.scalers[r].conditions) {
      if e == ScalerCreated(r) {
        NewIsWellKept(w'.scalers[r]);
      } else {
        if e.Reconciled? { PassPhases(sp, w, e.api); }
        NextKeeps(sp, w, e, w', r);
        var cs :| ExtendsBy(w.scalers[r].conditions, w'.scalers[r].conditions, cs);
        SetAllKeeps(w.scalers[r].conditions, cs);
      }
    }
  }

  /** In every reachable state the conditions of every scaler are well kept. */
  lemma {:induction false} RunWellKept(sp: Spec, ws: seq<World>, es: seq<Event>, k: nat)
    requires Run(sp, ws, es) && Init(ws[0]) && k <= |es|
    ensures AllWellKept(ws[k])
  {
    if k > 0 {
      RunWellKept(sp, ws, es, k - 1);
      RunPhases(sp, ws, es, k - 1);
      LastStep(sp, ws, es, k);
      NextWellKept(sp, ws[k - 1], es[k - 1], ws[k]);
    }
  }

  /** In every run the deadline of a scale-out that was started never moves while the object exists,
      however often it is selected again and across restarts of the job: it is late exactly when its
      timeout has passed since the first start. */
  lemma DeadlineNeverMoves(sp: Spec, ws: seq<World>, es: seq<Event>, i: nat, k: nat, r: Ref, now: int)
    requires Run(sp, ws, es) && Init(ws[0]) && i <= k <= |es| && PresentFrom(ws, r, i, k)
    requires r in ws[i].scalers && Has(ws[i].scalers[r].conditions, Scaling)
    ensures r in ws[k].scalers && Get(ws[i].scalers[r].conditions, Scaling).Some?
    ensures TimedOut(ws[k].scalers[r].conditions, ws[k].scalers[r].timeout, now) <==>
              Get(ws[i].scalers[r].conditions, Scaling).value.lastTransitionTime + ws[i].scalers[r].timeout < now
  {
    var conds := ws[i].scalers[r].conditions;
    RunWellKept(sp, ws, es, i);
    RunKeeps(sp, ws, es, i, k, r);
    HasIsGet(conds, Scaling);
    var cs :| ExtendsBy(conds, ws[k].scalers[r].conditions, cs);
    DeadlineFixed(conds, cs, Get(conds, Scaling).value.lastTransitionTime, ws[i].scalers[r].timeout, now);
  }

  lemma {:induction false} SetAllTruths(conds: seq<Condition>, cs: seq<Condition>)
    requires forall c :: c in cs ==> ForScaler(c)
    requires Truths(conds) <= {Created, Scaling, ScriptExecuted, ScaleSucceeded, ScaleFailed}
    ensures Truths(conds) <= Truths(SetAll(conds, cs))
    decreases |cs|
  {
    if cs != [] {
      assert cs[0] in cs;
      SetEffect(conds, cs[0]);
      assert After(Truths(conds), cs[0].ctype) == Truths(conds) + {cs[0].ctype};
      SetAllTruths(Set(conds, cs[0]), cs[1..]);
    }
  }

  /** Nothing recorded on a scaler is taken back while the object exists, not by a restart of the job
      either: not its pods, not the mark that its script has run, not its outcome. */
  lemma RecordsSurvive(sp: Spec, ws: seq<World>, es: seq<Event>, i: nat, k: nat, r: Ref)
    requires Run(sp, ws, es) && Init(ws[0]) && i <= k <= |es| && PresentFrom(ws, r, i, k)
    ensures r in ws[i].scalers && r in ws[k].scalers
    ensures ws[i].scalers[r].pods != [] ==> ws[k].scalers[r].pods == ws[i].scalers[r].pods
    ensures Truths(ws[i].scalers[r].conditions) <= Truths(ws[k].scalers[r].conditions)
  {
    RunPhases(sp, ws, es, i);
    RunKeeps(sp, ws, es, i, k, r);
    var cs :| ExtendsBy(ws[i].scalers[r].conditions, ws[k].scalers[r].conditions, cs);
    SetAllTruths(ws[i].scalers[r].conditions, cs);
  }
}
