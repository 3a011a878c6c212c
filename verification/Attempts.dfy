/** One attempt of a job, from a (re)start to the next restart: one scaler at a time, and worker
    lists without duplicates. */
module Attempts {
  import opened GoStrings
  import opened Conditions
  import opened ScalerRefs
  import opened Cluster
  import opened Pass
  import opened System
  import opened Phases
  import opened Lifecycle
  import opened ScalerPasses

  /** A scaler that the job has begun to work on. */
  predicate Touched(s: Scaler) {
    s.pods != [] || Has(s.conditions, Scaling) || Has(s.conditions, ScriptExecuted)
  }

  /** Every unfinished scaler that was begun is the current one, and the job is Scaling or ended
      while it was. */
  ghost predicate OneAtATime(w: World) {
    forall r :: r in w.scalers && !Finished(w.scalers[r]) && Touched(w.scalers[r]) ==>
      FullName(r) == w.status.currentScaler && w.status.phase in {Scaling, Succeeded, Failed, Suspended}
  }

  /** No scaler is in flight. */
  ghost predicate NoneTouched(w: World) {
    forall r :: r in w.scalers && !Finished(w.scalers[r]) ==> !Touched(w.scalers[r])
  }

  lemma IdleNoneTouched(w: World)
    requires OneAtATime(w) && w.status.phase in {NoPhase, Created, Running}
    ensures NoneTouched(w)
  {
  }

  lemma PassOneAtATime(sp: Spec, w: World, api: Api)
    requires PhaseInv(w) && OneAtATime(w)
    requires Resets(sp, w) ==> NoneTouched(w)
    ensures OneAtATime(Reconcile(sp, w, api).w)
  {
    PassPhases(sp, w, api);
    PassMoves(sp, w, api);
    var w' := Reconcile(sp, w, api).w;
    if !w.suspended && w.status.phase == Scaling {
      ScalingOneAtATime(w, w');
    } else if !w.suspended && w.status.phase == Running {
      SelectingOneAtATime(w, w');
    }
  }

  lemma ScalingOneAtATime(w: World, w': World)
    requires PhaseInv(w) && OneAtATime(w) && w.status.phase == Scaling && ScalingMove(w, w')
    ensures OneAtATime(w')
  {
    var ref := CurrentRef(w);
    forall r | r in w'.scalers && !Finished(w'.scalers[r]) && Touched(w'.scalers[r])
      ensures r == ref && w'.status.phase != Running
    {
      if r != ref {
        assert w'.scalers[r] == w.scalers[r];
        FullNameInjective(r, ref);
      }
    }
  }

  lemma SelectingOneAtATime(w: World, w': World)
    requires PhaseInv(w) && OneAtATime(w) && w.status.phase == Running && Selects(w, w')
    requires PhaseInv(w') && w'.status.phase in {Running, Scaling, Succeeded, Failed}
    ensures OneAtATime(w')
  {
    IdleNoneTouched(w);
  }

  lemma MarkedTouched(s: Scaler, s': Scaler, now: int, message: string)
    requires Sane(s) && Marked(s, s', now, message)
    ensures (Touched(s') <==> Touched(s)) && (Finished(s') <==> Finished(s))
    ensures s'.pods == s.pods && s'.count == s.count && s'.script == s.script
    ensures Has(s'.conditions, ScriptExecuted) <==> Has(s.conditions, ScriptExecuted)
  {
    SetEffect(s.conditions, NewCondition(Created, "", message, now));
    assert After(Truths(s.conditions), Created) == Truths(s.conditions) + {Created};
  }

  lemma NewScalerUntouched(s: Scaler)
    requires NewScaler(s)
    ensures !Touched(s) && !Finished(s)
  {
    NewScalerSane(s);
    assert !Has(s.conditions, Scaling) && !Has(s.conditions, ScriptExecuted);
  }

  lemma OutsideOneAtATime(sp: Spec, w: World, e: Event, w': World)
    requires PhaseInv(w) && OneAtATime(w) && Next(sp, w, e, w') && !e.Reconciled?
    ensures OneAtATime(w')
  {
    match e
    case ScalerCreated(r) => NewScalerUntouched(w'.scalers[r]);
    case ScalerMarked(r) =>
      var m :| Marked(w.scalers[r], w'.scalers[r], w.now, m);
      MarkedTouched(w.scalers[r], w'.scalers[r], w.now, m);
    case _ =>
  }

  /** The event does not restart the job while a scaler is in flight. */
  ghost predicate CleanRestart(sp: Spec, w: World, e: Event) {
    e.Reconciled? && Resets(sp, w) ==> NoneTouched(w)
  }

  ghost predicate CleanAt(sp: Spec, ws: seq<World>, es: seq<Event>, n: nat)
    requires n < |es| < |ws|
  {
    CleanRestart(sp, ws[n], es[n])
  }

  /** No restart between the i-th state and the k-th leaves a scaler in flight behind. */
  ghost predicate CleanFrom(sp: Spec, ws: seq<World>, es: seq<Event>, i: nat, k: nat)
    requires i <= k <= |es| < |ws|
  {
    forall n :: i <= n < k ==> CleanAt(sp, ws, es, n)
  }

  lemma NextOneAtATime(sp: Spec, w: World, e: Event, w': World)
    requires PhaseInv(w) && OneAtATime(w) && CleanRestart(sp, w, e) && Next(sp, w, e, w')
    ensures OneAtATime(w')
  {
    match e
    case Reconciled(api) => PassOneAtATime(sp, w, api);
    case _ => OutsideOneAtATime(sp, w, e, w');
  }

  lemma {:induction false} RunOneAtATime(sp: Spec, ws: seq<World>, es: seq<Event>, i: nat, k: nat)
    requires Run(sp, ws, es) && Init(ws[0]) && i <= k <= |es|
    requires OneAtATime(ws[i]) && CleanFrom(sp, ws, es, i, k)
    ensures OneAtATime(ws[k])
  {
    if i < k {
      assert CleanAt(sp, ws, es, k - 1);
      RunOneAtATime(sp, ws, es, i, k - 1);
      LastStep(sp, ws, es, k);
      RunPhases(sp, ws, es, k - 1);
      NextOneAtATime(sp, ws[k - 1], es[k - 1], ws[k]);
    }
  }

  /** From any state with at most the current scaler in flight, be it the submission of the job or a
      state of a later attempt: in every state up to the next restart that leaves one behind, at most
      one unfinished scaler carries the Scaling condition, and it is the one that currentScaler names. */
  lemma OneScalerAtATime(sp: Spec, ws: seq<World>, es: seq<Event>, i: nat, k: nat, a: Ref, b: Ref)
    requires Run(sp, ws, es) && Init(ws[0]) && i <= k <= |es|
    requires OneAtATime(ws[i]) && CleanFrom(sp, ws, es, i, k)
    requires a in ws[k].scalers && !Finished(ws[k].scalers[a]) && Has(ws[k].scalers[a].conditions, Scaling)
    ensures FullName(a) == ws[k].status.currentScaler && Resolve(ws[k].status.currentScaler) == Some(a)
    ensures b in ws[k].scalers && !Finished(ws[k].scalers[b]) && Has(ws[k].scalers[b].conditions, Scaling) ==> a == b
  {
    RunOneAtATime(sp, ws, es, i, k);
    RunPhases(sp, ws, es, k);
    ResolveFullName(a);
    if b in ws[k].scalers && !Finished(ws[k].scalers[b]) && Has(ws[k].scalers[b].conditions, Scaling) {
      FullNameInjective(a, b);
    }
  }

  /** Such a state is reached again after any restart, as soon as the leftover is finished or gone. */
  lemma NoneTouchedStarts(w: World)
    requires NoneTouched(w)
    ensures OneAtATime(w)
  {
  }

  /** So it is in every state of a run from the submission of the job on, while restarts are clean. */
  lemma OneScalerInRun(sp: Spec, ws: seq<World>, es: seq<Event>, k: nat, a: Ref, b: Ref)
    requires Run(sp, ws, es) && Init(ws[0]) && k <= |es| && CleanFrom(sp, ws, es, 0, k)
    requires a in ws[k].scalers && !Finished(ws[k].scalers[a]) && Has(ws[k].scalers[a].conditions, Scaling)
    requires b in ws[k].scalers && !Finished(ws[k].scalers[b]) && Has(ws[k].scalers[b].conditions, Scaling)
    ensures a == b && FullName(a) == ws[k].status.currentScaler
  {
    NoneTouchedStarts(ws[0]);
    OneScalerAtATime(sp, ws, es, 0, k, a, b);
  }

  /** A restart keeps the property exactly when no scaler was in flight: otherwise the scaler that
      the old attempt left behind is still begun and unfinished while the job starts over. */
  lemma RestartKeepsOneAtATime(sp: Spec, w: World, api: Api)
    requires PhaseInv(w) && OneAtATime(w) && Resets(sp, w)
    requires Reconcile(sp, w, api).w.status.phase == Created
    ensures OneAtATime(Reconcile(sp, w, api).w) <==> NoneTouched(w)
  {
    PassMoves(sp, w, api);
    if OneAtATime(Reconcile(sp, w, api).w) { IdleNoneTouched(Reconcile(sp, w, api).w); }
  }

  /** While the job is Scaling the worker lists change only in the pass that leads back to Running,
      and then exactly as the outcome of the current scaler says. */
  lemma ListsWhileScaling(sp: Spec, ws: seq<World>, es: seq<Event>, k: nat)
    requires Run(sp, ws, es) && Init(ws[0]) && k < |es| && ws[k].status.phase == Scaling
    ensures ws[k + 1].status.phase != Running ==> SameWorkers(ws[k], ws[k + 1])
    ensures ws[k + 1].status.phase == Running ==> LeftScaling(ws[k], ws[k + 1])
  {
    StepOf(sp, ws, es, k);
    RunPhases(sp, ws, es, k);
    match es[k]
    case Reconciled(api) =>
      PassPhases(sp, ws[k], api);
      PassMoves(sp, ws[k], api);
      if ws[k].suspended { CleanupFrame(sp, Suspend(ws[k], api), api); }
    case _ => OutsideKeepsStatus(sp, ws[k], es[k], ws[k + 1]);
  }

  // ---------- which scaler is selected ----------

  predicate ListedIn(api: Api, kind: Kind) {
    if kind == ScaleOut then api.scaleOuts.Some? else api.scaleIns.Some?
  }

  /** An available scaler of a kind whose listing succeeded. */
  predicate Candidate(w: World, api: Api, r: Ref) {
    r in w.scalers && !Finished(w.scalers[r]) && w.scalers[r].owned && ListedIn(api, r.kind)
  }

  lemma CandidatesAreAvailable(w: World, api: Api, r: Ref)
    requires Faithful(w, api) && Candidate(w, api, r)
    ensures Listed(r, w.scalers[r].created) in Candidates(w, api)
  {
    if r.kind == ScaleOut { AvailableMembers(w.scalers, api.scaleOuts.value); }
    else { AvailableMembers(w.scalers, api.scaleIns.value); }
  }

  lemma PassSelects(sp: Spec, w: World, api: Api)
    requires PhaseInv(w) && Faithful(w, api) && w.status.phase == Running
    requires Reconcile(sp, w, api).w.status.phase == Scaling
    ensures var selected := Resolve(Reconcile(sp, w, api).w.status.currentScaler);
            && selected.Some? && selected.value in w.scalers
            && var chosen := w.scalers[selected.value];
            && !Finished(chosen) && chosen.owned
            && forall r :: Candidate(w, api, r) ==> w.scalers[r].created <= chosen.created
  {
    PassMoves(sp, w, api);
    var w1 := SyncLauncher(sp, w, api);
    SyncLauncherPhases(sp, w, api);
    var r := SyncWorkers(sp, w1, api);
    SyncWorkersFrame(sp, w1, api);
    LatestOfWorld(w, r.w, api);
  }

  /** In every run: the scaler a pass starts is unfinished and owned, the stored reference leads back
      to it, and of the available scalers in the listings that succeeded none is strictly later. */
  lemma SelectedScaler(sp: Spec, ws: seq<World>, es: seq<Event>, k: nat)
    requires Run(sp, ws, es) && Init(ws[0]) && k < |es| && es[k].Reconciled?
    requires ws[k].status.phase == Running && ws[k + 1].status.phase == Scaling
    ensures var selected := Resolve(ws[k + 1].status.currentScaler);
            && selected.Some? && selected.value in ws[k].scalers
            && var chosen := ws[k].scalers[selected.value];
            && !Finished(chosen) && chosen.owned
            && forall r :: Candidate(ws[k], es[k].api, r) ==> ws[k].scalers[r].created <= chosen.created
  {
    StepOf(sp, ws, es, k);
    RunPhases(sp, ws, es, k);
    PassSelects(sp, ws[k], es[k].api);
  }

  // ---------- equally late scalers ----------

  /** The scalers in the order in which a pass looks at them: the listed ScaleOuts first. */
  function LookedAt(api: Api): seq<Ref> {
    (if api.scaleOuts.Some? then api.scaleOuts.value else [])
    + (if api.scaleIns.Some? then api.scaleIns.value else [])
  }

  lemma {:induction false} AvailableConcat(scalers: map<Ref, Scaler>, a: seq<Ref>, b: seq<Ref>)
    ensures Available(scalers, a + b) == Available(scalers, a) + Available(scalers, b)
  {
    if a == [] {
      assert a + b == b;
    } else {
      assert (a + b)[1..] == a[1..] + b;
      AvailableConcat(scalers, a[1..], b);
    }
  }

  lemma LookedAtOnce(w: World, api: Api, m: nat)
    requires Faithful(w, api) && m < |LookedAt(api)|
    ensures LookedAt(api)[m] !in LookedAt(api)[..m]
  {
    var outs := if api.scaleOuts.Some? then api.scaleOuts.value else [];
    var ins := if api.scaleIns.Some? then api.scaleIns.value else [];
    assert forall r :: r in outs ==> r.kind == ScaleOut;
    assert forall r :: r in ins ==> r.kind == ScaleIn;
    forall j | 0 <= j < m ensures LookedAt(api)[j] != LookedAt(api)[m] {
      if j < |outs| <= m { assert LookedAt(api)[j] in outs && LookedAt(api)[m] in ins; }
    }
  }

  /** A scaler that is looked at before the chosen one was created strictly earlier, if it is available. */
  lemma LatestBeforeOthers(w: World, api: Api, p: nat, m: nat)
    requires Faithful(w, api) && p < m < |LookedAt(api)|
    requires Latest(w, api) == Some(LookedAt(api)[m])
    requires var q := LookedAt(api)[p]; q in w.scalers && !Finished(w.scalers[q]) && w.scalers[q].owned
    ensures w.scalers[LookedAt(api)[p]].created < w.scalers[LookedAt(api)[m]].created
  {
    var refs, q := LookedAt(api), LookedAt(api)[p];
    assert refs == refs[..m] + refs[m..] && q in refs[..m];
    AvailableConcat(w.scalers, refs[..m], refs[m..]);
    CandidatesAreLookedAt(w, api);
    AvailableMembers(w.scalers, refs[..m]);
    LookedAtOnce(w, api, m);
    LatestIsCandidate(w, api);
    ListedBefore(Available(w.scalers, refs[..m]), Available(w.scalers, refs[m..]), Listed(q, w.scalers[q].created));
    LatestIsListed(w, api);
  }

  lemma CandidatesAreLookedAt(w: World, api: Api)
    ensures Candidates(w, api) == Available(w.scalers, LookedAt(api))
  {
    AvailableConcat(w.scalers, if api.scaleOuts.Some? then api.scaleOuts.value else [],
                    if api.scaleIns.Some? then api.scaleIns.value else []);
  }

  /** The chosen scaler with its creation time. */
  lemma LatestIsListed(w: World, api: Api)
    requires Latest(w, api).Some?
    ensures var candidates, r := Candidates(w, api), Latest(w, api).value;
            candidates != [] && LatestFrom(candidates[0], candidates[1..]) == Listed(r, w.scalers[r].created)
  {
    var candidates := Candidates(w, api);
    CandidatesAreLookedAt(w, api);
    AvailableMembers(w.scalers, LookedAt(api));
    LatestIsLatest(candidates[0], candidates[1..]);
    assert candidates == [candidates[0]] + candidates[1..];
  }

  lemma PassStartsLatest(sp: Spec, w: World, api: Api)
    requires PhaseInv(w) && Faithful(w, api) && w.status.phase == Running
    requires Reconcile(sp, w, api).w.status.phase == Scaling
    ensures Latest(w, api).Some? && Latest(w, api) == Resolve(Reconcile(sp, w, api).w.status.currentScaler)
  {
    PassMoves(sp, w, api);
    var w1 := SyncLauncher(sp, w, api);
    SyncLauncherPhases(sp, w, api);
    SyncWorkersFrame(sp, w1, api);
    LatestOfWorld(w, SyncWorkers(sp, w1, api).w, api);
  }

  /** In every run: of equally late available scalers a pass starts the one it looks at first, ScaleOuts
      before ScaleIns and each in the order of its listing. */
  lemma FirstOfEquals(sp: Spec, ws: seq<World>, es: seq<Event>, k: nat, p: nat, m: nat)
    requires Run(sp, ws, es) && Init(ws[0]) && k < |es| && es[k].Reconciled?
    requires ws[k].status.phase == Running && ws[k + 1].status.phase == Scaling
    requires p < m < |LookedAt(es[k].api)| && Candidate(ws[k], es[k].api, LookedAt(es[k].api)[p])
    requires Resolve(ws[k + 1].status.currentScaler) == Some(LookedAt(es[k].api)[m])
    ensures var earlier, chosen := LookedAt(es[k].api)[p], LookedAt(es[k].api)[m];
            chosen in ws[k].scalers && ws[k].scalers[earlier].created < ws[k].scalers[chosen].created
  {
    StepOf(sp, ws, es, k);
    RunPhases(sp, ws, es, k);
    PassStartsLatest(sp, ws[k], es[k].api);
    LatestBeforeOthers(ws[k], es[k].api, p, m);
  }

  lemma LatestOfWorld(w: World, w1: World, api: Api)
    requires w1.scalers == w.scalers && Faithful(w, api) && SaneScalers(w.scalers)
    ensures Latest(w1, api) == Latest(w, api)
    ensures Latest(w, api).Some? ==>
      var ref := Latest(w, api).value;
      && Resolve(FullName(ref)) == Some(ref)
      && !Finished(w.scalers[ref]) && w.scalers[ref].owned
      && forall r :: Candidate(w, api, r) ==> w.scalers[r].created <= w.scalers[ref].created
  {
    assert Candidates(w1, api) == Candidates(w, api);
    if Latest(w, api).Some? {
      var ref := Latest(w, api).value;
      LatestIsCandidate(w, api);
      ResolveFullName(ref);
      forall r | Candidate(w, api, r) ensures w.scalers[r].created <= w.scalers[ref].created {
        CandidatesAreAvailable(w, api, r);
      }
    }
  }
}
