/** Whole runs of the phase machine: the phase/condition invariant, the restart budget, and the
    bound on the number of phase changes. */
module Lifecycle {
  import opened Conditions
  import opened ScalerRefs
  import opened Cluster
  import opened Pass
  import opened System
  import opened Phases

  /** The passes that restart the job. */
  predicate Resets(sp: Spec, w: World) {
    !w.suspended && w.status.phase == Failed && NeedRestart(sp, w.status)
  }

  /** The phase changes a pass can make. */
  predicate PhaseChange(sp: Spec, w: World, next: ConditionType) {
    if w.suspended then next == Suspended
    else match w.status.phase
      case NoPhase => next in {Created, Running, Succeeded, Failed}
      case Created => next in {Created, Running, Succeeded, Failed}
      case Running => next in {Running, Scaling, Succeeded, Failed}
      case Scaling => next in {Scaling, Running, Succeeded, Failed}
      case Succeeded => next == Succeeded
      case Failed => if NeedRestart(sp, w.status) then next in {Created, Failed} else next == Failed
      case Suspended => next == Suspended
      case _ => false
  }

  /** No scaler appears or vanishes, and finished ones are left alone. */
  ghost predicate ScalersAdvance(w: World, w': World) {
    && w'.scalers.Keys == w.scalers.Keys
    && forall r :: r in w.scalers && Finished(w.scalers[r]) ==> w'.scalers[r] == w.scalers[r]
  }

  /** The names of the unfinished scalers, together with the current one while scaling. */
  ghost function Open(w: World): set<string> {
    (set r | r in w.scalers && !Finished(w.scalers[r]) :: FullName(r))
    + (if w.status.phase == Scaling then {w.status.currentScaler} else {})
  }

  // ---------- one pass ----------

  lemma SuspendPhases(w: World, api: Api)
    requires PhaseInv(w)
    ensures var w' := Suspend(w, api);
            && PhaseInv(w') && SameJob(w, w')
            && w'.status.phase == if w.suspended then Suspended else w.status.phase
  {
    if w.suspended {
      Noted(w, Suspended, WAIT_TIMEOUT, api);
      if Failed !in TruthsOf(w) {
        assert After(TruthsOf(w), Suspended) == TruthsOf(w) + {Suspended};
      }
    }
  }

  /** How the scalers and the current one move along with the phase. */
  ghost predicate ScalerChange(w: World, w': World) {
    && ScalersAdvance(w, w')
    && (w'.status.phase == Scaling ==> w'.status.currentScaler in Open(w))
    && (w.status.phase == Scaling && w'.status.phase == Running ==>
          && Printed(w.status.currentScaler)
          && (CurrentRef(w) in w'.scalers ==> Finished(w'.scalers[CurrentRef(w)])))
  }

  lemma DispatchPhases(sp: Spec, w: World, api: Api)
    requires PhaseInv(w) && (w.suspended ==> w.status.phase == Suspended)
    ensures var w' := Dispatch(sp, w, api).w;
            && PhaseInv(w') && PhaseChange(sp, w, w'.status.phase) && ScalerChange(w, w')
            && w'.status.restartCount == w.status.restartCount + (if Resets(sp, w) then 1 else 0)
  {
    match w.status.phase
    case Succeeded => CleanupFrame(sp, w, api);
    case Suspended => CleanupFrame(sp, w, api);
    case Failed => RestartPhases(sp, w, api);
    case NoPhase => StartingChange(sp, w, api);
    case Created => StartingChange(sp, w, api);
    case Running => RunningChange(sp, w, api);
    case Scaling => ScalingChange(sp, w, api);
    case _ =>
  }

  lemma StartingChange(sp: Spec, w: World, api: Api)
    requires PhaseInv(w) && w.status.phase in {NoPhase, Created}
    ensures var w' := DoSteps(sp, Initialize(w, api), api).w;
            && PhaseInv(w') && w'.status.phase in {Created, Running, Succeeded, Failed}
            && ScalerChange(w, w') && w'.status.restartCount == w.status.restartCount
  {
    InitializePhases(w, api);
    DoStepsPhases(sp, Initialize(w, api), api);
  }

  lemma RunningChange(sp: Spec, w: World, api: Api)
    requires PhaseInv(w) && w.status.phase == Running
    ensures var w' := ReconcileRunning(sp, w, api).w;
            && PhaseInv(w') && w'.status.phase in {Running, Scaling, Succeeded, Failed}
            && ScalerChange(w, w') && w'.status.restartCount == w.status.restartCount
  {
    ReconcileRunningPhases(sp, w, api);
    var w' := ReconcileRunning(sp, w, api).w;
    if w'.status.phase == Scaling {
      assert w'.status.currentScaler == FullName(CurrentRef(w'));
    }
  }

  lemma ScalingChange(sp: Spec, w: World, api: Api)
    requires PhaseInv(w) && w.status.phase == Scaling
    ensures var w' := ExecuteScaling(sp, w, api).w;
            && PhaseInv(w') && w'.status.phase in {Scaling, Running, Succeeded, Failed}
            && ScalerChange(w, w') && w'.status.restartCount == w.status.restartCount
  {
    ExecuteScalingPhases(sp, w, api);
  }

  /** Every pass keeps the agreement of phase, conditions and current scaler, makes only the listed
      phase changes, and counts exactly the restarts. */
  lemma PassPhases(sp: Spec, w: World, api: Api)
    requires PhaseInv(w)
    ensures var w' := Reconcile(sp, w, api).w;
            && PhaseInv(w') && PhaseChange(sp, w, w'.status.phase) && ScalerChange(w, w')
            && w'.status.restartCount == w.status.restartCount + (if Resets(sp, w) then 1 else 0)
  {
    SuspendPhases(w, api);
    DispatchPhases(sp, Suspend(w, api), api);
  }

  // ---------- what happens between passes ----------

  /** Outside events leave the job status alone. */
  lemma OutsideKeepsStatus(sp: Spec, w: World, e: Event, w': World)
    requires Next(sp, w, e, w') && !e.Reconciled?
    ensures w'.status == w.status
  {
  }

  lemma MarkedSane(s: Scaler, s': Scaler, now: int, message: string)
    requires Sane(s) && Marked(s, s', now, message)
    ensures Sane(s') && (Finished(s') <==> Finished(s))
  {
    SetEffect(s.conditions, NewCondition(Created, "", message, now));
    assert After(Truths(s.conditions), Created) == Truths(s.conditions) + {Created};
  }

  lemma NewScalerSane(s: Scaler)
    requires NewScaler(s)
    ensures Sane(s) && !Finished(s) && Truths(s.conditions) <= {Created}
  {
    if s.conditions != [] { assert s.conditions[0] in s.conditions && s.conditions[1..] == []; }
    assert Truths(s.conditions) <= {Created};
  }

  /** Outside events keep the invariant, and a scaler that stays keeps its outcome. */
  lemma OutsidePhases(sp: Spec, w: World, e: Event, w': World)
    requires PhaseInv(w) && Next(sp, w, e, w') && !e.Reconciled?
    ensures PhaseInv(w')
    ensures forall r :: r in w.scalers && r in w'.scalers ==> (Finished(w'.scalers[r]) <==> Finished(w.scalers[r]))
  {
    match e
    case ScalerCreated(r) => NewScalerSane(w'.scalers[r]);
    case ScalerMarked(r) =>
      var m :| Marked(w.scalers[r], w'.scalers[r], w.now, m);
      MarkedSane(w.scalers[r], w'.scalers[r], w.now, m);
    case _ =>
  }

  lemma NextPhases(sp: Spec, w: World, e: Event, w': World)
    requires PhaseInv(w) && Next(sp, w, e, w')
    ensures PhaseInv(w')
  {
    match e
    case Reconciled(api) => PassPhases(sp, w, api);
    case _ => OutsidePhases(sp, w, e, w');
  }

  lemma InitPhases(w: World)
    requires Init(w)
    ensures PhaseInv(w)
  {
  }

  /** The invariant holds in every state of every run. */
  lemma {:induction false} RunPhases(sp: Spec, ws: seq<World>, es: seq<Event>, k: nat)
    requires Run(sp, ws, es) && Init(ws[0]) && k <= |es|
    ensures PhaseInv(ws[k])
  {
    if k == 0 {
      InitPhases(ws[0]);
    } else {
      RunPhases(sp, ws, es, k - 1);
      LastStep(sp, ws, es, k);
      NextPhases(sp, ws[k - 1], es[k - 1], ws[k]);
    }
  }

  /** In every reachable state: the true start-up conditions are a prefix of the four; Running and
      Scaling have all of them; Failed phase and condition go together up to suspension; at most
      one of Running, Succeeded and Failed is true; while Scaling there is a current scaler. */
  lemma ReachableStates(sp: Spec, ws: seq<World>, es: seq<Event>, k: nat)
    requires Run(sp, ws, es) && Init(ws[0]) && k <= |es|
    ensures var st := ws[k].status;
            var has := (t: ConditionType) => Has(st.conditions, t);
            && (has(WorkersReady) ==> has(WorkersCreated))
            && (has(LauncherCreated) ==> has(WorkersReady))
            && (has(Running) ==> has(LauncherCreated))
            && (st.phase == Running || st.phase == Scaling ==>
                  has(WorkersCreated) && has(WorkersReady) && has(LauncherCreated) && has(Running))
            && (st.phase == Failed ==> has(Failed))
            && (has(Failed) ==> st.phase == Failed || st.phase == Suspended)
            && !(has(Running) && has(Succeeded)) && !(has(Running) && has(Failed))
            && !(has(Succeeded) && has(Failed))
            && (st.phase == Scaling ==> st.currentScaler != "")
  {
    RunPhases(sp, ws, es, k);
  }

  /** No scaler ever gets both outcomes, and an outcome is final while the object exists. */
  lemma OutcomeIsFinal(sp: Spec, ws: seq<World>, es: seq<Event>, k: nat, r: Ref)
    requires Run(sp, ws, es) && Init(ws[0]) && k < |es| && r in ws[k].scalers
    ensures !(Has(ws[k].scalers[r].conditions, ScaleSucceeded) && Has(ws[k].scalers[r].conditions, ScaleFailed))
    ensures Finished(ws[k].scalers[r]) ==>
              && (r in ws[k + 1].scalers ==> Finished(ws[k + 1].scalers[r]))
              && (es[k].Reconciled? ==>
                    r in ws[k + 1].scalers && ws[k + 1].scalers[r] == ws[k].scalers[r])
  {
    StepOf(sp, ws, es, k);
    RunPhases(sp, ws, es, k);
    match es[k]
    case Reconciled(api) => PassPhases(sp, ws[k], api);
    case _ => OutsidePhases(sp, ws[k], es[k], ws[k + 1]);
  }

  // ---------- the restart budget ----------

  /** The number of restarts among the first k events. */
  ghost function RestartsOf(sp: Spec, ws: seq<World>, es: seq<Event>, k: nat): nat
    requires k <= |es| < |ws|
  {
    if k == 0 then 0
    else RestartsOf(sp, ws, es, k - 1)
         + (if es[k - 1].Reconciled? && Resets(sp, ws[k - 1]) then 1 else 0)
  }

  /** RestartCount is the number of restarts so far and never exceeds BackoffLimit. */
  lemma {:induction false} RestartBudget(sp: Spec, ws: seq<World>, es: seq<Event>, k: nat)
    requires Run(sp, ws, es) && Init(ws[0]) && k <= |es|
    ensures ws[k].status.restartCount == RestartsOf(sp, ws, es, k)
    ensures 0 <= ws[k].status.restartCount <= (if sp.backoffLimit > 0 then sp.backoffLimit else 0)
    ensures k > 0 ==> ws[k - 1].status.restartCount <= ws[k].status.restartCount
  {
    if k > 0 {
      LastStep(sp, ws, es, k);
      RestartBudget(sp, ws, es, k - 1);
      RunPhases(sp, ws, es, k - 1);
      match es[k - 1]
      case Reconciled(api) => PassPhases(sp, ws[k - 1], api);
      case _ => OutsideKeepsStatus(sp, ws[k - 1], es[k - 1], ws[k]);
    }
  }

  /** Failed is left for Suspended, or by a restart that the policy and the budget allow, and a pass
      that finds the job failed restarts it whenever they do; Suspended is never left. */
  lemma LeavingFailed(sp: Spec, ws: seq<World>, es: seq<Event>, k: nat)
    requires Run(sp, ws, es) && Init(ws[0]) && k < |es|
    ensures ws[k].status.phase == Suspended ==> ws[k + 1].status.phase == Suspended
    ensures ws[k].status.phase == Failed && ws[k + 1].status.phase != Failed ==>
              || ws[k + 1].status.phase == Suspended
              || (ws[k + 1].status.phase == Created
                  && ws[k + 1].status.restartCount == ws[k].status.restartCount + 1
                  && sp.restartPolicy == OnFailure && ws[k].status.restartCount < sp.backoffLimit)
    ensures ws[k].status.phase == Failed && es[k].Reconciled? && !ws[k].suspended ==>
              (ws[k + 1].status.restartCount == ws[k].status.restartCount + 1 <==>
                 sp.restartPolicy == OnFailure && ws[k].status.restartCount < sp.backoffLimit)
  {
    StepOf(sp, ws, es, k);
    RunPhases(sp, ws, es, k);
    match es[k]
    case Reconciled(api) => PassPhases(sp, ws[k], api);
    case _ => OutsideKeepsStatus(sp, ws[k], es[k], ws[k + 1]);
  }

  // ---------- termination ----------

  function Rank(phase: ConditionType): nat {
    match phase
    case NoPhase => 5
    case Created => 4
    case Running => 3
    case Scaling => 2
    case Succeeded => 1
    case Failed => 1
    case _ => 0
  }

  function RestartsLeft(sp: Spec, w: World): nat {
    if w.status.restartCount < sp.backoffLimit then sp.backoffLimit - w.status.restartCount else 0
  }

  /** The measure: restarts left, open scalers, and the rank of the phase. */
  ghost function Measure(sp: Spec, w: World): nat {
    4 * RestartsLeft(sp, w) + 2 * |Open(w)| + Rank(w.status.phase)
  }

  lemma SmallerSet(a: set<string>, b: set<string>)
    requires a <= b
    ensures |a| <= |b| && (a != b ==> |a| < |b|)
  {
    assert b == a + (b - a);
    assert |b| == |a| + |b - a|;
  }

  /** A pass opens no scaler, and closes the current one when it leads from Scaling to Running. */
  lemma OpenShrinks(sp: Spec, w: World, api: Api)
    requires PhaseInv(w)
    ensures var w' := Reconcile(sp, w, api).w;
            && Open(w') <= Open(w)
            && (w.status.phase == Scaling && w'.status.phase == Running ==> |Open(w')| < |Open(w)|)
  {
    PassPhases(sp, w, api);
    var w' := Reconcile(sp, w, api).w;
    if w.status.phase == Scaling && w'.status.phase == Running {
      forall r | r in w'.scalers && !Finished(w'.scalers[r]) ensures FullName(r) != w.status.currentScaler {
        if FullName(r) == w.status.currentScaler { FullNameInjective(r, CurrentRef(w)); }
      }
      assert w.status.currentScaler in Open(w) && w.status.currentScaler !in Open(w');
    }
    SmallerSet(Open(w'), Open(w));
  }

  /** The rank rises only on the way back to Running, by 1, and on a restart, by at most 3. */
  lemma RankChange(sp: Spec, w: World, next: ConditionType)
    requires InPhase(w) && PhaseChange(sp, w, next)
    ensures next != w.status.phase ==>
              || Rank(next) < Rank(w.status.phase)
              || (w.status.phase == Scaling && next == Running)
              || (Resets(sp, w) && next == Created)
  {
  }

  /** The three parts of the measure across a pass. */
  lemma MeasureParts(sp: Spec, w: World, api: Api)
    requires PhaseInv(w)
    ensures var w' := Reconcile(sp, w, api).w;
            && PhaseChange(sp, w, w'.status.phase)
            && |Open(w')| <= |Open(w)|
            && (w.status.phase == Scaling && w'.status.phase == Running ==> |Open(w')| < |Open(w)|)
            && w'.status.restartCount == w.status.restartCount + (if Resets(sp, w) then 1 else 0)
  {
    PassPhases(sp, w, api);
    OpenShrinks(sp, w, api);
    SmallerSet(Open(Reconcile(sp, w, api).w), Open(w));
  }

  /** What a change of phase and restart count costs, and what it pays. */
  lemma Paid(sp: Spec, w: World, w': World, before: nat, after: nat)
    requires InPhase(w) && PhaseChange(sp, w, w'.status.phase)
    requires w'.status.restartCount == w.status.restartCount + (if Resets(sp, w) then 1 else 0)
    requires after <= before && (w.status.phase == Scaling && w'.status.phase == Running ==> after < before)
    ensures Changed(w, w') + 4 * RestartsLeft(sp, w') + 2 * after + Rank(w'.status.phase)
         <= 4 * RestartsLeft(sp, w) + 2 * before + Rank(w.status.phase)
  {
    if Resets(sp, w) {
      assert RestartsLeft(sp, w') == RestartsLeft(sp, w) - 1;
    } else {
      RankChange(sp, w, w'.status.phase);
    }
  }

  /** Every pass that changes the phase or the restart count lowers the measure; no pass raises it. */
  lemma MeasureDrops(sp: Spec, w: World, api: Api)
    requires PhaseInv(w)
    ensures Changed(w, Reconcile(sp, w, api).w) + Measure(sp, Reconcile(sp, w, api).w) <= Measure(sp, w)
  {
    var w' := Reconcile(sp, w, api).w;
    MeasureParts(sp, w, api);
    Paid(sp, w, w', |Open(w)|, |Open(w')|);
  }

  lemma OutsideOpen(sp: Spec, w: World, e: Event, w': World)
    requires PhaseInv(w) && Next(sp, w, e, w') && !e.Reconciled?
    ensures Open(w') <= Open(w) + Added(e)
  {
    OutsidePhases(sp, w, e, w');
    OutsideKeepsStatus(sp, w, e, w');
    OpenNames(w, w', Added(e));
  }

  lemma OpenNames(w: World, w': World, added: set<string>)
    requires w'.status == w.status
    requires forall r :: r in w'.scalers && !Finished(w'.scalers[r]) ==>
               (r in w.scalers && !Finished(w.scalers[r])) || FullName(r) in added
    ensures Open(w') <= Open(w) + added
  {
  }

  function Added(e: Event): set<string> { if e.ScalerCreated? then {FullName(e.ref)} else {} }

  /** Only a new scaler object raises the measure, by at most 2. */
  lemma OutsideMeasure(sp: Spec, w: World, e: Event, w': World)
    requires PhaseInv(w) && Next(sp, w, e, w') && !e.Reconciled?
    ensures Changed(w, w') + Measure(sp, w') <= Measure(sp, w) + (if e.ScalerCreated? then 2 else 0)
  {
    OutsideKeepsStatus(sp, w, e, w');
    OutsideOpen(sp, w, e, w');
    SmallerSet(Open(w'), Open(w) + Added(e));
    assert |Open(w) + Added(e)| <= |Open(w)| + |Added(e)|;
  }

  lemma NextMeasure(sp: Spec, w: World, e: Event, w': World)
    requires PhaseInv(w) && Next(sp, w, e, w')
    ensures Changed(w, w') + Measure(sp, w') <= Measure(sp, w) + (if e.ScalerCreated? then 2 else 0)
  {
    match e
    case Reconciled(api) => MeasureDrops(sp, w, api);
    case _ => OutsideMeasure(sp, w, e, w');
  }

  /** 1 if the phase or the restart count differs. */
  function Changed(w: World, w': World): nat {
    if w'.status.phase != w.status.phase || w'.status.restartCount != w.status.restartCount then 1 else 0
  }

  /** Of the first k events, those across which the phase or the restart count changed. */
  ghost function Changes(ws: seq<World>, k: nat): nat
    requires k < |ws|
  {
    if k == 0 then 0
    else Changes(ws, k - 1) + Changed(ws[k - 1], ws[k])
  }

  /** Of the first k events, those that submit a new scaler. */
  function Submitted(es: seq<Event>, k: nat): nat
    requires k <= |es|
  {
    if k == 0 then 0 else Submitted(es, k - 1) + (if es[k - 1].ScalerCreated? then 1 else 0)
  }

  lemma {:induction false} ChangesPaidFor(sp: Spec, ws: seq<World>, es: seq<Event>, k: nat)
    requires Run(sp, ws, es) && Init(ws[0]) && k <= |es|
    ensures Changes(ws, k) + Measure(sp, ws[k]) <= Measure(sp, ws[0]) + 2 * Submitted(es, k)
  {
    if k > 0 {
      LastStep(sp, ws, es, k);
      ChangesPaidFor(sp, ws, es, k - 1);
      RunPhases(sp, ws, es, k - 1);
      NextMeasure(sp, ws[k - 1], es[k - 1], ws[k]);
    }
  }

  /** However a run goes on, the phase changes at most 4 * BackoffLimit + 5 times, and two more
      times for every scaler submitted. */
  lemma FinitelyManyPhaseChanges(sp: Spec, ws: seq<World>, es: seq<Event>)
    requires Run(sp, ws, es) && Init(ws[0])
    ensures Changes(ws, |es|)
         <= 4 * (if sp.backoffLimit > 0 then sp.backoffLimit else 0) + 5 + 2 * Submitted(es, |es|)
  {
    ChangesPaidFor(sp, ws, es, |es|);
    assert Open(ws[0]) == {};
  }
}
