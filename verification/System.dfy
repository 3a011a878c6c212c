/** Runs: reconcile passes interleaved with what users and the cluster do between them. */
module System {
  import opened GoStrings
  import opened Conditions
  import opened ScalerRefs
  import opened Cluster
  import opened Pass

  datatype Event =
    | Reconciled(api: Api)
    | PodsMove
    | LauncherMoves
    | ScalerCreated(ref: Ref)
    | ScalerRemoved(ref: Ref)
    | ScalerMarked(ref: Ref)
    | SuspensionSet
    | ClockTicks

  /** A job that has just been submitted. */
  ghost predicate Init(w: World) {
    && w.status == Status(NoPhase, [], "", 0, [], [])
    && w.pods == map[] && w.launcher == None && w.configMap == None
    && w.scalers == map[]
  }

  /** A new scaler object: nothing chosen yet and at most the Created condition. */
  ghost predicate NewScaler(s: Scaler) {
    s.pods == [] && |s.conditions| <= 1 && forall c :: c in s.conditions ==> c.ctype == Created
  }

  /** Pods change phase or disappear; labels stay. */
  ghost predicate PodsChange(pods: map<string, Pod>, pods': map<string, Pod>) {
    forall n :: n in pods' ==> n in pods && pods'[n].scaleOut == pods[n].scaleOut
  }

  /** The launcher changes phase, keeping its file, or disappears. */
  ghost predicate LauncherChanges(l: Option<Launcher>, l': Option<Launcher>) {
    l'.Some? ==> l.Some? && l'.value.hostfile == l.value.hostfile
  }

  /** Ownership, deletion timestamp and the Created condition are set from outside. */
  ghost predicate Marked(s: Scaler, s': Scaler, now: int, message: string) {
    && (s'.conditions == s.conditions
        || s'.conditions == Set(s.conditions, NewCondition(Created, "", message, now)))
    && s' == s.(owned := s'.owned, deleting := s'.deleting, conditions := s'.conditions)
  }

  ghost predicate Next(sp: Spec, w: World, e: Event, w': World) {
    match e
    case Reconciled(api) => Faithful(w, api) && w' == Reconcile(sp, w, api).w
    case PodsMove => PodsChange(w.pods, w'.pods) && w' == w.(pods := w'.pods)
    case LauncherMoves => LauncherChanges(w.launcher, w'.launcher) && w' == w.(launcher := w'.launcher)
    case ScalerCreated(r) =>
      && r !in w.scalers && Clean(r)
      && r in w'.scalers && NewScaler(w'.scalers[r])
      && w' == w.(scalers := w.scalers[r := w'.scalers[r]])
    case ScalerRemoved(r) => w' == w.(scalers := w.scalers - {r})
    case ScalerMarked(r) =>
      && r in w.scalers && r in w'.scalers
      && (exists m :: Marked(w.scalers[r], w'.scalers[r], w.now, m))
      && w' == w.(scalers := w.scalers[r := w'.scalers[r]])
    case SuspensionSet => w' == w.(suspended := w'.suspended)
    case ClockTicks => w.now <= w'.now && w' == w.(now := w'.now)
  }

  /** A finite run: ws[i] steps to ws[i + 1] by es[i]. */
  ghost predicate Run(sp: Spec, ws: seq<World>, es: seq<Event>) {
    |ws| == |es| + 1 && forall i :: 0 <= i < |es| ==> StepAt(sp, ws, es, i)
  }

  ghost predicate StepAt(sp: Spec, ws: seq<World>, es: seq<Event>, i: nat)
    requires i < |es| < |ws|
  {
    Next(sp, ws[i], es[i], ws[i + 1])
  }

  /** The k-th step of a run, and the last of the first k. */
  lemma StepOf(sp: Spec, ws: seq<World>, es: seq<Event>, k: nat)
    requires Run(sp, ws, es) && k < |es|
    ensures Next(sp, ws[k], es[k], ws[k + 1])
  {
    assert StepAt(sp, ws, es, k);
  }

  lemma LastStep(sp: Spec, ws: seq<World>, es: seq<Event>, k: nat)
    requires Run(sp, ws, es) && 0 < k <= |es|
    ensures Next(sp, ws[k - 1], es[k - 1], ws[k])
  {
    StepOf(sp, ws, es, k - 1);
  }
}
