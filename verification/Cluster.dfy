/** The objects a reconcile pass reads and writes, and the answers the API server and the launcher
    give it. */
module Cluster {
  import opened GoStrings
  import opened Conditions
  import opened ScalerRefs
  import opened ScaleInSelection

  datatype PodPhase = PodPending | PodRunning | PodSucceeded | PodFailed | PodUnknown

  /** A worker pod: its phase, the exit codes of its terminated containers in container order
      (None for a container that is not terminated), and the scaleout-name label. */
  datatype Pod = Pod(phase: PodPhase, exitCodes: seq<Option<int>>, scaleOut: Option<string>)

  /** The launcher pod and the text of the hostfile inside it. */
  datatype Launcher = Launcher(phase: PodPhase, reason: string, hostfile: string)

  datatype Policy = Always | OnFailure | Never | ExitCode | Unspecified
  datatype CleanPodPolicy = CleanUndefined | CleanAll | CleanRunning | CleanNone

  /** The parts of a TrainingJob spec that the controller reads. */
  datatype Spec = Spec(
    name: string, replicas: int, slots: int, kubexec: bool,
    workerPolicy: Option<Policy>, launcherPolicy: Policy,
    restartPolicy: Policy, backoffLimit: int, cleanPods: Option<CleanPodPolicy>)

  /** TrainingJobStatus. */
  datatype Status = Status(
    phase: ConditionType, conditions: seq<Condition>, currentScaler: string, restartCount: int,
    targetWorkers: seq<string>, currentWorkers: seq<string>)

  /** A ScaleIn or ScaleOut object; `toDelete` is read for the one kind and `count` (absent when
      spec.toAdd or its count is) for the other.  `pods` is ToDeletePods or AddPods. */
  datatype Scaler = Scaler(
    created: int, owned: bool, deleting: bool, script: string, timeout: int,
    toDelete: ToDelete, count: Option<int>,
    conditions: seq<Condition>, pods: seq<string>)

  datatype World = World(
    status: Status,
    pods: map<string, Pod>,
    launcher: Option<Launcher>,
    configMap: Option<string>,
    scalers: map<Ref, Scaler>,
    suspended: bool,
    now: int)

  /** isScaleFinished. */
  predicate Finished(s: Scaler) { Has(s.conditions, ScaleSucceeded) || Has(s.conditions, ScaleFailed) }

  // ---------- answers of the outside world during one pass ----------

  /** How creating one worker failed: before its pod existed, or afterwards, on its service. */
  datatype CreateFault = PodFault | ServiceFault

  /** A command run on the launcher.  A failed one may still have written its file. */
  datatype Exec = ExecDone | ExecFailed(written: bool)

  datatype ConfigCall = ConfigDone | ConfigUnread | ConfigRefused

  datatype Api = Api(
    podList: Option<seq<string>>,
    creates: map<string, CreateFault>,
    exec: Exec,
    scriptHostfile: string,
    processes: Option<string>,
    serviceListed: bool,
    deleteListed: bool,
    undeleted: set<string>,
    unreadable: set<string>,
    launcherRead: bool,
    launcherCreated: bool,
    launcherDeleted: bool,
    config: ConfigCall,
    scalerRead: bool,
    labelListed: bool,
    scaleOuts: Option<seq<Ref>>,
    scaleIns: Option<seq<Ref>>,
    message: string)

  ghost predicate Enumerates<T(!new)>(list: seq<T>, elements: set<T>) {
    && (forall i, j :: 0 <= i < j < |list| ==> list[i] != list[j])
    && (forall x :: x in list <==> x in elements)
  }

  /** A list call that succeeds returns every object once, in any order. */
  ghost predicate Faithful(w: World, api: Api) {
    && (api.podList.Some? ==> Enumerates(api.podList.value, w.pods.Keys))
    && (api.scaleOuts.Some? ==>
          Enumerates(api.scaleOuts.value, set r | r in w.scalers && r.kind == ScaleOut))
    && (api.scaleIns.Some? ==>
          Enumerates(api.scaleIns.value, set r | r in w.scalers && r.kind == ScaleIn))
  }
}
