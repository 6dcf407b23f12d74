// The restore reconciler as a state machine. Every API call is a step of its own; between
// calls the Job controller, the user and other parties act; a crash may follow any call and
// a call may take effect although its response is lost. A reconcile starts from a cached CR
// that may be any earlier version of it.
module RestoreProtocol {
  import opened Wrappers
  import opened JobState
  import opened Conditions
  import opened Labels
  import opened Environment
  import opened Runs

  datatype RestoreInfo = RestoreInfo(startTime: int, completionTime: int)

  // An absent status is read like an empty one everywhere.
  datatype RestoreStatus = RestoreStatus(
    conditions: seq<Condition>,
    restore: Option<RestoreInfo>,
    observedGeneration: Option<int>)

  datatype Restore = Restore(
    generation: int,
    paused: bool,
    finalizer: bool,
    cluster: string,
    templateLabels: map<string, string>,
    status: RestoreStatus)

  datatype Write =
    | PausedWrite
    | CompletedWrite(info: RestoreInfo)
    | FailedWrite(jobName: string)
    | RunningWrite
    | ErrorWrite(error: ErrorKind, message: string)

  function ConditionsOf(w: Write, now: int): seq<Condition> {
    match w
    case PausedWrite => [ReconciliationPaused(now)]
    case CompletedWrite(_) =>
      [Ready(RESTORE_COMPLETED, "Restore completed successfully", now),
       NewCondition(RESTORE_COMPLETE, STATUS_TRUE, RESTORE_COMPLETED, "Restore completed successfully", now)]
    case FailedWrite(jobName) => ErrorConditions(RESTORE_FAILED, "Restore job " + jobName + " failed", now)
    case RunningWrite => [NotReady(RESTORE_RUNNING, "Restore job is running", now)]
    case ErrorWrite(error, message) => ErrorConditions(Reason(error), message, now)
  }

  predicate Complete(s: RestoreStatus) { IsConditionTrue(s.conditions, RESTORE_COMPLETE) }

  predicate FailedShown(s: RestoreStatus) { HasConditionReason(s.conditions, ERROR, RESTORE_FAILED) }

  predicate RunningShown(s: RestoreStatus) { HasConditionReason(s.conditions, READY, RESTORE_RUNNING) }

  predicate PausedShown(s: RestoreStatus) { IsConditionTrue(s.conditions, RECONCILIATION_PAUSED) }

  // Each write is seen as what it reports and as nothing else.
  lemma ShownIs(s: RestoreStatus, w: Write, now: int)
    requires s.conditions == ConditionsOf(w, now)
    ensures Complete(s) <==> w.CompletedWrite?
    ensures FailedShown(s) <==> w.FailedWrite?
    ensures RunningShown(s) <==> w.RunningWrite?
    ensures PausedShown(s) <==> w.PausedWrite?
  {
    var cs := s.conditions;
    if |cs| == 2 { assert cs[1..] == [cs[1]]; }
  }

  // What the merge patch of one write, made from cached CR c, leaves of a status.
  function Written(s: RestoreStatus, c: Restore, w: Write, now: int): RestoreStatus {
    RestoreStatus(
      ConditionsOf(w, now),
      match w
      case CompletedWrite(info) => Some(info)
      case PausedWrite => if c.status.restore.Some? then c.status.restore else s.restore
      case _ => s.restore,
      Some(c.generation))
  }

  datatype World = World(
    name: string,
    jobs: seq<Job>,
    cr: Restore,
    versions: seq<Restore>,
    created: seq<string>,
    writes: seq<Write>)

  datatype Pc =
    | Idle
    | PatchStatus(c: Restore, w: Write)
    | AddFinalizer(c: Restore)
    | ListJobs(c: Restore)
    | GetBackup(c: Restore)
    | ResolveCluster(c: Restore)
    | ResolveTls(c: Restore)
    | ResolveAuth(c: Restore)
    | ApplyConfigMap(c: Restore)
    | CreateJob(c: Restore)

  datatype State = State(world: World, pc: Pc)

  datatype Event =
    | Begin(version: nat)
    | Call(reply: Reply, now: int, stamp: string)
    | Crash
    | Progress(job: nat, status: JobStatus)
    | Edit(generation: int, paused: bool, cluster: string, templateLabels: map<string, string>)
    | Appear(other: Job)

  function Listed(w: World): seq<Job> { OwnJobs(w.jobs, w.name, RestoreJob) }

  function Named(name: string): Job -> bool { (j: Job) => j.name == name }

  // The restore details reported for the succeeded Job found by name in the list.
  function InfoOf(jobs: seq<Job>, jobName: string, now: int): RestoreInfo {
    var found := Find(Named(jobName), jobs);
    var status := if found.Some? then found.value.status else None;
    RestoreInfo(
      if status.Some? then status.value.startTime.GetOr(now) else now,
      if status.Some? then status.value.completionTime.GetOr(now) else now)
  }

  function Started(c: Restore): Pc {
    if c.paused then
      if PausedShown(c.status) && c.status.observedGeneration == Some(c.generation) then Idle
      else PatchStatus(c, PausedWrite)
    else if !c.finalizer then AddFinalizer(c)
    else Checked(c)
  }

  function Checked(c: Restore): Pc { if Complete(c.status) then Idle else ListJobs(c) }

  function Decided(c: Restore, jobs: seq<Job>, now: int): Pc {
    match ClassifyJobs(jobs)
    case Succeeded(jobName) => PatchStatus(c, CompletedWrite(InfoOf(jobs, jobName, now)))
    case Failed(jobName) => if FailedShown(c.status) then Idle else PatchStatus(c, FailedWrite(jobName))
    case InProgress => if RunningShown(c.status) then Idle else PatchStatus(c, RunningWrite)
    case NoJobs => GetBackup(c)
  }

  function JobFor(w: World, c: Restore, stamp: string): Job {
    NewJob(w.name, stamp, c.cluster, RestoreJob, c.templateLabels)
  }

  // The name of the Job a call at this stamp would create.
  predicate StampFree(w: World, stamp: string) { NameFree(w.jobs, NewJobName(w.name, stamp)) }

  function WithCr(w: World, cr: Restore): World { w.(cr := cr, versions := w.versions + [cr]) }

  // The effect of an accepted call.
  function Accepted(w: World, pc: Pc, now: int, stamp: string): World {
    match pc
    case PatchStatus(c, write) =>
      WithCr(w, w.cr.(status := Written(w.cr.status, c, write, now))).(writes := w.writes + [write])
    case AddFinalizer(_) => WithCr(w, w.cr.(finalizer := true))
    case CreateJob(c) => w.(jobs := w.jobs + [JobFor(w, c, stamp)], created := w.created + [NewJobName(w.name, stamp)])
    case _ => w
  }

  // Where the code goes on after an answer, and after an error.
  function Answered(w: World, pc: Pc, now: int): Pc {
    match pc
    case AddFinalizer(c) => Checked(c)
    case ListJobs(c) => Decided(c, Listed(w), now)
    case GetBackup(c) => ResolveCluster(c)
    case ResolveCluster(c) => ResolveTls(c)
    case ResolveTls(c) => ResolveAuth(c)
    case ResolveAuth(c) => ApplyConfigMap(c)
    case ApplyConfigMap(c) => CreateJob(c)
    case CreateJob(c) => PatchStatus(c, RunningWrite)
    case _ => Idle
  }

  function Erred(pc: Pc, error: ErrorKind, message: string): Pc {
    match pc
    case ResolveCluster(c) => PatchStatus(c, ErrorWrite(error, message))
    case ResolveTls(c) => ResolveAuth(c)
    case _ => Idle
  }

  function Called(s: State, reply: Reply, now: int, stamp: string): State {
    if s.pc.CreateJob? && !StampFree(s.world, stamp) then s.(pc := Idle)
    else match reply
      case Done => State(Accepted(s.world, s.pc, now, stamp), Answered(s.world, s.pc, now))
      case Lost => State(Accepted(s.world, s.pc, now, stamp), Erred(s.pc, Kube, "response lost"))
      case Refused(error, message) => s.(pc := Erred(s.pc, error, message))
  }

  // What everybody else does to the API server.
  function Disturbed(w: World, e: Event): World {
    match e
    case Progress(i, status) => w.(jobs := Progressed(w.jobs, i, status))
    case Edit(generation, paused, cluster, templateLabels) =>
      WithCr(w, w.cr.(generation := generation, paused := paused, cluster := cluster, templateLabels := templateLabels))
    case Appear(other) => w.(jobs := Appeared(w.jobs, other))
    case _ => w
  }

  function Step(s: State, e: Event): State {
    match e
    case Begin(version) =>
      if s.pc.Idle? && version < |s.world.versions| then s.(pc := Started(s.world.versions[version])) else s
    case Call(reply, now, stamp) => Called(s, reply, now, stamp)
    case Crash => s.(pc := Idle)
    case _ => s.(world := Disturbed(s.world, e))
  }

  function Exec(s: State, events: seq<Event>): State { Run(Step, s, events) }
}
