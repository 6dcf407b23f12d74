// The backup reconciler as a state machine: every API call is a step, with the Job and CronJob
// controllers, the user, crashes, lost answers and stale caches in between. Status writes read
// the status, change it and send it back as a merge patch; read and patch are two calls. The
// retention pass at the end reads and lists in calls that change nothing and ends in at most one
// patch of the history; which history that is, BackupReconciler says.
module BackupProtocol {
  import opened Wrappers
  import opened JobState
  import opened Conditions
  import opened History
  import opened Labels
  import opened RetentionPolicy
  import opened StatusPatch
  import opened Environment
  import opened Runs

  datatype Schedule = Schedule(cron: string, suspend: bool)

  datatype Backup = Backup(
    generation: int,
    paused: bool,
    finalizer: bool,
    triggered: bool,
    schedule: Option<Schedule>,
    retention: Option<RetentionSpec>,
    offsetStorage: bool,
    cluster: string,
    templateLabels: map<string, string>,
    status: KafkaBackupStatus)

  datatype Report =
    | ErrorReport(error: ErrorKind, message: string)
    | SuspendedReport
    | ScheduledReport(next: string)
    | RunningReport
    | CompletedReport(entry: Entry)
    | FailedReport(jobName: string)

  function FailureMessage(jobName: string): string { "Backup job " + jobName + " failed" }

  function PausedStatus(c: Backup, now: int): KafkaBackupStatus {
    WithOutcome(c.status, [ReconciliationPaused(now)], c.generation)
  }

  // The status a report makes of the one that was read.
  function Reported(s: KafkaBackupStatus, r: Report, generation: int, now: int): KafkaBackupStatus {
    match r
    case ErrorReport(error, message) => WithOutcome(s, ErrorConditions(Reason(error), message, now), generation)
    case SuspendedReport => Suspended(s, Ready(BACKUP_SUSPENDED, "Backup schedule is suspended", now), generation)
    case ScheduledReport(next) => WithSchedule(s, Ready(BACKUP_SCHEDULED, "Next backup scheduled: " + next, now), generation, next)
    case RunningReport => WithOutcome(s, [NotReady(BACKUP_RUNNING, "Backup job is running", now)], generation)
    case CompletedReport(entry) =>
      WithCompleted(s, Ready(BACKUP_COMPLETED, "Backup completed successfully", now), generation, entry)
    case FailedReport(jobName) => WithOutcome(s, ErrorConditions(BACKUP_FAILED, FailureMessage(jobName), now), generation)
  }

  // What the server holds after the patch. The suspend patch names its fields one by one and
  // sends nothing that was read.
  function Landed(current: KafkaBackupStatus, read: KafkaBackupStatus, r: Report, generation: int, now: int): KafkaBackupStatus {
    if r.SuspendedReport? then Reported(current, r, generation, now)
    else Patched(current, Reported(read, r, generation, now))
  }

  predicate ReadyReason(s: KafkaBackupStatus, reason: string) { HasConditionReason(s.conditions, READY, reason) }

  // Whether the schedule is already reported.
  predicate AlreadyReported(s: KafkaBackupStatus, r: Report, generation: int) {
    match r
    case SuspendedReport =>
      ReadyReason(s, BACKUP_SUSPENDED) && s.nextScheduledBackup.None? && s.observedGeneration == Some(generation)
    case ScheduledReport(next) =>
      ReadyReason(s, BACKUP_SCHEDULED) && s.nextScheduledBackup == Some(next) && s.observedGeneration == Some(generation)
    case _ => false
  }

  datatype World = World(
    name: string,
    jobs: seq<Job>,
    cr: Backup,
    versions: seq<Backup>,
    created: seq<string>)

  datatype Pc =
    | Idle
    | PatchPaused(c: Backup)
    | AddFinalizer(c: Backup)
    | ResolveCluster(c: Backup)
    | ResolveTls(c: Backup)
    | ResolveAuth(c: Backup)
    | ApplyConfigMap(c: Backup)
    | ApplyCronJob(c: Backup)
    | GetStatus(c: Backup, r: Report)
    | PatchStatus(c: Backup, r: Report, read: KafkaBackupStatus)
    | ListForGate(c: Backup)
    | CreateJob(c: Backup)
    | RemoveTrigger(c: Backup)
    | ListForOutcome(c: Backup)
    | Retain(c: Backup)

  datatype State = State(world: World, pc: Pc)

  datatype Event =
    | Begin(version: nat)
    | Call(reply: Reply, now: int, stamp: string)
    | Crash
    | Retained(history: Option<seq<Entry>>)
    | Progress(job: nat, status: JobStatus)
    | Edit(generation: int, paused: bool, triggered: bool, schedule: Option<Schedule>,
           retention: Option<RetentionSpec>, offsetStorage: bool, cluster: string, templateLabels: map<string, string>)
    | Appear(other: Job)

  function Listed(w: World): seq<Job> { OwnJobs(w.jobs, w.name, BackupJob) }

  predicate StampFree(w: World, stamp: string) { NameFree(w.jobs, NewJobName(w.name, stamp)) }

  // `max_by_key` over the terminal Jobs by optional start time: the last of the latest.
  predicate NoLater(a: Option<int>, b: Option<int>) { a.None? || (b.Some? && a.value <= b.value) }

  function LatestTerminal(jobs: seq<Job>): (r: Option<Job>)
    ensures r.Some? ==> r.value in jobs && Terminal(r.value)
    ensures r.None? ==> forall j :: j in jobs ==> !Terminal(j)
    decreases |jobs|
  {
    if jobs == [] then None
    else
      var last := jobs[|jobs| - 1];
      var best := LatestTerminal(jobs[..|jobs| - 1]);
      if Terminal(last) && (best.None? || NoLater(StartOf(best.value), StartOf(last))) then Some(last) else best
  }

  predicate PausedShown(c: Backup) {
    IsConditionTrue(c.status.conditions, RECONCILIATION_PAUSED) && c.status.observedGeneration == Some(c.generation)
  }

  function Started(c: Backup): Pc {
    if c.paused then if PausedShown(c) then Idle else PatchPaused(c)
    else if !c.finalizer then AddFinalizer(c)
    else ResolveCluster(c)
  }

  function AfterConfigMap(c: Backup): Pc { if c.schedule.Some? then ApplyCronJob(c) else ListForGate(c) }

  function ScheduleReport(s: Schedule): Report { if s.suspend then SuspendedReport else ScheduledReport(s.cron) }

  function AfterSchedule(c: Backup): Pc { if c.schedule.None? || c.triggered then ListForGate(c) else ListForOutcome(c) }

  function AfterGate(c: Backup): Pc { if c.triggered then RemoveTrigger(c) else ListForOutcome(c) }

  function AfterReport(c: Backup, r: Report): Pc {
    match r
    case SuspendedReport => AfterSchedule(c)
    case ScheduledReport(_) => AfterSchedule(c)
    case RunningReport => AfterGate(c)
    case ErrorReport(_, _) => Idle
    case _ => Retain(c)
  }

  function EntryFor(job: Job, now: int): Entry {
    Entry(job.name, Completed, StartOf(job).GetOr(now), Some(CompletionOf(job).GetOr(now)), None, None, None)
  }

  // What `check_job_completion` reports after its list call.
  function OutcomeReport(cached: KafkaBackupStatus, jobs: seq<Job>, now: int): (r: Option<Report>)
    ensures r.Some? ==> r.value.CompletedReport? || r.value.FailedReport?
  {
    var latest := LatestTerminal(jobs);
    if latest.None? then None
    else if JobSucceeded(latest.value) then
      if cached.lastBackup.Some? && cached.lastBackup.value.id == latest.value.name then None
      else Some(CompletedReport(EntryFor(latest.value, now)))
    else if FailureRecorded(cached, latest.value.name) then None
    else Some(FailedReport(latest.value.name))
  }

  function Reporting(c: Backup, r: Option<Report>): Pc { if r.Some? then GetStatus(c, r.value) else Retain(c) }

  predicate FailureRecorded(s: KafkaBackupStatus, jobName: string) {
    var found := FindCondition(s.conditions, ERROR);
    found.Some? && found.value.message == Some(FailureMessage(jobName))
  }

  function JobFor(w: World, c: Backup, stamp: string): Job {
    NewJob(w.name, stamp, c.cluster, BackupJob, c.templateLabels)
  }

  function WithCr(w: World, cr: Backup): World { w.(cr := cr, versions := w.versions + [cr]) }

  // The last call of the retention pass. Sending the history that is there already changes
  // nothing on the server.
  function HistoryRecorded(w: World, history: Option<seq<Entry>>): World {
    if history.None? || history.value == w.cr.status.backupHistory then w
    else WithCr(w, w.cr.(status := w.cr.status.(backupHistory := history.value)))
  }

  // The effect of an accepted call.
  function Accepted(w: World, pc: Pc, now: int, stamp: string): World {
    match pc
    case PatchPaused(c) => WithCr(w, w.cr.(status := Patched(w.cr.status, PausedStatus(c, now))))
    case AddFinalizer(_) => WithCr(w, w.cr.(finalizer := true))
    case PatchStatus(c, r, read) => WithCr(w, w.cr.(status := Landed(w.cr.status, read, r, c.generation, now)))
    case CreateJob(c) => w.(jobs := w.jobs + [JobFor(w, c, stamp)], created := w.created + [NewJobName(w.name, stamp)])
    case RemoveTrigger(_) => WithCr(w, w.cr.(triggered := false))
    case _ => w
  }

  // Where the code goes on after an answer, and after an error.
  function Answered(w: World, pc: Pc, now: int): Pc {
    match pc
    case AddFinalizer(c) => ResolveCluster(c)
    case ResolveCluster(c) => ResolveTls(c)
    case ResolveTls(c) => ResolveAuth(c)
    case ResolveAuth(c) => ApplyConfigMap(c)
    case ApplyConfigMap(c) => AfterConfigMap(c)
    case ApplyCronJob(c) => if c.schedule.Some? then GetStatus(c, ScheduleReport(c.schedule.value)) else Idle
    case GetStatus(c, r) =>
      if AlreadyReported(w.cr.status, r, c.generation) then AfterReport(c, r) else PatchStatus(c, r, w.cr.status)
    case PatchStatus(c, r, _) => AfterReport(c, r)
    case ListForGate(c) =>
      if ShouldCreateBackupJob(ClassifyJobs(Listed(w)), c.triggered) then CreateJob(c) else AfterGate(c)
    case CreateJob(c) => GetStatus(c, RunningReport)
    case RemoveTrigger(c) => ListForOutcome(c)
    case ListForOutcome(c) => Reporting(c, OutcomeReport(c.status, Listed(w), now))
    case Retain(c) => Retain(c)
    case _ => Idle
  }

  function Erred(pc: Pc, error: ErrorKind, message: string): Pc {
    match pc
    case ResolveCluster(c) => GetStatus(c, ErrorReport(error, message))
    case ResolveTls(c) => ResolveAuth(c)
    case _ => Idle
  }

  function Called(s: State, reply: Reply, now: int, stamp: string): State {
    if s.pc.CreateJob? && !StampFree(s.world, stamp) then s.(pc := Idle)
    else match reply
      case Done => State(Accepted(s.world, s.pc, now, stamp), Answered(s.world, s.pc, now))
      case Lost => State(Accepted(s.world, s.pc, now, stamp), Erred(s.pc, Kube, "response lost"))
      case Refused(error, message) => s.(pc := Erred(s.pc, error, message))
  }

  // What everybody else does to the API server. The trigger is an annotation the user sets.
  function Disturbed(w: World, e: Event): World {
    match e
    case Progress(i, status) => w.(jobs := Progressed(w.jobs, i, status))
    case Edit(generation, paused, triggered, schedule, retention, offsetStorage, cluster, templateLabels) =>
      WithCr(w, w.cr.(generation := generation, paused := paused, triggered := triggered, schedule := schedule,
                      retention := retention, offsetStorage := offsetStorage, cluster := cluster,
                      templateLabels := templateLabels))
    case Appear(other) => w.(jobs := Appeared(w.jobs, other))
    case _ => w
  }

  function Step(s: State, e: Event): State {
    match e
    case Begin(version) =>
      if s.pc.Idle? && version < |s.world.versions| then s.(pc := Started(s.world.versions[version])) else s
    case Call(reply, now, stamp) => Called(s, reply, now, stamp)
    case Crash => s.(pc := Idle)
    case Retained(history) => if s.pc.Retain? then State(HistoryRecorded(s.world, history), Idle) else s
    case _ => s.(world := Disturbed(s.world, e))
  }

  function Exec(s: State, events: seq<Event>): State { Run(Step, s, events) }

  // One Job started after another; a Job without a start time comes first.
  predicate StartsAfter(a: Job, b: Job) {
    && a.status.Some? && a.status.value.startTime.Some?
    && (b.status.None? || b.status.value.startTime.None? || b.status.value.startTime.value < a.status.value.startTime.value)
  }

  // A finished Job that no finished one starts after, and the last of those.
  ghost predicate LatestAt(jobs: seq<Job>, i: nat) {
    && i < |jobs| && (HasSucceeded(jobs[i]) || FailedForGood(jobs[i]))
    && (forall k :: 0 <= k < |jobs| && (HasSucceeded(jobs[k]) || FailedForGood(jobs[k])) ==> !StartsAfter(jobs[k], jobs[i]))
    && (forall k :: i < k < |jobs| && (HasSucceeded(jobs[k]) || FailedForGood(jobs[k])) ==> StartsAfter(jobs[i], jobs[k]))
  }

  // The same by the predicates of the scan.
  ghost predicate ScannedTo(jobs: seq<Job>, i: nat) {
    && i < |jobs| && Terminal(jobs[i])
    && (forall k :: 0 <= k < |jobs| && Terminal(jobs[k]) ==> NoLater(StartOf(jobs[k]), StartOf(jobs[i])))
    && (forall k :: i < k < |jobs| && Terminal(jobs[k]) ==> !NoLater(StartOf(jobs[i]), StartOf(jobs[k])))
  }

  lemma {:induction false} ScanExact(jobs: seq<Job>) returns (i: nat)
    requires LatestTerminal(jobs).Some?
    ensures ScannedTo(jobs, i) && jobs[i] == LatestTerminal(jobs).value
    decreases |jobs|
  {
    var n := |jobs| - 1;
    var earlier := jobs[..n];
    assert forall k :: 0 <= k < n ==> earlier[k] == jobs[k] && jobs[k] in earlier;
    if LatestTerminal(earlier).None? {
      i := n;
    } else {
      i := ScanExact(earlier);
      if Terminal(jobs[n]) && NoLater(StartOf(jobs[i]), StartOf(jobs[n])) { i := n; }
    }
  }

  lemma ScanOnFields(a: Job, b: Job)
    ensures Terminal(a) <==> HasSucceeded(a) || FailedForGood(a)
    ensures NoLater(StartOf(a), StartOf(b)) <==> !StartsAfter(a, b)
  {
    OutcomeOnFields(a);
  }

  lemma LatestTerminalExact(jobs: seq<Job>) returns (i: nat)
    requires LatestTerminal(jobs).Some?
    ensures LatestAt(jobs, i) && jobs[i] == LatestTerminal(jobs).value
  {
    i := ScanExact(jobs);
    forall k | 0 <= k < |jobs|
      ensures Terminal(jobs[k]) <==> HasSucceeded(jobs[k]) || FailedForGood(jobs[k])
      ensures NoLater(StartOf(jobs[k]), StartOf(jobs[i])) <==> !StartsAfter(jobs[k], jobs[i])
      ensures NoLater(StartOf(jobs[i]), StartOf(jobs[k])) <==> !StartsAfter(jobs[i], jobs[k])
    {
      ScanOnFields(jobs[k], jobs[i]);
      ScanOnFields(jobs[i], jobs[k]);
    }
  }

  // Running and failed pods play no part in it.
  lemma {:induction false} LatestIgnoresPods(a: seq<Job>, b: seq<Job>)
    requires AllSameButPods(a, b)
    ensures LatestTerminal(a).Some? == LatestTerminal(b).Some?
    ensures LatestTerminal(a).Some? ==> SameButPods(LatestTerminal(a).value, LatestTerminal(b).value)
    decreases |a|
  {
    if a != [] { LatestIgnoresPods(a[..|a| - 1], b[..|b| - 1]); }
  }

  // Nor in what is reported.
  lemma OutcomeIgnoresPods(cached: KafkaBackupStatus, a: seq<Job>, b: seq<Job>, now: int)
    requires AllSameButPods(a, b)
    ensures OutcomeReport(cached, a, now) == OutcomeReport(cached, b, now)
  {
    LatestIgnoresPods(a, b);
  }
}
