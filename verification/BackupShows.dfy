// What a user reads in the status of a backup: after each report, after a whole quiet reconcile,
// and after a failed resolution.
module BackupShows {
  import opened Wrappers
  import opened JobState
  import opened Conditions
  import opened History
  import opened Labels
  import opened StatusPatch
  import opened Environment
  import opened Runs
  import opened BackupProtocol
  import opened BackupSafety
  import opened BackupConvergence
  import opened BackupRetention
  import opened BackupSettling

  // A condition as `kubectl` shows it, and the reason of one.
  predicate Shows(s: KafkaBackupStatus, kind: string, status: string, reason: string) {
    var c := FindCondition(s.conditions, kind);
    c.Some? && c.value.status == status && c.value.reason == Some(reason)
  }

  predicate Says(s: KafkaBackupStatus, message: string) {
    var c := FindCondition(s.conditions, "Ready");
    c.Some? && c.value.message == Some(message)
  }

  predicate GivesReason(s: KafkaBackupStatus, reason: string) {
    var c := FindCondition(s.conditions, "Ready");
    c.Some? && c.value.reason == Some(reason)
  }

  predicate ExplainsError(s: KafkaBackupStatus, reason: string, message: string) {
    && Shows(s, "Ready", "False", reason) && Shows(s, "Error", "True", reason)
    && FindCondition(s.conditions, "Error").value.message == Some(message)
  }

  predicate NextRun(s: KafkaBackupStatus, schedule: Schedule) {
    s.nextScheduledBackup == if schedule.suspend then None else Some(schedule.cron)
  }

  function ScheduleReason(schedule: Schedule): string { if schedule.suspend then "BackupSuspended" else "BackupScheduled" }

  // A landed report on the fields of the status.
  lemma LandedShows(s: KafkaBackupStatus, r: Report, generation: int, now: int)
    ensures var t := Landed(s, s, r, generation, now);
            && t.observedGeneration == Some(generation)
            && (forall c :: c in t.conditions ==> c.lastTransition == Some(now))
            && (match r
                case ErrorReport(error, message) => ExplainsError(t, Reason(error), message)
                case SuspendedReport => Shows(t, "Ready", "True", "BackupSuspended") && Says(t, "Backup schedule is suspended")
                case ScheduledReport(next) =>
                  Shows(t, "Ready", "True", "BackupScheduled") && Says(t, "Next backup scheduled: " + next)
                case RunningReport => Shows(t, "Ready", "False", "BackupRunning") && Says(t, "Backup job is running")
                case CompletedReport(_) => Shows(t, "Ready", "True", "BackupCompleted") && Says(t, "Backup completed successfully")
                case FailedReport(jobName) => ExplainsError(t, "BackupFailed", "Backup job " + jobName + " failed"))
            && (!r.ErrorReport? && !r.FailedReport? ==> FindCondition(t.conditions, "Error").None?)
  {
    var cs := Landed(s, s, r, generation, now).conditions;
    if |cs| == 2 { assert cs[1..] == [cs[1]] && [cs[1]][1..] == []; } else { assert cs[1..] == []; }
  }

  // What was sent, where it was sent.
  predicate Takes<T(==)>(landed: Option<T>, sent: Option<T>) { sent.Some? ==> landed == sent }

  predicate Records(b: LastBackup, e: Entry) {
    && b.id == e.id && b.startTime == e.startTime && b.status == Completed && Takes(b.completionTime, e.completionTime)
    && Takes(b.sizeBytes, e.sizeBytes) && Takes(b.topics, e.topics) && Takes(b.partitions, e.partitions)
  }

  // A recorded success is the last backup and is in the history.
  lemma RecordShows(s: KafkaBackupStatus, e: Entry, generation: int, now: int)
    requires UniqueIds(s.backupHistory)
    ensures var t := Landed(s, s, CompletedReport(e), generation, now);
            && t.lastBackup.Some? && Records(t.lastBackup.value, e)
            && Ids(t.backupHistory) == Ids(s.backupHistory) + {e.id}
  {
    UpsertRefinesMap(s.backupHistory, e);
    assert e.id in Ids(Upserted(s.backupHistory, e));
  }

  predicate TellsPause(s: KafkaBackupStatus, generation: int) {
    var c := FindCondition(s.conditions, "ReconciliationPaused");
    c.Some? && c.value.status == "True" && s.observedGeneration == Some(generation)
  }

  // A quiet reconcile of a paused backup says so for the present generation, once.
  lemma PauseIsShown(s: Site, unreadable: set<string>, now: int, stamp: string)
    requires s.world.cr.paused
    ensures var t := SitePass(s, unreadable, now, stamp);
            && TellsPause(t.world.cr.status, s.world.cr.generation)
            && (t == s <==> TellsPause(s.world.cr.status, s.world.cr.generation))
  {
    var t := SitePass(s, unreadable, now, stamp);
    if t == s { assert |t.world.versions| == |s.world.versions|; }
  }

  // A create that the server accepts adds one Job: named after the CR and the stamp, with the
  // cluster of the CR in its label unless the template has its own, and not yet started.
  lemma CreationShows(w: World, c: Backup, now: int, stamp: string)
    ensures var t, name := Accepted(w, CreateJob(c), now, stamp), w.name + "-" + stamp;
            && t.cr == w.cr && t.versions == w.versions && t.created == w.created + [name] && |t.jobs| == |w.jobs| + 1
            && t.jobs[..|w.jobs|] == w.jobs && t.jobs[|w.jobs|].name == name && t.jobs[|w.jobs|].status.None?
            && LabelAt(t.jobs[|w.jobs|].labels, "strimzi.io/cluster") ==
                 (if "strimzi.io/cluster" in c.templateLabels then Some(c.templateLabels["strimzi.io/cluster"]) else Some(c.cluster))
  {
    LabelsOnFields(w.name, c.cluster, BackupJob, c.templateLabels, "strimzi.io/cluster");
  }

  // The schedule, once its report is answered: the next run and the reason say whether it is
  // suspended.
  lemma ScheduleIsShown(w: World, c: Backup, now: int)
    requires c.schedule.Some?
    ensures var t := ScheduleWorld(w, c, now).cr.status;
            NextRun(t, c.schedule.value) && GivesReason(t, ScheduleReason(c.schedule.value))
            && t.observedGeneration == Some(c.generation)
  {
    var r := ScheduleReport(c.schedule.value);
    LandedShows(w.cr.status, r, c.generation, now);
    LandedStatus(w.cr.status, r, c.generation, now);
  }

  // And that is the world an answered reconcile gets to from its CronJob.
  lemma ScheduleIsShownOnTheWay(w: World, c: Backup, n: nat, now: int, stamp: string) returns (used: nat, v: World)
    requires n >= 3 && c.schedule.Some?
    ensures used <= 3
    ensures Quiet(State(w, ApplyCronJob(c)), n, now, stamp) == Quiet(State(v, AfterSchedule(c)), n - used, now, stamp)
    ensures NextRun(v.cr.status, c.schedule.value) && GivesReason(v.cr.status, ScheduleReason(c.schedule.value))
  {
    v := ScheduleWorld(w, c, now);
    used := QuietCronJob(w, c, n, now, stamp);
    ScheduleIsShown(w, c, now);
  }

  // A success, or a failure, of the latest finished Job that the status does not record yet.
  ghost predicate NewSuccess(w: World) {
    exists i: nat :: LatestAt(Listed(w), i) && HasSucceeded(Listed(w)[i])
      && !(w.cr.status.lastBackup.Some? && w.cr.status.lastBackup.value.id == Listed(w)[i].name)
  }

  ghost predicate NewFailure(w: World) {
    exists i: nat :: LatestAt(Listed(w), i) && !HasSucceeded(Listed(w)[i])
      && !(FindCondition(w.cr.status.conditions, "Error").Some?
           && FindCondition(w.cr.status.conditions, "Error").value.message == Some("Backup job " + Listed(w)[i].name + " failed"))
  }

  // A Job is due: none exists, or one was asked for and the others are through or all failed.
  ghost predicate Due(w: World) {
    var jobs := Listed(w);
    || (w.cr.schedule.None? && jobs == [])
    || (w.cr.triggered && (jobs == [] || (exists j :: j in jobs && HasSucceeded(j)) || forall j :: j in jobs ==> FailedForGood(j)))
  }

  lemma LatestIsOne(jobs: seq<Job>, i: nat, j: nat)
    requires LatestAt(jobs, i) && LatestAt(jobs, j)
    ensures i == j
  {
  }

  lemma NewsIs(w: World, v: World, c: Backup, now: int)
    requires c == w.cr && LatestTerminal(Listed(v)) == LatestTerminal(Listed(w))
    ensures var r := OutcomeReport(c.status, Listed(v), now);
            && (r.Some? && r.value.CompletedReport? <==> NewSuccess(w))
            && (r.Some? && r.value.FailedReport? <==> NewFailure(w))
            && (r.Some? ==> exists i: nat :: LatestAt(Listed(w), i) && Named(r.value, Listed(w)[i]))
  {
    var jobs := Listed(w);
    if LatestTerminal(jobs).Some? {
      var i := LatestTerminalExact(jobs);
      OutcomeOnFields(jobs[i]);
      forall j: nat | LatestAt(jobs, j) ensures j == i { LatestIsOne(jobs, i, j); }
    } else {
      forall j: nat ensures !LatestAt(jobs, j) {
        if LatestAt(jobs, j) { OutcomeOnFields(jobs[j]); }
      }
    }
  }

  // The report speaks of that Job.
  predicate Named(r: Report, j: Job) {
    match r
    case CompletedReport(entry) => entry.id == j.name
    case FailedReport(jobName) => jobName == j.name
    case _ => false
  }

  lemma DueIsOpen(w: World, v: World, c: Backup)
    requires c == w.cr && Listed(v) == Listed(w)
    ensures GateOpen(v, c) <==> Due(w)
  {
    VerdictOnFields(Listed(w));
  }

  // Before the outcome: the schedule's reason, or a running Job.
  lemma BeforeOutcomeShows(w: World, a: World, now: int, stamp: string)
    requires a == ScheduleWorld(Finalized(w), w.cr, now)
    ensures var b := GateWorld(a, w.cr, now, stamp).cr.status;
            && (w.cr.schedule.Some? ==> NextRun(b, w.cr.schedule.value))
            && (w.cr.schedule.None? ==> b.nextScheduledBackup == w.cr.status.nextScheduledBackup)
            && (Due(w) ==> Shows(b, "Ready", "False", "BackupRunning"))
            && (!Due(w) && w.cr.schedule.Some? ==> GivesReason(b, ScheduleReason(w.cr.schedule.value)))
  {
    var c := w.cr;
    if c.schedule.Some? { ScheduleIsShown(Finalized(w), c, now); }
    ScheduleGrows(Finalized(w), c, now);
    DueIsOpen(w, a, c);
    if GateOpen(a, c) {
      var created := Accepted(a, CreateJob(c), now, stamp);
      LandedShows(created.cr.status, RunningReport, c.generation, now);
      LandedStatus(created.cr.status, RunningReport, c.generation, now);
    }
  }

  lemma OutcomeShows(b: World, c: Backup, now: int)
    ensures var r, v := OutcomeReport(c.status, Listed(b), now), OutcomeWorld(b, c, now).cr.status;
            && v.nextScheduledBackup == b.cr.status.nextScheduledBackup
            && (r.None? ==> v.conditions == b.cr.status.conditions)
            && (r.Some? && r.value.CompletedReport? ==>
                  Shows(v, "Ready", "True", "BackupCompleted") && v.lastBackup.Some? && v.lastBackup.value.id == r.value.entry.id)
            && (r.Some? && r.value.FailedReport? ==>
                  ExplainsError(v, "BackupFailed", "Backup job " + r.value.jobName + " failed"))
  {
    var r := OutcomeReport(c.status, Listed(b), now);
    if r.Some? {
      LandedShows(b.cr.status, r.value, c.generation, now);
      LandedStatus(b.cr.status, r.value, c.generation, now);
    }
  }

  // What the latest finished Job leaves in the status.
  ghost predicate SuccessShown(w: World, s: KafkaBackupStatus) {
    && Shows(s, "Ready", "True", "BackupCompleted") && s.lastBackup.Some?
    && exists i: nat :: LatestAt(Listed(w), i) && s.lastBackup.value.id == Listed(w)[i].name
  }

  ghost predicate FailureShown(w: World, s: KafkaBackupStatus) {
    exists i: nat :: LatestAt(Listed(w), i) && ExplainsError(s, "BackupFailed", "Backup job " + Listed(w)[i].name + " failed")
  }

  // The status v says of the world w: the next run as the schedule has it; a newly finished Job,
  // if there is one; else the Job just created; else whether the schedule is suspended.
  ghost predicate Tells(v: KafkaBackupStatus, w: World) {
    && (w.cr.schedule.Some? ==> NextRun(v, w.cr.schedule.value))
    && (w.cr.schedule.None? ==> v.nextScheduledBackup == w.cr.status.nextScheduledBackup)
    && (NewSuccess(w) ==> SuccessShown(w, v))
    && (NewFailure(w) ==> FailureShown(w, v))
    && (!NewSuccess(w) && !NewFailure(w) && Due(w) ==> Shows(v, "Ready", "False", "BackupRunning"))
    && (!NewSuccess(w) && !NewFailure(w) && !Due(w) && w.cr.schedule.Some? ==>
          GivesReason(v, ScheduleReason(w.cr.schedule.value)))
  }

  lemma ActiveShows(w: World, now: int, stamp: string)
    requires Current(w) && Exclusive(w.cr.status)
    ensures Tells(ActiveWorld(w, now, stamp).cr.status, w)
  {
    var c := w.cr;
    var a := ScheduleWorld(Finalized(w), c, now);
    var b := GateWorld(a, c, now, stamp);
    ScheduleGrows(Finalized(w), c, now);
    if c.schedule.Some? { ReportSettles(Finalized(w), c, ScheduleReport(c.schedule.value), now); }
    BeforeOutcomeShows(w, a, now, stamp);
    GateLeaves(a, c, now, stamp);
    assert Listed(a) == Listed(w);
    NewsIs(w, b, c, now);
    OutcomeShows(b, c, now);
  }

  lemma TellsButHistory(v: KafkaBackupStatus, w: World, h: seq<Entry>)
    requires Tells(v, w)
    ensures Tells(v.(backupHistory := h), w)
  {
    if NewFailure(w) {
      var i: nat :| LatestAt(Listed(w), i) && ExplainsError(v, "BackupFailed", "Backup job " + Listed(w)[i].name + " failed");
      assert ExplainsError(v.(backupHistory := h), "BackupFailed", "Backup job " + Listed(w)[i].name + " failed");
    }
  }

  // After a whole quiet reconcile of a CR that is not paused the status tells that.
  lemma ReconcileShows(s: Site, unreadable: set<string>, now: int, stamp: string)
    requires Current(s.world) && !s.world.cr.paused && Exclusive(s.world.cr.status)
    ensures Tells(SitePass(s, unreadable, now, stamp).world.cr.status, s.world)
  {
    var v := ActiveWorld(s.world, now, stamp);
    ActiveShows(s.world, now, stamp);
    SweptWorld(Site(v, s.view), s.world.cr, unreadable, now);
    TellsButHistory(v.cr.status, s.world, SitePass(s, unreadable, now, stamp).world.cr.status.backupHistory);
  }

  // A state that quiet reconciles leave alone shows the schedule.
  lemma QuiescentShowsSchedule(w: World)
    requires Quiescent(w) && !w.cr.paused && w.cr.schedule.Some?
    ensures NextRun(w.cr.status, w.cr.schedule.value) && GivesReason(w.cr.status, ScheduleReason(w.cr.schedule.value))
    ensures w.cr.status.observedGeneration == Some(w.cr.generation)
  {
  }

  // A cluster that cannot be resolved ends the reconcile with the error on the status.
  lemma ClusterErrorIsShown(w: World, c: Backup, error: ErrorKind, message: string, now: int, stamp: string)
    ensures var s := Exec(State(w, ResolveCluster(c)),
                          [Call(Refused(error, message), now, stamp)] + seq(2, _ => Call(Done, now, stamp)));
            && s.pc.Idle? && s.world.jobs == w.jobs && s.world.created == w.created
            && ExplainsError(s.world.cr.status, Reason(error), message)
            && s.world.cr.status.observedGeneration == Some(c.generation)
  {
    var r := ErrorReport(error, message);
    BegunIsRun(Step, State(w, ResolveCluster(c)), Call(Refused(error, message), now, stamp), Call(Done, now, stamp), 2);
    var used := QuietReport(w, c, r, 2, now, stamp);
    QuietEnded(State(ReportWorld(w, c, r, now), Idle), 2 - used, now, stamp);
    LandedShows(w.cr.status, r, c.generation, now);
  }

  // Where a refused call leaves the reconcile: missing certificates do not end it, a cluster that
  // cannot be resolved is reported, and every other refusal ends it with nothing changed.
  lemma RefusalEnds(s: State, error: ErrorKind, message: string, now: int, stamp: string)
    ensures var t := Step(s, Call(Refused(error, message), now, stamp));
            && t.world == s.world
            && (s.pc.ResolveTls? ==> t == Step(s, Call(Done, now, stamp)) && t.pc == ResolveAuth(s.pc.c))
            && (s.pc.ResolveCluster? ==> t.pc == GetStatus(s.pc.c, ErrorReport(error, message)))
            && (!s.pc.ResolveTls? && !s.pc.ResolveCluster? ==> t.pc.Idle?)
  {
  }
}
