// A run from a fresh KafkaBackup in which a pause written from a stale cache takes the last
// backup back.
module StalePause {
  import opened Wrappers
  import opened Sorting
  import opened JobState
  import opened History
  import opened Conditions
  import opened Labels
  import opened StatusPatch
  import opened Environment
  import opened Runs
  import opened BackupProtocol
  import opened BackupSafety
  import opened BackupConvergence

  // A new one-shot backup without Jobs and without a status.
  predicate Fresh(w: World) {
    && w.jobs == [] && w.created == [] && w.versions == [w.cr]
    && !w.cr.paused && w.cr.finalizer && !w.cr.triggered && w.cr.schedule.None?
    && w.cr.status == KafkaBackupStatus([], None, [], None, None)
  }

  // A Job of the CR that succeeded.
  function Finished(owner: string, stamp: string, start: int): Job {
    Job(NewJobName(owner, stamp), JobLabels(owner, "cluster", BackupJob, map[]),
        Some(JobStatus(None, Some(1), None, None, Some(start), Some(start))))
  }

  // The user's edit of the pause annotation alone.
  function Pausing(c: Backup, paused: bool): Event {
    Edit(c.generation, paused, c.triggered, c.schedule, c.retention, c.offsetStorage, c.cluster, c.templateLabels)
  }

  predicate OneShot(w: World) {
    Current(w) && !w.cr.paused && w.cr.finalizer && !w.cr.triggered && w.cr.schedule.None?
  }

  // A quiet reconcile records the latest finished Job.
  lemma PassRecords(w: World, job: Job, now: int, stamp: string)
    requires OneShot(w) && LatestTerminal(Listed(w)) == Some(job) && JobSucceeded(job) && StartOf(job).Some?
    requires w.cr.status.lastBackup.Some? ==> w.cr.status.lastBackup.value.id != job.name
    ensures PassWorld(w, now, stamp) == Written(w, w.cr, CompletedReport(EntryFor(job, now)), now)
    ensures var s := PassWorld(w, now, stamp).cr.status;
            && s.lastBackup.Some? && s.lastBackup.value.id == job.name
            && s.lastBackup.value.startTime == StartOf(job).value
            && !IsConditionTrue(s.conditions, RECONCILIATION_PAUSED)
  {
    GateShutIff(w, w.cr);
    assert job in Listed(w);
    LandedRecord(w.cr.status, EntryFor(job, now), w.cr.generation, now);
  }

  lemma LandedRecord(s: KafkaBackupStatus, e: Entry, generation: int, now: int)
    ensures var t := Landed(s, s, CompletedReport(e), generation, now);
            && t.lastBackup.Some? && t.lastBackup.value.id == e.id && t.lastBackup.value.startTime == e.startTime
            && !IsConditionTrue(t.conditions, RECONCILIATION_PAUSED)
  {
  }

  // A new Job of the CR finishes and a quiet reconcile records it.
  function RecordEvents(w: World, job: Job, now: int, stamp: string): seq<Event>
    requires w.versions != []
  {
    [Appear(job)] + PassEvents(|w.versions|, 16, now, stamp) + [Retained(None)]
  }

  lemma AppearStep(w: World, job: Job)
    requires NameFree(w.jobs, job.name)
    ensures Step(State(w, Idle), Appear(job)) == State(w.(jobs := w.jobs + [job]), Idle)
  {
  }

  lemma RetainedStep(w: World, c: Backup)
    ensures Step(State(w, Retain(c)), Retained(None)) == State(w, Idle)
  {
  }

  lemma RecordRun(w: World, v: World, job: Job, now: int, stamp: string)
    requires OneShot(w) && NameFree(w.jobs, job.name) && v == w.(jobs := w.jobs + [job]) && StampFree(v, stamp)
    ensures Exec(State(w, Idle), RecordEvents(w, job, now, stamp)) == State(PassWorld(v, now, stamp), Idle)
  {
    var pass := PassEvents(|w.versions|, 16, now, stamp);
    AppearStep(w, job);
    RunCons(Step, State(w, Idle), Appear(job), pass);
    PassEnds(v, 16, now, stamp);
    RetainedStep(PassWorld(v, now, stamp), v.cr);
    RunSnoc(Step, State(w, Idle), [Appear(job)] + pass, Retained(None));
  }

  // The latest finished Job of a list that ends in a later one.
  lemma LaterIsLatest(jobs: seq<Job>, job: Job, owner: string)
    requires Matches(job.labels, owner, BackupJob) && Terminal(job) && StartOf(job).Some?
    requires forall j :: j in jobs ==> NoLater(StartOf(j), StartOf(job))
    ensures LatestTerminal(OwnJobs(jobs + [job], owner, BackupJob)) == Some(job)
  {
    FilterSnoc(Own(owner, BackupJob), jobs, job);
    var own := OwnJobs(jobs, owner, BackupJob);
    assert (own + [job])[..|own|] == own;
    if LatestTerminal(own).Some? { assert LatestTerminal(own).value in jobs; }
  }

  // The Job is new, finished, and no other starts later.
  ghost predicate NewLatest(w: World, job: Job, stamp: string) {
    && NameFree(w.jobs, job.name) && job.name != NewJobName(w.name, stamp) && StampFree(w, stamp)
    && Matches(job.labels, w.name, BackupJob) && JobSucceeded(job) && StartOf(job).Some?
    && (forall j :: j in w.jobs ==> NoLater(StartOf(j), StartOf(job)))
    && (w.cr.status.lastBackup.Some? ==> w.cr.status.lastBackup.value.id != job.name)
  }

  // And is now the last backup.
  ghost predicate NowLast(w: World, v: World, job: Job) {
    && v.name == w.name && v.jobs == w.jobs + [job] && v.versions == w.versions + [v.cr]
    && v.cr == w.cr.(status := v.cr.status) && OneShot(v)
    && v.cr.status.lastBackup.Some? && v.cr.status.lastBackup.value.id == job.name
    && v.cr.status.lastBackup.value.startTime == StartOf(job).GetOr(0)
    && !IsConditionTrue(v.cr.status.conditions, RECONCILIATION_PAUSED)
  }

  lemma WithNewLatest(w: World, u: World, job: Job, stamp: string)
    requires OneShot(w) && NewLatest(w, job, stamp) && u == w.(jobs := w.jobs + [job])
    ensures OneShot(u) && StampFree(u, stamp) && LatestTerminal(Listed(u)) == Some(job)
  {
    LaterIsLatest(w.jobs, job, w.name);
  }

  lemma RecordedPass(w: World, u: World, v: World, job: Job, now: int, stamp: string)
    requires OneShot(u) && u == w.(jobs := w.jobs + [job]) && v == PassWorld(u, now, stamp)
    requires LatestTerminal(Listed(u)) == Some(job) && JobSucceeded(job) && StartOf(job).Some?
    requires w.cr.status.lastBackup.Some? ==> w.cr.status.lastBackup.value.id != job.name
    ensures NowLast(w, v, job)
  {
    PassRecords(u, job, now, stamp);
    WrittenWorld(u, CompletedReport(EntryFor(job, now)), now);
  }

  lemma RecordLater(w: World, job: Job, now: int, stamp: string)
    requires OneShot(w) && NewLatest(w, job, stamp)
    ensures var s := Exec(State(w, Idle), RecordEvents(w, job, now, stamp)); s.pc.Idle? && NowLast(w, s.world, job)
  {
    var u := w.(jobs := w.jobs + [job]);
    WithNewLatest(w, u, job, stamp);
    RecordRun(w, u, job, now, stamp);
    RecordedPass(w, u, PassWorld(u, now, stamp), job, now, stamp);
  }

  lemma WrittenWorld(w: World, r: Report, now: int)
    ensures var v := Written(w, w.cr, r, now);
            && v.name == w.name && v.jobs == w.jobs && v.versions == w.versions + [v.cr]
            && v.cr == w.cr.(status := v.cr.status)
  {
  }

  // The CR is paused and unpaused again.
  function PauseEvents(c: Backup): seq<Event> { [Pausing(c, true), Pausing(c, false)] }

  lemma PauseRun(w: World)
    requires OneShot(w)
    ensures Exec(State(w, Idle), PauseEvents(w.cr)) ==
            State(w.(versions := w.versions + [w.cr.(paused := true)] + [w.cr]), Idle)
  {
    RunCons(Step, State(w, Idle), Pausing(w.cr, true), [Pausing(w.cr, false)]);
    var paused := Step(State(w, Idle), Pausing(w.cr, true));
    RunSnoc(Step, paused, [], Pausing(w.cr, false));
    assert [] + [Pausing(w.cr, false)] == [Pausing(w.cr, false)];
    assert PauseEvents(w.cr) == [Pausing(w.cr, true)] + [Pausing(w.cr, false)];
  }

  // Recorded, paused, unpaused, recorded again.
  lemma TwoRecords(w: World, a: Job, b: Job, now: int, stamp: string) returns (events: seq<Event>, version: nat)
    requires OneShot(w) && NewLatest(w, a, stamp) && w.jobs == []
    requires NewLatest(w.(jobs := [a]), b, stamp)
    ensures var s := Exec(State(w, Idle), events);
            && s.pc.Idle? && version < |s.world.versions|
            && s.world.cr.status.lastBackup.Some? && s.world.cr.status.lastBackup.value.startTime == StartOf(b).value
            && var c := s.world.versions[version];
               && c.paused && !PausedShown(c)
               && c.status.lastBackup.Some? && c.status.lastBackup.value.startTime == StartOf(a).value
  {
    var s := State(w, Idle);
    var first := RecordEvents(w, a, now, stamp);
    RecordLater(w, a, now, stamp);
    var v := Exec(s, first).world;
    var pause := PauseEvents(v.cr);
    PauseRun(v);
    RunAppend(Step, s, first, pause);
    var u := v.(versions := v.versions + [v.cr.(paused := true)] + [v.cr]);
    RecordLater(u, b, now, stamp);
    RunAppend(Step, s, first + pause, RecordEvents(u, b, now, stamp));
    events, version := first + pause + RecordEvents(u, b, now, stamp), |v.versions|;
    assert u.versions[version] == v.cr.(paused := true);
  }

  // From a fresh backup: a Job is recorded, the CR is paused and unpaused, a later Job is
  // recorded, and a reconcile from the cached paused version takes the last backup back.
  lemma StalePauseReachable(w: World, now: int) returns (events: seq<Event>, version: nat)
    requires Fresh(w)
    ensures var s := Exec(State(w, Idle), events);
            && s.pc.Idle? && version < |s.world.versions|
            && s.world.cr.status.lastBackup.Some?
            && !Moved(s.world, Exec(s, [Begin(version), Call(Done, now, "p")]).world)
  {
    var a, b := Finished(w.name, "a", 1), Finished(w.name, "b", 2);
    JobNamesDiffer(w.name, "a", "b");
    JobNamesDiffer(w.name, "a", "p");
    JobNamesDiffer(w.name, "b", "p");
    events, version := TwoRecords(w, a, b, now, "p");
    StalePauseGoesBack(Exec(State(w, Idle), events), version, now, "p");
  }
}
