// Quiet passes of the backup reconciler up to its retention pass: the cache is fresh, every call
// is answered, nobody else acts. What they leave, and which states they leave alone.
module BackupConvergence {
  import opened Wrappers
  import opened Sorting
  import opened JobState
  import opened Conditions
  import opened Labels
  import opened StatusPatch
  import opened Environment
  import opened Runs
  import opened BackupProtocol
  import opened BackupSafety

  // n calls, all answered; the longest reconcile makes sixteen before its retention pass.
  function Quiet(s: State, n: nat, now: int, stamp: string): State { Repeat(Step, s, Call(Done, now, stamp), n) }

  // A reconcile from the newest version with room for that many calls, all answered.
  function PassEvents(versions: nat, calls: nat, now: int, stamp: string): seq<Event>
    requires versions > 0
  {
    [Begin(versions - 1)] + seq(calls, _ => Call(Done, now, stamp))
  }

  function Pass(s: State, calls: nat, now: int, stamp: string): State
    requires s.world.versions != []
  {
    Exec(s, PassEvents(|s.world.versions|, calls, now, stamp))
  }

  predicate Current(w: World) { w.versions != [] && w.versions[|w.versions| - 1] == w.cr }

  lemma QuietCall(s: State, n: nat, now: int, stamp: string)
    requires n > 0
    ensures Quiet(s, n, now, stamp) == Quiet(Called(s, Done, now, stamp), n - 1, now, stamp)
  {
    RepeatOne(Step, s, Call(Done, now, stamp), n);
  }

  // The calls end where the reconcile ends or comes to its retention pass.
  lemma QuietEnded(s: State, n: nat, now: int, stamp: string)
    requires s.pc.Idle? || s.pc.Retain?
    ensures Quiet(s, n, now, stamp) == s
  {
    RepeatFixed(Step, s, Call(Done, now, stamp), n);
  }

  // What each stretch of a quiet pass makes of the world.
  function Finalized(w: World): World { if w.cr.finalizer then w else WithCr(w, w.cr.(finalizer := true)) }

  function Written(w: World, c: Backup, r: Report, now: int): World {
    WithCr(w, w.cr.(status := Landed(w.cr.status, w.cr.status, r, c.generation, now)))
  }

  function ReportWorld(w: World, c: Backup, r: Report, now: int): World {
    if AlreadyReported(w.cr.status, r, c.generation) then w
    else Written(w, c, r, now)
  }

  function ScheduleWorld(w: World, c: Backup, now: int): World {
    if c.schedule.Some? then ReportWorld(w, c, ScheduleReport(c.schedule.value), now) else w
  }

  predicate GateOpen(w: World, c: Backup) {
    (c.schedule.None? || c.triggered) && ShouldCreateBackupJob(ClassifyJobs(Listed(w)), c.triggered)
  }

  function CreateWorld(w: World, c: Backup, now: int, stamp: string): World {
    if GateOpen(w, c) then ReportWorld(Accepted(w, CreateJob(c), now, stamp), c, RunningReport, now) else w
  }

  function Untriggered(w: World, c: Backup): World { if c.triggered then WithCr(w, w.cr.(triggered := false)) else w }

  function GateWorld(w: World, c: Backup, now: int, stamp: string): World { Untriggered(CreateWorld(w, c, now, stamp), c) }

  function Noted(w: World, c: Backup, r: Option<Report>, now: int): World {
    if r.Some? then ReportWorld(w, c, r.value, now) else w
  }

  function OutcomeWorld(w: World, c: Backup, now: int): World {
    Noted(w, c, OutcomeReport(c.status, Listed(w), now), now)
  }

  function ActiveWorld(w: World, now: int, stamp: string): World {
    OutcomeWorld(GateWorld(ScheduleWorld(Finalized(w), w.cr, now), w.cr, now, stamp), w.cr, now)
  }

  function PassWorld(w: World, now: int, stamp: string): World {
    if w.cr.paused then if PausedShown(w.cr) then w else Accepted(w, PatchPaused(w.cr), now, stamp)
    else ActiveWorld(w, now, stamp)
  }

  // Where it ends: a reconcile of a CR that is not paused comes to its retention pass.
  function PassEnd(w: World): Pc { if w.cr.paused then Idle else Retain(w.cr) }

  lemma QuietPatch(w: World, c: Backup, r: Report, n: nat, now: int, stamp: string)
    requires n >= 1
    ensures Quiet(State(w, PatchStatus(c, r, w.cr.status)), n, now, stamp) ==
            Quiet(State(Written(w, c, r, now), AfterReport(c, r)), n - 1, now, stamp)
  {
    QuietCall(State(w, PatchStatus(c, r, w.cr.status)), n, now, stamp);
  }

  lemma QuietReport(w: World, c: Backup, r: Report, n: nat, now: int, stamp: string) returns (used: nat)
    requires n >= 2
    ensures used <= 2
    ensures Quiet(State(w, GetStatus(c, r)), n, now, stamp) ==
            Quiet(State(ReportWorld(w, c, r, now), AfterReport(c, r)), n - used, now, stamp)
  {
    QuietCall(State(w, GetStatus(c, r)), n, now, stamp);
    used := 1;
    if !AlreadyReported(w.cr.status, r, c.generation) {
      QuietPatch(w, c, r, n - 1, now, stamp);
      used := 2;
    }
  }

  lemma QuietCronJob(w: World, c: Backup, n: nat, now: int, stamp: string) returns (used: nat)
    requires n >= 3 && c.schedule.Some?
    ensures used <= 3
    ensures Quiet(State(w, ApplyCronJob(c)), n, now, stamp) ==
            Quiet(State(ScheduleWorld(w, c, now), AfterSchedule(c)), n - used, now, stamp)
  {
    QuietCall(State(w, ApplyCronJob(c)), n, now, stamp);
    var k := QuietReport(w, c, ScheduleReport(c.schedule.value), n - 1, now, stamp);
    used := 1 + k;
  }

  lemma ConfigMapAnswered(w: World, c: Backup, now: int, stamp: string)
    ensures Called(State(w, ApplyConfigMap(c)), Done, now, stamp) == State(w, AfterConfigMap(c))
    ensures c.schedule.None? ==> ScheduleWorld(w, c, now) == w && AfterConfigMap(c) == AfterSchedule(c)
  {
  }

  lemma QuietSchedule(w: World, c: Backup, n: nat, now: int, stamp: string) returns (used: nat)
    requires n >= 4
    ensures used <= 4
    ensures Quiet(State(w, ApplyConfigMap(c)), n, now, stamp) ==
            Quiet(State(ScheduleWorld(w, c, now), AfterSchedule(c)), n - used, now, stamp)
  {
    QuietCall(State(w, ApplyConfigMap(c)), n, now, stamp);
    ConfigMapAnswered(w, c, now, stamp);
    used := 1;
    if c.schedule.Some? {
      var k := QuietCronJob(w, c, n - 1, now, stamp);
      used := 1 + k;
    }
  }

  lemma QuietCreation(w: World, c: Backup, n: nat, now: int, stamp: string) returns (used: nat)
    requires n >= 3 && StampFree(w, stamp)
    ensures used <= 3
    ensures Quiet(State(w, CreateJob(c)), n, now, stamp) ==
            Quiet(State(ReportWorld(Accepted(w, CreateJob(c), now, stamp), c, RunningReport, now), AfterGate(c)), n - used, now, stamp)
  {
    QuietCall(State(w, CreateJob(c)), n, now, stamp);
    var k := QuietReport(Accepted(w, CreateJob(c), now, stamp), c, RunningReport, n - 1, now, stamp);
    used := 1 + k;
  }

  lemma GateAnswered(w: World, c: Backup, now: int, stamp: string)
    requires c.schedule.None? || c.triggered
    ensures Called(State(w, ListForGate(c)), Done, now, stamp) == State(w, if GateOpen(w, c) then CreateJob(c) else AfterGate(c))
  {
  }

  lemma CreateWorlds(w: World, c: Backup, now: int, stamp: string)
    ensures CreateWorld(w, c, now, stamp) ==
            if GateOpen(w, c) then ReportWorld(Accepted(w, CreateJob(c), now, stamp), c, RunningReport, now) else w
  {
  }

  lemma QuietCreate(w: World, c: Backup, n: nat, now: int, stamp: string) returns (used: nat)
    requires n >= 4 && (c.schedule.None? || c.triggered) && StampFree(w, stamp)
    ensures used <= 4
    ensures Quiet(State(w, ListForGate(c)), n, now, stamp) ==
            Quiet(State(CreateWorld(w, c, now, stamp), AfterGate(c)), n - used, now, stamp)
  {
    QuietCall(State(w, ListForGate(c)), n, now, stamp);
    GateAnswered(w, c, now, stamp);
    CreateWorlds(w, c, now, stamp);
    used := 1;
    if GateOpen(w, c) {
      var k := QuietCreation(w, c, n - 1, now, stamp);
      used := 1 + k;
    }
  }

  lemma QuietTrigger(w: World, c: Backup, n: nat, now: int, stamp: string) returns (used: nat)
    requires n >= 1
    ensures used <= 1
    ensures Quiet(State(w, AfterGate(c)), n, now, stamp) ==
            Quiet(State(Untriggered(w, c), ListForOutcome(c)), n - used, now, stamp)
  {
    used := 0;
    if c.triggered {
      QuietCall(State(w, RemoveTrigger(c)), n, now, stamp);
      used := 1;
    }
  }

  lemma QuietGateTaken(w: World, v: World, c: Backup, n: nat, now: int, stamp: string) returns (used: nat)
    requires n >= 5 && StampFree(w, stamp) && (c.schedule.None? || c.triggered) && v == CreateWorld(w, c, now, stamp)
    ensures used <= 5
    ensures Quiet(State(w, ListForGate(c)), n, now, stamp) == Quiet(State(Untriggered(v, c), ListForOutcome(c)), n - used, now, stamp)
  {
    used := QuietCreate(w, c, n, now, stamp);
    var more := QuietTrigger(v, c, n - used, now, stamp);
    used := used + more;
  }

  lemma GateWorlds(w: World, c: Backup, now: int, stamp: string)
    ensures c.schedule.Some? && !c.triggered ==> GateWorld(w, c, now, stamp) == w && AfterSchedule(c) == ListForOutcome(c)
    ensures c.schedule.None? || c.triggered ==>
              GateWorld(w, c, now, stamp) == Untriggered(CreateWorld(w, c, now, stamp), c) && AfterSchedule(c) == ListForGate(c)
  {
  }

  lemma QuietGate(w: World, c: Backup, n: nat, now: int, stamp: string) returns (used: nat)
    requires n >= 5 && StampFree(w, stamp)
    ensures used <= 5
    ensures Quiet(State(w, AfterSchedule(c)), n, now, stamp) ==
            Quiet(State(GateWorld(w, c, now, stamp), ListForOutcome(c)), n - used, now, stamp)
  {
    GateWorlds(w, c, now, stamp);
    used := 0;
    if c.schedule.None? || c.triggered {
      used := QuietGateTaken(w, CreateWorld(w, c, now, stamp), c, n, now, stamp);
    }
  }

  lemma QuietRecord(w: World, c: Backup, r: Option<Report>, n: nat, now: int, stamp: string)
    requires n >= 2
    requires r.Some? ==> AfterReport(c, r.value) == Retain(c)
    ensures Quiet(State(w, Reporting(c, r)), n, now, stamp) == State(Noted(w, c, r, now), Retain(c))
  {
    if r.None? {
      QuietEnded(State(w, Retain(c)), n, now, stamp);
    } else {
      var used := QuietReport(w, c, r.value, n, now, stamp);
      QuietEnded(State(ReportWorld(w, c, r.value, now), Retain(c)), n - used, now, stamp);
    }
  }

  lemma QuietOutcome(w: World, c: Backup, n: nat, now: int, stamp: string)
    requires n >= 3
    ensures Quiet(State(w, ListForOutcome(c)), n, now, stamp) == State(OutcomeWorld(w, c, now), Retain(c))
  {
    QuietCall(State(w, ListForOutcome(c)), n, now, stamp);
    QuietRecord(w, c, OutcomeReport(c.status, Listed(w), now), n - 1, now, stamp);
  }

  lemma QuietResolve(w: World, c: Backup, n: nat, now: int, stamp: string)
    requires n >= 3
    ensures Quiet(State(w, ResolveCluster(c)), n, now, stamp) == Quiet(State(w, ApplyConfigMap(c)), n - 3, now, stamp)
  {
    QuietCall(State(w, ResolveCluster(c)), n, now, stamp);
    QuietCall(State(w, ResolveTls(c)), n - 1, now, stamp);
    QuietCall(State(w, ResolveAuth(c)), n - 2, now, stamp);
  }

  lemma SameJobs(w: World, c: Backup, now: int)
    ensures Finalized(w).jobs == w.jobs && Finalized(w).name == w.name
    ensures ScheduleWorld(w, c, now).jobs == w.jobs && ScheduleWorld(w, c, now).name == w.name
  {
  }

  // From the gate to the end, and from the ConfigMap to the end.
  lemma QuietFromGate(w: World, c: Backup, n: nat, now: int, stamp: string)
    requires n >= 8 && StampFree(w, stamp)
    ensures Quiet(State(w, AfterSchedule(c)), n, now, stamp) == State(OutcomeWorld(GateWorld(w, c, now, stamp), c, now), Retain(c))
  {
    var used := QuietGate(w, c, n, now, stamp);
    QuietOutcome(GateWorld(w, c, now, stamp), c, n - used, now, stamp);
  }

  lemma QuietFromConfig(w: World, v: World, c: Backup, n: nat, now: int, stamp: string)
    requires n >= 12 && StampFree(w, stamp) && v == ScheduleWorld(w, c, now)
    ensures Quiet(State(w, ApplyConfigMap(c)), n, now, stamp) == State(OutcomeWorld(GateWorld(v, c, now, stamp), c, now), Retain(c))
  {
    var used := QuietSchedule(w, c, n, now, stamp);
    SameJobs(w, c, now);
    QuietFromGate(v, c, n - used, now, stamp);
  }

  lemma QuietActive(w: World, c: Backup, n: nat, now: int, stamp: string)
    requires n >= 15 && StampFree(w, stamp)
    ensures Quiet(State(w, ResolveCluster(c)), n, now, stamp) ==
            State(OutcomeWorld(GateWorld(ScheduleWorld(w, c, now), c, now, stamp), c, now), Retain(c))
  {
    QuietResolve(w, c, n, now, stamp);
    QuietFromConfig(w, ScheduleWorld(w, c, now), c, n - 3, now, stamp);
  }

  lemma QuietStarted(w: World, n: nat, now: int, stamp: string)
    requires n >= 16 && StampFree(w, stamp)
    ensures Quiet(State(w, Started(w.cr)), n, now, stamp) == State(PassWorld(w, now, stamp), PassEnd(w))
  {
    var s := State(w, Started(w.cr));
    if w.cr.paused {
      if s.pc.Idle? {
        QuietEnded(s, n, now, stamp);
      } else {
        QuietCall(s, n, now, stamp);
        QuietEnded(State(Accepted(w, s.pc, now, stamp), Idle), n - 1, now, stamp);
      }
    } else {
      if !w.cr.finalizer { QuietCall(s, n, now, stamp); }
      QuietActive(Finalized(w), w.cr, if w.cr.finalizer then n else n - 1, now, stamp);
    }
  }

  lemma Begun(w: World)
    requires Current(w)
    ensures Step(State(w, Idle), Begin(|w.versions| - 1)) == State(w, Started(w.cr))
  {
  }

  lemma BegunEnds(w: World, calls: nat, now: int, stamp: string, begin: Event)
    requires calls >= 16 && StampFree(w, stamp)
    requires Step(State(w, Idle), begin) == State(w, Started(w.cr))
    ensures Exec(State(w, Idle), [begin] + seq(calls, _ => Call(Done, now, stamp))) == State(PassWorld(w, now, stamp), PassEnd(w))
  {
    QuietStarted(w, calls, now, stamp);
    BegunIsRun(Step, State(w, Idle), begin, Call(Done, now, stamp), calls);
  }

  // A quiet pass ends, within sixteen calls, in the world its stretches make.
  lemma PassEnds(w: World, calls: nat, now: int, stamp: string)
    requires Current(w) && calls >= 16 && StampFree(w, stamp)
    ensures Pass(State(w, Idle), calls, now, stamp) == State(PassWorld(w, now, stamp), PassEnd(w))
  {
    Begun(w);
    BegunEnds(w, calls, now, stamp, Begin(|w.versions| - 1));
  }

  // What a landed report leaves in the status.
  lemma LandedStatus(s: KafkaBackupStatus, r: Report, generation: int, now: int)
    ensures var t := Landed(s, s, r, generation, now);
            && t.conditions == Reported(s, r, generation, now).conditions
            && t.observedGeneration == Some(generation)
            && t.nextScheduledBackup == (match r
                                         case SuspendedReport => None
                                         case ScheduledReport(next) => Some(next)
                                         case _ => s.nextScheduledBackup)
            && (if r.CompletedReport? then t.lastBackup.Some? && t.lastBackup.value.id == r.entry.id
                else t.lastBackup == s.lastBackup)
  {
  }

  // What a report shows, and what it does not.
  lemma ReportShows(s: KafkaBackupStatus, t: KafkaBackupStatus, r: Report, generation: int, now: int)
    requires t.conditions == Reported(s, r, generation, now).conditions
    ensures ReadyReason(t, BACKUP_SCHEDULED) ==> !ErrorShown(t)
    ensures ReadyReason(t, BACKUP_SUSPENDED) ==> !ErrorShown(t)
    ensures r.ScheduledReport? ==> ReadyReason(t, BACKUP_SCHEDULED)
    ensures r.SuspendedReport? ==> ReadyReason(t, BACKUP_SUSPENDED)
    ensures r.FailedReport? ==> FailureRecorded(t, r.jobName)
  {
    var cs := t.conditions;
    if r.ErrorReport? || r.FailedReport? {
      assert |cs| == 2 && cs[1..] == [cs[1]];
      assert cs[0].reason != Some(BACKUP_SCHEDULED) && cs[0].reason != Some(BACKUP_SUSPENDED);
    } else {
      assert |cs| == 1 && cs[1..] == [];
    }
  }

  predicate ErrorShown(s: KafkaBackupStatus) { FindCondition(s.conditions, ERROR).Some? }

  // No status this operator writes shows both a schedule and an error.
  predicate Exclusive(s: KafkaBackupStatus) {
    ErrorShown(s) ==> !ReadyReason(s, BACKUP_SCHEDULED) && !ReadyReason(s, BACKUP_SUSPENDED)
  }

  // The schedule is reported, the gate is shut and the latest finished Job is recorded.
  predicate ScheduleShown(w: World) {
    w.cr.schedule.Some? ==> AlreadyReported(w.cr.status, ScheduleReport(w.cr.schedule.value), w.cr.generation)
  }

  ghost predicate Quiescent(w: World) {
    if w.cr.paused then PausedShown(w.cr)
    else
      && w.cr.finalizer && !w.cr.triggered
      && ScheduleShown(w)
      && (w.cr.schedule.None? ==> OwnJobIn(w))
      && OutcomeReport(w.cr.status, Listed(w), 0).None?
  }

  // A stretch either leaves the world alone or adds a version to it.
  lemma ReportGrows(w: World, c: Backup, r: Report, now: int)
    ensures if AlreadyReported(w.cr.status, r, c.generation) then ReportWorld(w, c, r, now) == w
            else |ReportWorld(w, c, r, now).versions| == |w.versions| + 1
    ensures var v := ReportWorld(w, c, r, now);
            && v.jobs == w.jobs && v.name == w.name && v.created == w.created
            && v.cr == w.cr.(status := v.cr.status)
            && (Current(w) ==> Current(v))
  {
  }

  lemma GateShutIff(w: World, c: Backup)
    requires !c.triggered
    ensures GateOpen(w, c) <==> c.schedule.None? && !OwnJobIn(w)
  {
  }

  lemma ScheduleGrows(w: World, c: Backup, now: int)
    ensures var v := ScheduleWorld(w, c, now);
            && v.jobs == w.jobs && v.name == w.name && v.created == w.created
            && v.cr == w.cr.(status := v.cr.status)
            && (Current(w) ==> Current(v))
            && (if c.schedule.None? || AlreadyReported(w.cr.status, ScheduleReport(c.schedule.value), c.generation)
                then v == w else |v.versions| == |w.versions| + 1)
  {
  }

  lemma GateGrows(w: World, c: Backup, now: int, stamp: string)
    ensures |GateWorld(w, c, now, stamp).versions| >= |w.versions|
    ensures c.triggered ==> |GateWorld(w, c, now, stamp).versions| > |w.versions|
    ensures GateOpen(w, c) ==> |GateWorld(w, c, now, stamp).versions| > |w.versions|
    ensures !c.triggered && !GateOpen(w, c) ==> GateWorld(w, c, now, stamp) == w
  {
  }

  lemma OutcomeGrows(w: World, c: Backup, now: int)
    ensures if OutcomeReport(c.status, Listed(w), now).None? then OutcomeWorld(w, c, now) == w
            else |OutcomeWorld(w, c, now).versions| > |w.versions|
    ensures var v := OutcomeWorld(w, c, now);
            && v.jobs == w.jobs && v.name == w.name && v.cr == w.cr.(status := v.cr.status)
            && (Current(w) ==> Current(v))
  {
  }

  lemma NothingToReport(cached: KafkaBackupStatus, jobs: seq<Job>, now: int, later: int)
    ensures OutcomeReport(cached, jobs, now).None? <==> OutcomeReport(cached, jobs, later).None?
  {
  }

  // A pass that changes anything adds a version.
  lemma ActiveGrows(w: World, now: int, stamp: string)
    requires !w.cr.paused
    ensures ActiveWorld(w, now, stamp) == w || |ActiveWorld(w, now, stamp).versions| > |w.versions|
    ensures ActiveWorld(w, now, stamp) == w <==> Quiescent(w)
  {
    var c, f := w.cr, Finalized(w);
    var a := ScheduleWorld(f, c, now);
    var b := GateWorld(a, c, now, stamp);
    ScheduleGrows(f, c, now);
    GateGrows(a, c, now, stamp);
    OutcomeGrows(b, c, now);
    assert |f.versions| >= |w.versions| && (f == w <==> c.finalizer) && (!c.finalizer ==> |f.versions| > |w.versions|);
    if !c.triggered { GateShutIff(a, c); }
    NothingToReport(c.status, Listed(w), now, 0);
  }

  ghost predicate LatestFailed(w: World) {
    LatestTerminal(Listed(w)).Some? && FailedForGood(LatestTerminal(Listed(w)).value)
  }

  ghost predicate SuccessRecorded(w: World) {
    LatestTerminal(Listed(w)).Some? && HasSucceeded(LatestTerminal(Listed(w)).value) ==>
      && w.cr.status.lastBackup.Some?
      && w.cr.status.lastBackup.value.id == LatestTerminal(Listed(w)).value.name
  }

  lemma PausedSettles(w: World, now: int, stamp: string)
    requires Current(w) && w.cr.paused
    ensures Quiescent(PassWorld(w, now, stamp)) && Current(PassWorld(w, now, stamp))
  {
  }

  lemma ReportSettles(w: World, c: Backup, r: Report, now: int)
    requires Exclusive(w.cr.status)
    ensures var v := ReportWorld(w, c, r, now);
            && Exclusive(v.cr.status)
            && (OnSchedule(r) ==> AlreadyReported(v.cr.status, r, c.generation))
            && (r.FailedReport? ==> FailureRecorded(v.cr.status, r.jobName))
            && (if r.CompletedReport? then v.cr.status.lastBackup.Some? && v.cr.status.lastBackup.value.id == r.entry.id
                else v.cr.status.lastBackup == w.cr.status.lastBackup)
  {
    if !AlreadyReported(w.cr.status, r, c.generation) {
      LandedStatus(w.cr.status, r, c.generation, now);
      ReportShows(w.cr.status, ReportWorld(w, c, r, now).cr.status, r, c.generation, now);
    }
  }

  // A Job that never ran changes neither the latest finished Job nor the rest of the list.
  lemma LatestSnoc(jobs: seq<Job>, job: Job)
    requires !Terminal(job)
    ensures LatestTerminal(jobs + [job]) == LatestTerminal(jobs)
  {
  }

  lemma SameLatest(w: World, v: World, job: Job)
    requires v.name == w.name && v.jobs == w.jobs + [job] && !Terminal(job)
    ensures LatestTerminal(Listed(v)) == LatestTerminal(Listed(w))
  {
    FilterSnoc(Own(w.name, BackupJob), w.jobs, job);
    LatestSnoc(Listed(w), job);
    assert Listed(w) + [] == Listed(w);
  }

  lemma CreateSettles(w: World, c: Backup, now: int, stamp: string)
    requires Exclusive(w.cr.status)
    ensures var v := CreateWorld(w, c, now, stamp);
            && v.name == w.name && Exclusive(v.cr.status)
            && v.cr == w.cr.(status := v.cr.status)
            && v.cr.status.lastBackup == w.cr.status.lastBackup
            && LatestTerminal(Listed(v)) == LatestTerminal(Listed(w))
            && (Current(w) ==> Current(v))
  {
    if GateOpen(w, c) {
      var a := Accepted(w, CreateJob(c), now, stamp);
      ReportGrows(a, c, RunningReport, now);
      ReportSettles(a, c, RunningReport, now);
      SameLatest(w, CreateWorld(w, c, now, stamp), JobFor(w, c, stamp));
    }
  }

  // What holds after any pass of a CR that is not paused.
  ghost predicate Leaves(w: World, v: World) {
    && Current(v) && v.name == w.name && Exclusive(v.cr.status)
    && v.cr == w.cr.(status := v.cr.status, finalizer := true, triggered := false)
    && LatestTerminal(Listed(v)) == LatestTerminal(Listed(w))
    && SuccessRecorded(v)
  }

  lemma GateLeaves(w: World, c: Backup, now: int, stamp: string)
    requires Current(w) && Exclusive(w.cr.status)
    ensures var v := GateWorld(w, c, now, stamp);
            && Current(v) && v.name == w.name && Exclusive(v.cr.status)
            && v.cr == w.cr.(status := v.cr.status, triggered := if c.triggered then false else w.cr.triggered)
            && v.cr.status.lastBackup == w.cr.status.lastBackup
            && LatestTerminal(Listed(v)) == LatestTerminal(Listed(w))
  {
    CreateSettles(w, c, now, stamp);
    assert Listed(GateWorld(w, c, now, stamp)) == Listed(CreateWorld(w, c, now, stamp));
  }

  lemma PassLeaves(w: World, now: int, stamp: string)
    requires Current(w) && !w.cr.paused && Exclusive(w.cr.status)
    ensures Leaves(w, ActiveWorld(w, now, stamp))
  {
    var c, f := w.cr, Finalized(w);
    var a := ScheduleWorld(f, c, now);
    ScheduleGrows(f, c, now);
    if c.schedule.Some? { ReportSettles(f, c, ScheduleReport(c.schedule.value), now); }
    GateLeaves(a, c, now, stamp);
    RecordLeaves(GateWorld(a, c, now, stamp), c, now);
    assert Listed(a) == Listed(w);
    assert Listed(ActiveWorld(w, now, stamp)) == Listed(GateWorld(a, c, now, stamp));
  }

  lemma RecordStays(w: World, c: Backup, now: int)
    requires Exclusive(w.cr.status)
    ensures var v := OutcomeWorld(w, c, now);
            && v.jobs == w.jobs && v.name == w.name && v.cr == w.cr.(status := v.cr.status)
            && (Current(w) ==> Current(v)) && Exclusive(v.cr.status)
  {
    OutcomeGrows(w, c, now);
    var r := OutcomeReport(c.status, Listed(w), now);
    if r.Some? { ReportSettles(w, c, r.value, now); }
  }

  lemma RecordLeaves(w: World, c: Backup, now: int)
    requires Exclusive(w.cr.status) && w.cr.status.lastBackup == c.status.lastBackup
    ensures var v := OutcomeWorld(w, c, now);
            && v.jobs == w.jobs && v.name == w.name && v.cr == w.cr.(status := v.cr.status)
            && (Current(w) ==> Current(v)) && Exclusive(v.cr.status) && SuccessRecorded(v)
  {
    RecordStays(w, c, now);
    var r := OutcomeReport(c.status, Listed(w), now);
    if r.Some? { ReportSettles(w, c, r.value, now); }
    assert Listed(OutcomeWorld(w, c, now)) == Listed(w);
  }

  // A one-shot backup nobody triggered settles in one pass.
  lemma OneShotSettles(w: World, now: int, stamp: string)
    requires Current(w) && !w.cr.paused && Exclusive(w.cr.status)
    requires w.cr.schedule.None? && !w.cr.triggered && KeepsSelector(w.cr.templateLabels, w.name, BackupJob)
    ensures Quiescent(ActiveWorld(w, now, stamp))
  {
    var c, f := w.cr, Finalized(w);
    PassLeaves(w, now, stamp);
    GateShutIff(f, c);
    if GateOpen(f, c) {
      FirstJobSettles(f, c, now, stamp);
    } else {
      RecordSettles(f, c, now);
    }
  }

  lemma FirstJobSettles(w: World, c: Backup, now: int, stamp: string)
    requires !OwnJobIn(w) && KeepsSelector(c.templateLabels, w.name, BackupJob) && GateOpen(w, c)
    ensures var v := CreateWorld(w, c, now, stamp);
            && OwnJobIn(v) && LatestTerminal(Listed(v)).None? && OutcomeWorld(v, c, now) == v
            && OutcomeReport(v.cr.status, Listed(v), 0).None?
  {
    var a := Accepted(w, CreateJob(c), now, stamp);
    var v := CreateWorld(w, c, now, stamp);
    NewJobIsOwn(w.jobs, w.name, stamp, c.cluster, BackupJob, c.templateLabels);
    ReportGrows(a, c, RunningReport, now);
    SameLatest(w, v, JobFor(w, c, stamp));
    assert Listed(w) == [];
    assert OutcomeReport(c.status, Listed(v), now).None?;
  }

  lemma RecordSettles(w: World, c: Backup, now: int)
    requires Exclusive(w.cr.status) && w.cr.status == c.status
    ensures var v := OutcomeWorld(w, c, now);
            && v.jobs == w.jobs && OutcomeReport(v.cr.status, Listed(v), 0).None?
  {
    var r, v := OutcomeReport(c.status, Listed(w), now), OutcomeWorld(w, c, now);
    OutcomeGrows(w, c, now);
    assert Listed(v) == Listed(w);
    if r.None? {
      NothingToReport(c.status, Listed(w), now, 0);
    } else {
      ReportSettles(w, c, r.value, now);
      ReportedOnce(c.status, v.cr.status, Listed(w), now);
    }
  }

  lemma ReportedOnce(before: KafkaBackupStatus, after: KafkaBackupStatus, jobs: seq<Job>, now: int)
    requires var r := OutcomeReport(before, jobs, now);
             r.Some? && match r.value
                        case CompletedReport(entry) => after.lastBackup.Some? && after.lastBackup.value.id == entry.id
                        case FailedReport(jobName) => FailureRecorded(after, jobName)
                        case _ => false
    ensures OutcomeReport(after, jobs, 0).None?
  {
  }

  // A schedule whose finished Jobs are recorded settles in one pass.
  lemma RecordedScheduleSettles(w: World, now: int, stamp: string)
    requires Current(w) && !w.cr.paused && Exclusive(w.cr.status)
    requires w.cr.schedule.Some? && !w.cr.triggered && SuccessRecorded(w) && !LatestFailed(w)
    ensures Quiescent(ActiveWorld(w, now, stamp))
  {
    var c, f := w.cr, Finalized(w);
    var a := ScheduleWorld(f, c, now);
    ScheduleGrows(f, c, now);
    ReportSettles(f, c, ScheduleReport(c.schedule.value), now);
    GateGrows(a, c, now, stamp);
    assert Listed(a) == Listed(w);
    assert OutcomeReport(c.status, Listed(a), now).None?;
    OutcomeGrows(a, c, now);
  }

  // A schedule whose latest finished Job failed is never quiescent: the failure is reported
  // over the schedule and the schedule over the failure.
  lemma FailedScheduleNeverSettles(w: World)
    requires !w.cr.paused && w.cr.schedule.Some? && LatestFailed(w) && Exclusive(w.cr.status)
    ensures !Quiescent(w)
  {
  }

  // Every status this operator writes is exclusive, in any run.
  ghost predicate ExclusiveWorld(w: World) {
    Exclusive(w.cr.status) && forall v :: v in w.versions ==> Exclusive(v.status)
  }

  ghost predicate AllExclusive(s: State) { ExclusiveWorld(s.world) }

  lemma AcceptedExclusive(w: World, pc: Pc, now: int, stamp: string)
    requires Exclusive(w.cr.status)
    ensures Exclusive(Accepted(w, pc, now, stamp).cr.status)
  {
    var t := Accepted(w, pc, now, stamp).cr.status;
    if pc.PatchStatus? {
      ReportShows(if pc.r.SuspendedReport? then w.cr.status else pc.read, t, pc.r, pc.c.generation, now);
    } else if pc.PatchPaused? {
      assert t.conditions == [ReconciliationPaused(now)];
    }
  }

  lemma ExclusiveCall(w: World, pc: Pc, now: int, stamp: string)
    requires ExclusiveWorld(w)
    ensures ExclusiveWorld(Accepted(w, pc, now, stamp))
  {
    AcceptedExclusive(w, pc, now, stamp);
    AcceptedLabels(w, pc, now, stamp);
  }

  lemma ExclusiveStep(s: State, e: Event)
    requires AllExclusive(s)
    ensures AllExclusive(Step(s, e))
  {
    if e.Call? { ExclusiveCall(s.world, s.pc, e.now, e.stamp); }
  }

  lemma {:induction false} StatusNeverMixesScheduleAndError(s: State, events: seq<Event>)
    requires AllExclusive(s)
    ensures AllExclusive(Exec(s, events))
    decreases |events|
  {
    if events != [] {
      var n := |events| - 1;
      StatusNeverMixesScheduleAndError(s, events[..n]);
      ExclusiveStep(Exec(s, events[..n]), events[n]);
    }
  }
}
