// The backup reconciler in the order of its code, against an API server that others use too.
// Its outcome is exactly that of the state machine of BackupProtocol under the same
// interference, answers and crashes. The retention pass at its end is in BackupRetention.
module BackupReconciler {
  import opened Wrappers
  import opened JobState
  import opened Conditions
  import opened History
  import opened Labels
  import opened StatusPatch
  import opened Environment
  import opened Turns
  import opened BackupProtocol

  predicate External(e: Event) { e.Progress? || e.Edit? || e.Appear? }

  // Whatever is not the operator's own doing may happen between two of its calls.
  lemma OthersAreExternal(e: Event)
    ensures External(e) <==> !e.Begin? && !e.Call? && !e.Crash? && !e.Retained?
  {
  }

  // A reconcile is through with its Jobs when it has ended or come to the retention pass.
  predicate Ended(s: State) { s.pc.Idle? || s.pc.Retain? }

  function Reconciler(): Machine<State, Event> {
    Machine(Step, External, Ended, (reply, now, stamp) => Call(reply, now, stamp), Crash)
  }

  // The machine whose next call is the patch of the history.
  function Recorder(history: seq<Entry>): Machine<State, Event> {
    Reconciler().(call := (reply: Reply, now, stamp) => Retained(if reply.Refused? then None else Some(history)))
  }

  class ApiServer {
    var world: World
    var turns: seq<Turn<Event>>

    constructor (world: World, turns: seq<Turn<Event>>)
      ensures this.world == world && this.turns == turns
    {
      this.world := world;
      this.turns := turns;
    }

    // The others act, then a call is made; nothing comes back from a dead operator's call.
    method Await(ghost pc: Pc) returns (turn: Turn<Event>)
      modifies this
      ensures world.name == old(world.name)
      ensures old(turns) == [] ==> turn.fate.OperatorCrash? && world == old(world) && turns == []
      ensures old(turns) != [] ==>
                && turn == old(turns)[0] && turns == old(turns)[1..]
                && State(world, pc) == Turns.Disturbed(Reconciler(), State(old(world), pc), turn.before)
    {
      if turns == [] {
        return Turn([], OperatorCrash, 0, "");
      }
      turn := turns[0];
      turns := turns[1..];
      for i := 0 to |turn.before|
        invariant State(world, pc) == Turns.Disturbed(Reconciler(), State(old(world), pc), turn.before[..i])
        invariant turns == old(turns)[1..] && world.name == old(world.name)
      {
        assert turn.before[..i + 1] == turn.before[..i] + [turn.before[i]];
        DisturbedSnoc(Reconciler(), State(old(world), pc), turn.before[..i], turn.before[i]);
        if External(turn.before[i]) {
          world := BackupProtocol.Disturbed(world, turn.before[i]);
        }
      }
      assert turn.before[..|turn.before|] == turn.before;
    }

    // A call that changes nothing the machine keeps: resolving, listing, reading, applying the
    // ConfigMap or the CronJob.
    method Request(ghost pc: Pc) returns (outcome: Outcome, now: int)
      requires !pc.Idle? && !pc.Retain? && !pc.PatchPaused? && !pc.AddFinalizer? && !pc.PatchStatus? && !pc.CreateJob? && !pc.RemoveTrigger?
      modifies this
      ensures Play(Reconciler(), State(old(world), pc), old(turns)) ==
              Play(Reconciler(), State(world, match outcome
                                case Success => Answered(world, pc, now)
                                case Failure(error, message) => Erred(pc, error, message)
                                case Crashed => Idle), turns)
    {
      var turn := Await(pc);
      outcome, now := OutcomeOf(turn.fate), turn.now;
    }

    method SetCr(cr: Backup)
      modifies this
      ensures world == WithCr(old(world), cr) && turns == old(turns)
    {
      world := world.(cr := cr, versions := world.versions + [cr]);
    }

    method PatchPausedStatus(c: Backup)
      modifies this
      ensures Play(Reconciler(), State(old(world), PatchPaused(c)), old(turns)) == (State(world, Idle), turns)
    {
      var turn := Await(PatchPaused(c));
      if TookEffect(turn.fate) {
        var status := c.status.(conditions := [ReconciliationPaused(turn.now)], observedGeneration := Some(c.generation));
        SetCr(world.cr.(status := Patched(world.cr.status, status)));
      }
    }

    method PatchFinalizer(ghost c: Backup) returns (ok: bool)
      modifies this
      ensures Play(Reconciler(), State(old(world), AddFinalizer(c)), old(turns)) ==
              Play(Reconciler(), State(world, if ok then ResolveCluster(c) else Idle), turns)
    {
      var turn := Await(AddFinalizer(c));
      if TookEffect(turn.fate) { SetCr(world.cr.(finalizer := true)); }
      ok := OutcomeOf(turn.fate).Success?;
    }

    method RemoveTriggerAnnotation(ghost c: Backup) returns (ok: bool)
      modifies this
      ensures Play(Reconciler(), State(old(world), RemoveTrigger(c)), old(turns)) ==
              Play(Reconciler(), State(world, if ok then ListForOutcome(c) else Idle), turns)
    {
      var turn := Await(RemoveTrigger(c));
      if TookEffect(turn.fate) { SetCr(world.cr.(triggered := false)); }
      ok := OutcomeOf(turn.fate).Success?;
    }

    method PatchBackupStatus(c: Backup, r: Report, read: KafkaBackupStatus) returns (ok: bool)
      modifies this
      ensures Play(Reconciler(), State(old(world), PatchStatus(c, r, read)), old(turns)) ==
              Play(Reconciler(), State(world, if ok then AfterReport(c, r) else Idle), turns)
    {
      var turn := Await(PatchStatus(c, r, read));
      if TookEffect(turn.fate) { SetCr(world.cr.(status := Landed(world.cr.status, read, r, c.generation, turn.now))); }
      ok := OutcomeOf(turn.fate).Success?;
    }

    // The `update_status_*` methods: read the status, stop if the schedule is already reported,
    // change it and patch it.
    method UpdateStatus(c: Backup, r: Report) returns (ok: bool)
      modifies this
      ensures Play(Reconciler(), State(old(world), GetStatus(c, r)), old(turns)) ==
              Play(Reconciler(), State(world, if ok then AfterReport(c, r) else Idle), turns)
    {
      var outcome, now := Request(GetStatus(c, r));
      if !outcome.Success? { return false; }
      var read := world.cr.status;
      if AlreadyReported(read, r, c.generation) { return true; }
      ok := PatchBackupStatus(c, r, read);
    }

    // The name taken is refused by the server.
    method CreateBackupJob(c: Backup) returns (ok: bool)
      modifies this
      ensures Play(Reconciler(), State(old(world), CreateJob(c)), old(turns)) ==
              Play(Reconciler(), State(world, if ok then GetStatus(c, RunningReport) else Idle), turns)
    {
      var turn := Await(CreateJob(c));
      var jobName := world.name + "-" + turn.stamp;
      ok := OutcomeOf(turn.fate).Success?;
      if exists j :: j in world.jobs && j.name == jobName {
        ok := false;
      } else if TookEffect(turn.fate) {
        var labels := BuildJobLabels(world.name, c.cluster, BackupJob, c.templateLabels);
        world := world.(jobs := world.jobs + [Job(jobName, labels, None)], created := world.created + [jobName]);
      }
    }

    // The calls of the retention pass: read the history, list the Jobs, patch the history.
    method ReadHistory(ghost c: Backup) returns (r: Option<seq<Entry>>)
      modifies this
      ensures Asked(Reconciler(), State(old(world), Retain(c)), old(turns)) ==
              (State(world, if r.Some? then Retain(c) else Idle), turns)
      ensures r.Some? ==> r.value == world.cr.status.backupHistory
    {
      var turn := Await(Retain(c));
      r := if OutcomeOf(turn.fate).Success? then Some(world.cr.status.backupHistory) else None;
    }

    method ListBackupJobs(ghost c: Backup) returns (r: Option<seq<Job>>)
      modifies this
      ensures Asked(Reconciler(), State(old(world), Retain(c)), old(turns)) ==
              (State(world, if r.Some? then Retain(c) else Idle), turns)
      ensures r.Some? ==> r.value == Listed(world)
      ensures world.name == old(world.name)
    {
      var turn := Await(Retain(c));
      r := if OutcomeOf(turn.fate).Success? then Some(Listed(world)) else None;
    }

    method PatchBackupHistory(ghost c: Backup, history: seq<Entry>)
      modifies this
      ensures Asked(Recorder(history), State(old(world), Retain(c)), old(turns)) == (State(world, Idle), turns)
    {
      var turn := Await(Retain(c));
      if TookEffect(turn.fate) && history != world.cr.status.backupHistory {
        SetCr(world.cr.(status := world.cr.status.(backupHistory := history)));
      }
    }
  }

  // `max_by_key` over the finished Jobs.
  method FindLatestTerminal(jobs: seq<Job>) returns (latest: Option<Job>)
    ensures latest == LatestTerminal(jobs)
  {
    latest := None;
    for i := 0 to |jobs|
      invariant latest == LatestTerminal(jobs[..i])
    {
      assert jobs[..i + 1][..i] == jobs[..i];
      if Terminal(jobs[i]) && (latest.None? || NoLater(StartOf(latest.value), StartOf(jobs[i]))) {
        latest := Some(jobs[i]);
      }
    }
    assert jobs[..|jobs|] == jobs;
  }

  // Cluster, certificates, credentials, ConfigMap.
  method ResolveDependencies(api: ApiServer, backup: Backup) returns (ok: bool)
    modifies api
    ensures Play(Reconciler(), State(old(api.world), ResolveCluster(backup)), old(api.turns)) ==
            Play(Reconciler(), State(api.world, if ok then AfterConfigMap(backup) else Idle), api.turns)
  {
    var outcome, now := api.Request(ResolveCluster(backup));
    if outcome.Crashed? { return false; }
    if outcome.Failure? {
      ok := api.UpdateStatus(backup, ErrorReport(outcome.error, outcome.message));
      return false;
    }

    ok := PrepareConfig(api, backup);
  }

  method PrepareConfig(api: ApiServer, backup: Backup) returns (ok: bool)
    modifies api
    ensures Play(Reconciler(), State(old(api.world), ResolveTls(backup)), old(api.turns)) ==
            Play(Reconciler(), State(api.world, if ok then AfterConfigMap(backup) else Idle), api.turns)
  {
    var resolved := ResolveCredentials(api, backup);
    if !resolved { return false; }

    var outcome, now := api.Request(ApplyConfigMap(backup));
    ok := outcome.Success?;
  }

  // Certificates, whose absence is no error, and credentials.
  method ResolveCredentials(api: ApiServer, backup: Backup) returns (ok: bool)
    modifies api
    ensures Play(Reconciler(), State(old(api.world), ResolveTls(backup)), old(api.turns)) ==
            Play(Reconciler(), State(api.world, if ok then ApplyConfigMap(backup) else Idle), api.turns)
  {
    var outcome, now := api.Request(ResolveTls(backup));
    if outcome.Crashed? { return false; }

    outcome, now := api.Request(ResolveAuth(backup));
    ok := outcome.Success?;
  }

  method ReconcileSchedule(api: ApiServer, backup: Backup, schedule: Schedule) returns (ok: bool)
    requires backup.schedule == Some(schedule)
    modifies api
    ensures Play(Reconciler(), State(old(api.world), ApplyCronJob(backup)), old(api.turns)) ==
            Play(Reconciler(), State(api.world, if ok then AfterSchedule(backup) else Idle), api.turns)
  {
    var outcome, now := api.Request(ApplyCronJob(backup));
    if !outcome.Success? { return false; }
    ok := api.UpdateStatus(backup, if schedule.suspend then SuspendedReport else ScheduledReport(schedule.cron));
  }

  // List, decide, create, report, and take the trigger away.
  method ReconcileOneShot(api: ApiServer, backup: Backup) returns (ok: bool)
    modifies api
    ensures Play(Reconciler(), State(old(api.world), ListForGate(backup)), old(api.turns)) ==
            Play(Reconciler(), State(api.world, if ok then ListForOutcome(backup) else Idle), api.turns)
  {
    var outcome, now := api.Request(ListForGate(backup));
    if !outcome.Success? { return false; }
    var jobs := Listed(api.world);

    if ShouldCreateBackupJob(ClassifyJobs(jobs), backup.triggered) {
      ok := api.CreateBackupJob(backup);
      if !ok { return; }
      ok := api.UpdateStatus(backup, RunningReport);
      if !ok { return; }
    }

    ok := true;
    if backup.triggered {
      ok := api.RemoveTriggerAnnotation(backup);
    }
  }

  // What there is to record of the most recent finished Job, if it is not recorded yet.
  method ChooseReport(cached: KafkaBackupStatus, jobs: seq<Job>, now: int) returns (report: Option<Report>)
    ensures report == OutcomeReport(cached, jobs, now)
  {
    var latest := FindLatestTerminal(jobs);
    if latest.None? { return None; }
    var job := latest.value;
    if JobSucceeded(job) {
      if cached.lastBackup.Some? && cached.lastBackup.value.id == job.name { return None; }
      var entry := Entry(job.name, Completed, StartOf(job).GetOr(now), Some(CompletionOf(job).GetOr(now)), None, None, None);
      return Some(CompletedReport(entry));
    }
    if FailureRecorded(cached, job.name) { return None; }
    return Some(FailedReport(job.name));
  }

  // Record the most recent finished Job, once.
  method CheckJobCompletion(api: ApiServer, backup: Backup) returns (ok: bool)
    modifies api
    ensures Play(Reconciler(), State(old(api.world), ListForOutcome(backup)), old(api.turns)) ==
            (State(api.world, if ok then Retain(backup) else Idle), api.turns)
  {
    var outcome, now := api.Request(ListForOutcome(backup));
    if !outcome.Success? { return false; }
    var report := ChooseReport(backup.status, Listed(api.world), now);
    if report.None? { return true; }
    ok := api.UpdateStatus(backup, report.value);
  }

  // One reconcile from the cached version of the CR with the given index, up to the retention
  // pass: the world it leaves and the turns it takes are those of the machine.
  method ReconcileJobs(api: ApiServer, version: nat) returns (reached: bool)
    requires version < |api.world.versions|
    modifies api
    ensures var backup := old(api.world.versions)[version];
            Play(Reconciler(), Step(State(old(api.world), Idle), Begin(version)), old(api.turns)) ==
            (State(api.world, if reached then Retain(backup) else Idle), api.turns)
  {
    var backup := api.world.versions[version];

    if backup.paused {
      var alreadyCurrent := PausedShown(backup);
      if !alreadyCurrent {
        api.PatchPausedStatus(backup);
      }
      return false;
    }

    if !backup.finalizer {
      var added := api.PatchFinalizer(backup);
      if !added { return false; }
    }
    reached := ReconcileUnpaused(api, backup);
  }

  method ReconcileUnpaused(api: ApiServer, backup: Backup) returns (reached: bool)
    modifies api
    ensures Play(Reconciler(), State(old(api.world), ResolveCluster(backup)), old(api.turns)) ==
            (State(api.world, if reached then Retain(backup) else Idle), api.turns)
  {
    var ok := ResolveDependencies(api, backup);
    if !ok { return false; }

    if backup.schedule.Some? {
      ok := ReconcileSchedule(api, backup, backup.schedule.value);
      if !ok { return false; }
    }

    if backup.schedule.None? || backup.triggered {
      ok := ReconcileOneShot(api, backup);
      if !ok { return false; }
    }

    reached := CheckJobCompletion(api, backup);
  }
}
