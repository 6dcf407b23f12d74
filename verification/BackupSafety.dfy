// Safety of the backup reconciler over every run: how many Jobs it may create, and that the
// last recorded backup only moves forward.
module BackupSafety {
  import opened Wrappers
  import opened JobState
  import opened Conditions
  import opened History
  import opened Labels
  import opened StatusPatch
  import opened Environment
  import opened Runs
  import opened BackupProtocol

  ghost predicate KeepsLabels(owner: string, e: Event) {
    e.Edit? ==> KeepsSelector(e.templateLabels, owner, BackupJob)
  }

  ghost predicate LabelsSafe(s: State) {
    && KeepsSelector(s.world.cr.templateLabels, s.world.name, BackupJob)
    && (forall v :: v in s.world.versions ==> KeepsSelector(v.templateLabels, s.world.name, BackupJob))
    && (!s.pc.Idle? ==> KeepsSelector(s.pc.c.templateLabels, s.world.name, BackupJob))
  }

  // A pass works from one cached CR to its end.
  lemma CacheStays(w: World, pc: Pc, now: int, error: ErrorKind, message: string)
    ensures !Answered(w, pc, now).Idle? ==> !pc.Idle? && Answered(w, pc, now).c == pc.c
    ensures !Erred(pc, error, message).Idle? ==> !pc.Idle? && Erred(pc, error, message).c == pc.c
  {
  }

  lemma AcceptedLabels(w: World, pc: Pc, now: int, stamp: string)
    ensures var v := Accepted(w, pc, now, stamp);
            && v.name == w.name && v.cr.templateLabels == w.cr.templateLabels
            && (v.versions == w.versions || v.versions == w.versions + [v.cr])
  {
  }

  lemma AcceptedJobs(w: World, pc: Pc, now: int, stamp: string)
    ensures var v := Accepted(w, pc, now, stamp);
            && v.name == w.name
            && v.jobs == w.jobs + (if pc.CreateJob? then [JobFor(w, pc.c, stamp)] else [])
            && v.created == w.created + (if pc.CreateJob? then [NewJobName(w.name, stamp)] else [])
  {
  }

  lemma LabelsStaySafe(s: State, e: Event)
    requires LabelsSafe(s) && KeepsLabels(s.world.name, e)
    ensures LabelsSafe(Step(s, e)) && Step(s, e).world.name == s.world.name
  {
    if e.Call? {
      CacheStays(s.world, s.pc, e.now, Kube, "response lost");
      if e.reply.Refused? { CacheStays(s.world, s.pc, e.now, e.reply.error, e.reply.message); }
      AcceptedLabels(s.world, s.pc, e.now, e.stamp);
    }
  }

  ghost predicate OwnJobIn(w: World) { HasOwn(w.jobs, w.name, BackupJob) }

  lemma StepKeepsJobs(s: State, e: Event)
    ensures JobsPersist(s.world.jobs, Step(s, e).world.jobs) && Step(s, e).world.name == s.world.name
  {
    if e.Progress? {
      ProgressKeepsJobs(s.world.jobs, e.job, e.status);
    } else {
      assert forall i :: 0 <= i < |s.world.jobs| ==> Step(s, e).world.jobs[i] == s.world.jobs[i];
    }
  }

  // A reconcile that starts from a cached CR with the trigger set.
  predicate SeesTrigger(s: State, e: Event) {
    e.Begin? && s.pc.Idle? && e.version < |s.world.versions| && s.world.versions[e.version].triggered
  }

  function TriggersSeen(s: State, events: seq<Event>): nat
    decreases |events|
  {
    if events == [] then 0
    else
      var n := |events| - 1;
      TriggersSeen(s, events[..n]) + if SeesTrigger(Exec(s, events[..n]), events[n]) then 1 else 0
  }

  predicate OnSchedule(r: Report) { r.SuspendedReport? || r.ScheduledReport? }

  // A triggered reconcile that may still create its Job.
  predicate Pending(pc: Pc) {
    match pc
    case AddFinalizer(c) => c.triggered
    case ResolveCluster(c) => c.triggered
    case ResolveTls(c) => c.triggered
    case ResolveAuth(c) => c.triggered
    case ApplyConfigMap(c) => c.triggered
    case ApplyCronJob(c) => c.triggered
    case GetStatus(c, r) => c.triggered && OnSchedule(r)
    case PatchStatus(c, r, _) => c.triggered && OnSchedule(r)
    case ListForGate(c) => c.triggered
    case CreateJob(c) => c.triggered
    case _ => false
  }

  ghost predicate Bounded(s: State, triggers: nat) {
    && |s.world.created| + (if Pending(s.pc) then 1 else 0) <= triggers + 1
    && (s.world.created != [] ==> OwnJobIn(s.world))
    && (s.pc.CreateJob? && !s.pc.c.triggered ==> s.world.created == [])
  }

  lemma BoundedCreate(s: State, reply: Reply, now: int, stamp: string, triggers: nat)
    requires LabelsSafe(s) && Bounded(s, triggers) && s.pc.CreateJob?
    ensures Bounded(Called(s, reply, now, stamp), triggers)
  {
    NewJobIsOwn(s.world.jobs, s.world.name, stamp, s.pc.c.cluster, BackupJob, s.pc.c.templateLabels);
  }

  lemma BoundedGate(s: State, reply: Reply, now: int, stamp: string, triggers: nat)
    requires LabelsSafe(s) && Bounded(s, triggers) && s.pc.ListForGate?
    ensures Bounded(Called(s, reply, now, stamp), triggers)
  {
  }

  // Elsewhere no Job is created and no triggered reconcile gets back to before its creation.
  lemma PendingFalls(w: World, pc: Pc, now: int, error: ErrorKind, message: string)
    requires !pc.CreateJob? && !pc.ListForGate?
    ensures Pending(Answered(w, pc, now)) ==> Pending(pc)
    ensures Pending(Erred(pc, error, message)) ==> Pending(pc)
    ensures !Answered(w, pc, now).CreateJob? && !Erred(pc, error, message).CreateJob?
  {
  }

  lemma BoundedCall(s: State, reply: Reply, now: int, stamp: string, triggers: nat)
    requires LabelsSafe(s) && Bounded(s, triggers)
    ensures Bounded(Called(s, reply, now, stamp), triggers)
  {
    if s.pc.CreateJob? {
      BoundedCreate(s, reply, now, stamp, triggers);
    } else if s.pc.ListForGate? {
      BoundedGate(s, reply, now, stamp, triggers);
    } else {
      AcceptedJobs(s.world, s.pc, now, stamp);
      PendingFalls(s.world, s.pc, now, Kube, "response lost");
      if reply.Refused? { PendingFalls(s.world, s.pc, now, reply.error, reply.message); }
    }
  }

  lemma BoundedStep(s: State, e: Event, triggers: nat)
    requires LabelsSafe(s) && Bounded(s, triggers)
    ensures Bounded(Step(s, e), triggers + if SeesTrigger(s, e) then 1 else 0)
  {
    if e.Call? {
      BoundedCall(s, e.reply, e.now, e.stamp, triggers);
    } else {
      StepKeepsJobs(s, e);
      if OwnJobIn(s.world) { OwnJobStays(s.world.jobs, Step(s, e).world.jobs, s.world.name, BackupJob); }
    }
  }

  // Over any run, whatever is refused, lost, crashed or stale and whatever other Jobs come and
  // progress: at most one Job, plus one for each reconcile that saw the trigger.
  lemma {:induction false} CreationBound(s: State, events: seq<Event>)
    requires s.pc.Idle? && s.world.created == [] && LabelsSafe(s)
    requires forall e :: e in events ==> KeepsLabels(s.world.name, e)
    ensures |Exec(s, events).world.created| <= 1 + TriggersSeen(s, events)
    ensures Bounded(Exec(s, events), TriggersSeen(s, events)) && LabelsSafe(Exec(s, events))
    ensures Exec(s, events).world.name == s.world.name
    decreases |events|
  {
    if events != [] {
      var n := |events| - 1;
      CreationBound(s, events[..n]);
      LabelsStaySafe(Exec(s, events[..n]), events[n]);
      BoundedStep(Exec(s, events[..n]), events[n], TriggersSeen(s, events[..n]));
    }
  }

  // A step in which an untriggered reconcile creates a Job.
  predicate CreatesUntriggered(s: State, e: Event) {
    s.pc.CreateJob? && !s.pc.c.triggered && Step(s, e).world.created != s.world.created
  }

  function UntriggeredCreations(s: State, events: seq<Event>): nat
    decreases |events|
  {
    if events == [] then 0
    else
      var n := |events| - 1;
      UntriggeredCreations(s, events[..n]) + if CreatesUntriggered(Exec(s, events[..n]), events[n]) then 1 else 0
  }

  // The other half of the bound: in every run, with any triggers in it too, untriggered
  // reconciles create at most one Job in total.
  lemma {:induction false} UntriggeredCreateOnce(s: State, events: seq<Event>)
    requires s.pc.Idle? && s.world.created == [] && LabelsSafe(s)
    requires forall e :: e in events ==> KeepsLabels(s.world.name, e)
    ensures UntriggeredCreations(s, events) <= 1
    ensures UntriggeredCreations(s, events) <= |Exec(s, events).world.created|
    decreases |events|
  {
    if events != [] {
      var n := |events| - 1;
      UntriggeredCreateOnce(s, events[..n]);
      CreationBound(s, events[..n]);
      CreatedGrows(Exec(s, events[..n]), events[n]);
    }
  }

  lemma CreatedGrows(s: State, e: Event)
    ensures |Step(s, e).world.created| >= |s.world.created|
    ensures Step(s, e).world.created != s.world.created ==> |Step(s, e).world.created| == |s.world.created| + 1
  {
  }

  // A succeeded Job of this CR with that name and start.
  ghost predicate Recorded(jobs: seq<Job>, owner: string, id: string, start: int) {
    exists j :: j in jobs && Matches(j.labels, owner, BackupJob) && j.name == id && HasSucceeded(j) && StartOf(j) == Some(start)
  }

  lemma RecordedStays(before: seq<Job>, after: seq<Job>, owner: string, id: string, start: int)
    requires JobsPersist(before, after) && Recorded(before, owner, id, start)
    ensures Recorded(after, owner, id, start)
  {
  }

  ghost predicate Grounded(w: World, last: Option<LastBackup>) {
    last.Some? ==> Recorded(w.jobs, w.name, last.value.id, last.value.startTime)
  }

  predicate NotBefore(earlier: Option<LastBackup>, start: int) { earlier.Some? ==> earlier.value.startTime <= start }

  ghost predicate ReportFits(w: World, r: Report) {
    r.CompletedReport? ==>
      && Recorded(w.jobs, w.name, r.entry.id, r.entry.startTime)
      && NotBefore(w.cr.status.lastBackup, r.entry.startTime)
  }

  ghost predicate PcFits(w: World, pc: Pc) {
    match pc
    case PatchPaused(c) => c.status.lastBackup.None? || c.status.lastBackup == w.cr.status.lastBackup
    case GetStatus(_, r) => ReportFits(w, r)
    case PatchStatus(_, r, read) => ReportFits(w, r) && read.lastBackup == w.cr.status.lastBackup
    case _ => true
  }

  // Kubernetes gives every finished Job a start time.
  ghost predicate StartsSet(w: World) {
    forall j :: j in w.jobs && Matches(j.labels, w.name, BackupJob) && Terminal(j) ==> StartOf(j).Some?
  }

  ghost predicate Advancing(s: State) {
    && Grounded(s.world, s.world.cr.status.lastBackup)
    && PcFits(s.world, s.pc)
    && StartsSet(s.world)
  }

  // A reconcile of a paused CR starts from a cache whose last backup is the current one.
  ghost predicate PauseIsCurrent(s: State, e: Event) {
    e.Begin? && e.version < |s.world.versions| && s.world.versions[e.version].paused ==>
      s.world.versions[e.version].status.lastBackup == s.world.cr.status.lastBackup
  }

  ghost predicate Moved(before: World, after: World) {
    before.cr.status.lastBackup.Some? ==>
      && after.cr.status.lastBackup.Some?
      && before.cr.status.lastBackup.value.startTime <= after.cr.status.lastBackup.value.startTime
  }

  lemma OutcomeFits(w: World, c: Backup, now: int)
    requires Grounded(w, w.cr.status.lastBackup) && StartsSet(w)
    ensures PcFits(w, Reporting(c, OutcomeReport(c.status, Listed(w), now)))
  {
    var latest := LatestTerminal(Listed(w));
    if latest.Some? && JobSucceeded(latest.value) {
      var i := LatestTerminalExact(Listed(w));
      assert Listed(w)[i] in Listed(w) && latest.value in w.jobs;
      if w.cr.status.lastBackup.Some? {
        var last := w.cr.status.lastBackup.value;
        var j :| j in w.jobs && Matches(j.labels, w.name, BackupJob) && j.name == last.id
                 && HasSucceeded(j) && StartOf(j) == Some(last.startTime);
        assert j in Listed(w);
        var k :| 0 <= k < |Listed(w)| && Listed(w)[k] == j;
        assert NoLater(StartOf(Listed(w)[k]), StartOf(Listed(w)[i]));
      }
    }
  }

  // What a call makes of the last backup.
  lemma AcceptedLast(w: World, pc: Pc, now: int, stamp: string)
    requires PcFits(w, pc)
    ensures var before, after := w.cr.status.lastBackup, Accepted(w, pc, now, stamp).cr.status.lastBackup;
            if pc.PatchStatus? && pc.r.CompletedReport?
            then after.Some? && after.value.id == pc.r.entry.id && after.value.startTime == pc.r.entry.startTime
            else after == before
  {
  }

  // And of the Jobs.
  lemma AcceptedFinished(w: World, pc: Pc, now: int, stamp: string)
    requires StartsSet(w)
    ensures JobsPersist(w.jobs, Accepted(w, pc, now, stamp).jobs) && StartsSet(Accepted(w, pc, now, stamp))
  {
    var v := Accepted(w, pc, now, stamp);
    AcceptedJobs(w, pc, now, stamp);
    assert forall i :: 0 <= i < |w.jobs| ==> v.jobs[i] == w.jobs[i];
    assert forall j :: j in v.jobs ==> j in w.jobs || !Terminal(j);
  }

  lemma AcceptedMoves(w: World, pc: Pc, now: int, stamp: string)
    requires Grounded(w, w.cr.status.lastBackup) && PcFits(w, pc) && StartsSet(w)
    ensures var v := Accepted(w, pc, now, stamp);
            && Moved(w, v)
            && (!pc.PatchStatus? ==> v.cr.status.lastBackup == w.cr.status.lastBackup)
            && (pc.PatchStatus? && !pc.r.CompletedReport? ==> v.cr.status.lastBackup == w.cr.status.lastBackup)
            && Grounded(v, v.cr.status.lastBackup) && StartsSet(v)
  {
    AcceptedLast(w, pc, now, stamp);
    AcceptedFinished(w, pc, now, stamp);
    AcceptedJobs(w, pc, now, stamp);
    var last := w.cr.status.lastBackup;
    var v := Accepted(w, pc, now, stamp);
    if last.Some? { RecordedStays(w.jobs, v.jobs, w.name, last.value.id, last.value.startTime); }
    if pc.PatchStatus? && pc.r.CompletedReport? {
      RecordedStays(w.jobs, v.jobs, w.name, pc.r.entry.id, pc.r.entry.startTime);
    }
  }

  // What the reconcile goes on with fits the Jobs and the status.
  lemma NextFits(w: World, pc: Pc, now: int, stamp: string, error: ErrorKind, message: string)
    requires Grounded(w, w.cr.status.lastBackup) && PcFits(w, pc) && StartsSet(w)
    ensures PcFits(Accepted(w, pc, now, stamp), Answered(w, pc, now))
    ensures PcFits(Accepted(w, pc, now, stamp), Erred(pc, error, message)) && PcFits(w, Erred(pc, error, message))
  {
    if pc.ListForOutcome? { OutcomeFits(w, pc.c, now); }
  }

  lemma AdvancingCall(s: State, reply: Reply, now: int, stamp: string)
    requires Advancing(s)
    ensures var t := Called(s, reply, now, stamp); Advancing(t) && Moved(s.world, t.world)
  {
    AcceptedMoves(s.world, s.pc, now, stamp);
    NextFits(s.world, s.pc, now, stamp, Kube, "response lost");
    if reply.Refused? { NextFits(s.world, s.pc, now, stamp, reply.error, reply.message); }
  }

  lemma AdvancingElsewhere(s: State, e: Event)
    requires Advancing(s) && (e.Progress? || e.Edit? || e.Appear? || e.Retained?) && StartsSet(Step(s, e).world)
    ensures Advancing(Step(s, e)) && Moved(s.world, Step(s, e).world)
  {
    var w, v := s.world, Step(s, e).world;
    StepKeepsJobs(s, e);
    if w.cr.status.lastBackup.Some? {
      RecordedStays(w.jobs, v.jobs, w.name, w.cr.status.lastBackup.value.id, w.cr.status.lastBackup.value.startTime);
    }
    var r := match s.pc case GetStatus(_, r) => r case PatchStatus(_, r, _) => r case _ => RunningReport;
    if r.CompletedReport? { RecordedStays(w.jobs, v.jobs, w.name, r.entry.id, r.entry.startTime); }
  }

  lemma AdvancingStep(s: State, e: Event)
    requires Advancing(s) && PauseIsCurrent(s, e) && StartsSet(Step(s, e).world)
    ensures Advancing(Step(s, e)) && Moved(s.world, Step(s, e).world)
  {
    match e
    case Call(reply, now, stamp) => AdvancingCall(s, reply, now, stamp);
    case Begin(_) =>
    case Crash =>
    case _ => AdvancingElsewhere(s, e);
  }

  ghost predicate WellBehaved(s: State, events: seq<Event>) {
    forall i :: 0 <= i < |events| ==>
      PauseIsCurrent(Exec(s, events[..i]), events[i]) && StartsSet(Step(Exec(s, events[..i]), events[i]).world)
  }

  // Over any run, even when Jobs finish out of order: the last backup names a succeeded Job and
  // its start never decreases. Only the pause path needs a current cache.
  lemma {:induction false} LastBackupNeverGoesBack(s: State, events: seq<Event>)
    requires s.pc.Idle? && Advancing(s) && WellBehaved(s, events)
    ensures Moved(s.world, Exec(s, events).world)
    ensures Grounded(Exec(s, events).world, Exec(s, events).world.cr.status.lastBackup)
    ensures Advancing(Exec(s, events))
    decreases |events|
  {
    if events != [] {
      var n := |events| - 1;
      forall i | 0 <= i < n
        ensures PauseIsCurrent(Exec(s, events[..n][..i]), events[..n][i])
        ensures StartsSet(Step(Exec(s, events[..n][..i]), events[..n][i]).world)
      {
        assert events[..n][..i] == events[..i];
      }
      LastBackupNeverGoesBack(s, events[..n]);
      AdvancingStep(Exec(s, events[..n]), events[n]);
    }
  }

  // A record as this operator writes it.
  predicate PlainRecord(b: LastBackup) { b.completionTime.Some? && NoFigures(b) }

  // Pausing from a stale cache puts back the cached last backup and history, unless it had none.
  lemma PauseKeepsRecordsIff(current: KafkaBackupStatus, c: Backup, now: int)
    requires current.lastBackup.Some? ==> PlainRecord(current.lastBackup.value)
    requires c.status.lastBackup.Some? ==> PlainRecord(c.status.lastBackup.value)
    ensures var after := Patched(current, PausedStatus(c, now));
            && (after.lastBackup == current.lastBackup <==> c.status.lastBackup.None? || c.status.lastBackup == current.lastBackup)
            && (after.backupHistory == current.backupHistory <==>
                  c.status.backupHistory == [] || c.status.backupHistory == current.backupHistory)
  {
  }

  // So the hypothesis on the pause path cannot be dropped: from any state with a paused cached
  // version that records an earlier backup, two steps take the last backup back.
  lemma StalePauseGoesBack(s: State, version: nat, now: int, stamp: string)
    requires s.pc.Idle? && version < |s.world.versions|
    requires var c := s.world.versions[version];
             && c.paused && !PausedShown(c)
             && c.status.lastBackup.Some? && s.world.cr.status.lastBackup.Some?
             && c.status.lastBackup.value.startTime < s.world.cr.status.lastBackup.value.startTime
    ensures !Moved(s.world, Exec(s, [Begin(version), Call(Done, now, stamp)]).world)
  {
    var c := s.world.versions[version];
    RunSnoc(Step, s, [], Begin(version));
    RunSnoc(Step, s, [Begin(version)], Call(Done, now, stamp));
    assert [] + [Begin(version)] == [Begin(version)];
    assert [Begin(version)] + [Call(Done, now, stamp)] == [Begin(version), Call(Done, now, stamp)];
    PauseLands(s, version, c, now, stamp);
  }

  lemma PauseLands(s: State, version: nat, c: Backup, now: int, stamp: string)
    requires s.pc.Idle? && version < |s.world.versions| && c == s.world.versions[version] && c.paused && !PausedShown(c)
    ensures var t := Step(Step(s, Begin(version)), Call(Done, now, stamp));
            t.world.cr.status.lastBackup == Patched(s.world.cr.status, PausedStatus(c, now)).lastBackup
  {
  }
}
