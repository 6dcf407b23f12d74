// One backup, one id: where a Job writes, what the history and the last backup record, and what
// a restore reads.
module BackupIds {
  import opened Wrappers
  import opened Sorting
  import opened JobState
  import opened Conditions
  import opened History
  import opened Labels
  import opened ObjectStore
  import opened StatusPatch
  import opened Environment
  import opened PodConfig
  import Protocol = BackupProtocol
  import Safety = BackupSafety

  // The value of a variable in the pod of a Job.
  function ValueInPod(p: PodParts, name: EnvName, jobName: string): Option<string> {
    match Effective(p.env, name)
    case Some(JobNameLabel) => Some(jobName)
    case Some(UserValue(value)) => Some(value)
    case Some(StaticPath(path)) => Some(path)
    case _ => None
  }

  // The id a Job with this config and pod writes its backup under.
  predicate WritesUnder(c: Config, p: PodParts, jobName: string, id: string) {
    match c.backupId
    case User(text) => id == text
    case Placeholder(name) => ValueInPod(p, name, jobName) == Some(id)
    case _ => false
  }

  // In every backup pod BACKUP_ID is what the user sets it to last, and without that the name
  // of the owning Job.
  lemma BackupIdValue(configMap: string, cluster: string, tls: bool, auth: ResolvedAuth, storage: Storage,
                      caOverride: Option<SecretKeyRef>, extra: seq<UserVar>, jobName: string)
    ensures ValueInPod(BackupPod(configMap, cluster, tls, auth, storage, caOverride, extra), BACKUP_ID, jobName) ==
            Some(LastUserValue(extra, BACKUP_ID).GetOr(jobName))
  {
    var p := VolumesAndMounts(configMap, cluster, tls, auth, storage, caOverride);
    EffectiveSnoc(p, BACKUP_ID, JobNameLabel, BACKUP_ID);
    UserWins(WithEnv(p, BACKUP_ID, JobNameLabel), extra, BACKUP_ID);
  }

  // The status after the completed Job was recorded.
  function AfterCompletion(s: KafkaBackupStatus, job: Job, generation: int, now: int): KafkaBackupStatus {
    Protocol.Landed(s, s, Protocol.CompletedReport(Protocol.EntryFor(job, now)), generation, now)
  }

  // The recorded ids, and the id a restore without an explicit one resolves to, are the Job's
  // name, which the retention filter takes for the CR's own.
  lemma RecordedIdsAgree(owner: string, stamp: string, s: KafkaBackupStatus, job: Job, generation: int, now: int)
    requires job.name == NewJobName(owner, stamp)
    ensures var t := AfterCompletion(s, job, generation, now);
            && t.lastBackup.Some? && t.lastBackup.value.id == job.name
            && (exists x :: x in t.backupHistory && x.id == job.name
                            && x.startTime == t.lastBackup.value.startTime
                            && x.completionTime == t.lastBackup.value.completionTime)
            && (StartOf(job).Some? ==> t.lastBackup.value.startTime == StartOf(job).value)
            && (CompletionOf(job).Some? ==> t.lastBackup.value.completionTime == CompletionOf(job))
            && ResolveBackupId(None, Some(t.lastBackup.value.id)) == Ok(job.name)
    ensures BelongsTo(job.name, owner)
  {
    var e := Protocol.EntryFor(job, now);
    var placed := Placed(s.backupHistory, e);
    var i := IndexOf(s.backupHistory, e.id);
    assert placed[i] == e && placed[i] in placed;
    SortPermutes(NewerFirst, placed);
    assert placed[i] in multiset(placed) && placed[i] in Upserted(s.backupHistory, e);
  }

  // The id the Job writes under is the recorded one, the Job's name, exactly when the backup is
  // not incremental and no user variable gives BACKUP_ID another value. An incremental one
  // writes under the name of its CR whatever the variable says.
  lemma BackupIdAgreementIff(owner: string, stamp: string, offsetStorage: bool, continuous: Option<bool>, tls: bool,
                             auth: ResolvedAuth, storage: Storage, configMap: string, cluster: string,
                             caOverride: Option<SecretKeyRef>, extra: seq<UserVar>)
    requires BackupConfig(owner, offsetStorage, continuous, tls, auth, storage).Ok?
    ensures var c := BackupConfig(owner, offsetStorage, continuous, tls, auth, storage).value;
            var p := BackupPod(configMap, cluster, tls, auth, storage, caOverride, extra);
            var jobName := NewJobName(owner, stamp);
            && (WritesUnder(c, p, jobName, jobName) <==>
                  && !(offsetStorage && continuous != Some(true))
                  && (LastUserValue(extra, BACKUP_ID).None? || LastUserValue(extra, BACKUP_ID) == Some(jobName)))
            && (offsetStorage && continuous != Some(true) ==> WritesUnder(c, p, jobName, owner))
  {
    var jobName := NewJobName(owner, stamp);
    BackupIdValue(configMap, cluster, tls, auth, storage, caOverride, extra, jobName);
    assert |jobName| > |owner|;
  }

  // A user's BACKUP_ID diverts the backup: it is written under that value and recorded under
  // the Job's name.
  lemma UserBackupIdDiverts(owner: string, stamp: string, continuous: Option<bool>, tls: bool, auth: ResolvedAuth,
                            storage: Storage, configMap: string, cluster: string, caOverride: Option<SecretKeyRef>,
                            value: string, s: KafkaBackupStatus, job: Job, generation: int, now: int)
    requires BackupConfig(owner, false, continuous, tls, auth, storage).Ok?
    requires job.name == NewJobName(owner, stamp) && value != job.name
    ensures var c := BackupConfig(owner, false, continuous, tls, auth, storage).value;
            var p := BackupPod(configMap, cluster, tls, auth, storage, caOverride, [UserVar(BACKUP_ID, value)]);
            var t := AfterCompletion(s, job, generation, now);
            && WritesUnder(c, p, job.name, value)
            && t.lastBackup.Some? && !WritesUnder(c, p, job.name, t.lastBackup.value.id)
  {
    var extra := [UserVar(BACKUP_ID, value)];
    assert extra[1..] == [];
    BackupIdValue(configMap, cluster, tls, auth, storage, caOverride, extra, job.name);
    RecordedIdsAgree(owner, stamp, s, job, generation, now);
  }

  // Over any run, a restore without an explicit id reads the backup of a Job that succeeded.
  lemma RestoreReadsSucceededBackup(s: Protocol.State, events: seq<Protocol.Event>, id: string)
    requires s.pc.Idle? && Safety.Advancing(s) && Safety.WellBehaved(s, events)
    requires var last := Protocol.Exec(s, events).world.cr.status.lastBackup;
             ResolveBackupId(None, if last.Some? then Some(last.value.id) else None) == Ok(id)
    ensures var w := Protocol.Exec(s, events).world;
            exists j :: j in w.jobs && Matches(j.labels, w.name, BackupJob) && j.name == id && HasSucceeded(j)
  {
    Safety.LastBackupNeverGoesBack(s, events);
    var w := Protocol.Exec(s, events).world;
    var last := w.cr.status.lastBackup.value;
    var j :| j in w.jobs && Matches(j.labels, w.name, BackupJob) && j.name == last.id && HasSucceeded(j)
             && StartOf(j) == Some(last.startTime);
  }
}
