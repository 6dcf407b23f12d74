# Verified model of the Kafka backup operator

The operator watches KafkaBackup and KafkaRestore resources, creates the Jobs and CronJobs that
do the work, reports on them in the resources' statuses, and prunes old backups from an object
store. This project models the parts of it in which something can go wrong over time, or between
two pieces of code that must agree, and proves what they guarantee.

**The reconcilers as protocols.** `RestoreProtocol` and `BackupProtocol` are state machines in
which every API call of a reconcile is a step. Between two calls the Job controller, the user and
other parties act; the operator may crash after any call; a call may take effect although its
answer is lost; a reconcile starts from a cached resource that may be any earlier version of it.
`RestoreReconciler`, `BackupReconciler` and `BackupRetention` hold the reconcilers in the order of
their code and prove that under the same interference, answers and crashes they do exactly what
the machine does, so that every execution is one of its runs. The theorems speak of all runs: at
most one restore Job (`RestoreSafety`, with the exact condition on template labels in
`RestoreConvergence`), statuses that tell the truth, phases that only move forward
(`RestorePhases`), a bound on backup Jobs and a last backup that never goes back
(`BackupSafety`, `StalePause`), and, for a fresh cache and a quiet environment, the exact fixed
points and how many passes reach them (`RestoreConvergence`; `BackupConvergence` up to the
retention pass, `BackupSettling` with it, status and storage together, `QuietReconcile` for the
code-ordered form). `Environment`, `Runs` and `Turns` hold what the two machines share. One
reconcile of a resource runs at a time, and nobody deletes Jobs. In the machine of runs a retention
pass ends in a patch of the history to any value; which value it is, the contract of
`BackupRetention.ApplyRetentionPolicy` says.

**Retention as a whole pass.** `History` is the in-place vector of backups and refines a map, also
when a discovery repeats ids (`RepeatedIds`); `RetentionPolicy` keeps a prefix of the stable
newest-first order; `ObjectKeys`, `Layouts` and `ObjectStore` are the string prefixes, listing and
deleting under every configured prefix, any call of which may fail, and `StoreByKey` is the same
seen by key; `RetentionPass` puts them together as the reconciler does. `RetentionGuarantees`
proves that a successful pass is exact and, with `Reentry`, exactly when the pass after a failed
one makes it good; `Ownership` that passes repeat without effect and keep to their own CR's ids.

**Status writes.** `MergePatch` is JSON Merge Patch (section 2 of RFC 7396); `StatusPatch` and
`RestoreStatusPatch` prove when sending a record that skips absent fields writes what was meant.
`Conditions` is the in-place update of a condition list.

**Generators that must agree.** `Listener` is the choice of a Kafka listener, `PodConfig` the
config file against the pod that reads it, `PodSecrets` where every variable, file and config value
comes from, `BackupIds` the id a backup is written, recorded and restored under, `Labels` and
`JobState` the labels and the classification of Jobs. `RestoreShows` and `BackupShows` say what a
user reads in a status.

Several guarantees one might expect are false of the code. Each is given with its exact
condition or a run that breaks it:

- A template label may override a selector label; then every pass creates another restore Job
  (`AtMostOnceIff`).
- A pause written from a stale cache takes the last backup back (`PauseKeepsRecordsIff`,
  `StalePauseGoesBack`; `StalePauseReachable` is a run to it from a fresh resource).
- The comment on the backup gate says a trigger never stacks onto an active Job; it does exactly
  when some Job has already succeeded (`TriggerStacksIff`, src/jobs/job_state.rs:79-88).
- A scheduled backup whose latest finished Job failed never settles (`TwoPassesSettleIff`,
  `FailedScheduleNeverSettles`).
- A pass that failed half-way is not always made good by the next. The history comes out as it
  would have exactly if no pruned backup whose manifest is gone ranks, by its recorded entry, among
  the kept ones (`RetryAfterFailure`, `HistoryAlwaysRecoversIff`); that is a comparison of the
  recorded start with the last kept entry, or with the cutoff where only age limits
  (`ReentersByStart`; `LateStartBreaksRetry` is an input). Storage then does exactly if no object of
  a backup unknown to the recorded history is left.
- Below a prefix with an empty segment a key does not lead back to its object (`KeyRoundTripIff`):
  a pass that succeeds drops ids and deletes none of their objects
  (`EmptySegmentPassDeletesNothing`).
- Merging the same discovery twice may reorder ties when an id repeats in it, as it can in storage
  (`RepeatedDiscoveryReordersTies`, `StorageMayRepeatIds`); the third merge changes nothing.
- CRs whose names extend each other by a dash may prune each other's backups (`OwnersCollideIff`).
- A backup is not always written under the name it is recorded under: an incremental one is written
  under the name of its CR, and a user's BACKUP_ID variable overrides the operator's
  (`BackupIdAgreementIff`, `UserBackupIdDiverts`).

Instants are integers. In a restore, `RestoreInfo` is kept to the two instants the operator sets.

## Model

| member | source | states |
|---|---|---|
| RestoreSafety.AtMostOnce | src/reconcilers/restore.rs:61-225 | In every run, with any refusals, lost answers, crashes, stale caches, pauses, edits that keep the selector labels, foreign Jobs and Job progress, at most one restore Job is created. |
| RestoreSafety.StatusTellsTheTruth | src/reconcilers/restore.rs:63-136 | In every run RestoreComplete is shown only if a Job of this restore has a succeeded pod or the Complete condition, RestoreFailed only if one has the Failed condition and neither of those; the same of every cached version. |
| RestoreSafety.CompletionDetails | src/reconcilers/restore.rs:83-111 | The start and completion reported are those of one Job of this restore that succeeded, or the present where it has none. |
| RestoreSafety.StepKeepsJobs | src/reconcilers/restore.rs:71-80 | No step of any party deletes or relabels a Job, takes back its outcome or moves its start. |
| RestoreSafety.OnceStep | src/reconcilers/restore.rs:138-225 | What every step keeps: at most one Job created, a created Job still matches the selector, and while a Job is being prepared none was created. |
| RestoreSafety.SoundStep | src/reconcilers/restore.rs:342-436 | Every step keeps all statuses, shown and cached and about to be written, true of the Jobs. |
| RestorePhases.PhasesMoveForward | src/reconcilers/restore.rs:342-421 | Over every run without impostor Jobs the status writes move forward: after completion only completion or pause, after failure only failure or pause, no dependency error once the Job ran. |
| RestorePhases.OutcomeIsFinal | src/reconcilers/restore.rs:63-136 | Once completion or failure is shown and true, later reconciles create nothing, write only that outcome or a pause, and only a pause hides it. |
| RestorePhases.DecisionFits | src/reconcilers/restore.rs:82-136 | The decision after the list call never contradicts a status written before. |
| RestorePhases.PhasedStep | src/reconcilers/restore.rs:45-225 | What every step keeps of the order of writes and of the Jobs that back them. |
| RestoreConvergence.AtMostOnceIff | src/jobs/templates.rs:422-433 | For a CR nobody edits, no run creates two restore Jobs if and only if the template keeps the two selector labels. |
| RestoreConvergence.OverrideCreatesTwice | src/reconcilers/restore.rs:77-80 | A template that overrides a selector label has a run that creates two Jobs. |
| RestoreConvergence.PassEnds | src/reconcilers/restore.rs:27-225 | A reconcile whose calls are answered ends within nine calls, in a world given by the cached CR and the Jobs. |
| RestoreConvergence.FixedPointIff | src/reconcilers/restore.rs:45-136 | The states a quiet reconcile leaves unchanged are exactly those with nothing left to report. |
| RestoreConvergence.OnePassStabilises | src/reconcilers/restore.rs:82-136 | After any history, one quiet reconcile reaches a state every further one leaves unchanged. |
| RestoreConvergence.PassTellsTheVerdict | src/reconcilers/restore.rs:82-136 | After a quiet unpaused reconcile there is a Job and the status says what the Jobs say. |
| Runs.BegunIsRun | src/reconcilers/restore.rs:27-225 | A reconcile that begins and whose calls are then all answered is a run of its machine. |
| RestoreReconciler.ReconcileRestore | src/reconcilers/restore.rs:27-136 | The reconcile in the order of its code leaves, under any interference, answers and crashes, exactly the world the state machine leaves, after the same calls. |
| RestoreReconciler.OthersAreExternal | src/reconcilers/restore.rs:45-225 | Between two calls all may happen that is not the operator's own doing. |
| RestoreReconciler.CreateRestore | src/reconcilers/restore.rs:138-225 | Resolving, creating and reporting does exactly what the machine does. |
| RestoreReconciler.ResolveDependencies | src/reconcilers/restore.rs:140-201 | Resolving backup, cluster, certificates, credentials and ConfigMap, with the error report, does exactly what the machine does. |
| RestoreReconciler.PrepareConfig | src/reconcilers/restore.rs:166-201 | Certificates, whose absence is no error, credentials and ConfigMap, in that order, do exactly what the machine does. |
| Turns.PlayIsRun | src/reconcilers/restore.rs:27-225 | Whatever a machine plays against given interference, answers and crashes is one of its runs, made of those events. |
| RestoreReconciler.ApiServer.PatchRestoreStatus | src/reconcilers/restore.rs:342-436 | A status write changes the status as the machine says, or not at all if refused or crashed. |
| RestoreReconciler.ApiServer.CreateRestoreJob | src/reconcilers/restore.rs:203-219 | A create adds the built Job even if its answer is lost, and nothing if the name is taken or it is refused. |
| RestoreReconciler.ApiServer.PatchFinalizer | src/reconcilers/restore.rs:51-59 | The finalizer is added or the reconcile ends. |
| RestoreReconciler.ApiServer.ListRestoreJobs | src/reconcilers/restore.rs:76-80 | The list call yields the Jobs the selector matches, or ends the reconcile. |
| RestoreProtocol.ShownIs | src/reconcilers/restore.rs:230-237 | Each status write is recognised later as what it reports and as nothing else. |
| RestoreShows.WriteShows | src/reconcilers/restore.rs:342-421 | What each status write shows on the fields: type, status, reason and time of its conditions, the messages, the restore details, the generation. |
| RestoreShows.RecognisedOnFields | src/reconcilers/restore.rs:63-136 | Which conditions make a status count as complete, failed or running. |
| RestoreShows.PauseIsShown | src/reconcilers/restore.rs:27-49 | A quiet reconcile of a paused restore shows the pause for the present generation, and changes nothing exactly if it is shown already. |
| RestoreShows.CreationShows | src/reconcilers/restore.rs:203-219 | An accepted create adds one Job, named after the CR and the stamp, labelled with its cluster and not started, and nothing else. |
| RestoreShows.ReconcileShows | src/reconcilers/restore.rs:82-136 | After a quiet reconcile of a restore that was neither paused nor complete: complete if a Job succeeded, failed if there are Jobs and all failed for good, running otherwise, the case without Jobs included. |
| RestoreShows.ClusterErrorIsShown | src/reconcilers/restore.rs:150-163 | A target cluster that cannot be resolved ends the reconcile with the error's reason and message on the status, and no Job. |
| RestoreShows.RefusalEnds | src/reconcilers/restore.rs:140-219 | Missing certificates do not end the reconcile, an unresolved cluster is reported, every other refusal ends it with nothing changed. |
| RestoreStatusPatch.RestorePatchIsWritten | src/reconcilers/restore.rs:423-436 | The merge patch of the record each write builds leaves the status the protocol goes on with: conditions replaced, restore details kept unless sent. |
| Environment.NewJobIsOwn | src/jobs/restore_job.rs:36-37 | A Job built from a template that keeps the selector labels is found by the selector. |
| Environment.EmptyListNoJob | src/jobs/job_state.rs:27-44 | The verdict is that there are no Jobs exactly when no Job in the namespace matches the selector. |
| Environment.OthersMayAct | src/reconcilers/restore.rs:71-75 | Between two calls the others may put any status on a Job that keeps its outcome and start, and add any Job under a free name. |
| Environment.OwnJobStays | src/reconcilers/restore.rs:71-75 | A Job that matched the selector goes on matching it. |
| Environment.Reason | src/error.rs:56-74 | No error reason, of any kind of error, is a Job-failure reason. |
| Environment.ReasonNames | src/error.rs:56-74 | Which kind of error each reason names. |
| Environment.ReasonsDiffer | src/error.rs:56-74 | Two kinds of error share a reason only if both are serialisation errors. |
| Labels.BuiltJobMatchesIff | src/jobs/templates.rs:15-37 | A built Job matches the selector of its CR exactly when the template keeps the two selector labels. |
| Labels.BuiltJobMatchesOtherIff | src/reconcilers/backup.rs:325-329 | Any selector, of any CR and type, finds a built Job exactly when the template gives the two selector labels those values or leaves them to a builder of that CR and type. |
| Labels.BuiltJobMatchesNoOther | src/jobs/templates.rs:15-37 | A built Job whose template keeps the selector labels matches the selector of no other CR and no other type. |
| Labels.SelectorOnFields | src/reconcilers/backup.rs:325-329 | The selectors as they are sent: the owner under the key of the type, and the type. |
| Labels.LabelsOnFields | src/jobs/templates.rs:15-37 | Each label of a built Job, from the template or else the standard ones; it has no others. |
| Labels.BuildJobLabels | src/jobs/backup_job.rs:32-33 | Standard labels inserted one by one, then overridden by the template. |
| JobState.VerdictOnFields | src/jobs/job_state.rs:27-60 | Each verdict on the fields of the Jobs, in both directions: succeeded, with the first such Job's name, exactly if some Job has a succeeded pod or the Complete condition; failed, with the first Job's name, exactly if there are Jobs and each has the Failed condition and neither of those; else in progress or no Jobs. |
| JobState.PodCountsPlayNoPart | src/jobs/job_state.rs:55-60 | How many pods of a Job run or have failed changes neither the verdict nor the gates. |
| JobState.GatesExact | src/jobs/job_state.rs:73-88 | The gates open exactly on no Job; triggered also on a success or when all failed for good, both on the fields. |
| JobState.GateIgnoresOrder | src/jobs/job_state.rs:82-88 | The backup gate does not depend on the order of the list. |
| JobState.TriggerStacksIff | src/jobs/job_state.rs:79-88 | With a Job unfinished, a trigger stacks another onto it exactly when some Job succeeded. |
| JobState.FindIsFirst | src/jobs/job_state.rs:28-42 | The Job found is the first with the property, and none is found exactly when none has it. |
| BackupSafety.CreationBound | src/reconcilers/backup.rs:145-188 | In every run the Jobs created number at most one plus the reconciles that saw the trigger. |
| BackupSafety.UntriggeredCreateOnce | src/reconcilers/backup.rs:145-162 | In every run, triggers or not, untriggered reconciles create at most one Job in total. |
| BackupSafety.BoundedStep | src/reconcilers/backup.rs:152-188 | What every step keeps of that bound. |
| BackupSafety.LastBackupNeverGoesBack | src/reconcilers/backup.rs:407-467 | Over every run with start times set and a current cache on the pause path, lastBackup names a succeeded Job with that start, and its start never decreases. |
| BackupSafety.OutcomeFits | src/reconcilers/backup.rs:418-467 | The Job chosen for recording started no earlier than the one recorded. |
| BackupSafety.PauseKeepsRecordsIff | src/reconcilers/backup.rs:497-514 | A pause leaves lastBackup and history alone exactly when the cached ones are empty or current. |
| BackupSafety.StalePauseGoesBack | src/reconcilers/backup.rs:503-513 | From any state with a paused cached version that records an earlier backup, two steps take lastBackup back. |
| StalePause.StalePauseReachable | src/reconcilers/backup.rs:497-514 | From every fresh one-shot backup a run leads to that regression: recorded, paused, unpaused, recorded again, and a pause from the cache. |
| BackupProtocol.LatestTerminalExact | src/reconcilers/backup.rs:421-430 | The Job chosen is finished, starts no earlier than any finished one and is the last of those. |
| BackupProtocol.OutcomeIgnoresPods | src/reconcilers/backup.rs:421-478 | How many pods run or have failed changes neither the Job chosen nor what is reported of it. |
| BackupConvergence.PassEnds | src/reconcilers/backup.rs:32-191 | A reconcile whose calls are answered comes, within sixteen calls, to its end or its retention pass, in the world its stretches make of the cached CR and the Jobs. |
| BackupShows.LandedShows | src/reconcilers/backup.rs:490-610 | What each report shows on the fields: type, status, reason and time of its conditions, the messages, the generation. |
| BackupShows.ScheduleIsShownOnTheWay | src/reconcilers/backup.rs:134-141 | Once the schedule's report is answered the next run is unset and the reason BackupSuspended if the schedule is suspended, else the next run is its cron text and the reason BackupScheduled. |
| BackupShows.RecordShows | src/reconcilers/backup.rs:571-598 | A recorded success is the last backup, with all the entry gives, and its id is in the history. |
| BackupShows.PauseIsShown | src/reconcilers/backup.rs:497-514 | A quiet reconcile of a paused backup shows the pause for the present generation, and changes nothing exactly if it is shown already. |
| BackupShows.CreationShows | src/reconcilers/backup.rs:160-184 | An accepted create adds one Job, named after the CR and the stamp, labelled with its cluster and not started, and nothing else. |
| BackupShows.ReconcileShows | src/reconcilers/backup.rs:114-192 | What a whole quiet reconcile leaves: that next run; and the reason of a newly finished Job if there is one, else of the Job just created, else of the schedule. |
| BackupShows.QuiescentShowsSchedule | src/reconcilers/backup.rs:516-569 | A state that quiet reconciles leave alone shows the schedule in next run and reason. |
| BackupShows.ClusterErrorIsShown | src/reconcilers/backup.rs:72-86 | A cluster that cannot be resolved ends the reconcile with the error's reason and message on the status, and no Job. |
| BackupShows.RefusalEnds | src/reconcilers/backup.rs:71-192 | Missing certificates do not end the reconcile, an unresolved cluster is reported, every other refusal ends it with nothing changed. |
| BackupSettling.FixedPointIff | src/reconcilers/backup.rs:48-192 | The states, of cluster and storage, that a whole quiet reconcile leaves unchanged are exactly the quiescent ones whose history and storage the retention pass leaves alone. |
| BackupSettling.TwoPassesSettleIff | src/reconcilers/backup.rs:114-192 | After two whole quiet reconciles a third with the second's clock changes neither status nor storage, if and only if the backup is not an unpaused schedule whose latest finished Job failed. |
| BackupSettling.OnePassSettles | src/reconcilers/backup.rs:48-192 | A paused backup, and a one-shot backup nobody triggered, settle in one, storage untouched. |
| QuietReconcile.QuietReconcileIsSitePass | src/reconcilers/backup.rs:32-195 | The reconcile in code order, when all its calls are answered and nobody else acts, ends within nineteen calls where those theorems say, having set out to prune the ids they say. |
| QuietReconcile.QuietStoreIsSitePass | src/retention/storage.rs:139-175 | And the store then holds what they say. |
| QuietReconcile.FailedPassRecordsNothing | src/reconcilers/backup.rs:346-366 | A retention pass whose discovery or deletion fails leaves the recorded history alone, and after a failed discovery deletes nothing. |
| BackupConvergence.FailedScheduleNeverSettles | src/reconcilers/backup.rs:470-485 | A schedule whose latest finished Job failed is never quiescent. |
| BackupConvergence.OneShotSettles | src/reconcilers/backup.rs:152-188 | A one-shot backup nobody triggered is quiescent after one quiet reconcile. |
| BackupConvergence.RecordedScheduleSettles | src/reconcilers/backup.rs:516-569 | A schedule whose finished Jobs are recorded is quiescent after one quiet reconcile up to the retention pass. |
| BackupConvergence.PausedSettles | src/reconcilers/backup.rs:48-56 | A paused backup is quiescent after one. |
| BackupSettling.SitePassLeaves | src/reconcilers/backup.rs:58-192 | After any whole unpaused quiet reconcile: finalizer set, trigger gone, a latest success recorded, the latest finished Job unchanged, ids in the history unique and slash-free if they were. |
| BackupSettling.SitePassSettlesRetention | src/reconcilers/backup.rs:331-375 | And a further retention pass with the same clock would change neither history nor storage. |
| BackupConvergence.StatusNeverMixesScheduleAndError | src/reconcilers/backup.rs:516-610 | In every run no status shows both a schedule and an error. |
| BackupConvergence.GateShutIff | src/reconcilers/backup.rs:158-162 | Untriggered, the gate is open exactly for a one-shot backup without Jobs. |
| BackupRetention.ReconcileBackup | src/reconcilers/backup.rs:32-195 | The whole reconcile in the order of its code leaves, under any interference, answers, crashes and store failures, exactly the world that the machine and then the retention pass leave, after the same calls, and in the store what the pass leaves. |
| BackupRetention.ReconcileIsRun | src/reconcilers/backup.rs:32-195 | Whatever a whole reconcile does is a run of the machine, made of the events given to it, a patch of the history and its own end. |
| BackupReconciler.OthersAreExternal | src/reconcilers/backup.rs:45-195 | Between two calls all may happen that is not the operator's own doing. |
| BackupReconciler.ReconcileJobs | src/reconcilers/backup.rs:32-66 | Up to the retention pass the reconcile in code order does exactly what the machine does. |
| BackupReconciler.ReconcileUnpaused | src/reconcilers/backup.rs:58-191 | The stretches between the finalizer and the retention pass, in order, do exactly what the machine does. |
| BackupReconciler.ResolveDependencies | src/reconcilers/backup.rs:71-112 | Resolving cluster, certificates, credentials and ConfigMap, with the error report, does exactly what the machine does. |
| BackupReconciler.PrepareConfig | src/reconcilers/backup.rs:87-112 | Certificates, whose absence is no error, credentials and ConfigMap, in that order, do exactly what the machine does. |
| BackupReconciler.ReconcileSchedule | src/reconcilers/backup.rs:114-142 | Applying the CronJob and reporting the schedule does exactly what the machine does. |
| BackupReconciler.ReconcileOneShot | src/reconcilers/backup.rs:152-188 | Gate, creation, report and trigger removal do exactly what the machine does. |
| BackupReconciler.CheckJobCompletion | src/reconcilers/backup.rs:407-488 | Recording the latest finished Job once does exactly what the machine does. |
| BackupReconciler.ChooseReport | src/reconcilers/backup.rs:421-478 | What is reported of the latest finished Job, and when nothing is, as specified. |
| BackupReconciler.FindLatestTerminal | src/reconcilers/backup.rs:421-430 | The scan finds the latest finished Job as specified. |
| BackupReconciler.ApiServer.UpdateStatus | src/reconcilers/backup.rs:490-614 | Reading, changing and patching the status, with interference in between, does exactly what the machine does. |
| BackupReconciler.ApiServer.PatchPausedStatus | src/reconcilers/backup.rs:497-514 | The pause is written from the cached status. |
| BackupReconciler.ApiServer.CreateBackupJob | src/reconcilers/backup.rs:163-176 | A create adds the built Job even if its answer is lost, and nothing if refused or the name is taken. |
| BackupReconciler.ApiServer.PatchBackupHistory | src/reconcilers/backup.rs:638-651 | The patch sets the history and nothing else, or fails. |
| History.MergeRefinesMap | src/reconcilers/backup.rs:616-624 | From unique ids the merged vector has unique ids, is sorted newest first, and as a map is the old one overridden by the discovered entries one by one. |
| History.MergeClosedForm | src/reconcilers/backup.rs:616-636 | For a duplicate-free discovery: the ids are the union, and each entry is the discovered one with the old completion time where it has none, or the old one. |
| History.MergeOnFields | src/reconcilers/backup.rs:616-636 | The same field by field: status, start and figures of a discovered id are the discovered ones, its completion time too unless only the recorded entry has one. |
| History.UpsertRefinesMap | src/reconcilers/backup.rs:626-636 | One upsert refines overriding one key of the map. |
| History.MergeIdempotent | src/reconcilers/backup.rs:616-624 | Merging the same duplicate-free discovery again changes nothing, not even the order of ties. |
| RepeatedIds.RepeatedDiscoveryReordersTies | src/reconcilers/backup.rs:616-624 | With a repeated id in the discovery a second merge may reorder ties. |
| RepeatedIds.SecondMergeSameMap | src/reconcilers/backup.rs:616-636 | Whatever repeats, the second merge gives the same map. |
| RepeatedIds.ThirdMergeChangesNothing | src/reconcilers/backup.rs:616-636 | And the third the same vector, order of ties included. |
| RepeatedIds.StorageMayRepeatIds | src/retention/storage.rs:111-134 | A storage whose discovery repeats an id. |
| History.BackupHistory.Upsert | src/reconcilers/backup.rs:626-636 | The in-place update and sort give the specified vector. |
| History.BackupHistory.Merge | src/reconcilers/backup.rs:616-624 | The loop of upserts and the last sort give the specified vector. |
| History.BackupHistory.Retain | src/reconcilers/backup.rs:364-364 | Exactly the entries whose id was not pruned stay, in order. |
| Sorting.SortStable | src/retention/policy.rs:18-20 | Sorting keeps the input order within every class of ties. |
| Sorting.SortedStableUnique | src/retention/policy.rs:18-20 | A sorted rearrangement with the same order within classes is the sorted one. |
| RetentionPolicy.KeepsNewestPrefix | src/retention/policy.rs:8-54 | Given unique ids the result is, without repetition, exactly the ids outside a prefix of the stable newest-first order. |
| RetentionPolicy.KeepCountOnFields | src/retention/policy.rs:22-54 | The length of that prefix: at most maxBackups unless that is negative, none in it started more than maxAge ago if that is a duration, and the next entry is beyond the one or older than the other. |
| RetentionPolicy.EvaluateRetention | src/retention/policy.rs:8-54 | The two loops compute the specified list. |
| RetentionPolicy.EvaluatedExact | src/retention/policy.rs:22-51 | An id is in the list exactly when it is beyond the count limit or older than the cutoff; no id is in it twice. |
| RetentionPolicy.MarkBeyond | src/retention/policy.rs:25-30 | The first loop adds each id beyond the limit once. |
| RetentionPolicy.MarkOlder | src/retention/policy.rs:38-47 | The second loop adds each id older than the cutoff once. |
| RetentionPolicy.NegativeMaxBackupsIsNoLimit | src/retention/policy.rs:23-24 | A negative maxBackups imposes no count limit. |
| Durations.DurationExact | src/retention/policy.rs:57-73 | The strings accepted are exactly white space, an optional sign, digits, a known unit and white space, with a count that fits 64 bits. |
| Durations.SpelledDuration | src/retention/policy.rs:57-73 | Such a string is read as that signed count of that unit, and rejected if the count does not fit. |
| Durations.DurationRoundTrip | src/retention/policy.rs:57-73 | Every signed 64-bit count with a unit, padded with white space, is read back from its numeral. |
| Durations.SpaceIs | src/retention/policy.rs:58 | White space is that of Unicode. |
| Durations.CountIs | src/retention/policy.rs:66-70 | A count of a unit is that many of its milliseconds: a second a thousand, a minute sixty seconds, an hour sixty minutes, a day twenty-four hours, a week seven days. |
| Durations.UnitsRelate | src/retention/policy.rs:65-72 | Those five letters are the units, and each is that long. |
| ObjectKeys.StripJoin | src/retention/storage.rs:35-43 | Stripping the prefix from a joined nonempty key returns the key without leading slashes. |
| ObjectKeys.ListedKey | src/retention/storage.rs:52-64 | For a prefix without empty segments a listed key leads back to the path that was listed. |
| ObjectKeys.KeyRoundTripIff | src/retention/storage.rs:31-43 | Exactly the prefixes without empty segments support the round trip from key to location and back. |
| ObjectKeys.NormalizeExact | src/retention/storage.rs:431-435 | A configured prefix is kept without the slashes before and after it, and dropped if nothing else is left. |
| ObjectKeys.NormalizeIdempotent | src/retention/storage.rs:431-435 | Normalising a prefix twice is normalising it once; what is left is nonempty and has no outer slash. |
| ObjectKeys.FullPathPieces | src/retention/storage.rs:437-444 | The path of a key is the segments of the prefix followed by those of the key. |
| ObjectKeys.KeyUnderExact | src/retention/storage.rs:153-162 | The directory of an id holds exactly the keys that start with the id, without the slashes it ends in, and one slash. |
| ObjectKeys.KeyUnderIsListed | src/retention/storage.rs:153-162 | Every key in the directory of an id is among those listed for it. |
| Layouts.EveryPrefixIsSound | src/retention/storage.rs:31-64 | Under every normalised prefix listing starts at or below the root, different paths have different keys, and what a key leads to is below the root. |
| Layouts.FaithfulIff | src/retention/storage.rs:31-43 | Exactly under a prefix without empty segments every key leads back to its path and no directory misses a key. |
| ObjectStore.BackupObjectStore.constructor | src/retention/storage.rs:24-29 | A store with any configured prefix meets the invariant the other contracts rest on. |
| ObjectStore.BackupObjectStore.List | src/retention/storage.rs:52-64 | Under every prefix: all keys below the argument, each once, in order, or an error. |
| ObjectStore.BackupObjectStore.Delete | src/retention/storage.rs:66-72 | The object listed under the key is gone and no other, or the call failed. |
| ObjectStore.BackupObjectStore.DiscoverBackupHistory | src/retention/storage.rs:101-137 | Under every prefix: the entries of the own manifests that can be read, in key order. |
| ObjectStore.EntryFigures | src/retention/storage.rs:347-373 | A discovered entry has the manifest's id and creation time, or now, and the number of topics, of all partitions and the sum of all segment sizes, each left out beyond 31 or 63 bits. |
| ObjectStore.SumAdds | src/retention/storage.rs:347-373 | Such a sum takes in each size once. |
| ObjectStore.KeyEntryExact | src/retention/storage.rs:111-134 | A key contributes its manifest exactly if it is the manifest of a directory named after the CR, or after the CR and a dash, and can be read and parsed. |
| ObjectStore.BackupObjectStore.PruneBackupIds | src/retention/storage.rs:139-175 | Under every prefix: success has deleted, id by id, exactly the paths the listed keys in the id's directory lead to; failure got through some ids and partly through the next; nothing outside the root is deleted. |
| StoreByKey.PrunedByKey | src/retention/storage.rs:139-175 | Under a prefix without empty segments that leaves exactly the keys outside the ids' directories. |
| StoreByKey.CutShortByKey | src/retention/storage.rs:139-175 | And a failure has deleted only keys inside them. |
| StoreByKey.EmptySegmentPrunesNothing | src/retention/storage.rs:35-43 | Under a prefix with an empty segment pruning slash-free ids deletes nothing, unless an id is the prefix's first segment. |
| ObjectStore.BackupObjectStore.DeleteUnder | src/retention/storage.rs:162-164 | The paths that the given keys in the directory lead to are deleted, or some of them when a delete fails. |
| RetentionPass.ActiveBackupIds | src/reconcilers/backup.rs:377-405 | Exactly the names of the Jobs with a running pod, and the CR's own name if there is one and offsets are stored. |
| BackupSettling.SweepExact | src/reconcilers/backup.rs:337-405 | Without a schedule, or with a policy that does not prune on schedule, the retention of a quiet reconcile changes nothing; else an id is left in the history exactly if it was recorded or discovered and ranks among the kept, or a Job with a running pod protects it by name, or as the CR's own with offsets stored; and storage loses exactly the keys of the ids dropped. |
| BackupRetention.ApplyRetentionPolicy | src/reconcilers/backup.rs:331-375 | Under any interference, answers, crashes and store failures: the history patched is the specified one of the history read, the Jobs listed and the storage, it is patched only after every deletion succeeded, and the store is left pruned or cut short. |
| BackupRetention.PruneMerged | src/reconcilers/backup.rs:350-366 | The same from the listing of the Jobs on. |
| RetentionPass.MergeDiscovered | src/reconcilers/backup.rs:342-348 | The merged history is the recorded one overridden by what storage holds, or the discovery failed. |
| RetentionPass.PruneByPolicy | src/reconcilers/backup.rs:350-364 | Success ends in the specified history and store; failure has cut the deletion short. |
| RetentionGuarantees.EmptySegmentPassDeletesNothing | src/reconcilers/backup.rs:331-375 | Under a prefix with an empty segment a successful pass drops the pruned ids from the history and deletes none of their objects, unless an id is the prefix's first segment. |
| RetentionGuarantees.PassExact | src/reconcilers/backup.rs:331-405 | A successful pass leaves no key under a pruned id and every other key untouched; the final ids are the merged ones less the pruned; no id of a Job with a running pod is pruned, nor the CR's own with offsets stored while there is one. |
| RetentionGuarantees.PrunedIff | src/reconcilers/backup.rs:352-405 | An id is pruned exactly if it ranks beyond the kept prefix and no Job with a running pod protects it by name, or as the CR's own with offsets stored. |
| RetentionGuarantees.PrunedExact | src/reconcilers/backup.rs:352-356 | The pruned ids are those ranked beyond the kept prefix, less the protected ones, each once. |
| RetentionGuarantees.RetryAfterFailure | src/reconcilers/backup.rs:358-365 | After a failure at any point the next pass records the history of an uninterrupted one if and only if no recorded id whose manifest is gone ranks, by its recorded entry, among the kept ones; and then it reaches the same storage if and only if no object of an unrecorded id whose manifest is gone is left. |
| RetentionGuarantees.HistoryAlwaysRecoversIff | src/reconcilers/backup.rs:350-365 | Every failure of a pass is made good in the history if and only if no pruned, discovered and recorded id re-enters the kept prefix when ranked by its recorded entry. |
| RetentionGuarantees.RetryRecoversRecorded | src/reconcilers/backup.rs:346-365 | If every id to prune was recorded, every failure is made good in storage and history if and only if no pruned id re-enters. |
| RetentionGuarantees.RecordedNoLaterRecovers | src/reconcilers/backup.rs:449-467 | None re-enters if no pruned backup was recorded as started later than its manifest says. |
| Reentry.ReentersByStart | src/retention/policy.rs:18-51 | Re-entry compares the recorded start with the last kept entry, ties apart, or with the cutoff where only age limits. |
| Reentry.LossKeepsPrefix | src/retention/policy.rs:18-51 | Without re-entry the ranking after any loss keeps the same prefix. |
| Reentry.ReentryIsKept | src/retention/policy.rs:18-51 | With re-entry it keeps a lost id. |
| Reentry.RecordedNoLaterStaysOut | src/retention/policy.rs:18-51 | A backup recorded no later than its manifest says does not re-enter. |
| Reentry.KeptPrefixSame | src/retention/policy.rs:18-51 | Entries that vanish or move beyond the kept prefix do not change what is kept. |
| RetentionGuarantees.FoundAfterLoss | src/retention/storage.rs:111-134 | After a partial deletion the discovery is the former one less the ids whose manifest is gone. |
| RetentionGuarantees.ManifestUnder | src/retention/storage.rs:111-112 | The directory of a slash-free id holds the manifest of that id only. |
| Ownership.PassIdempotent | src/reconcilers/backup.rs:331-375 | Repeating a successful pass with the same clock and Jobs prunes nothing and changes neither history nor storage. |
| Ownership.SharedIdIff | src/retention/storage.rs:177-179 | One id belongs to two CRs exactly when their names are equal or one extends the other by a dash. |
| Ownership.PassKeepsToOwnIds | src/retention/storage.rs:111-115 | Every id in history and every id pruned belongs to the CR, pass after pass. |
| Ownership.OwnersDoNotCollide | src/retention/storage.rs:152-164 | Two CRs neither of which dash-extends the other never prune each other's keys. |
| Ownership.OwnersCollideIff | src/retention/storage.rs:152-179 | The condition is exact: a pass of one CR can delete a key of the other's ids if and only if their names are equal or one dash-extends the other. |
| Ownership.PruningOneIdOnly | src/retention/storage.rs:153-162 | Pruning an id leaves the directories of all other slash-free ids alone. |
| Ownership.LateStartBreaksRetry | src/reconcilers/backup.rs:350-356 | An input on which a retry prunes another backup in the place of the one recorded as started too late. |
| PartialDiscovery.MergeOfPartialDiscovery | src/reconcilers/backup.rs:616-636 | Merging a discovery that lost some ids ranks all unaffected entries as before. |
| MergePatch.PatchIsFaithfulIff | src/reconcilers/backup.rs:653-666 | A patch without nulls leaves the target equal to it exactly when it mentions every field at every level it merges. |
| MergePatch.PatchIdempotent | src/reconcilers/backup.rs:658-664 | Sending the same patch again changes nothing. |
| StatusPatch.PatchRefines | src/reconcilers/backup.rs:653-666 | On the documents the merge patch acts as the field-by-field override acts on the statuses, the recursive lastBackup included. |
| StatusPatch.PatchFaithfulIff | src/crd/kafka_backup.rs:219-239 | Read-modify-patch writes exactly the intended status if and only if no field, at either level, goes from present to absent. |
| StatusPatch.StatusReadsBack | src/crd/kafka_backup.rs:219-239 | Every document that represents a status, history left out or empty, is read back, field by field, as exactly that status. |
| RestoreStatusPatch.RestoreStatusReadsBack | src/crd/kafka_restore.rs:265-279 | A serialised restore status is read back as it was. |
| StatusPatch.OutcomeIsFaithful | src/reconcilers/backup.rs:481-495 | Reporting running, failure or error writes what was meant. |
| StatusPatch.ScheduleIsFaithful | src/reconcilers/backup.rs:530-536 | Reporting the schedule writes what was meant. |
| StatusPatch.CompletedFaithfulIff | src/reconcilers/backup.rs:571-598 | Recording a completed Job writes what was meant exactly when the previous record carries no figures; the new one carries none. |
| StatusPatch.SuspendIsExact | src/reconcilers/backup.rs:552-567 | The suspend patch clears the next run and keeps history and lastBackup; the plain record would clear it only if it was not set. |
| StatusPatch.HistoryPatchIsExact | src/reconcilers/backup.rs:638-651 | The history patch sets any history, the empty one included, and nothing else. |
| Conditions.ConditionList.SetCondition | src/status/conditions.rs:47-61 | The in-place update of one condition gives the specified list. |
| Conditions.TypesStayDistinct | src/status/conditions.rs:47-61 | Over any calls types stay distinct, and they are the initial ones and those called for. |
| Conditions.LatestCallWins | src/status/conditions.rs:52-57 | Status, reason and message are those of the latest call for the type. |
| Conditions.LatestChangeSetsTime | src/status/conditions.rs:44-53 | The transition time is that of the latest call that introduced the type or changed its status. |
| Conditions.NoChangeKeepsTime | src/status/conditions.rs:54-57 | Without such a call the original time stays. |
| Conditions.FindConditionIsFirst | src/status/conditions.rs:64-71 | The condition found is the first of the type, and none is found exactly when there is none. |
| Listener.ChoiceOnFields | src/strimzi/kafka_cr.rs:150-190 | The choice fails exactly when no listener declares the wanted authentication type, none, tls or scram-sha-512; else it takes the first one reachable, by type absent, internal or cluster-ip, if any is, and with TLS if any as reachable has it, with its name, port and TLS or their defaults. |
| Listener.ChosenIsOne | src/strimzi/kafka_cr.rs:150-168 | No two listeners fit that description. |
| Listener.ChoiceIsOptimal | src/strimzi/kafka_cr.rs:150-168 | It is the one optimum of the compared keys; the choice fails exactly when there is no compatible listener. |
| Listener.ChoiceReachAndTls | src/strimzi/kafka_cr.rs:123-132 | An external listener is chosen only if all compatible ones are external, a plaintext one only if all as reachable are plaintext. |
| Listener.OverrideByName | src/strimzi/kafka_cr.rs:139-148 | An override takes the first listener of that name with its port and TLS, and fails exactly when no listener has it. |
| Listener.BootstrapByName | src/strimzi/kafka_cr.rs:249-275 | The address is that of the first status entry of the same name, wherever it stands, or the conventional one. |
| Listener.BootstrapIgnoresOthers | src/strimzi/kafka_cr.rs:255-267 | Status entries of other names do not matter. |
| Listener.ConnectionFailsIff | src/strimzi/kafka_cr.rs:86-168 | Why a cluster cannot be resolved: it declares no listener; none of the override's name; or, without one, none with the wanted authentication. |
| Listener.ConnectionIsOfChosen | src/strimzi/kafka_cr.rs:93-121 | The connection has the chosen listener's security and name, and the address of the first status entry of that name or the conventional one with its port. |
| PodConfig.ProtocolFollowsListener | src/adapters/backup_config.rs:114-132 | SASL exactly on a SCRAM listener; for SCRAM and no authentication TLS exactly on a TLS listener, so plaintext only where no compatible listener as reachable has TLS. |
| PodConfig.BackupConfigAgrees | src/jobs/backup_job.rs:38-48 | Whenever the backup config is built, each placeholder in it is set by the operator in the pods of Job and CronJob, and each generated path is a file of a mounted volume. |
| PodConfig.RestoreConfigAgrees | src/jobs/restore_job.rs:42-51 | The same of a restore, whose pod takes its storage from the source backup. |
| PodConfig.SecretsAreRead | src/jobs/templates.rs:216-290 | Every secret variable of a backup pod is read by the config. |
| PodConfig.MountsArePaired | src/jobs/templates.rs:73-181 | Mounts and volumes correspond one to one by names that are all different. |
| PodConfig.SecurityAgrees | src/adapters/restore_config.rs:95-141 | Every placeholder and path of the security section is there after the CA and user volumes. |
| PodConfig.StorageAgrees | src/adapters/storage_config.rs:7-216 | Every placeholder and path of the storage section is there after the storage credentials. |
| PodConfig.BuildStorageConfig | src/adapters/storage_config.rs:7-216 | The insertions, branch by branch, give the specified section or the missing-section error. |
| PodConfig.BuildVolumesAndMounts | src/jobs/templates.rs:73-181 | The pushes give the specified volumes, mounts and variables. |
| PodConfig.AddStorageCredentials | src/jobs/templates.rs:216-290 | The pushes for the storage credentials, branch by branch. |
| PodSecrets.VariablesComeFromTheCr | src/jobs/templates.rs:133-290 | A variable the user does not set reads exactly the secret and key the CR gives for it, in backup and restore pods, and is absent if the CR gives none; BACKUP_ID is the Job's name. |
| PodSecrets.FilesComeFromTheCr | src/jobs/templates.rs:99-345 | The files of a pod are exactly the CA certificate, user certificates or password and storage credentials that the CR calls for, each from the secret and key it names. |
| PodSecrets.ConfigIsTheGivenOne | src/jobs/templates.rs:86-97 | The given ConfigMap is mounted at /config, and no other anywhere. |
| PodSecrets.StorageSectionOnFields | src/adapters/storage_config.rs:7-216 | The storage section key by key from the fields of the CR; it fails exactly when the section of the chosen backend is missing. |
| PodSecrets.SecuritySectionOnFields | src/adapters/restore_config.rs:95-141 | The security section key by key from TLS and the resolved credentials. |
| PodSecrets.ConfigsOnFields | src/adapters/backup_config.rs:26-57 | Which id each config carries, and when it cannot be built. |
| BackupIds.BackupIdAgreementIff | src/adapters/backup_config.rs:26-44 | The id a Job writes under is its own name exactly when offsets are not stored or the backup is continuous, and no variable of the user gives BACKUP_ID another value; with offsets stored and not continuous it writes under the CR's name. |
| BackupIds.UserBackupIdDiverts | src/jobs/backup_job.rs:48-66 | With such a variable the backup is written under its value and recorded under the Job's name. |
| BackupIds.BackupIdValue | src/jobs/templates.rs:184-214 | In every backup pod BACKUP_ID is what the user sets it to last, and without that the name of the owning Job. |
| PodConfig.PlaceholderValueIff | src/jobs/templates.rs:199-214 | Every placeholder of a backup config has a value in the pod, and it is the operator's exactly when the user does not set that name. |
| BackupIds.RecordedIdsAgree | src/reconcilers/backup.rs:449-467 | History and lastBackup record the Job under its name with the same instants, a restore without backupId resolves to it, and the retention filter takes it for the CR's own. |
| BackupIds.RestoreReadsSucceededBackup | src/adapters/restore_config.rs:407-423 | Over any run, a restore without backupId resolves to the id of a Job that succeeded. |

## Left out

- In-flight creates: a create that the server accepts only after the operator died and started again is not modelled.
- Deletion of a CR and its cleanup: delete errors are ignored there on purpose, so nothing is promised beyond the removed finalizer.
- Kubernetes client, watch streams, requeue timers, leader election, HTTP servers, metrics and tracing: only "a reconcile may start at any time from any earlier version" is kept.
- The clock within one retention pass: it is read once, where the source reads it at the discovery and again at the evaluation.
- Cloud store builders, secret fetching and credential parsing: the store is a finite map from path to object whose calls may fail.
- A second client of the object store during a pass.
- Percent-encoding inside `object_store::Path`: path segments are plain nonempty text without a slash.
- Calendar limits of chrono and overflow of duration arithmetic: instants are unbounded integers; a duration is bounded by 64-bit parsing only.
- A duration whose last character is not ASCII: the source splits inside that character and panics, the model rejects the string.
- Wrap-around of the sum of segment sizes: sizes are summed without bound and dropped beyond 64 bits.
- JSON text: a manifest is readable or not; statuses are records, their instants stand for RFC 3339 text.
- YAML text, CRD schemas, Helm charts: no state or algorithm.
- Field-by-field copying of connection, metrics, logging, backup and restore options, and of bucket, region and endpoint settings beyond one or two per backend.
- User variables with `valueFrom`: a user's variable is a name and a text.
- Pass-through pod overrides (affinity, tolerations, security contexts, service accounts), pod labels, annotations and owner references.
- Kafka secret contents: a volume of a whole secret is taken to hold every file below its mount.
- Jobs without a name: the API server gives every Job one.
- Message text of the listener errors; only the kind of error is kept.
- RestoreConvergence.OnePassStabilises: needs a free Job name, since two Jobs of one CR created within the same second clash by name.
