// What the reconcilers share with the rest of the cluster: the Jobs, what others may do to
// them, and how an API call may fare.
module Environment {
  import opened Wrappers
  import opened Sorting
  import opened JobState
  import opened Conditions
  import opened Labels

  datatype ErrorKind =
    | Kube | Serialization | Yaml | StrimziClusterNotFound | SecretNotFound | SecretKeyMissing
    | KafkaUserNotFound | InvalidConfig | NoCompatibleListener | Storage | BackupNotFound
    | JobCreationFailed | Finalizer | MissingObjectKey | Regex

  function Reason(e: ErrorKind): (r: string)
    ensures r != RESTORE_FAILED && r != BACKUP_FAILED
  {
    match e
    case Kube => "KubernetesError"
    case Serialization => "SerializationError"
    case Yaml => "SerializationError"
    case StrimziClusterNotFound => "StrimziClusterNotFound"
    case SecretNotFound => "SecretNotFound"
    case SecretKeyMissing => "SecretKeyMissing"
    case KafkaUserNotFound => "KafkaUserNotFound"
    case InvalidConfig => "InvalidConfiguration"
    case NoCompatibleListener => "NoCompatibleListener"
    case Storage => "StorageError"
    case BackupNotFound => "BackupNotFound"
    case JobCreationFailed => "JobCreationFailed"
    case Finalizer => "FinalizerError"
    case MissingObjectKey => "MissingObjectKey"
    case Regex => "RegexError"
  }

  // A reason names the kind of error, but for the two serialisations.
  lemma ReasonsDiffer(a: ErrorKind, b: ErrorKind)
    ensures Reason(a) == Reason(b) <==> a == b || ((a.Serialization? || a.Yaml?) && (b.Serialization? || b.Yaml?))
  {
  }

  // Which kind of error each reason names.
  lemma ReasonNames(e: ErrorKind)
    ensures Reason(e) == "KubernetesError" <==> e.Kube?
    ensures Reason(e) == "SerializationError" <==> e.Serialization? || e.Yaml?
    ensures Reason(e) == "StrimziClusterNotFound" <==> e.StrimziClusterNotFound?
    ensures Reason(e) == "SecretNotFound" <==> e.SecretNotFound?
    ensures Reason(e) == "SecretKeyMissing" <==> e.SecretKeyMissing?
    ensures Reason(e) == "KafkaUserNotFound" <==> e.KafkaUserNotFound?
    ensures Reason(e) == "InvalidConfiguration" <==> e.InvalidConfig?
    ensures Reason(e) == "NoCompatibleListener" <==> e.NoCompatibleListener?
    ensures Reason(e) == "StorageError" <==> e.Storage?
    ensures Reason(e) == "BackupNotFound" <==> e.BackupNotFound?
    ensures Reason(e) == "JobCreationFailed" <==> e.JobCreationFailed?
    ensures Reason(e) == "FinalizerError" <==> e.Finalizer?
    ensures Reason(e) == "MissingObjectKey" <==> e.MissingObjectKey?
    ensures Reason(e) == "RegexError" <==> e.Regex?
  {
  }

  // Done: accepted and answered. Lost: accepted, the answer never arrives. Refused: no effect.
  datatype Reply = Done | Lost | Refused(error: ErrorKind, message: string)

  // How a call fares as its caller sees it, the operator's own death included.
  datatype Fate = Answer(reply: Reply) | OperatorCrash

  datatype Outcome = Success | Failure(error: ErrorKind, message: string) | Crashed

  function OutcomeOf(fate: Fate): Outcome {
    match fate
    case OperatorCrash => Crashed
    case Answer(Done) => Success
    case Answer(Lost) => Failure(Kube, "response lost")
    case Answer(Refused(error, message)) => Failure(error, message)
  }

  // Whether the call took effect.
  predicate TookEffect(fate: Fate) { fate.Answer? && !fate.reply.Refused? }

  function Own(owner: string, t: JobType): Job -> bool { (j: Job) => Matches(j.labels, owner, t) }

  // A list call with the selector of one CR.
  function OwnJobs(jobs: seq<Job>, owner: string, t: JobType): (r: seq<Job>)
    ensures forall j :: j in r <==> j in jobs && Matches(j.labels, owner, t)
  {
    Filter(Own(owner, t), jobs)
  }

  ghost predicate HasOwn(jobs: seq<Job>, owner: string, t: JobType) {
    exists j :: j in jobs && Matches(j.labels, owner, t)
  }

  lemma EmptyListNoJob(jobs: seq<Job>, owner: string, t: JobType)
    ensures ClassifyJobs(OwnJobs(jobs, owner, t)).NoJobs? <==> !HasOwn(jobs, owner, t)
  {
  }

  predicate NameFree(jobs: seq<Job>, name: string) { forall j :: j in jobs ==> j.name != name }

  function NewJobName(owner: string, stamp: string): string { owner + "-" + stamp }

  lemma JobNamesDiffer(owner: string, stamp: string, other: string)
    requires stamp != other
    ensures NewJobName(owner, stamp) != NewJobName(owner, other)
  {
    assert NewJobName(owner, stamp)[|owner| + 1..] == stamp && NewJobName(owner, other)[|owner| + 1..] == other;
  }

  function NewJob(owner: string, stamp: string, cluster: string, t: JobType, template: map<string, string>): Job {
    Job(NewJobName(owner, stamp), JobLabels(owner, cluster, t, template), None)
  }

  lemma NewJobIsOwn(jobs: seq<Job>, owner: string, stamp: string, cluster: string, t: JobType, template: map<string, string>)
    requires KeepsSelector(template, owner, t)
    ensures HasOwn(jobs + [NewJob(owner, stamp, cluster, t, template)], owner, t)
  {
  }

  // What the Job controller may do to a Job: outcomes are final, a start time stays.
  predicate Advances(j: Job, status: JobStatus) {
    var k := j.(status := Some(status));
    && (HasSucceeded(j) ==> HasSucceeded(k))
    && (FailedForGood(j) ==> FailedForGood(k))
    && (j.status.Some? && j.status.value.startTime.Some? ==> status.startTime == j.status.value.startTime)
  }

  function Progressed(jobs: seq<Job>, i: nat, status: JobStatus): seq<Job> {
    if i < |jobs| && Advances(jobs[i], status) then jobs[i := jobs[i].(status := Some(status))] else jobs
  }

  function Appeared(jobs: seq<Job>, other: Job): seq<Job> {
    if NameFree(jobs, other.name) then jobs + [other] else jobs
  }

  // What stays of a Job for ever: its name, its labels, its outcome, its start.
  ghost predicate Persists(j: Job, k: Job) {
    && k.name == j.name && k.labels == j.labels
    && (HasSucceeded(j) ==> HasSucceeded(k))
    && (FailedForGood(j) ==> FailedForGood(k))
    && (StartOf(j).Some? ==> StartOf(k) == StartOf(j))
  }

  function CompletionOf(j: Job): Option<int> { if j.status.Some? then j.status.value.completionTime else None }

  function StartOf(j: Job): Option<int> { if j.status.Some? then j.status.value.startTime else None }

  ghost predicate JobsPersist(before: seq<Job>, after: seq<Job>) {
    && |before| <= |after|
    && forall i :: 0 <= i < |before| ==> Persists(before[i], after[i])
  }

  // The others may do all that is compatible with that: put any status on a Job that keeps its
  // outcome and start, and add any Job under a free name.
  lemma OthersMayAct(jobs: seq<Job>, i: nat, status: JobStatus, other: Job)
    requires i < |jobs|
    ensures var k := jobs[i].(status := Some(status));
            Progressed(jobs, i, status) == if Persists(jobs[i], k) then jobs[i := k] else jobs
    ensures Appeared(jobs, other) == if exists j :: j in jobs && j.name == other.name then jobs else jobs + [other]
  {
  }

  lemma ProgressKeepsJobs(jobs: seq<Job>, i: nat, status: JobStatus)
    ensures JobsPersist(jobs, Progressed(jobs, i, status))
  {
  }

  lemma OwnJobStays(before: seq<Job>, after: seq<Job>, owner: string, t: JobType)
    requires JobsPersist(before, after) && HasOwn(before, owner, t)
    ensures HasOwn(after, owner, t)
  {
  }
}
