// Classification of the Jobs found for one CR, and the gates that decide on another Job.
module JobState {
  import opened Wrappers

  datatype JobCondition = JobCondition(kind: string, status: string)

  datatype JobStatus = JobStatus(
    active: Option<int>,
    succeeded: Option<int>,
    failed: Option<int>,
    conditions: Option<seq<JobCondition>>,
    startTime: Option<int>,
    completionTime: Option<int>)

  datatype Job = Job(name: string, labels: map<string, string>, status: Option<JobStatus>)

  datatype JobsState = NoJobs | InProgress | Succeeded(jobName: string) | Failed(jobName: string)

  predicate HasCondition(job: Job, kind: string) {
    && job.status.Some?
    && job.status.value.conditions.Some?
    && exists c :: c in job.status.value.conditions.value && c == JobCondition(kind, "True")
  }

  predicate JobSucceeded(job: Job) {
    job.status.Some? && (job.status.value.succeeded.GetOr(0) > 0 || HasCondition(job, "Complete"))
  }

  predicate JobFailed(job: Job) { HasCondition(job, "Failed") }

  predicate JobActive(job: Job) { job.status.Some? && job.status.value.active.GetOr(0) > 0 }

  predicate Terminal(job: Job) { JobSucceeded(job) || JobFailed(job) }

  // `iter().find`
  function Find(p: Job -> bool, jobs: seq<Job>): (r: Option<Job>)
    ensures r.Some? ==> r.value in jobs && p(r.value)
    ensures r.None? ==> forall j :: j in jobs ==> !p(j)
  {
    if jobs == [] then None else if p(jobs[0]) then Some(jobs[0]) else Find(p, jobs[1..])
  }

  // What is found is the first one.
  lemma {:induction false} FindIsFirst(p: Job -> bool, jobs: seq<Job>) returns (i: nat)
    ensures i <= |jobs| && (i < |jobs| ==> p(jobs[i])) && forall k :: 0 <= k < i ==> !p(jobs[k])
    ensures Find(p, jobs) == if i < |jobs| then Some(jobs[i]) else None
  {
    if jobs == [] || p(jobs[0]) {
      i := 0;
    } else {
      i := FindIsFirst(p, jobs[1..]);
      i := i + 1;
    }
  }

  function ClassifyJobs(jobs: seq<Job>): JobsState {
    var succeeded := Find(JobSucceeded, jobs);
    if succeeded.Some? then Succeeded(succeeded.value.name)
    else if Find(j => !JobFailed(j), jobs).Some? then InProgress
    else
      var failed := Find(JobFailed, jobs);
      if failed.Some? then Failed(failed.value.name) else NoJobs
  }

  predicate ShouldCreateRestoreJob(state: JobsState) { state.NoJobs? }

  predicate ShouldCreateBackupJob(state: JobsState, manuallyTriggered: bool) {
    match state
    case InProgress => false
    case NoJobs => true
    case Succeeded(_) => manuallyTriggered
    case Failed(_) => manuallyTriggered
  }

  // What the fields of a Job say of its outcome.
  function JobConditions(j: Job): seq<JobCondition> {
    if j.status.Some? && j.status.value.conditions.Some? then j.status.value.conditions.value else []
  }

  function SucceededCount(j: Job): int { if j.status.Some? then j.status.value.succeeded.GetOr(0) else 0 }

  predicate HasSucceeded(j: Job) {
    SucceededCount(j) > 0 || JobCondition("Complete", "True") in JobConditions(j)
  }

  // The failure condition, and nothing that says the Job came through.
  predicate FailedForGood(j: Job) {
    && JobCondition("Failed", "True") in JobConditions(j)
    && SucceededCount(j) <= 0 && JobCondition("Complete", "True") !in JobConditions(j)
  }

  // A pod of the Job runs now.
  predicate HasRunningPods(j: Job) { j.status.Some? && j.status.value.active.Some? && j.status.value.active.value > 0 }

  lemma OutcomeOnFields(j: Job)
    ensures JobSucceeded(j) <==> HasSucceeded(j)
    ensures JobFailed(j) <==> JobCondition("Failed", "True") in JobConditions(j)
    ensures JobFailed(j) && !JobSucceeded(j) <==> FailedForGood(j)
    ensures JobActive(j) <==> HasRunningPods(j)
  {
  }

  // The first Job that succeeded.
  ghost predicate FirstSuccess(jobs: seq<Job>, i: nat) {
    i < |jobs| && HasSucceeded(jobs[i]) && forall k :: 0 <= k < i ==> !HasSucceeded(jobs[k])
  }

  // The verdicts on the fields: a success anywhere, and by which Job; a failure only if every
  // Job failed for good, and it is the first one's; otherwise, with any Job, in progress.
  lemma VerdictOnFields(jobs: seq<Job>)
    ensures ClassifyJobs(jobs).NoJobs? <==> jobs == []
    ensures ClassifyJobs(jobs).Succeeded? <==> exists j :: j in jobs && HasSucceeded(j)
    ensures forall i: nat :: FirstSuccess(jobs, i) ==> ClassifyJobs(jobs) == Succeeded(jobs[i].name)
    ensures ClassifyJobs(jobs).Failed? <==> jobs != [] && forall j :: j in jobs ==> FailedForGood(j)
    ensures ClassifyJobs(jobs).Failed? ==> ClassifyJobs(jobs) == Failed(jobs[0].name)
    ensures ClassifyJobs(jobs).InProgress? <==>
              && (forall j :: j in jobs ==> !HasSucceeded(j))
              && exists j :: j in jobs && JobCondition("Failed", "True") !in JobConditions(j)
  {
    forall j ensures JobSucceeded(j) <==> HasSucceeded(j)
             ensures JobFailed(j) <==> JobCondition("Failed", "True") in JobConditions(j) {
      OutcomeOnFields(j);
    }
    ClassifyExact(jobs);
    var first := FindIsFirst(JobSucceeded, jobs);
    forall i: nat | FirstSuccess(jobs, i) ensures i == first {
      assert jobs[i] in jobs;
    }
    if ClassifyJobs(jobs).Failed? { assert jobs[0] in jobs; }
  }

  // Two Jobs that differ at most in how many of their pods run or have failed.
  predicate SameButPods(a: Job, b: Job) {
    && a.name == b.name && a.labels == b.labels && a.status.Some? == b.status.Some?
    && (a.status.Some? ==> a.status.value == b.status.value.(active := a.status.value.active, failed := a.status.value.failed))
  }

  ghost predicate AllSameButPods(a: seq<Job>, b: seq<Job>) {
    |a| == |b| && forall i :: 0 <= i < |a| ==> SameButPods(a[i], b[i])
  }

  // Running and failed pods, the retries of a Job, play no part in the verdict nor in the gates.
  lemma PodCountsPlayNoPart(a: seq<Job>, b: seq<Job>, triggered: bool)
    requires AllSameButPods(a, b)
    ensures ClassifyJobs(a) == ClassifyJobs(b)
    ensures ShouldCreateRestoreJob(ClassifyJobs(a)) <==> ShouldCreateRestoreJob(ClassifyJobs(b))
    ensures ShouldCreateBackupJob(ClassifyJobs(a), triggered) <==> ShouldCreateBackupJob(ClassifyJobs(b), triggered)
  {
    FoundAlike(JobSucceeded, a, b);
    FoundAlike(JobFailed, a, b);
    FoundAlike(j => !JobFailed(j), a, b);
  }

  lemma {:induction false} FoundAlike(p: Job -> bool, a: seq<Job>, b: seq<Job>)
    requires AllSameButPods(a, b) && forall j, k :: SameButPods(j, k) ==> p(j) == p(k)
    ensures Find(p, a).Some? == Find(p, b).Some?
    ensures Find(p, a).Some? ==> SameButPods(Find(p, a).value, Find(p, b).value)
  {
    if a != [] { FoundAlike(p, a[1..], b[1..]); }
  }

  // What each verdict says about the Jobs, in both directions.
  lemma ClassifyExact(jobs: seq<Job>)
    ensures ClassifyJobs(jobs).NoJobs? <==> jobs == []
    ensures ClassifyJobs(jobs).Succeeded? <==> exists j :: j in jobs && JobSucceeded(j)
    ensures ClassifyJobs(jobs).Succeeded? ==>
              exists j :: j in jobs && JobSucceeded(j) && j.name == ClassifyJobs(jobs).jobName
    ensures ClassifyJobs(jobs).Failed? <==> jobs != [] && forall j :: j in jobs ==> JobFailed(j) && !JobSucceeded(j)
    ensures ClassifyJobs(jobs).InProgress? <==>
              (forall j :: j in jobs ==> !JobSucceeded(j)) && exists j :: j in jobs && !JobFailed(j)
  {
  }

  // The one-shot gates, stated on the Jobs themselves; list order plays no part.
  lemma GatesExact(jobs: seq<Job>)
    ensures ShouldCreateRestoreJob(ClassifyJobs(jobs)) <==> jobs == []
    ensures ShouldCreateBackupJob(ClassifyJobs(jobs), false) <==> jobs == []
    ensures ShouldCreateBackupJob(ClassifyJobs(jobs), true) <==>
              || jobs == []
              || (exists j :: j in jobs && HasSucceeded(j))
              || (forall j :: j in jobs ==> FailedForGood(j))
  {
    VerdictOnFields(jobs);
  }

  lemma GateIgnoresOrder(jobs: seq<Job>, others: seq<Job>, triggered: bool)
    requires forall j :: j in jobs <==> j in others
    ensures ShouldCreateBackupJob(ClassifyJobs(jobs), triggered) <==> ShouldCreateBackupJob(ClassifyJobs(others), triggered)
  {
  }

  // The comment on the backup gate promises never to stack onto an active Job. With the
  // trigger set it does so exactly when some Job of the CR has already succeeded.
  lemma TriggerStacksIff(jobs: seq<Job>)
    requires exists j :: j in jobs && !HasSucceeded(j) && !FailedForGood(j)
    ensures ShouldCreateBackupJob(ClassifyJobs(jobs), true) <==> exists j :: j in jobs && HasSucceeded(j)
    ensures !ShouldCreateBackupJob(ClassifyJobs(jobs), false)
  {
    VerdictOnFields(jobs);
  }
}
