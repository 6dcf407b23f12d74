// Safety of the restore reconciler over every run: at most one Job, statuses that tell the
// truth, and outcomes that are never taken back.
module RestoreSafety {
  import opened Wrappers
  import opened JobState
  import opened Conditions
  import opened Labels
  import opened Environment
  import opened Runs
  import opened RestoreProtocol

  ghost predicate KeepsLabels(owner: string, e: Event) {
    e.Edit? ==> KeepsSelector(e.templateLabels, owner, RestoreJob)
  }

  // No other party creates a Job that the selector takes for a Job of this restore.
  ghost predicate NoImpostor(owner: string, e: Event) {
    e.Appear? ==> !Matches(e.other.labels, owner, RestoreJob)
  }

  // The cached CR a reconcile works from.
  function CachedCr(pc: Pc): Option<Restore> { if pc.Idle? then None else Some(pc.c) }

  ghost predicate LabelsSafe(s: State) {
    && KeepsSelector(s.world.cr.templateLabels, s.world.name, RestoreJob)
    && (forall v :: v in s.world.versions ==> KeepsSelector(v.templateLabels, s.world.name, RestoreJob))
    && (CachedCr(s.pc).Some? ==> KeepsSelector(CachedCr(s.pc).value.templateLabels, s.world.name, RestoreJob))
  }

  // A pass works from one cached CR to its end.
  lemma CacheStays(w: World, pc: Pc, now: int, error: ErrorKind, message: string)
    ensures !Answered(w, pc, now).Idle? ==> !pc.Idle? && Answered(w, pc, now).c == pc.c
    ensures !Erred(pc, error, message).Idle? ==> !pc.Idle? && Erred(pc, error, message).c == pc.c
  {
  }

  lemma AcceptedLabels(w: World, pc: Pc, now: int, stamp: string)
    ensures var v := Accepted(w, pc, now, stamp);
            && v.name == w.name && v.cr.templateLabels == w.cr.templateLabels
            && (v.versions == w.versions || v.versions == w.versions + [v.cr])
  {
  }

  lemma LabelsStaySafe(s: State, e: Event)
    requires LabelsSafe(s) && KeepsLabels(s.world.name, e)
    ensures LabelsSafe(Step(s, e)) && Step(s, e).world.name == s.world.name
  {
    if e.Call? {
      CacheStays(s.world, s.pc, e.now, Kube, "response lost");
      if e.reply.Refused? { CacheStays(s.world, s.pc, e.now, e.reply.error, e.reply.message); }
      AcceptedLabels(s.world, s.pc, e.now, e.stamp);
    }
  }

  // The list came back empty and the Job is not yet created.
  predicate Creating(pc: Pc) {
    pc.GetBackup? || pc.ResolveCluster? || pc.ResolveTls? || pc.ResolveAuth? || pc.ApplyConfigMap? || pc.CreateJob?
  }

  ghost predicate OwnJobIn(w: World) { HasOwn(w.jobs, w.name, RestoreJob) }

  // No step deletes or relabels a Job or takes back its outcome.
  lemma StepKeepsJobs(s: State, e: Event)
    ensures JobsPersist(s.world.jobs, Step(s, e).world.jobs) && Step(s, e).world.name == s.world.name
  {
    if e.Progress? {
      ProgressKeepsJobs(s.world.jobs, e.job, e.status);
    } else {
      assert forall i :: 0 <= i < |s.world.jobs| ==> Step(s, e).world.jobs[i] == s.world.jobs[i];
    }
  }

  ghost predicate Once(s: State) {
    && |s.world.created| <= 1
    && (s.world.created != [] ==> OwnJobIn(s.world))
    && (Creating(s.pc) ==> s.world.created == [])
  }

  lemma CreatedJobIsOwn(w: World, pc: Pc, now: int, stamp: string)
    requires pc.CreateJob? && KeepsSelector(pc.c.templateLabels, w.name, RestoreJob)
    ensures OwnJobIn(Accepted(w, pc, now, stamp))
  {
  }

  lemma OnceCall(s: State, reply: Reply, now: int, stamp: string)
    requires LabelsSafe(s) && Once(s)
    ensures var t := Called(s, reply, now, stamp);
            && |t.world.created| <= 1
            && (t.world.created != s.world.created ==> OwnJobIn(t.world))
            && (Creating(t.pc) ==> t.world.created == [])
  {
    if s.pc.CreateJob? {
      CreatedJobIsOwn(s.world, s.pc, now, stamp);
    } else if s.pc.ListJobs? {
      EmptyListNoJob(s.world.jobs, s.world.name, RestoreJob);
    }
  }

  lemma OnceStep(s: State, e: Event)
    requires LabelsSafe(s) && Once(s)
    ensures Once(Step(s, e))
  {
    StepKeepsJobs(s, e);
    if OwnJobIn(s.world) { OwnJobStays(s.world.jobs, Step(s, e).world.jobs, s.world.name, RestoreJob); }
    if e.Call? { OnceCall(s, e.reply, e.now, e.stamp); }
  }

  // At most one restore Job is created in any run, whatever is refused, lost, crashed, stale,
  // paused or edited, and whatever other Jobs there are.
  lemma {:induction false} AtMostOnce(s: State, events: seq<Event>)
    requires s.pc.Idle? && s.world.created == [] && LabelsSafe(s)
    requires forall e :: e in events ==> KeepsLabels(s.world.name, e)
    ensures |Exec(s, events).world.created| <= 1
    ensures LabelsSafe(Exec(s, events)) && Once(Exec(s, events)) && Exec(s, events).world.name == s.world.name
    decreases |events|
  {
    if events != [] {
      var n := |events| - 1;
      AtMostOnce(s, events[..n]);
      LabelsStaySafe(Exec(s, events[..n]), events[n]);
      OnceStep(Exec(s, events[..n]), events[n]);
    }
  }

  ghost predicate Succeeds(w: World) {
    exists j :: j in w.jobs && Matches(j.labels, w.name, RestoreJob) && HasSucceeded(j)
  }

  ghost predicate FailedJob(w: World, name: string) {
    exists j :: j in w.jobs && Matches(j.labels, w.name, RestoreJob) && j.name == name && FailedForGood(j)
  }

  ghost predicate SomeFailed(w: World) { exists name :: FailedJob(w, name) }

  lemma OutcomesStay(w: World, v: World)
    requires JobsPersist(w.jobs, v.jobs) && v.name == w.name
    ensures Succeeds(w) ==> Succeeds(v)
    ensures forall name :: FailedJob(w, name) ==> FailedJob(v, name)
  {
  }

  ghost predicate Truthful(w: World, status: RestoreStatus) {
    && (Complete(status) ==> Succeeds(w))
    && (FailedShown(status) ==> SomeFailed(w))
  }

  ghost predicate Sound(s: State) {
    && Truthful(s.world, s.world.cr.status)
    && (forall v :: v in s.world.versions ==> Truthful(s.world, v.status))
    && SoundPc(s.world, s.pc)
  }

  ghost predicate SoundPc(w: World, pc: Pc) {
    pc.PatchStatus? ==>
      && (pc.w.CompletedWrite? ==> Succeeds(w))
      && (pc.w.FailedWrite? ==> FailedJob(w, pc.w.jobName))
  }

  lemma TruthStays(w: World, v: World)
    requires JobsPersist(w.jobs, v.jobs) && v.name == w.name
    ensures forall status :: Truthful(w, status) ==> Truthful(v, status)
    ensures forall pc :: SoundPc(w, pc) ==> SoundPc(v, pc)
  {
    OutcomesStay(w, v);
    forall status | Truthful(w, status) ensures Truthful(v, status) {
      if FailedShown(status) {
        var name :| FailedJob(w, name);
        assert FailedJob(v, name);
      }
    }
  }

  // An accepted write is truthful.
  lemma WriteIsTruthful(w: World, pc: Pc, now: int)
    requires pc.PatchStatus? && SoundPc(w, pc)
    ensures Truthful(w, Written(w.cr.status, pc.c, pc.w, now))
  {
  }

  lemma AcceptedIsTruthful(w: World, pc: Pc, now: int, stamp: string)
    requires SoundPc(w, pc) && Truthful(w, w.cr.status) && forall v :: v in w.versions ==> Truthful(w, v.status)
    ensures var t := Accepted(w, pc, now, stamp);
            Truthful(w, t.cr.status) && forall v :: v in t.versions ==> Truthful(w, v.status)
  {
    if pc.PatchStatus? { WriteIsTruthful(w, pc, now); }
  }

  lemma NextIsSound(w: World, pc: Pc, now: int, error: ErrorKind, message: string)
    ensures SoundPc(w, Answered(w, pc, now)) && SoundPc(w, Erred(pc, error, message))
  {
    if pc.ListJobs? { DecidedOutcome(w); }
  }

  lemma CallIsSound(s: State, reply: Reply, now: int, stamp: string)
    requires Sound(s)
    ensures var t := Called(s, reply, now, stamp);
            && Truthful(s.world, t.world.cr.status)
            && (forall v :: v in t.world.versions ==> Truthful(s.world, v.status))
            && SoundPc(s.world, t.pc)
  {
    AcceptedIsTruthful(s.world, s.pc, now, stamp);
    if reply.Refused? {
      NextIsSound(s.world, s.pc, now, reply.error, reply.message);
    } else {
      NextIsSound(s.world, s.pc, now, Kube, "response lost");
    }
  }

  lemma SoundStep(s: State, e: Event)
    requires Sound(s)
    ensures Sound(Step(s, e))
  {
    StepKeepsJobs(s, e);
    TruthStays(s.world, Step(s, e).world);
    if e.Call? { CallIsSound(s, e.reply, e.now, e.stamp); }
  }

  lemma DecidedOutcome(w: World)
    ensures ClassifyJobs(Listed(w)).Succeeded? ==> Succeeds(w)
    ensures ClassifyJobs(Listed(w)).Failed? ==> FailedJob(w, ClassifyJobs(Listed(w)).jobName)
  {
  }

  // The details of a completion are those of a succeeded Job of this restore.
  lemma CompletionDetails(w: World, c: Restore, now: int)
    requires ClassifyJobs(Listed(w)).Succeeded?
    requires forall j, k :: j in w.jobs && k in w.jobs && j.name == k.name ==> j == k
    ensures var pc := Decided(c, Listed(w), now);
            && pc.PatchStatus? && pc.w.CompletedWrite?
            && exists j :: j in w.jobs && Matches(j.labels, w.name, RestoreJob) && HasSucceeded(j)
                           && pc.w.info.startTime == StartOf(j).GetOr(now)
                           && pc.w.info.completionTime == CompletionOf(j).GetOr(now)
  {
  }

  // In every run: RestoreComplete is only ever shown when a Job of this restore succeeded, and
  // RestoreFailed only when one failed for good.
  lemma {:induction false} StatusTellsTheTruth(s: State, events: seq<Event>)
    requires s.pc.Idle? && Sound(s)
    ensures Sound(Exec(s, events))
    ensures var w := Exec(s, events).world;
            && (Complete(w.cr.status) ==>
                  exists j :: j in w.jobs && Matches(j.labels, w.name, RestoreJob) && HasSucceeded(j))
            && (FailedShown(w.cr.status) ==>
                  exists j :: j in w.jobs && Matches(j.labels, w.name, RestoreJob)
                              && JobCondition("Failed", "True") in JobConditions(j) && !HasSucceeded(j))
    decreases |events|
  {
    if events != [] {
      StatusTellsTheTruth(s, events[..|events| - 1]);
      SoundStep(Exec(s, events[..|events| - 1]), events[|events| - 1]);
    }
  }
}
