// What a user reads in the status of a restore: after each write, after a quiet reconcile, and
// after a failed resolution.
module RestoreShows {
  import opened Wrappers
  import opened JobState
  import opened Conditions
  import opened Labels
  import opened Environment
  import opened Runs
  import opened RestoreProtocol
  import opened RestoreSafety
  import opened RestoreConvergence

  predicate Shows(s: RestoreStatus, kind: string, status: string, reason: string) {
    var c := FindCondition(s.conditions, kind);
    c.Some? && c.value.status == status && c.value.reason == Some(reason)
  }

  predicate Says(s: RestoreStatus, kind: string, message: string) {
    var c := FindCondition(s.conditions, kind);
    c.Some? && c.value.message == Some(message)
  }

  predicate ExplainsError(s: RestoreStatus, reason: string, message: string) {
    && Shows(s, "Ready", "False", reason) && Shows(s, "Error", "True", reason)
    && FindCondition(s.conditions, "Error").value.message == Some(message)
  }

  // A landed write on the fields of the status.
  lemma WriteShows(s: RestoreStatus, c: Restore, w: Write, now: int)
    ensures var t := Written(s, c, w, now);
            && t.observedGeneration == Some(c.generation)
            && (forall x :: x in t.conditions ==> x.lastTransition == Some(now))
            && (match w
                case PausedWrite =>
                  && Shows(t, "ReconciliationPaused", "True", "ReconciliationPaused")
                  && Says(t, "ReconciliationPaused", "Reconciliation is paused by annotation")
                case CompletedWrite(info) =>
                  && Shows(t, "Ready", "True", "RestoreCompleted") && Shows(t, "RestoreComplete", "True", "RestoreCompleted")
                  && Says(t, "Ready", "Restore completed successfully")
                  && Says(t, "RestoreComplete", "Restore completed successfully")
                  && t.restore == Some(info)
                case FailedWrite(jobName) => ExplainsError(t, "RestoreFailed", "Restore job " + jobName + " failed")
                case RunningWrite => Shows(t, "Ready", "False", "RestoreRunning") && Says(t, "Ready", "Restore job is running")
                case ErrorWrite(error, message) => ExplainsError(t, Reason(error), message))
  {
    var cs := Written(s, c, w, now).conditions;
    if |cs| == 2 { assert cs[1..] == [cs[1]]; }
  }

  // A status already as it should be is recognised by its conditions.
  lemma RecognisedOnFields(s: RestoreStatus)
    ensures Complete(s) <==> FindCondition(s.conditions, "RestoreComplete").Some?
                             && FindCondition(s.conditions, "RestoreComplete").value.status == "True"
    ensures FailedShown(s) <==> FindCondition(s.conditions, "Error").Some?
                                && FindCondition(s.conditions, "Error").value.reason == Some("RestoreFailed")
    ensures RunningShown(s) <==> FindCondition(s.conditions, "Ready").Some?
                                 && FindCondition(s.conditions, "Ready").value.reason == Some("RestoreRunning")
  {
  }

  predicate TellsPause(s: RestoreStatus, generation: int) {
    var c := FindCondition(s.conditions, "ReconciliationPaused");
    c.Some? && c.value.status == "True" && s.observedGeneration == Some(generation)
  }

  // A quiet reconcile of a paused restore says so for the present generation, once.
  lemma PauseIsShown(w: World, now: int, stamp: string)
    requires w.cr.paused
    ensures TellsPause(PassWorld(w, now, stamp).cr.status, w.cr.generation)
    ensures PassWorld(w, now, stamp) == w <==> TellsPause(w.cr.status, w.cr.generation)
  {
    WriteShows(w.cr.status, w.cr, PausedWrite, now);
    var t := PassWorld(w, now, stamp);
    if t == w { assert |t.versions| == |w.versions|; }
  }

  // A create that the server accepts adds one Job: named after the CR and the stamp, with the
  // cluster of the CR in its label unless the template has its own, and not yet started.
  lemma CreationShows(w: World, c: Restore, now: int, stamp: string)
    ensures var t, name := Accepted(w, CreateJob(c), now, stamp), w.name + "-" + stamp;
            && t.cr == w.cr && t.versions == w.versions && t.created == w.created + [name] && |t.jobs| == |w.jobs| + 1
            && t.jobs[..|w.jobs|] == w.jobs && t.jobs[|w.jobs|].name == name && t.jobs[|w.jobs|].status.None?
            && LabelAt(t.jobs[|w.jobs|].labels, "strimzi.io/cluster") ==
                 (if "strimzi.io/cluster" in c.templateLabels then Some(c.templateLabels["strimzi.io/cluster"]) else Some(c.cluster))
  {
    LabelsOnFields(w.name, c.cluster, RestoreJob, c.templateLabels, "strimzi.io/cluster");
  }

  // What a quiet reconcile of a restore that is neither paused nor complete leaves: the outcome
  // of its Jobs, or a running one.
  lemma ReconcileShows(w: World, now: int, stamp: string)
    requires Current(w) && !w.cr.paused && !Complete(w.cr.status)
    ensures var v, jobs := PassWorld(w, now, stamp).cr.status, Listed(w);
            && ((exists j :: j in jobs && HasSucceeded(j)) ==> Shows(v, "RestoreComplete", "True", "RestoreCompleted"))
            && (jobs != [] && (forall j :: j in jobs ==> FailedForGood(j)) ==>
                  FindCondition(v.conditions, "Error").Some? && FindCondition(v.conditions, "Error").value.reason == Some("RestoreFailed"))
            && (jobs == [] || ((forall j :: j in jobs ==> !HasSucceeded(j)) && exists j :: j in jobs && !FailedForGood(j)) ==>
                  FindCondition(v.conditions, "Ready").Some? && FindCondition(v.conditions, "Ready").value.reason == Some("RestoreRunning"))
  {
    var f, c := Finalized(w), w.cr;
    VerdictOnFields(Listed(w));
    assert Listed(f) == Listed(w);
    RecognisedOnFields(c.status);
    ListShows(f, c, now, stamp);
  }

  lemma ListShows(f: World, c: Restore, now: int, stamp: string)
    requires f.cr.status == c.status
    ensures var v := AfterList(f, c, now, stamp).cr.status;
            match ClassifyJobs(Listed(f))
            case Succeeded(_) => Shows(v, "RestoreComplete", "True", "RestoreCompleted")
            case Failed(_) => FailedShown(v)
            case _ => RunningShown(v)
  {
    var pc := Decided(c, Listed(f), now);
    if pc.PatchStatus? {
      WriteShows(f.cr.status, c, pc.w, now);
    } else if pc.GetBackup? {
      WriteShows(Accepted(f, CreateJob(c), now, stamp).cr.status, c, RunningWrite, now);
    }
  }

  // A cluster that cannot be resolved ends the reconcile with the error on the status.
  lemma ClusterErrorIsShown(w: World, c: Restore, error: ErrorKind, message: string, now: int, stamp: string)
    ensures var s := Exec(State(w, ResolveCluster(c)),
                          [Call(Refused(error, message), now, stamp)] + seq(1, _ => Call(Done, now, stamp)));
            && s.pc.Idle? && s.world.jobs == w.jobs && s.world.created == w.created
            && ExplainsError(s.world.cr.status, Reason(error), message)
            && s.world.cr.status.observedGeneration == Some(c.generation)
  {
    var write := ErrorWrite(error, message);
    BegunIsRun(Step, State(w, ResolveCluster(c)), Call(Refused(error, message), now, stamp), Call(Done, now, stamp), 1);
    QuietCall(State(w, PatchStatus(c, write)), 1, now, stamp);
    QuietIdle(State(Accepted(w, PatchStatus(c, write), now, stamp), Idle), 0, now, stamp);
    WriteShows(w.cr.status, c, write, now);
  }

  // Where a refused call leaves the reconcile: missing certificates do not end it, a cluster that
  // cannot be resolved is reported, and every other refusal ends it with nothing changed.
  lemma RefusalEnds(s: State, error: ErrorKind, message: string, now: int, stamp: string)
    ensures var t := Step(s, Call(Refused(error, message), now, stamp));
            && t.world == s.world
            && (s.pc.ResolveTls? ==> t == Step(s, Call(Done, now, stamp)) && t.pc == ResolveAuth(s.pc.c))
            && (s.pc.ResolveCluster? ==> t.pc == PatchStatus(s.pc.c, ErrorWrite(error, message)))
            && (!s.pc.ResolveTls? && !s.pc.ResolveCluster? ==> t.pc.Idle?)
  {
  }
}
