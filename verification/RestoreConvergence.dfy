// Quiet passes of the restore reconciler: the cache is fresh, every call is answered, nobody
// else acts. One such pass reaches a state that further ones leave alone.
module RestoreConvergence {
  import opened Wrappers
  import opened JobState
  import opened Conditions
  import opened Labels
  import opened Environment
  import opened Runs
  import opened RestoreProtocol
  import opened RestoreSafety
  import opened RestorePhases

  // n calls, all answered; the longest pass makes nine.
  function Quiet(s: State, n: nat, now: int, stamp: string): State { Repeat(Step, s, Call(Done, now, stamp), n) }

  // A reconcile from the newest version with room for that many calls, all answered.
  function PassEvents(versions: nat, calls: nat, now: int, stamp: string): (r: seq<Event>)
    requires versions > 0
    ensures forall e :: e in r ==> !e.Edit?
  {
    [Begin(versions - 1)] + seq(calls, _ => Call(Done, now, stamp))
  }

  function Pass(s: State, calls: nat, now: int, stamp: string): State
    requires s.world.versions != []
  {
    Exec(s, PassEvents(|s.world.versions|, calls, now, stamp))
  }

  lemma QuietCall(s: State, n: nat, now: int, stamp: string)
    requires n > 0
    ensures Quiet(s, n, now, stamp) == Quiet(Called(s, Done, now, stamp), n - 1, now, stamp)
  {
    RepeatOne(Step, s, Call(Done, now, stamp), n);
  }

  lemma QuietIdle(s: State, n: nat, now: int, stamp: string)
    requires s.pc.Idle?
    ensures Quiet(s, n, now, stamp) == s
  {
    RepeatFixed(Step, s, Call(Done, now, stamp), n);
  }

  function Last(w: World): Restore
    requires w.versions != []
  {
    w.versions[|w.versions| - 1]
  }

  predicate Current(w: World) { w.versions != [] && Last(w) == w.cr }

  // The world after the Job was created and reported as running.
  function WithJob(w: World, c: Restore, now: int, stamp: string): World {
    var v := Accepted(w, CreateJob(c), now, stamp);
    Accepted(v, PatchStatus(c, RunningWrite), now, stamp)
  }

  lemma QuietPrepare(w: World, c: Restore, n: nat, now: int, stamp: string)
    requires n >= 3
    ensures Quiet(State(w, ResolveTls(c)), n, now, stamp) == Quiet(State(w, CreateJob(c)), n - 3, now, stamp)
  {
    QuietCall(State(w, ResolveTls(c)), n, now, stamp);
    QuietCall(State(w, ResolveAuth(c)), n - 1, now, stamp);
    QuietCall(State(w, ApplyConfigMap(c)), n - 2, now, stamp);
  }

  lemma QuietResolve(w: World, c: Restore, n: nat, now: int, stamp: string)
    requires n >= 5
    ensures Quiet(State(w, GetBackup(c)), n, now, stamp) == Quiet(State(w, CreateJob(c)), n - 5, now, stamp)
  {
    QuietCall(State(w, GetBackup(c)), n, now, stamp);
    QuietCall(State(w, ResolveCluster(c)), n - 1, now, stamp);
    QuietPrepare(w, c, n - 2, now, stamp);
  }

  // The quiet way from an empty list to the reported Job.
  lemma QuietCreation(w: World, c: Restore, n: nat, now: int, stamp: string)
    requires n >= 7 && StampFree(w, stamp)
    ensures Quiet(State(w, GetBackup(c)), n, now, stamp) == State(WithJob(w, c, now, stamp), Idle)
  {
    QuietResolve(w, c, n, now, stamp);
    QuietCall(State(w, CreateJob(c)), n - 5, now, stamp);
    var v := Accepted(w, CreateJob(c), now, stamp);
    QuietCall(State(v, PatchStatus(c, RunningWrite)), n - 6, now, stamp);
    QuietIdle(State(WithJob(w, c, now, stamp), Idle), n - 7, now, stamp);
  }

  // The quiet way from the list on.
  function AfterList(w: World, c: Restore, now: int, stamp: string): World {
    match Decided(c, Listed(w), now)
    case GetBackup(_) => WithJob(w, c, now, stamp)
    case PatchStatus(_, write) => Accepted(w, PatchStatus(c, write), now, stamp)
    case _ => w
  }

  lemma QuietFromList(w: World, c: Restore, n: nat, now: int, stamp: string)
    requires n >= 8 && StampFree(w, stamp)
    ensures Quiet(State(w, ListJobs(c)), n, now, stamp) == State(AfterList(w, c, now, stamp), Idle)
  {
    var pc := Decided(c, Listed(w), now);
    QuietCall(State(w, ListJobs(c)), n, now, stamp);
    if pc.GetBackup? {
      QuietCreation(w, c, n - 1, now, stamp);
    } else if pc.PatchStatus? {
      QuietCall(State(w, pc), n - 1, now, stamp);
      QuietIdle(State(Accepted(w, pc, now, stamp), Idle), n - 2, now, stamp);
    } else {
      QuietIdle(State(w, pc), n - 1, now, stamp);
    }
  }

  function Finalized(w: World): World { if w.cr.finalizer then w else WithCr(w, w.cr.(finalizer := true)) }

  // The world one quiet pass leaves.
  function PassWorld(w: World, now: int, stamp: string): World {
    if w.cr.paused then
      if Started(w.cr).Idle? then w else Accepted(w, Started(w.cr), now, stamp)
    else if Complete(w.cr.status) then Finalized(w)
    else AfterList(Finalized(w), w.cr, now, stamp)
  }

  lemma QuietPause(w: World, n: nat, now: int, stamp: string)
    requires n > 0 && w.cr.paused
    ensures Quiet(State(w, Started(w.cr)), n, now, stamp) == State(PassWorld(w, now, stamp), Idle)
  {
    var s := State(w, Started(w.cr));
    if s.pc.Idle? {
      QuietIdle(s, n, now, stamp);
    } else {
      QuietCall(s, n, now, stamp);
      QuietIdle(State(Accepted(w, s.pc, now, stamp), Idle), n - 1, now, stamp);
    }
  }

  lemma QuietChecked(w: World, c: Restore, n: nat, now: int, stamp: string)
    requires n >= 8 && StampFree(w, stamp)
    ensures Quiet(State(w, Checked(c)), n, now, stamp) ==
            State(if Complete(c.status) then w else AfterList(w, c, now, stamp), Idle)
  {
    if Complete(c.status) { QuietIdle(State(w, Idle), n, now, stamp); } else { QuietFromList(w, c, n, now, stamp); }
  }

  lemma QuietStarted(w: World, n: nat, now: int, stamp: string)
    requires n >= 9 && StampFree(w, stamp)
    ensures Quiet(State(w, Started(w.cr)), n, now, stamp) == State(PassWorld(w, now, stamp), Idle)
  {
    if w.cr.paused {
      QuietPause(w, n, now, stamp);
    } else if w.cr.finalizer {
      QuietChecked(w, w.cr, n, now, stamp);
    } else {
      QuietCall(State(w, AddFinalizer(w.cr)), n, now, stamp);
      QuietChecked(Finalized(w), w.cr, n - 1, now, stamp);
    }
  }

  lemma BegunEnds(w: World, begin: Event, calls: nat, now: int, stamp: string)
    requires calls >= 9 && StampFree(w, stamp) && Step(State(w, Idle), begin) == State(w, Started(w.cr))
    ensures Exec(State(w, Idle), [begin] + seq(calls, _ => Call(Done, now, stamp))) == State(PassWorld(w, now, stamp), Idle)
  {
    QuietStarted(w, calls, now, stamp);
    BegunIsRun(Step, State(w, Idle), begin, Call(Done, now, stamp), calls);
  }

  // A quiet pass ends, within its nine calls.
  lemma PassEnds(w: World, calls: nat, now: int, stamp: string)
    requires Current(w) && calls >= 9 && StampFree(w, stamp)
    ensures Pass(State(w, Idle), calls, now, stamp) == State(PassWorld(w, now, stamp), Idle)
  {
    assert Step(State(w, Idle), Begin(|w.versions| - 1)) == State(w, Started(w.cr));
    BegunEnds(w, Begin(|w.versions| - 1), calls, now, stamp);
  }

  // Nothing is left to report.
  ghost predicate Quiescent(w: World) {
    if w.cr.paused then PausedShown(w.cr.status) && w.cr.status.observedGeneration == Some(w.cr.generation)
    else
      && w.cr.finalizer
      && (|| Complete(w.cr.status)
          || (ClassifyJobs(Listed(w)).Failed? && FailedShown(w.cr.status))
          || (ClassifyJobs(Listed(w)).InProgress? && RunningShown(w.cr.status)))
  }

  lemma DecidedIdleIff(w: World, c: Restore, now: int)
    ensures Decided(c, Listed(w), now).Idle? <==>
            || (ClassifyJobs(Listed(w)).Failed? && FailedShown(c.status))
            || (ClassifyJobs(Listed(w)).InProgress? && RunningShown(c.status))
  {
  }

  lemma AfterListGrows(w: World, c: Restore, now: int, stamp: string)
    ensures if Decided(c, Listed(w), now).Idle? then AfterList(w, c, now, stamp) == w
            else |AfterList(w, c, now, stamp).versions| > |w.versions|
  {
  }

  // The states a quiet pass leaves alone are exactly the quiescent ones.
  lemma FixedPointIff(w: World, calls: nat, now: int, stamp: string)
    requires Current(w) && calls >= 9 && StampFree(w, stamp)
    ensures Pass(State(w, Idle), calls, now, stamp) == State(w, Idle) <==> Quiescent(w)
  {
    PassEnds(w, calls, now, stamp);
    var v := PassWorld(w, now, stamp);
    if w.cr.paused {
      if v == w { assert |v.versions| == |w.versions|; }
    } else if Complete(w.cr.status) {
      if v == w { assert |v.versions| == |w.versions|; }
    } else {
      DecidedIdleIff(Finalized(w), w.cr, now);
      AfterListGrows(Finalized(w), w.cr, now, stamp);
      if !w.cr.finalizer { assert |v.versions| > |w.versions|; }
    }
  }

  lemma SameList(w: World, v: World)
    requires v.jobs == w.jobs && v.name == w.name
    ensures Listed(v) == Listed(w)
  {
  }

  lemma NewJobInProgress(w: World, c: Restore, now: int, stamp: string)
    requires !OwnJobIn(w) && KeepsSelector(c.templateLabels, w.name, RestoreJob)
    ensures ClassifyJobs(Listed(WithJob(w, c, now, stamp))).InProgress?
  {
    var v := WithJob(w, c, now, stamp);
    var job := JobFor(w, c, stamp);
    BuiltJobMatchesIff(w.name, c.cluster, RestoreJob, c.templateLabels);
    assert job in v.jobs && !JobFailed(job) && !JobSucceeded(job);
    forall j | j in Listed(v) ensures j == job {
      assert j in w.jobs ==> OwnJobIn(w);
    }
    ClassifyExact(Listed(v));
  }

  // After any history of crashes, lost answers and stale caches, one quiet pass reaches a state
  // that every further quiet pass leaves exactly as it is.
  lemma OnePassStabilises(w: World, calls: nat, now: int, stamp: string, later: int, otherStamp: string)
    requires calls >= 9
    requires Current(w) && KeepsSelector(w.cr.templateLabels, w.name, RestoreJob)
    requires StampFree(w, stamp)
    ensures var s := Pass(State(w, Idle), calls, now, stamp);
            && s.pc.Idle? && Quiescent(s.world) && Current(s.world)
            && (StampFree(s.world, otherStamp) ==> Pass(s, calls, later, otherStamp) == s)
  {
    PassEnds(w, calls, now, stamp);
    var v := PassWorld(w, now, stamp);
    PassIsQuiescent(w, now, stamp);
    if StampFree(v, otherStamp) { FixedPointIff(v, calls, later, otherStamp); }
  }

  lemma CreationIsQuiescent(f: World, c: Restore, now: int, stamp: string)
    requires f.cr == c.(finalizer := true) && !c.paused && KeepsSelector(c.templateLabels, f.name, RestoreJob)
    requires !OwnJobIn(f)
    ensures Quiescent(WithJob(f, c, now, stamp)) && Current(WithJob(f, c, now, stamp))
  {
    NewJobInProgress(f, c, now, stamp);
    ShownIs(WithJob(f, c, now, stamp).cr.status, RunningWrite, now);
  }

  lemma WrittenIsQuiescent(f: World, c: Restore, now: int, stamp: string)
    requires f.cr == c.(finalizer := true) && !c.paused && KeepsSelector(c.templateLabels, f.name, RestoreJob) && Current(f)
    requires !Decided(c, Listed(f), now).GetBackup?
    ensures Quiescent(AfterList(f, c, now, stamp)) && Current(AfterList(f, c, now, stamp))
  {
    var v, pc := AfterList(f, c, now, stamp), Decided(c, Listed(f), now);
    EmptyListNoJob(f.jobs, f.name, RestoreJob);
    SameList(f, v);
    if pc.PatchStatus? { ShownIs(v.cr.status, pc.w, now); }
  }

  lemma ListIsQuiescent(f: World, c: Restore, now: int, stamp: string)
    requires f.cr == c.(finalizer := true) && !c.paused && KeepsSelector(c.templateLabels, f.name, RestoreJob) && Current(f)
    ensures Quiescent(AfterList(f, c, now, stamp)) && Current(AfterList(f, c, now, stamp))
  {
    if Decided(c, Listed(f), now).GetBackup? {
      EmptyListNoJob(f.jobs, f.name, RestoreJob);
      CreationIsQuiescent(f, c, now, stamp);
    } else {
      WrittenIsQuiescent(f, c, now, stamp);
    }
  }

  lemma PassIsQuiescent(w: World, now: int, stamp: string)
    requires Current(w) && KeepsSelector(w.cr.templateLabels, w.name, RestoreJob)
    ensures Quiescent(PassWorld(w, now, stamp)) && Current(PassWorld(w, now, stamp))
  {
    if w.cr.paused {
      ShownIs(Written(w.cr.status, w.cr, PausedWrite, now), PausedWrite, now);
    } else if !Complete(w.cr.status) {
      ListIsQuiescent(Finalized(w), w.cr, now, stamp);
    }
  }

  lemma PassIsTruthful(w: World, calls: nat, now: int, stamp: string)
    requires calls >= 9
    requires Current(w) && Sound(State(w, Idle)) && StampFree(w, stamp)
    ensures Complete(PassWorld(w, now, stamp).cr.status) ==> Succeeds(PassWorld(w, now, stamp))
  {
    PassEnds(w, calls, now, stamp);
    StatusTellsTheTruth(State(w, Idle), PassEvents(|w.versions|, calls, now, stamp));
  }

  // If what was shown before is true, then unless it is paused the status after a quiet pass
  // says what the Jobs say, and there is a Job.
  lemma PassTellsTheVerdict(w: World, calls: nat, now: int, stamp: string)
    requires calls >= 9
    requires Current(w) && KeepsSelector(w.cr.templateLabels, w.name, RestoreJob) && Sound(State(w, Idle))
    requires StampFree(w, stamp) && !w.cr.paused
    ensures var v := Pass(State(w, Idle), calls, now, stamp).world;
            match ClassifyJobs(Listed(v))
            case Succeeded(_) => Complete(v.cr.status)
            case Failed(_) => FailedShown(v.cr.status)
            case InProgress => RunningShown(v.cr.status)
            case NoJobs => false
  {
    var v := PassWorld(w, now, stamp);
    PassEnds(w, calls, now, stamp);
    PassIsQuiescent(w, now, stamp);
    PassIsTruthful(w, calls, now, stamp);
    PassStaysUnpaused(w, now, stamp);
    QuiescentVerdict(v);
  }

  lemma PassStaysUnpaused(w: World, now: int, stamp: string)
    ensures PassWorld(w, now, stamp).cr.paused == w.cr.paused
  {
  }

  lemma QuiescentVerdict(v: World)
    requires Quiescent(v) && !v.cr.paused && (Complete(v.cr.status) ==> Succeeds(v))
    ensures match ClassifyJobs(Listed(v))
            case Succeeded(_) => Complete(v.cr.status)
            case Failed(_) => FailedShown(v.cr.status)
            case InProgress => RunningShown(v.cr.status)
            case NoJobs => false
  {
  }

  lemma OverridingJob(w: World, c: Restore, now: int, stamp: string)
    requires !OwnJobIn(w) && !KeepsSelector(c.templateLabels, w.name, RestoreJob)
    ensures var v := WithJob(w, c, now, stamp);
            && v.name == w.name && v.created == w.created + [NewJobName(w.name, stamp)]
            && v.jobs == w.jobs + [JobFor(w, c, stamp)]
            && v.cr.paused == w.cr.paused && v.cr.templateLabels == w.cr.templateLabels
            && Current(v) && !Complete(v.cr.status) && !OwnJobIn(v)
  {
  }

  // A template that overrides a selector key makes each quiet pass create another Job.
  lemma OverridingPassCreates(w: World, calls: nat, now: int, stamp: string)
    requires Current(w) && !w.cr.paused && !Complete(w.cr.status) && !OwnJobIn(w)
    requires !KeepsSelector(w.cr.templateLabels, w.name, RestoreJob)
    requires calls >= 9 && StampFree(w, stamp)
    ensures Pass(State(w, Idle), calls, now, stamp) == State(WithJob(Finalized(w), w.cr, now, stamp), Idle)
  {
    PassEnds(w, calls, now, stamp);
    EmptyListNoJob(w.jobs, w.name, RestoreJob);
  }

  lemma Chained(s: State, t: State, u: State, first: seq<Event>, second: seq<Event>)
    requires Exec(s, first) == t && Exec(t, second) == u
    ensures Exec(s, first + second) == u
  {
    RunAppend(Step, s, first, second);
  }

  lemma OverrideCreatesTwice(w: World, calls: nat, now: int, stamp: string, otherStamp: string) returns (events: seq<Event>)
    requires calls >= 9
    requires w.versions == [w.cr] && w.created == [] && w.jobs == [] && !w.cr.paused && !Complete(w.cr.status)
    requires !KeepsSelector(w.cr.templateLabels, w.name, RestoreJob) && stamp != otherStamp
    ensures |Exec(State(w, Idle), events).world.created| == 2
    ensures forall e :: e in events ==> !e.Edit?
  {
    var f := Finalized(w);
    OverridingPassCreates(w, calls, now, stamp);
    OverridingJob(f, w.cr, now, stamp);
    var v := WithJob(f, w.cr, now, stamp);
    JobNamesDiffer(w.name, stamp, otherStamp);
    OverridingPassCreates(v, calls, now, otherStamp);
    OverridingJob(Finalized(v), v.cr, now, otherStamp);
    var u := WithJob(Finalized(v), v.cr, now, otherStamp);
    var first, second := PassEvents(|w.versions|, calls, now, stamp), PassEvents(|v.versions|, calls, now, otherStamp);
    Chained(State(w, Idle), State(v, Idle), State(u, Idle), first, second);
    events := first + second;
  }

  ghost predicate NeverTwice(w: World) {
    forall events: seq<Event> :: (forall e :: e in events ==> !e.Edit?) ==> |Exec(State(w, Idle), events).world.created| <= 1
  }

  // For a CR nobody edits: no run creates two Jobs if and only if the template keeps the two
  // selector keys.
  lemma AtMostOnceIff(w: World, stamp: string, otherStamp: string)
    requires w.versions == [w.cr] && w.created == [] && w.jobs == [] && !w.cr.paused && !Complete(w.cr.status)
    requires stamp != otherStamp
    ensures NeverTwice(w) <==> KeepsSelector(w.cr.templateLabels, w.name, RestoreJob)
  {
    if KeepsSelector(w.cr.templateLabels, w.name, RestoreJob) {
      forall events: seq<Event> | forall e :: e in events ==> !e.Edit?
        ensures |Exec(State(w, Idle), events).world.created| <= 1
      {
        AtMostOnce(State(w, Idle), events);
      }
    } else {
      var calls: nat :| calls >= 9;
      var events := OverrideCreatesTwice(w, calls, 0, stamp, otherStamp);
    }
  }
}
