// Restore phases only move forward: error, running, then completed or failed, and an outcome
// once shown is replaced by nothing but a pause.
module RestorePhases {
  import opened Wrappers
  import opened JobState
  import opened Conditions
  import opened Labels
  import opened Environment
  import opened Runs
  import opened RestoreProtocol
  import opened RestoreSafety

  ghost predicate AllFailed(w: World) {
    && OwnJobIn(w)
    && forall j :: j in w.jobs && Matches(j.labels, w.name, RestoreJob) ==> FailedForGood(j)
  }

  // What a write presupposes of the Jobs.
  ghost predicate Backed(w: World, a: Write) {
    match a
    case CompletedWrite(_) => Succeeds(w)
    case FailedWrite(_) => AllFailed(w)
    case RunningWrite => OwnJobIn(w)
    case _ => true
  }

  predicate MayFollow(a: Write, b: Write) {
    && (a.CompletedWrite? ==> b.CompletedWrite? || b.PausedWrite?)
    && (a.FailedWrite? ==> b.FailedWrite? || b.PausedWrite?)
    && (a.RunningWrite? ==> !b.ErrorWrite?)
  }

  ghost predicate Forward(writes: seq<Write>) {
    forall i, j :: 0 <= i < j < |writes| ==> MayFollow(writes[i], writes[j])
  }

  ghost predicate MayAppend(writes: seq<Write>, b: Write) { forall a :: a in writes ==> MayFollow(a, b) }

  ghost predicate NothingRanYet(writes: seq<Write>) { forall a :: a in writes ==> a.ErrorWrite? || a.PausedWrite? }

  ghost predicate PhasePc(w: World, pc: Pc) {
    && (pc.PatchStatus? ==> Backed(w, pc.w) && MayAppend(w.writes, pc.w))
    && (Creating(pc) ==> NothingRanYet(w.writes))
  }

  ghost predicate Phased(s: State) {
    && Forward(s.world.writes)
    && (forall a :: a in s.world.writes ==> Backed(s.world, a))
    && PhasePc(s.world, s.pc)
  }

  // Jobs that only progress, or come from other parties under other labels.
  lemma AllFailedStays(s: State, e: Event)
    requires AllFailed(s.world) && NoImpostor(s.world.name, e) && !(e.Call? && s.pc.CreateJob?)
    ensures AllFailed(Step(s, e).world)
  {
    var w, v := s.world, Step(s, e).world;
    StepKeepsJobs(s, e);
    OwnJobStays(w.jobs, v.jobs, w.name, RestoreJob);
    forall i | 0 <= i < |v.jobs| && Matches(v.jobs[i].labels, v.name, RestoreJob)
      ensures FailedForGood(v.jobs[i])
    {
      assert i < |w.jobs| && Persists(w.jobs[i], v.jobs[i]);
      assert w.jobs[i] in w.jobs;
    }
  }

  lemma BackedStays(s: State, e: Event, a: Write)
    requires Backed(s.world, a) && NoImpostor(s.world.name, e)
    requires e.Call? && s.pc.CreateJob? ==> !a.FailedWrite?
    ensures Backed(Step(s, e).world, a)
  {
    StepKeepsJobs(s, e);
    match a
    case CompletedWrite(_) => OutcomesStay(s.world, Step(s, e).world);
    case FailedWrite(_) => AllFailedStays(s, e);
    case RunningWrite => OwnJobStays(s.world.jobs, Step(s, e).world.jobs, s.world.name, RestoreJob);
    case _ =>
  }

  lemma Verdict(w: World)
    ensures match ClassifyJobs(Listed(w))
            case Succeeded(_) => Succeeds(w)
            case Failed(_) => AllFailed(w) && !Succeeds(w)
            case InProgress => OwnJobIn(w) && !Succeeds(w) && !AllFailed(w)
            case NoJobs => !OwnJobIn(w)
  {
  }

  // The decision after the list fits everything written so far.
  lemma DecisionFits(w: World, c: Restore, now: int)
    requires forall a :: a in w.writes ==> Backed(w, a)
    ensures PhasePc(w, Decided(c, Listed(w), now))
  {
    Verdict(w);
    assert Succeeds(w) ==> OwnJobIn(w) && !AllFailed(w);
  }

  // A write that may follow goes to the end.
  lemma AppendForward(writes: seq<Write>, a: Write)
    requires Forward(writes) && MayAppend(writes, a)
    ensures Forward(writes + [a])
  {
    forall i | 0 <= i < |writes| ensures MayFollow(writes[i], a) { assert writes[i] in writes; }
  }

  lemma CallIsPhased(s: State, reply: Reply, now: int, stamp: string)
    requires Phased(s) && LabelsSafe(s)
    ensures var t := Called(s, reply, now, stamp);
            && Forward(t.world.writes)
            && (forall a :: a in t.world.writes ==> a in s.world.writes || Backed(t.world, a))
            && PhasePc(t.world, t.pc)
  {
    if s.pc.ListJobs? {
      DecisionFits(s.world, s.pc.c, now);
    } else if s.pc.CreateJob? {
      CreatedJobIsOwn(s.world, s.pc, now, stamp);
    } else if s.pc.PatchStatus? {
      AppendForward(s.world.writes, s.pc.w);
    } else {
      AcceptedElsewhere(s.world, s.pc, now, stamp);
    }
  }

  lemma PhasedStep(s: State, e: Event)
    requires Phased(s) && LabelsSafe(s) && NoImpostor(s.world.name, e)
    ensures Phased(Step(s, e))
  {
    forall a | a in s.world.writes ensures Backed(Step(s, e).world, a) { BackedStays(s, e, a); }
    if e.Call? {
      CallIsPhased(s, e.reply, e.now, e.stamp);
    } else if s.pc.PatchStatus? {
      BackedStays(s, e, s.pc.w);
    }
  }

  // Over every run, with any lost answers, crashes, stale caches, pauses and edits: nothing but
  // pauses is written besides completion after completion, nor besides failure after failure,
  // and no dependency error after the Job ran.
  lemma {:induction false} PhasesMoveForward(s: State, events: seq<Event>)
    requires s.pc.Idle? && s.world.writes == [] && LabelsSafe(s)
    requires forall e :: e in events ==> KeepsLabels(s.world.name, e) && NoImpostor(s.world.name, e)
    ensures Forward(Exec(s, events).world.writes)
    ensures Phased(Exec(s, events)) && LabelsSafe(Exec(s, events)) && Exec(s, events).world.name == s.world.name
    decreases |events|
  {
    if events != [] {
      var n := |events| - 1;
      PhasesMoveForward(s, events[..n]);
      PhasedStep(Exec(s, events[..n]), events[n]);
      LabelsStaySafe(Exec(s, events[..n]), events[n]);
    }
  }

  ghost predicate Outcome(w: World, ok: bool) { if ok then Succeeds(w) else AllFailed(w) }

  predicate Shows(status: RestoreStatus, ok: bool) { if ok then Complete(status) else FailedShown(status) }

  predicate Reports(a: Write, ok: bool) { a.PausedWrite? || if ok then a.CompletedWrite? else a.FailedWrite? }

  // Only the outcome or a pause has been written since the first n writes, nothing was created.
  ghost predicate Final(s: State, first: World, ok: bool) {
    && Outcome(s.world, ok)
    && s.world.created == first.created
    && !Creating(s.pc)
    && (s.pc.PatchStatus? ==> Reports(s.pc.w, ok))
    && first.writes <= s.world.writes
    && (forall i :: |first.writes| <= i < |s.world.writes| ==> Reports(s.world.writes[i], ok))
    && (Shows(s.world.cr.status, ok) || PausedWrite in s.world.writes[|first.writes|..])
  }

  lemma FinalWrite(s: State, first: World, ok: bool, now: int, stamp: string)
    requires Final(s, first, ok) && s.pc.PatchStatus?
    ensures Final(State(Accepted(s.world, s.pc, now, stamp), Idle), first, ok)
  {
    var v, n := Accepted(s.world, s.pc, now, stamp), |first.writes|;
    ShownIs(v.cr.status, s.pc.w, now);
    assert v.writes[n..] == s.world.writes[n..] + [s.pc.w];
    assert PausedWrite in s.world.writes[n..] ==> PausedWrite in v.writes[n..];
    assert s.pc.w == v.writes[n..][|v.writes| - n - 1];
  }

  // A call that is no write and creates nothing leaves Jobs, writes and status alone.
  lemma AcceptedElsewhere(w: World, pc: Pc, now: int, stamp: string)
    requires !pc.PatchStatus? && !pc.CreateJob?
    ensures var v := Accepted(w, pc, now, stamp);
            && v.name == w.name && v.jobs == w.jobs && v.created == w.created && v.writes == w.writes
            && v.cr.status == w.cr.status
  {
  }

  // With the outcome in the Jobs no reconcile gets to creating one, nor to another report.
  lemma FinalGoesOn(w: World, pc: Pc, now: int, ok: bool, error: ErrorKind, message: string)
    requires Outcome(w, ok) && !Creating(pc) && !pc.PatchStatus?
    ensures var next := Answered(w, pc, now);
            !Creating(next) && (next.PatchStatus? ==> Reports(next.w, ok))
    ensures Erred(pc, error, message).Idle?
  {
    if pc.ListJobs? { Verdict(w); }
  }

  lemma FinalCall(s: State, first: World, ok: bool, reply: Reply, now: int, stamp: string)
    requires Final(s, first, ok)
    ensures Final(Called(s, reply, now, stamp), first, ok) && Called(s, reply, now, stamp).world.name == s.world.name
  {
    if s.pc.PatchStatus? {
      FinalWrite(s, first, ok, now, stamp);
    } else {
      AcceptedElsewhere(s.world, s.pc, now, stamp);
      FinalGoesOn(s.world, s.pc, now, ok, Kube, "response lost");
      if reply.Refused? { FinalGoesOn(s.world, s.pc, now, ok, reply.error, reply.message); }
    }
  }

  lemma FinalStep(s: State, e: Event, first: World, ok: bool)
    requires Final(s, first, ok) && (ok || NoImpostor(s.world.name, e))
    ensures Final(Step(s, e), first, ok) && Step(s, e).world.name == s.world.name
  {
    if e.Call? {
      FinalCall(s, first, ok, e.reply, e.now, e.stamp);
    } else {
      StepKeepsJobs(s, e);
      if ok { OutcomesStay(s.world, Step(s, e).world); } else { AllFailedStays(s, e); }
    }
  }

  // Once RestoreComplete or RestoreFailed is shown and true, no later reconcile creates a Job or
  // writes anything but that outcome or a pause, and only a pause may hide it. For completion
  // this needs nothing of the other parties and nothing of the template labels.
  lemma {:induction false} OutcomeIsFinal(s: State, events: seq<Event>, ok: bool)
    requires s.pc.Idle? && Outcome(s.world, ok) && Shows(s.world.cr.status, ok)
    requires ok || forall e :: e in events ==> NoImpostor(s.world.name, e)
    ensures var w := Exec(s, events).world;
            && w.created == s.world.created
            && s.world.writes <= w.writes
            && (forall i :: |s.world.writes| <= i < |w.writes| ==> Reports(w.writes[i], ok))
            && (Shows(w.cr.status, ok) || PausedWrite in w.writes[|s.world.writes|..])
    ensures Final(Exec(s, events), s.world, ok) && Exec(s, events).world.name == s.world.name
    decreases |events|
  {
    if events != [] {
      var n := |events| - 1;
      OutcomeIsFinal(s, events[..n], ok);
      FinalStep(Exec(s, events[..n]), events[n], s.world, ok);
    }
  }
}
