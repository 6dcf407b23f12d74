// Whole quiet reconciles of a backup, the retention pass included: which states they leave
// unchanged, in status and in storage, and how many of them reach such a state.
module BackupSettling {
  import opened Wrappers
  import opened JobState
  import opened Conditions
  import opened History
  import opened Labels
  import opened StatusPatch
  import opened Environment
  import opened RetentionPolicy
  import opened ObjectStore
  import opened RetentionPass
  import opened RetentionGuarantees
  import opened Ownership
  import opened BackupProtocol
  import opened BackupSafety
  import opened BackupRetention
  import opened BackupConvergence

  // The cluster and the storage as the operator sees it.
  datatype Site = Site(world: World, view: map<string, Object>)

  // What a retention pass nobody disturbs makes of them.
  ghost function Swept(s: Site, c: Backup, unreadable: set<string>, now: int): Site {
    if !HasPass(c) then s
    else
      var history, input := s.world.cr.status.backupHistory, InputOf(s.world, c, unreadable, now);
      Site(HistoryRecorded(s.world, Some(FinalHistory(s.view, history, input))), FinalView(s.view, history, input))
  }

  // A whole quiet reconcile.
  ghost function SitePass(s: Site, unreadable: set<string>, now: int, stamp: string): Site {
    var v := PassWorld(s.world, now, stamp);
    if s.world.cr.paused then Site(v, s.view) else Swept(Site(v, s.view), s.world.cr, unreadable, now)
  }

  // Nothing to merge, to prune or to drop.
  ghost predicate RetentionSettled(s: Site, unreadable: set<string>, now: int) {
    !s.world.cr.paused && HasPass(s.world.cr) ==>
      var history, input := s.world.cr.status.backupHistory, InputOf(s.world, s.world.cr, unreadable, now);
      FinalHistory(s.view, history, input) == history && FinalView(s.view, history, input) == s.view
  }

  lemma SweptGrows(s: Site, c: Backup, unreadable: set<string>, now: int)
    ensures var w := Swept(s, c, unreadable, now).world;
            w == s.world || |w.versions| > |s.world.versions|
  {
  }

  // Spared: ranked among the kept, or protected by a Job with a running pod.
  ghost predicate Spared(w: World, c: Backup, merged: seq<Entry>, now: int, id: string)
    requires c.retention.Some?
  {
    || id in Ids(merged[..KeepCount(merged, c.retention.value, now)])
    || exists j :: j in Listed(w) && HasRunningPods(j) && (j.name == id || (c.offsetStorage && id == w.name))
  }

  // What the pass drops, in terms of the CR and its Jobs. Without a schedule or a policy that
  // prunes on schedule it drops nothing.
  lemma SweepExact(s: Site, c: Backup, unreadable: set<string>, now: int)
    requires UniqueIds(s.world.cr.status.backupHistory)
    ensures var t := Swept(s, c, unreadable, now);
            if !(c.retention.Some? && c.retention.value.pruneOnSchedule && c.schedule.Some?) then t == s
            else
              var merged := Merged(s.world.cr.status.backupHistory, Discovered(s.view, unreadable, s.world.name, now));
              var left := Ids(t.world.cr.status.backupHistory);
              && (forall id :: id in left <==> id in Ids(merged) && Spared(s.world, c, merged, now, id))
              && t.view == Remaining(s.view, Ids(merged) - left)
  {
    if HasPass(c) {
      var history, input := s.world.cr.status.backupHistory, InputOf(s.world, c, unreadable, now);
      var left := Ids(FinalHistory(s.view, history, input));
      PassLeavesIff(s.view, history, input);
      RecordedHistory(s.world, FinalHistory(s.view, history, input));
      forall id ensures id in left <==> id in Ids(MergedHistory(s.view, history, input))
                                        && Spared(s.world, c, MergedHistory(s.view, history, input), now, id) {
        assert ProtectedBy(input, id) <==>
               exists j :: j in Listed(s.world) && HasRunningPods(j) && (j.name == id || (c.offsetStorage && id == s.world.name));
      }
    }
  }

  lemma RecordedHistory(w: World, h: seq<Entry>)
    ensures HistoryRecorded(w, Some(h)).cr.status.backupHistory == h
  {
  }

  // The states a quiet reconcile leaves unchanged are exactly the quiescent ones whose history
  // and storage the retention pass leaves alone.
  lemma FixedPointIff(s: Site, unreadable: set<string>, now: int, stamp: string)
    requires Current(s.world)
    ensures SitePass(s, unreadable, now, stamp) == s <==> Quiescent(s.world) && RetentionSettled(s, unreadable, now)
  {
    var w, v := s.world, PassWorld(s.world, now, stamp);
    if w.cr.paused {
      if v == w { assert |v.versions| == |w.versions|; }
    } else {
      ActiveGrows(w, now, stamp);
      SweptGrows(Site(v, s.view), w.cr, unreadable, now);
      if SitePass(s, unreadable, now, stamp) == s {
        assert |v.versions| == |w.versions| && v == w;
        if HasPass(w.cr) {
          HistoryFixed(w, FinalHistory(s.view, w.cr.status.backupHistory, InputOf(w, w.cr, unreadable, now)));
        }
      }
    }
  }

  lemma HistoryFixed(w: World, h: seq<Entry>)
    ensures HistoryRecorded(w, Some(h)) == w <==> h == w.cr.status.backupHistory
  {
    if HistoryRecorded(w, Some(h)) == w { assert |HistoryRecorded(w, Some(h)).versions| == |w.versions|; }
  }

  // A history with ids that name directories, each once.
  ghost predicate TidyHistory(h: seq<Entry>) { UniqueIds(h) && SlashFree(Ids(h)) }

  // Manifests in directories named after their id, whatever the clock and the Jobs.
  ghost predicate Named(view: map<string, Object>, owner: string, unreadable: set<string>) {
    WellNamed(view, PassInput(owner, RetentionSpec(None, None, true), [], false, unreadable, 0))
  }

  ghost predicate LatestNamed(w: World) {
    LatestTerminal(Listed(w)).Some? ==> '/' !in LatestTerminal(Listed(w)).value.name
  }

  // Such names in the recorded history, in storage and on the latest finished Job.
  ghost predicate Tidy(s: Site, unreadable: set<string>) {
    && TidyHistory(s.world.cr.status.backupHistory)
    && Named(s.view, s.world.name, unreadable)
    && LatestNamed(s.world)
  }

  lemma NamedAtAnyClock(view: map<string, Object>, input: PassInput)
    ensures Named(view, input.owner, input.unreadable) <==> WellNamed(view, input)
  {
    var reader := PassInput(input.owner, RetentionSpec(None, None, true), [], false, input.unreadable, 0);
    assert forall k :: k in view ==>
      (KeyEntry(k, view[k], reader.unreadable, reader.owner, reader.now).Some? <==>
       KeyEntry(k, view[k], input.unreadable, input.owner, input.now).Some?);
  }

  lemma UpsertKeepsTidy(h: seq<Entry>, e: Entry)
    requires TidyHistory(h) && '/' !in e.id
    ensures TidyHistory(Upserted(h, e))
  {
    UpsertRefinesMap(h, e);
    assert Ids(Upserted(h, e)) == Ids(h) + {e.id};
  }

  lemma ReportHistory(w: World, c: Backup, r: Report, now: int)
    ensures ReportWorld(w, c, r, now).cr.status.backupHistory ==
            if r.CompletedReport? then Upserted(w.cr.status.backupHistory, r.entry) else w.cr.status.backupHistory
  {
    if r.CompletedReport? { assert |Upserted(w.cr.status.backupHistory, r.entry)| == |Placed(w.cr.status.backupHistory, r.entry)| > 0; }
  }

  // Only a completion touches the history.
  lemma BeforeOutcomeHistory(w: World, c: Backup, now: int, stamp: string)
    ensures ScheduleWorld(w, c, now).cr.status.backupHistory == w.cr.status.backupHistory
    ensures GateWorld(w, c, now, stamp).cr.status.backupHistory == w.cr.status.backupHistory
  {
    if c.schedule.Some? { ReportHistory(w, c, ScheduleReport(c.schedule.value), now); }
    if GateOpen(w, c) { ReportHistory(Accepted(w, CreateJob(c), now, stamp), c, RunningReport, now); }
  }

  lemma OutcomeKeepsTidy(w: World, c: Backup, now: int)
    requires TidyHistory(w.cr.status.backupHistory) && LatestNamed(w)
    ensures TidyHistory(OutcomeWorld(w, c, now).cr.status.backupHistory)
  {
    var r := OutcomeReport(c.status, Listed(w), now);
    if r.Some? {
      ReportHistory(w, c, r.value, now);
      if r.value.CompletedReport? { UpsertKeepsTidy(w.cr.status.backupHistory, r.value.entry); }
    }
  }

  lemma ActiveKeepsTidy(w: World, now: int, stamp: string)
    requires Current(w) && !w.cr.paused && Exclusive(w.cr.status) && TidyHistory(w.cr.status.backupHistory) && LatestNamed(w)
    ensures TidyHistory(ActiveWorld(w, now, stamp).cr.status.backupHistory)
  {
    var c, f := w.cr, Finalized(w);
    var a := ScheduleWorld(f, c, now);
    ScheduleGrows(f, c, now);
    if c.schedule.Some? { ReportSettles(f, c, ScheduleReport(c.schedule.value), now); }
    assert Listed(a) == Listed(w);
    BeforeOutcomeHistory(f, c, now, stamp);
    BeforeOutcomeHistory(a, c, now, stamp);
    GateLeaves(a, c, now, stamp);
    OutcomeKeepsTidy(GateWorld(a, c, now, stamp), c, now);
  }

  lemma RecordedWorld(w: World, h: Option<seq<Entry>>)
    ensures var v := HistoryRecorded(w, h);
            && v.name == w.name && v.jobs == w.jobs && Listed(v) == Listed(w)
            && v.cr == w.cr.(status := w.cr.status.(backupHistory := v.cr.status.backupHistory))
            && (Current(w) ==> Current(v))
  {
  }

  lemma SameButHistory(w: World, v: World)
    requires v.name == w.name && v.jobs == w.jobs
    requires v.cr == w.cr.(status := w.cr.status.(backupHistory := v.cr.status.backupHistory))
    ensures Quiescent(w) <==> Quiescent(v)
  {
    assert Listed(v) == Listed(w);
    assert OutcomeReport(w.cr.status, Listed(w), 0).None? <==> OutcomeReport(v.cr.status, Listed(w), 0).None?;
  }

  // A pass rewrites the history and nothing else of the cluster.
  lemma SweptWorld(s: Site, c: Backup, unreadable: set<string>, now: int)
    ensures var w, v := s.world, Swept(s, c, unreadable, now).world;
            && v.name == w.name && v.jobs == w.jobs && Listed(v) == Listed(w)
            && v.cr == w.cr.(status := w.cr.status.(backupHistory := v.cr.status.backupHistory))
            && (Current(w) ==> Current(v)) && (Quiescent(w) <==> Quiescent(v))
  {
    var v := Swept(s, c, unreadable, now).world;
    if HasPass(c) {
      RecordedWorld(s.world, Some(FinalHistory(s.view, s.world.cr.status.backupHistory, InputOf(s.world, c, unreadable, now))));
    }
    SameButHistory(s.world, v);
  }

  lemma SweptKeepsTidy(s: Site, c: Backup, unreadable: set<string>, now: int)
    requires Tidy(s, unreadable)
    ensures Tidy(Swept(s, c, unreadable, now), unreadable)
  {
    SweptWorld(s, c, unreadable, now);
    if HasPass(c) {
      var history, input := s.world.cr.status.backupHistory, InputOf(s.world, c, unreadable, now);
      NamedAtAnyClock(s.view, input);
      NamedAtAnyClock(FinalView(s.view, history, input), input);
      PassExact(s.view, history, input);
      PrunedSlashFree(s.view, history, input);
    }
  }

  lemma SitePassLeaves(s: Site, unreadable: set<string>, now: int, stamp: string)
    requires Current(s.world) && !s.world.cr.paused && Exclusive(s.world.cr.status) && Tidy(s, unreadable)
    ensures var t := SitePass(s, unreadable, now, stamp); Leaves(s.world, t.world) && Tidy(t, unreadable)
  {
    var middle := Site(ActiveWorld(s.world, now, stamp), s.view);
    PassLeaves(s.world, now, stamp);
    ActiveKeepsTidy(s.world, now, stamp);
    SweptWorld(middle, s.world.cr, unreadable, now);
    SweptKeepsTidy(middle, s.world.cr, unreadable, now);
  }

  // After a pass another one with the same clock and Jobs finds nothing to do.
  lemma SweptSettles(s: Site, c: Backup, unreadable: set<string>, now: int)
    requires Tidy(s, unreadable)
    requires s.world.cr == c.(status := s.world.cr.status, finalizer := true, triggered := false)
    ensures RetentionSettled(Swept(s, c, unreadable, now), unreadable, now)
  {
    if HasPass(c) {
      var history, input := s.world.cr.status.backupHistory, InputOf(s.world, c, unreadable, now);
      var t := Swept(s, c, unreadable, now);
      SweptWorld(s, c, unreadable, now);
      assert InputOf(t.world, t.world.cr, unreadable, now) == input;
      NamedAtAnyClock(s.view, input);
      PassIdempotent(s.view, history, input);
    }
  }

  lemma SitePassSettlesRetention(s: Site, unreadable: set<string>, now: int, stamp: string)
    requires Current(s.world) && !s.world.cr.paused && Exclusive(s.world.cr.status) && Tidy(s, unreadable)
    ensures RetentionSettled(SitePass(s, unreadable, now, stamp), unreadable, now)
  {
    var middle := Site(ActiveWorld(s.world, now, stamp), s.view);
    PassLeaves(s.world, now, stamp);
    ActiveKeepsTidy(s.world, now, stamp);
    SweptSettles(middle, s.world.cr, unreadable, now);
  }

  // What a second reconcile settles of the status.
  lemma SecondQuiescent(s: Site, t: Site, unreadable: set<string>, now: int, stamp: string)
    requires Current(t.world) && !s.world.cr.paused && Leaves(s.world, t.world) && Exclusive(s.world.cr.status)
    requires KeepsSelector(s.world.cr.templateLabels, s.world.name, BackupJob)
    ensures Quiescent(SitePass(t, unreadable, now, stamp).world) <==> s.world.cr.schedule.None? || !LatestFailed(s.world)
  {
    var v := ActiveWorld(t.world, now, stamp);
    SweptWorld(Site(v, t.view), t.world.cr, unreadable, now);
    PassLeaves(t.world, now, stamp);
    if s.world.cr.schedule.None? {
      OneShotSettles(t.world, now, stamp);
    } else if LatestFailed(s.world) {
      FailedScheduleNeverSettles(v);
    } else {
      RecordedScheduleSettles(t.world, now, stamp);
    }
  }

  // Two quiet reconciles settle status and storage: a third with the second's clock changes
  // nothing. The exception is exact: a schedule whose latest finished Job failed.
  lemma TwoPassesSettleIff(s: Site, unreadable: set<string>, first: int, now: int, stamps: (string, string, string))
    requires Current(s.world) && KeepsSelector(s.world.cr.templateLabels, s.world.name, BackupJob)
    requires Exclusive(s.world.cr.status) && Tidy(s, unreadable)
    ensures var t := SitePass(s, unreadable, first, stamps.0);
            var u := SitePass(t, unreadable, now, stamps.1);
            SitePass(u, unreadable, now, stamps.2) == u <==>
              s.world.cr.paused || s.world.cr.schedule.None? || !LatestFailed(s.world)
  {
    var t := SitePass(s, unreadable, first, stamps.0);
    var u := SitePass(t, unreadable, now, stamps.1);
    if s.world.cr.paused {
      PausedSettles(s.world, first, stamps.0);
      PausedSettles(t.world, now, stamps.1);
    } else {
      SitePassLeaves(s, unreadable, first, stamps.0);
      SitePassLeaves(t, unreadable, now, stamps.1);
      SecondQuiescent(s, t, unreadable, now, stamps.1);
      SitePassSettlesRetention(t, unreadable, now, stamps.1);
    }
    FixedPointIff(u, unreadable, now, stamps.2);
  }

  // One reconcile settles a paused backup and a one-shot backup nobody triggered, storage
  // untouched.
  lemma OnePassSettles(s: Site, unreadable: set<string>, first: int, now: int, stamp: string, otherStamp: string)
    requires Current(s.world) && KeepsSelector(s.world.cr.templateLabels, s.world.name, BackupJob)
    requires Exclusive(s.world.cr.status)
    requires s.world.cr.paused || (s.world.cr.schedule.None? && !s.world.cr.triggered)
    ensures var t := SitePass(s, unreadable, first, stamp);
            t.view == s.view && SitePass(t, unreadable, now, otherStamp) == t
  {
    var v := PassWorld(s.world, first, stamp);
    if s.world.cr.paused {
      PausedSettles(s.world, first, stamp);
      assert v.cr.paused;
    } else {
      PassLeaves(s.world, first, stamp);
      OneShotSettles(s.world, first, stamp);
      assert v.cr.schedule.None?;
    }
    FixedPointIff(Site(v, s.view), unreadable, now, otherStamp);
  }
}
