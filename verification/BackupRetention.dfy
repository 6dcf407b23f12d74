// The retention pass as the last stretch of a backup reconcile: which passes run, what they see
// of the cluster, and how they go on when a call of the API server or of the store fails.
module BackupRetention {
  import opened Wrappers
  import opened Sorting
  import opened JobState
  import opened History
  import opened RetentionPolicy
  import opened Layouts
  import opened ObjectStore
  import opened RetentionPass
  import opened Environment
  import opened Runs
  import opened Turns
  import opened BackupProtocol
  import opened BackupReconciler

  // Only a schedule with a policy that prunes on schedule has a pass.
  predicate HasPass(c: Backup) {
    c.retention.Some? && c.schedule.Some? && c.retention.value.pruneOnSchedule
  }

  function InputOf(w: World, c: Backup, unreadable: set<string>, now: int): PassInput
    requires HasPass(c)
  {
    PassInput(w.name, c.retention.value, Listed(w), c.offsetStorage, unreadable, now)
  }

  // How the store fares: whether the discovery is answered, and whether the pruning is.
  datatype StoreAnswers = StoreAnswers(discovered: bool, pruned: bool)

  // Where a pass ends: the world, the turns it leaves and the ids it set out to prune.
  datatype Stretch = Stretch(world: World, turns: seq<Turn<Event>>, toPrune: seq<string>)

  // The pass after the discovery: list the Jobs, prune, patch the history. Between the calls the
  // others act.
  ghost function Pruning(s: State, turns: seq<Turn<Event>>, c: Backup, view: map<string, Object>, history: seq<Entry>,
                         unreadable: set<string>, now: int, pruned: bool): Stretch
    requires HasPass(c)
  {
    var (listed, turns1) := Asked(Reconciler(), s, turns);
    if listed.pc.Idle? then Stretch(listed.world, turns1, [])
    else
      var input := InputOf(listed.world, c, unreadable, now);
      if !pruned then Stretch(listed.world, turns1, ToPrune(view, history, input))
      else
        var (done, turns2) := Asked(Recorder(FinalHistory(view, history, input)), listed, turns1);
        Stretch(done.world, turns2, ToPrune(view, history, input))
  }

  // The whole pass: read the history, discover, and go on.
  ghost function Retaining(s: State, turns: seq<Turn<Event>>, c: Backup, view: map<string, Object>,
                           unreadable: set<string>, now: int, fared: StoreAnswers): Stretch
    requires HasPass(c)
  {
    var (read, turns1) := Asked(Reconciler(), s, turns);
    if read.pc.Idle? || !fared.discovered then Stretch(read.world, turns1, [])
    else Pruning(read, turns1, c, view, read.world.cr.status.backupHistory, unreadable, now, fared.pruned)
  }

  // What the store may have lost in a stretch.
  ghost predicate StoreAfter(before: map<Path, Object>, after: map<Path, Object>, layout: Layout,
                             toPrune: seq<string>, pruned: bool) {
    if pruned then after == AfterPruning(before, layout, toPrune) else CutShort(before, after, layout, toPrune)
  }

  lemma NothingPruned(objects: map<Path, Object>, layout: Layout)
    ensures StoreAfter(objects, objects, layout, [], true)
  {
  }

  lemma PruningUnlisted(s: State, turns: seq<Turn<Event>>, c: Backup, view: map<string, Object>, history: seq<Entry>,
                        unreadable: set<string>, now: int)
    requires HasPass(c) && Asked(Reconciler(), s, turns).0.pc.Idle?
    ensures Pruning(s, turns, c, view, history, unreadable, now, true) ==
            Stretch(Asked(Reconciler(), s, turns).0.world, Asked(Reconciler(), s, turns).1, [])
  {
  }

  // `apply_retention_policy`.
  method ApplyRetentionPolicy(api: ApiServer, store: BackupObjectStore, backup: Backup, now: int)
    returns (ghost fared: StoreAnswers)
    requires store.Valid() && HasPass(backup)
    modifies api, store`healthyCalls, store`objects
    ensures store.Valid()
    ensures old(store.healthyCalls.None?) ==> fared == StoreAnswers(true, true)
    ensures OnlyDeletes(old(store.objects), store.objects, store.layout)
    ensures var s := Retaining(State(old(api.world), Retain(backup)), old(api.turns), backup,
                               View(old(store.objects), store.layout), store.unreadable, now, fared);
            && api.world == s.world && api.turns == s.turns
            && StoreAfter(old(store.objects), store.objects, store.layout, s.toPrune, fared.pruned)
  {
    fared := StoreAnswers(true, true);
    var history := api.ReadHistory(backup);
    if history.None? { return; }
    var merged := MergeDiscovered(store, history.value, api.world.name, now);
    if merged.Err? {
      fared := StoreAnswers(false, true);
      return;
    }
    var ok := PruneMerged(api, store, backup, View(store.objects, store.layout), history.value, merged.value, now);
    fared := StoreAnswers(true, ok);
  }

  // The pass after the discovery.
  method PruneMerged(api: ApiServer, store: BackupObjectStore, backup: Backup, ghost view: map<string, Object>,
                     ghost history: seq<Entry>, merged: seq<Entry>, now: int)
    returns (ok: bool)
    requires store.Valid() && HasPass(backup) && view == View(store.objects, store.layout)
    requires merged == Merged(history, Discovered(view, store.unreadable, api.world.name, now))
    modifies api, store`healthyCalls, store`objects
    ensures store.Valid()
    ensures old(store.healthyCalls.None?) ==> ok
    ensures OnlyDeletes(old(store.objects), store.objects, store.layout)
    ensures var s := Pruning(State(old(api.world), Retain(backup)), old(api.turns), backup, view, history,
                             store.unreadable, now, ok);
            && api.world == s.world && api.turns == s.turns
            && StoreAfter(old(store.objects), store.objects, store.layout, s.toPrune, ok)
  {
    ok := true;
    var jobs := api.ListBackupJobs(backup);
    if jobs.None? {
      PruningUnlisted(State(old(api.world), Retain(backup)), old(api.turns), backup, view, history,
                      store.unreadable, now);
      NothingPruned(store.objects, store.layout);
      return;
    }
    var input := PassInput(api.world.name, backup.retention.value, jobs.value, backup.offsetStorage, store.unreadable, now);
    var kept := PruneByPolicy(store, merged, view, history, input);
    if kept.Err? { return false; }
    api.PatchBackupHistory(backup, kept.value);
  }

  // A whole reconcile: the machine up to the pass, and the pass.
  ghost function Reconciled(w: World, turns: seq<Turn<Event>>, version: nat, view: map<string, Object>,
                            unreadable: set<string>, now: int, fared: StoreAnswers): Stretch
  {
    var (s, left) := Play(Reconciler(), Step(State(w, Idle), Begin(version)), turns);
    if s.pc.Retain? && HasPass(s.pc.c) then Retaining(s, left, s.pc.c, view, unreadable, now, fared)
    else Stretch(s.world, left, [])
  }

  // One reconcile, from the cached version of the CR with the given index to its end.
  method ReconcileBackup(api: ApiServer, store: BackupObjectStore, version: nat, now: int)
    returns (ghost fared: StoreAnswers)
    requires version < |api.world.versions| && store.Valid()
    modifies api, store`healthyCalls, store`objects
    ensures store.Valid()
    ensures old(store.healthyCalls.None?) ==> fared == StoreAnswers(true, true)
    ensures OnlyDeletes(old(store.objects), store.objects, store.layout)
    ensures var end := Reconciled(old(api.world), old(api.turns), version, View(old(store.objects), store.layout),
                                  store.unreadable, now, fared);
            && api.world == end.world && api.turns == end.turns
            && StoreAfter(old(store.objects), store.objects, store.layout, end.toPrune, fared.pruned)
  {
    var backup := api.world.versions[version];
    fared := StoreAnswers(true, true);
    var reached := ReconcileJobs(api, version);
    if reached && backup.retention.Some? && backup.schedule.Some? && backup.retention.value.pruneOnSchedule {
      fared := ApplyRetentionPolicy(api, store, backup, now);
    } else {
      NothingPruned(store.objects, store.layout);
    }
  }

  lemma AskedEnds(s: State, turns: seq<Turn<Event>>)
    requires s.pc.Retain?
    ensures Asked(Reconciler(), s, turns).0.pc == s.pc || Asked(Reconciler(), s, turns).0.pc.Idle?
  {
    if turns != [] { RetainStays(s, Filter(External, turns[0].before)); }
  }

  lemma {:induction false} RetainStays(s: State, events: seq<Event>)
    requires forall e :: e in events ==> External(e)
    ensures Run(Step, s, events).pc == s.pc
    decreases |events|
  {
    if events != [] {
      var n := |events| - 1;
      RetainStays(s, events[..n]);
      assert External(events[n]);
    }
  }

  // A stretch is a run of the machine, made of the turns' events and at most one patch of the
  // history.
  ghost predicate OfStretch(e: Event, turns: seq<Turn<Event>>) {
    e.Retained? || e.Crash? || FromTurns(Reconciler(), e, turns)
  }

  lemma RecorderTurns(history: seq<Entry>, e: Event, turns: seq<Turn<Event>>, later: seq<Turn<Event>>)
    requires FromTurns(Recorder(history), e, later) && (forall t :: t in later ==> t in turns)
    ensures OfStretch(e, turns)
  {
  }

  lemma PruningIsRun(s: State, turns: seq<Turn<Event>>, c: Backup, view: map<string, Object>, history: seq<Entry>,
                     unreadable: set<string>, now: int, pruned: bool) returns (events: seq<Event>)
    requires HasPass(c) && s.pc == Retain(c)
    ensures Exec(s, events) == State(Pruning(s, turns, c, view, history, unreadable, now, pruned).world, Idle)
    ensures forall e :: e in events ==> OfStretch(e, turns)
  {
    var (listed, turns1) := Asked(Reconciler(), s, turns);
    events := AskedIsRun(Reconciler(), s, turns);
    AskedEnds(s, turns);
    if !listed.pc.Idle? && pruned {
      var final := FinalHistory(view, history, InputOf(listed.world, c, unreadable, now));
      var more := AskedIsRun(Recorder(final), listed, turns1);
      RunAppend(Step, s, events, more);
      forall e | e in more ensures OfStretch(e, turns) {
        RecorderTurns(final, e, turns, turns1);
      }
      events := events + more;
    }
    RunSnoc(Step, s, events, Crash);
    events := events + [Crash];
  }

  lemma RetainingIsRun(s: State, turns: seq<Turn<Event>>, c: Backup, view: map<string, Object>, unreadable: set<string>,
                       now: int, fared: StoreAnswers) returns (events: seq<Event>)
    requires HasPass(c) && s.pc == Retain(c)
    ensures Exec(s, events) == State(Retaining(s, turns, c, view, unreadable, now, fared).world, Idle)
    ensures forall e :: e in events ==> OfStretch(e, turns)
  {
    var (read, turns1) := Asked(Reconciler(), s, turns);
    events := AskedIsRun(Reconciler(), s, turns);
    AskedEnds(s, turns);
    if read.pc.Idle? || !fared.discovered {
      RunSnoc(Step, s, events, Crash);
      events := events + [Crash];
    } else {
      var history := read.world.cr.status.backupHistory;
      var more := PruningIsRun(read, turns1, c, view, history, unreadable, now, fared.pruned);
      RunAppend(Step, s, events, more);
      forall e | e in more ensures OfStretch(e, turns) { LaterTurns(e, turns, turns1); }
      events := events + more;
    }
  }

  lemma LaterTurns(e: Event, turns: seq<Turn<Event>>, later: seq<Turn<Event>>)
    requires OfStretch(e, later) && (forall t :: t in later ==> t in turns)
    ensures OfStretch(e, turns)
  {
  }

  // A whole reconcile is a run of the machine, so that what holds of all runs holds of it.
  lemma ReconcileIsRun(w: World, turns: seq<Turn<Event>>, version: nat, view: map<string, Object>,
                       unreadable: set<string>, now: int, fared: StoreAnswers) returns (events: seq<Event>)
    ensures Exec(State(w, Idle), events) == State(Reconciled(w, turns, version, view, unreadable, now, fared).world, Idle)
    ensures forall e :: e in events ==> e == Begin(version) || OfStretch(e, turns)
  {
    var begun := Step(State(w, Idle), Begin(version));
    var (s, left) := Play(Reconciler(), begun, turns);
    var first := PlayIsRun(Reconciler(), begun, turns);
    RunCons(Step, State(w, Idle), Begin(version), first);
    events := [Begin(version)] + first;
    var more := [Crash];
    if s.pc.Retain? && HasPass(s.pc.c) {
      more := RetainingIsRun(s, left, s.pc.c, view, unreadable, now, fared);
      forall e | e in more ensures OfStretch(e, turns) { LaterTurns(e, turns, left); }
    } else {
      RunSnoc(Step, s, [], Crash);
      assert [] + [Crash] == [Crash];
    }
    RunAppend(Step, State(w, Idle), events, more);
    events := events + more;
  }
}
