// A retention pass, from the recorded history and the Jobs: discover, merge, evaluate, protect
// active Jobs, delete.
module RetentionPass {
  import opened Wrappers
  import opened Sorting
  import opened History
  import opened PartialDiscovery
  import opened RetentionPolicy
  import opened Layouts
  import opened ObjectStore
  import opened JobState

  // What one pass reads besides the store and the recorded history.
  datatype PassInput = PassInput(
    owner: string,
    spec: RetentionSpec,
    jobs: seq<Job>,
    offsetStorage: bool,
    unreadable: set<string>,
    now: int)

  ghost function ActiveIds(jobs: seq<Job>, owner: string, offsetStorage: bool): set<string> {
    (set j | j in jobs && JobActive(j) :: j.name)
    + (if offsetStorage && exists j :: j in jobs && JobActive(j) then {owner} else {})
  }

  ghost function MergedHistory(view: map<string, Object>, history: seq<Entry>, input: PassInput): seq<Entry> {
    Merged(history, Discovered(view, input.unreadable, input.owner, input.now))
  }

  // The ids a pass deletes, in the order it does.
  ghost function ToPrune(view: map<string, Object>, history: seq<Entry>, input: PassInput): seq<string> {
    Filter(NotIn(ActiveIds(input.jobs, input.owner, input.offsetStorage)),
           Evaluated(MergedHistory(view, history, input), input.spec, input.now))
  }

  function NotIn(ids: set<string>): string -> bool { (id: string) => id !in ids }

  ghost function Pruned(view: map<string, Object>, history: seq<Entry>, input: PassInput): set<string> {
    IdSet(ToPrune(view, history, input))
  }

  ghost function FinalHistory(view: map<string, Object>, history: seq<Entry>, input: PassInput): seq<Entry> {
    Without(MergedHistory(view, history, input), Pruned(view, history, input))
  }

  ghost function FinalView(view: map<string, Object>, history: seq<Entry>, input: PassInput): map<string, Object> {
    Remaining(view, Pruned(view, history, input))
  }

  method ActiveBackupIds(jobs: seq<Job>, owner: string, offsetStorage: bool) returns (active: set<string>)
    ensures active == ActiveIds(jobs, owner, offsetStorage)
    ensures forall id :: id in active <==>
              exists j :: j in jobs && HasRunningPods(j) && (j.name == id || (offsetStorage && id == owner))
  {
    active := {};
    for i := 0 to |jobs|
      invariant active == ActiveIds(jobs[..i], owner, offsetStorage)
    {
      assert jobs[..i + 1] == jobs[..i] + [jobs[i]];
      if JobActive(jobs[i]) {
        active := active + {jobs[i].name};
        if offsetStorage {
          active := active + {owner};
        }
      }
    }
    assert jobs[..|jobs|] == jobs;
  }

  // Discover and merge into the recorded history.
  method MergeDiscovered(store: BackupObjectStore, recorded: seq<Entry>, owner: string, now: int)
    returns (r: Result<seq<Entry>, StorageError>)
    requires store.Valid()
    modifies store`healthyCalls
    ensures store.Valid()
    ensures store.healthyCalls.None? == old(store.healthyCalls.None?)
    ensures old(store.healthyCalls.None?) ==> r.Ok?
    ensures r.Ok? ==> r.value == Merged(recorded, Discovered(View(store.objects, store.layout), store.unreadable, owner, now))
  {
    var history := new BackupHistory(recorded);
    var discovered := store.DiscoverBackupHistory(owner, now);
    if discovered.Err? {
      return Err(discovered.error);
    }
    history.Merge(discovered.value);
    return Ok(history.entries);
  }

  // Evaluate the policy and protect the active backups.
  method SelectForPruning(merged: seq<Entry>, retention: RetentionSpec, active: set<string>, now: int)
    returns (toPrune: seq<string>)
    ensures toPrune == Filter(NotIn(active), Evaluated(merged, retention, now))
  {
    var evaluated := EvaluateRetention(merged, retention, now);
    toPrune := Filter(NotIn(active), evaluated);
  }

  // Delete, and drop what was deleted from the history.
  method PruneAndDrop(store: BackupObjectStore, merged: seq<Entry>, toPrune: seq<string>)
    returns (r: Result<seq<Entry>, StorageError>)
    requires store.Valid()
    modifies store`healthyCalls, store`objects
    ensures store.Valid()
    ensures OnlyDeletes(old(store.objects), store.objects, store.layout)
    ensures old(store.healthyCalls.None?) ==> r.Ok?
    ensures r.Ok? ==> r.value == Without(merged, IdSet(toPrune))
                      && store.objects == AfterPruning(old(store.objects), store.layout, toPrune)
    ensures r.Err? ==> CutShort(old(store.objects), store.objects, store.layout, toPrune)
  {
    if toPrune == [] {
      WithoutNothing(merged);
      return Ok(merged);
    }
    var pruned := store.PruneBackupIds(toPrune);
    if pruned.Err? {
      return Err(pruned.error);
    }
    var history := new BackupHistory(merged);
    history.Retain(pruned.value);
    return Ok(history.entries);
  }

  // From the merged history and the Jobs to the end of the deletion.
  method PruneByPolicy(store: BackupObjectStore, merged: seq<Entry>, ghost view: map<string, Object>,
                       ghost history: seq<Entry>, input: PassInput)
    returns (r: Result<seq<Entry>, StorageError>)
    requires store.Valid() && view == View(store.objects, store.layout)
    requires merged == MergedHistory(view, history, input)
    modifies store`healthyCalls, store`objects
    ensures store.Valid()
    ensures OnlyDeletes(old(store.objects), store.objects, store.layout)
    ensures old(store.healthyCalls.None?) ==> r.Ok?
    ensures r.Ok? ==> r.value == FinalHistory(view, history, input)
                      && store.objects == AfterPruning(old(store.objects), store.layout, ToPrune(view, history, input))
    ensures r.Err? ==> CutShort(old(store.objects), store.objects, store.layout, ToPrune(view, history, input))
  {
    var active := ActiveBackupIds(input.jobs, input.owner, input.offsetStorage);
    var toPrune := SelectForPruning(merged, input.spec, active, input.now);
    r := PruneAndDrop(store, merged, toPrune);
  }

  lemma {:induction false} WithoutNothing(h: seq<Entry>)
    ensures Without(h, {}) == h && IdSet([]) == {}
  {
    if h != [] { WithoutNothing(h[1..]); }
  }

  lemma RemainingNothing(view: map<string, Object>)
    ensures Remaining(view, {}) == view
  {
  }
}
