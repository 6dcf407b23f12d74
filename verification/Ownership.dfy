// Passes that repeat, passes of other CRs, and a retry that prunes the wrong backup.
module Ownership {
  import opened Wrappers
  import opened Sorting
  import opened History
  import opened PartialDiscovery
  import opened Reentry
  import opened RetentionPolicy
  import opened ObjectKeys
  import opened ObjectStore
  import opened JobState
  import opened RetentionPass
  import opened RetentionGuarantees

  // Repeating a successful pass with the same clock and Jobs changes nothing.
  lemma PassIdempotent(view: map<string, Object>, history: seq<Entry>, input: PassInput)
    requires UniqueIds(history) && SlashFree(Ids(history)) && WellNamed(view, input)
    ensures var view1, history1 := FinalView(view, history, input), FinalHistory(view, history, input);
            && Pruned(view1, history1, input) == {}
            && FinalHistory(view1, history1, input) == history1
            && FinalView(view1, history1, input) == view1
  {
    var view1, history1 := FinalView(view, history, input), FinalHistory(view, history, input);
    SecondMerge(view, history, input);
    PassExact(view, history, input);
    SecondKeepsAll(view, history, input);
    RemainingNothing(view1);
    WithoutNothing(history1);
  }

  lemma PrunedSlashFree(view: map<string, Object>, history: seq<Entry>, input: PassInput)
    requires UniqueIds(history) && SlashFree(Ids(history)) && WellNamed(view, input)
    ensures UniqueIds(Found(view, input))
    ensures SlashFree(Ids(MergedHistory(view, history, input)))
    ensures Pruned(view, history, input) <= Ids(MergedHistory(view, history, input))
  {
    FoundFromIds(SortedKeys(view.Keys), view, input);
    MergeClosedForm(history, Found(view, input));
    PrunedExact(view, history, input);
    IdsBeyond(MergedHistory(view, history, input), Kept(view, history, input));
  }

  lemma SecondMerge(view: map<string, Object>, history: seq<Entry>, input: PassInput)
    requires UniqueIds(history) && SlashFree(Ids(history)) && WellNamed(view, input)
    ensures MergedHistory(FinalView(view, history, input), FinalHistory(view, history, input), input)
            == FinalHistory(view, history, input)
  {
    var view1, history1 := FinalView(view, history, input), FinalHistory(view, history, input);
    var d, m, pruned := Found(view, input), MergedHistory(view, history, input), Pruned(view, history, input);
    PrunedSlashFree(view, history, input);
    FoundAfterLoss(view, view1, pruned, input);
    MergeClosedForm(history, d);
    PassExact(view, history, input);
    forall e | e in Found(view1, input)
      ensures e.id in Ids(history1) && AsMap(history1)[e.id] == Fallback(e, AsMap(history1)[e.id])
    {
      assert e in d && AsMap(d)[e.id] == e && e.id in Ids(m);
      if e.id in pruned {
        ManifestUnder(e.id, e.id);
      }
      var x := AsMap(m)[e.id];
      assert x in m && x.id == e.id && x == MergedEntry(AsMap(history), AsMap(d), e.id);
      assert x in history1;
    }
    UpsertAllHeld(history1, Found(view1, input));
  }

  lemma SecondKeepsAll(view: map<string, Object>, history: seq<Entry>, input: PassInput)
    requires UniqueIds(history)
    requires MergedHistory(FinalView(view, history, input), FinalHistory(view, history, input), input)
             == FinalHistory(view, history, input)
    ensures Pruned(FinalView(view, history, input), FinalHistory(view, history, input), input) == {}
  {
    var view1, m1 := FinalView(view, history, input), FinalHistory(view, history, input);
    var m, k, pruned := MergedHistory(view, history, input), Kept(view, history, input), Pruned(view, history, input);
    PrunedExact(view, history, input);
    PassExact(view, history, input);
    PrunedExact(view1, m1, input);
    WithoutWithout(m, pruned, pruned);
    FewerIds(m, m1);
    forall i | 0 <= i < k ensures m[i].id !in pruned {
      SuffixIds(m, k, i);
    }
    assert forall e :: e in m1 ==> e.id !in pruned;
    KeptPrefixSame(m, m1, pruned, input.spec, input.now);
    SamePrefix(m, m1, pruned, k);
    forall i | 0 <= i < k ensures m1[i].id == m[i].id { assert m1[..k][i] == m[..k][i]; }
    IdsBeyond(m, k);
    IdsBeyond(m1, k);
    SamePrefixIds(m, m1, k);
  }

  // One id belongs to two CRs exactly when their names are equal or one extends the other by
  // a dash.
  lemma SharedIdIff(a: string, b: string)
    ensures (exists id :: BelongsTo(id, a) && BelongsTo(id, b)) <==> a == b || a + "-" <= b || b + "-" <= a
  {
    if id :| BelongsTo(id, a) && BelongsTo(id, b) {
      if |a| < |b| { assert (a + "-")[..|a|] == id[..|a|] == b[..|a|]; }
      if |b| < |a| { assert (b + "-")[..|b|] == id[..|b|] == a[..|b|]; }
      if |a| == |b| { assert id[..|a|] == a && id[..|b|] == b; }
    }
    if a == b || a + "-" <= b { assert BelongsTo(b, a) && BelongsTo(b, b); }
    if b + "-" <= a { assert BelongsTo(a, a) && BelongsTo(a, b); }
  }

  ghost predicate AllBelong(ids: set<string>, owner: string) { forall id :: id in ids ==> BelongsTo(id, owner) }

  // A CR's history keeps to its own ids over every pass.
  lemma PassKeepsToOwnIds(view: map<string, Object>, history: seq<Entry>, input: PassInput)
    requires UniqueIds(history) && SlashFree(Ids(history)) && AllBelong(Ids(history), input.owner)
    requires WellNamed(view, input)
    ensures AllBelong(Ids(MergedHistory(view, history, input)), input.owner)
    ensures AllBelong(Pruned(view, history, input), input.owner)
    ensures AllBelong(Ids(FinalHistory(view, history, input)), input.owner)
    ensures SlashFree(Ids(FinalHistory(view, history, input)))
  {
    var d := Found(view, input);
    PrunedSlashFree(view, history, input);
    PassExact(view, history, input);
    FoundFromIds(SortedKeys(view.Keys), view, input);
    MergeClosedForm(history, d);
    forall e | e in d ensures BelongsTo(e.id, input.owner) {
      TrimManifestKey(e.id);
    }
  }

  lemma TrimManifestKey(id: string)
    requires Segment(id)
    ensures TrimManifest(ManifestKey(id)) == id
  {
    var key := ManifestKey(id);
    assert key[..|key| - |MANIFEST_SUFFIX|] == id;
    assert MANIFEST_SUFFIX[0] == '/';
  }

  // Two CRs neither of which dash-extends the other never prune each other's keys.
  lemma OwnersDoNotCollide(view: map<string, Object>, history: seq<Entry>, input: PassInput, other: string, id: string, key: string)
    requires UniqueIds(history) && SlashFree(Ids(history)) && AllBelong(Ids(history), input.owner)
    requires WellNamed(view, input)
    requires !(input.owner == other || input.owner + "-" <= other || other + "-" <= input.owner)
    requires key in view && BelongsTo(id, other) && '/' !in id && KeyUnder(id, key)
    ensures key in FinalView(view, history, input) && FinalView(view, history, input)[key] == view[key]
  {
    var pruned := Pruned(view, history, input);
    PassKeepsToOwnIds(view, history, input);
    PrunedSlashFree(view, history, input);
    if UnderAny(pruned, key) {
      var x :| x in pruned && KeyUnder(x, key);
      DirectoriesDisjoint(x, id, key);
      SharedIdIff(input.owner, other);
    }
  }

  // Pruning a slash-free id leaves the directories of all longer names alone.
  lemma PruningOneIdOnly(view: map<string, Object>, id: string, other: string, key: string)
    requires '/' !in id && '/' !in other && id != other && key in view && KeyUnder(other, key)
    ensures key in Remaining(view, {id})
  {
    if KeyUnder(id, key) { DirectoriesDisjoint(id, other, key); }
  }

  lemma RankedPair(m: seq<Entry>, newer: Entry, older: Entry)
    requires UniqueIds(m) && Sorted(m) && Ids(m) == {newer.id, older.id} && newer in m && older in m
    requires newer.id != older.id && newer.startTime > older.startTime
    ensures m == [newer, older]
  {
    IdsCount(m);
    assert |Ids(m)| == |{newer.id, older.id}| == 2;
    assert m[0] in m && m[1] in m;
  }

  // A pass that keeps one of two backups keeps the newer one.
  lemma KeepsNewerOfTwo(view: map<string, Object>, history: seq<Entry>, input: PassInput, newer: Entry, older: Entry)
    requires UniqueIds(history) && input.jobs == [] && input.spec == RetentionSpec(Some(1), None, true)
    requires newer in MergedHistory(view, history, input) && older in MergedHistory(view, history, input)
    requires Ids(MergedHistory(view, history, input)) == {newer.id, older.id}
    requires newer.id != older.id && newer.startTime > older.startTime
    ensures Pruned(view, history, input) == {older.id}
    ensures Ids(FinalHistory(view, history, input)) == {newer.id}
  {
    var m := MergedHistory(view, history, input);
    PrunedExact(view, history, input);
    PassExact(view, history, input);
    RankedPair(m, newer, older);
    KeepCountExact(m, input.spec, input.now, 1);
    assert m[1..] == [older];
  }

  function Backup(id: string, start: int): Entry { Entry(id, Completed, start, None, None, None, None) }

  function StoredManifest(id: string, start: int): Object { ManifestFile(Manifest(id, Some(start), [])) }

  // Two backups, the older of which was recorded as the later one, and the store after its
  // manifest is gone.
  ghost function LateView(a: string, b: string): map<string, Object> {
    map[ManifestKey(a) := StoredManifest(a, 1), ManifestKey(b) := StoredManifest(b, 4)]
  }

  ghost function LateAfter(b: string): map<string, Object> { map[ManifestKey(b) := StoredManifest(b, 4)] }

  ghost function LateHistory(a: string, b: string): seq<Entry> { [Backup(a, 5), Backup(b, 4)] }

  ghost function LateInput(owner: string): PassInput {
    PassInput(owner, RetentionSpec(Some(1), None, true), [], false, {}, 10)
  }

  ghost predicate TwoOwnIds(owner: string, a: string, b: string) {
    Segment(a) && Segment(b) && a != b && BelongsTo(a, owner) && BelongsTo(b, owner)
  }

  lemma LateHistoryIds(a: string, b: string)
    requires a != b
    ensures UniqueIds(LateHistory(a, b)) && Sorted(LateHistory(a, b)) && Ids(LateHistory(a, b)) == {a, b}
    ensures AsMap(LateHistory(a, b))[a] == Backup(a, 5) && AsMap(LateHistory(a, b))[b] == Backup(b, 4)
  {
  }

  lemma LateWellNamed(owner: string, a: string, b: string)
    requires TwoOwnIds(owner, a, b)
    ensures WellNamed(LateView(a, b), LateInput(owner)) && ManifestKey(a) != ManifestKey(b)
  {
    if ManifestKey(a) == ManifestKey(b) { ManifestKeyInjective(a, b); }
  }

  lemma LateFound(owner: string, a: string, b: string)
    requires TwoOwnIds(owner, a, b)
    ensures var d := Found(LateView(a, b), LateInput(owner));
            && UniqueIds(d) && Ids(d) <= {a, b}
            && ManifestEntry(Manifest(a, Some(1), []), 10) in d && ManifestEntry(Manifest(b, Some(4), []), 10) in d
  {
    var view, input := LateView(a, b), LateInput(owner);
    LateWellNamed(owner, a, b);
    FoundExample(view, input, a, Manifest(a, Some(1), []));
    FoundExample(view, input, b, Manifest(b, Some(4), []));
    FoundOnly(view, input);
    forall e | e in Found(view, input) ensures e.id == a || e.id == b {
      if ManifestKey(e.id) == ManifestKey(a) { ManifestKeyInjective(e.id, a); } else { ManifestKeyInjective(e.id, b); }
    }
  }

  lemma LateUninterrupted(owner: string, a: string, b: string)
    requires TwoOwnIds(owner, a, b)
    ensures WellNamed(LateView(a, b), LateInput(owner))
    ensures UniqueIds(LateHistory(a, b))
    ensures Pruned(LateView(a, b), LateHistory(a, b), LateInput(owner)) == {a}
    ensures Ids(FinalHistory(LateView(a, b), LateHistory(a, b), LateInput(owner))) == {b}
  {
    var view, history, input := LateView(a, b), LateHistory(a, b), LateInput(owner);
    var x, y := ManifestEntry(Manifest(a, Some(1), []), 10), ManifestEntry(Manifest(b, Some(4), []), 10);
    LateHistoryIds(a, b);
    LateWellNamed(owner, a, b);
    LateFound(owner, a, b);
    MergeOfTwo(history, Found(view, input), x, y);
    KeepsNewerOfTwo(view, history, input, y, x);
  }

  // Both ids discovered: the merge holds both discovered entries.
  lemma MergeOfTwo(h: seq<Entry>, d: seq<Entry>, x: Entry, y: Entry)
    requires UniqueIds(h) && UniqueIds(d) && Ids(h) == {x.id, y.id} && x in d && y in d && Ids(d) <= {x.id, y.id}
    requires AsMap(h)[x.id].completionTime.None? && AsMap(h)[y.id].completionTime.None?
    ensures x in Merged(h, d) && y in Merged(h, d) && Ids(Merged(h, d)) == {x.id, y.id}
  {
    MergeClosedForm(h, d);
    assert AsMap(Merged(h, d))[x.id] == x && AsMap(Merged(h, d))[y.id] == y;
  }

  // Only one id discovered: the other entry is the recorded one.
  lemma MergeOfOne(h: seq<Entry>, d: seq<Entry>, x: Entry, y: Entry)
    requires UniqueIds(h) && UniqueIds(d) && Ids(h) == {x.id, y.id} && x in h && y in d && Ids(d) == {y.id} && x.id != y.id
    requires AsMap(h)[y.id].completionTime.None?
    ensures x in Merged(h, d) && y in Merged(h, d) && Ids(Merged(h, d)) == {x.id, y.id}
  {
    MergeClosedForm(h, d);
    assert AsMap(Merged(h, d))[x.id] == x && AsMap(Merged(h, d))[y.id] == y;
  }

  lemma LateRetried(owner: string, a: string, b: string)
    requires TwoOwnIds(owner, a, b)
    ensures Ids(FinalHistory(LateAfter(b), LateHistory(a, b), LateInput(owner))) == {a}
  {
    var view, history, input := LateAfter(b), LateHistory(a, b), LateInput(owner);
    var x, y := Backup(a, 5), ManifestEntry(Manifest(b, Some(4), []), 10);
    LateHistoryIds(a, b);
    FoundExample(view, input, b, Manifest(b, Some(4), []));
    FoundOnly(view, input);
    forall e | e in Found(view, input) ensures e.id == b {
      ManifestKeyInjective(e.id, b);
    }
    MergeOfOne(history, Found(view, input), x, y);
    KeepsNewerOfTwo(view, history, input, x, y);
  }

  // Recorded starts later than the manifest's do break the retry: the id whose manifest is
  // gone moves up, and the pass prunes another backup in its place.
  lemma LateStartBreaksRetry(owner: string, a: string, b: string)
    requires TwoOwnIds(owner, a, b)
    ensures UniqueIds(LateHistory(a, b)) && Sorted(LateHistory(a, b)) && Ids(LateHistory(a, b)) == {a, b}
    ensures WellNamed(LateView(a, b), LateInput(owner))
    ensures Pruned(LateView(a, b), LateHistory(a, b), LateInput(owner)) == {a}
    ensures PartlyPruned(LateView(a, b), LateAfter(b), {a})
    ensures a !in Ids(FinalHistory(LateView(a, b), LateHistory(a, b), LateInput(owner)))
    ensures a in Ids(FinalHistory(LateAfter(b), LateHistory(a, b), LateInput(owner)))
  {
    LateHistoryIds(a, b);
    LateUninterrupted(owner, a, b);
    LateRetried(owner, a, b);
    LatePartly(a, b);
  }

  lemma LatePartly(a: string, b: string)
    requires Segment(a) && Segment(b) && a != b
    ensures PartlyPruned(LateView(a, b), LateAfter(b), {a})
  {
  }

  lemma FoundExample(view: map<string, Object>, input: PassInput, id: string, m: Manifest)
    requires WellNamed(view, input) && Segment(id) && BelongsTo(id, input.owner) && m.backupId == id
    requires ManifestKey(id) in view && view[ManifestKey(id)] == ManifestFile(m) && ManifestKey(id) !in input.unreadable
    ensures ManifestEntry(m, input.now) in Found(view, input)
  {
    TrimManifestKey(id);
    EntryListed(SortedKeys(view.Keys), ManifestKey(id), view, input);
  }

  lemma FoundOnly(view: map<string, Object>, input: PassInput)
    requires WellNamed(view, input)
    ensures UniqueIds(Found(view, input)) && forall e :: e in Found(view, input) ==> ManifestKey(e.id) in view
  {
    FoundFromIds(SortedKeys(view.Keys), view, input);
  }

  // A pass of one CR deletes a key in the directory of another's id.
  ghost predicate Collides(view: map<string, Object>, history: seq<Entry>, input: PassInput, other: string, id: string, key: string) {
    && UniqueIds(history) && SlashFree(Ids(history)) && AllBelong(Ids(history), input.owner) && WellNamed(view, input)
    && key in view && BelongsTo(id, other) && '/' !in id && KeyUnder(id, key)
    && key !in FinalView(view, history, input)
  }

  ghost predicate MayCollide(owner: string, other: string) {
    exists view, history, input: PassInput, id, key :: Collides(view, history, input, other, id, key) && input.owner == owner
  }

  // The condition of OwnersDoNotCollide is exact: with names that extend each other by a dash
  // there are a storage and a policy with which one CR's pass deletes the other's backup.
  lemma OwnersCollideIff(owner: string, other: string)
    requires Segment(owner) && Segment(other)
    ensures MayCollide(owner, other) <==> owner == other || owner + "-" <= other || other + "-" <= owner
  {
    if owner == other || owner + "-" <= other {
      OnlyBackupPruned(owner, other);
      assert Collides(OnlyView(other), [], KeepNone(owner), other, other, ManifestKey(other));
    } else if other + "-" <= owner {
      OnlyBackupPruned(owner, owner);
      assert Collides(OnlyView(owner), [], KeepNone(owner), other, owner, ManifestKey(owner));
    } else if MayCollide(owner, other) {
      var view, history, input: PassInput, id, key :| Collides(view, history, input, other, id, key) && input.owner == owner;
      OwnersDoNotCollide(view, history, input, other, id, key);
      assert false;
    }
  }

  ghost function OnlyView(id: string): map<string, Object> { map[ManifestKey(id) := StoredManifest(id, 1)] }

  ghost function KeepNone(owner: string): PassInput { PassInput(owner, RetentionSpec(Some(0), None, true), [], false, {}, 10) }

  lemma KeepsNone(m: seq<Entry>, now: int)
    requires Sorted(m)
    ensures KeepCount(m, RetentionSpec(Some(0), None, true), now) == 0
  {
    KeepCountExact(m, RetentionSpec(Some(0), None, true), now, 0);
  }

  // A policy that keeps none prunes whatever is discovered.
  lemma KeepNonePrunes(view: map<string, Object>, input: PassInput, id: string)
    requires WellNamed(view, input) && input.jobs == [] && input.spec == RetentionSpec(Some(0), None, true)
    requires id in Ids(Found(view, input))
    ensures id in Pruned(view, [], input)
  {
    var m := MergedHistory(view, [], input);
    FoundOnly(view, input);
    MergeClosedForm([], Found(view, input));
    PrunedExact(view, [], input);
    KeepsNone(m, input.now);
    assert m[0..] == m && Active(input) == {};
  }

  lemma OnlyBackupPruned(owner: string, id: string)
    requires Segment(id) && BelongsTo(id, owner)
    ensures WellNamed(OnlyView(id), KeepNone(owner)) && KeyUnder(id, ManifestKey(id))
    ensures ManifestKey(id) !in FinalView(OnlyView(id), [], KeepNone(owner))
  {
    var view, input := OnlyView(id), KeepNone(owner);
    ManifestUnder(id, id);
    FoundExample(view, input, id, Manifest(id, Some(1), []));
    KeepNonePrunes(view, input, id);
    assert UnderAny(Pruned(view, [], input), ManifestKey(id));
  }
}
