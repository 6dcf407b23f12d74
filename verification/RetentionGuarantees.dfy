// What retention passes guarantee: exactness of a successful pass, idempotence, and what the
// pass after a failed one restores.
module RetentionGuarantees {
  import opened Wrappers
  import opened Sorting
  import opened History
  import opened PartialDiscovery
  import opened Reentry
  import opened RetentionPolicy
  import opened ObjectKeys
  import opened Layouts
  import opened ObjectStore
  import opened StoreByKey
  import opened JobState
  import opened RetentionPass

  ghost function Active(input: PassInput): set<string> {
    ActiveIds(input.jobs, input.owner, input.offsetStorage)
  }

  ghost function Kept(view: map<string, Object>, history: seq<Entry>, input: PassInput): (k: nat)
    ensures k <= |MergedHistory(view, history, input)|
  {
    KeepCount(MergedHistory(view, history, input), input.spec, input.now)
  }

  lemma PrunedOfRanking(ranked: seq<Entry>, spec: RetentionSpec, now: int, active: set<string>)
    requires UniqueIds(ranked) && Sorted(ranked)
    ensures var pruned := Filter(NotIn(active), Evaluated(ranked, spec, now));
            IdSet(pruned) == Ids(ranked[KeepCount(ranked, spec, now)..]) - active && Distinct(pruned)
  {
    SortIdentity(NewerFirst, ranked);
    KeepsNewestPrefix(ranked, spec, now);
    FilterDistinct(NotIn(active), Evaluated(ranked, spec, now));
  }

  // The pruned ids are those ranked beyond the kept prefix, save the protected ones.
  lemma PrunedExact(view: map<string, Object>, history: seq<Entry>, input: PassInput)
    requires UniqueIds(history)
    ensures var merged := MergedHistory(view, history, input);
            && UniqueIds(merged) && Sorted(merged)
            && Pruned(view, history, input) == Ids(merged[Kept(view, history, input)..]) - Active(input)
            && Distinct(ToPrune(view, history, input))
  {
    MergeRefinesMap(history, Discovered(view, input.unreadable, input.owner, input.now));
    PrunedOfRanking(MergedHistory(view, history, input), input.spec, input.now, Active(input));
  }

  // An id is protected by a Job of that name with a running pod, or by any such Job if it is the
  // CR's own and offsets are stored.
  ghost predicate ProtectedBy(input: PassInput, id: string) {
    exists j :: j in input.jobs && HasRunningPods(j) && (j.name == id || (input.offsetStorage && id == input.owner))
  }

  // Of the ids ranked beyond the kept prefix exactly the protected ones are spared.
  lemma PrunedIff(view: map<string, Object>, history: seq<Entry>, input: PassInput, id: string)
    requires UniqueIds(history)
    ensures id in Pruned(view, history, input) <==>
              id in Ids(MergedHistory(view, history, input)[Kept(view, history, input)..]) && !ProtectedBy(input, id)
  {
    PrunedExact(view, history, input);
    ActiveIff(input, id);
  }

  lemma ActiveIff(input: PassInput, id: string)
    ensures id in Active(input) <==> ProtectedBy(input, id)
  {
  }

  // A successful pass is exact.
  lemma PassExact(view: map<string, Object>, history: seq<Entry>, input: PassInput)
    requires UniqueIds(history)
    ensures var pruned := Pruned(view, history, input);
            var merged := MergedHistory(view, history, input);
            && (forall id, key :: id in pruned && KeyUnder(id, key) ==> key !in FinalView(view, history, input))
            && (forall key :: key in view && !UnderAny(pruned, key) ==>
                  key in FinalView(view, history, input) && FinalView(view, history, input)[key] == view[key])
            && FinalView(view, history, input).Keys <= view.Keys
            && UniqueIds(FinalHistory(view, history, input)) && Sorted(FinalHistory(view, history, input))
            && Ids(FinalHistory(view, history, input)) == Ids(merged) - pruned
    ensures forall j :: j in input.jobs && HasRunningPods(j) ==> j.name !in Pruned(view, history, input)
    ensures input.offsetStorage && (exists j :: j in input.jobs && HasRunningPods(j)) ==>
              input.owner !in Pruned(view, history, input)
  {
    PrunedExact(view, history, input);
    FilterSorted(NewerFirst, Outside(Pruned(view, history, input)), MergedHistory(view, history, input));
    FilteredUnique(MergedHistory(view, history, input), Pruned(view, history, input));
  }

  lemma IdsBeyond(m: seq<Entry>, k: nat)
    requires UniqueIds(m) && k <= |m|
    ensures Ids(m[k..]) == Ids(m) - Ids(m[..k])
  {
  }

  // The same as what is left of the history and of storage.
  lemma PassLeavesIff(view: map<string, Object>, history: seq<Entry>, input: PassInput)
    requires UniqueIds(history)
    ensures var merged, left := MergedHistory(view, history, input), Ids(FinalHistory(view, history, input));
            && (forall id :: id in left <==>
                  id in Ids(merged) && (id in Ids(merged[..Kept(view, history, input)]) || ProtectedBy(input, id)))
            && FinalView(view, history, input) == Remaining(view, Ids(merged) - left)
  {
    var merged := MergedHistory(view, history, input);
    PassExact(view, history, input);
    PrunedExact(view, history, input);
    IdsBeyond(merged, Kept(view, history, input));
    forall id ensures id in Active(input) <==> ProtectedBy(input, id) { ActiveIff(input, id); }
    assert Pruned(view, history, input) == Ids(merged) - Ids(FinalHistory(view, history, input));
  }

  // Manifests sit in a directory named after their backup id.
  ghost predicate WellNamed(view: map<string, Object>, input: PassInput) {
    forall k :: k in view && KeyEntry(k, view[k], input.unreadable, input.owner, input.now).Some? ==>
      var id := view[k].manifest.backupId;
      Segment(id) && k == ManifestKey(id)
  }

  function ManifestKey(id: string): string { id + MANIFEST_SUFFIX }

  ghost predicate SlashFree(ids: set<string>) { forall id :: id in ids ==> '/' !in id }

  // With slash-free ids, a directory holds the manifest of its own id only.
  lemma ManifestUnder(id: string, other: string)
    requires '/' !in id && '/' !in other
    ensures KeyUnder(id, ManifestKey(other)) <==> id == other
  {
    assert TrimSlashEnd(id) == id by {
      if id != "" { assert id[|id| - 1] in id; }
    }
    var key := ManifestKey(other);
    if KeyUnder(id, key) {
      assert key[|id|] == '/' && key[|other|] == '/';
      assert |id| == |other|;
      assert key[..|id|] == id && key[..|other|] == other;
    }
  }

  ghost function Found(view: map<string, Object>, input: PassInput): seq<Entry> {
    Discovered(view, input.unreadable, input.owner, input.now)
  }

  ghost function FoundFrom(keys: seq<string>, view: map<string, Object>, input: PassInput): seq<Entry>
    requires forall k :: k in keys ==> k in view
  {
    DiscoveredFrom(keys, view, input.unreadable, input.owner, input.now)
  }

  lemma {:induction false} FoundFromIds(keys: seq<string>, view: map<string, Object>, input: PassInput)
    requires WellNamed(view, input) && Distinct(keys) && forall k :: k in keys ==> k in view
    ensures UniqueIds(FoundFrom(keys, view, input))
    ensures forall e :: e in FoundFrom(keys, view, input) ==>
              && Segment(e.id) && ManifestKey(e.id) in keys
              && KeyEntry(ManifestKey(e.id), view[ManifestKey(e.id)], input.unreadable, input.owner, input.now) == Some(e)
  {
    if keys != [] {
      FoundFromIds(keys[1..], view, input);
      var rest := FoundFrom(keys[1..], view, input);
      var found := KeyEntry(keys[0], view[keys[0]], input.unreadable, input.owner, input.now);
      if found.Some? {
        assert forall e :: e in rest ==> ManifestKey(e.id) != keys[0];
        assert FoundFrom(keys, view, input) == [found.value] + rest;
      }
    }
  }

  // What is discovered after some objects are gone: the same entries, save those of the ids
  // whose manifest is gone.
  lemma {:induction false} FoundFromFewer(keys: seq<string>, view: map<string, Object>, after: map<string, Object>,
                                          input: PassInput, lost: set<string>)
    requires WellNamed(view, input) && forall k :: k in keys ==> k in view
    requires forall k :: k in after ==> k in view && after[k] == view[k]
    requires forall k :: k in keys && KeyEntry(k, view[k], input.unreadable, input.owner, input.now).Some? ==>
               (k in after <==> view[k].manifest.backupId !in lost)
    ensures FoundFrom(Filter(In(after.Keys), keys), after, input) == Without(FoundFrom(keys, view, input), lost)
  {
    if keys != [] {
      var k, rest := keys[0], keys[1..];
      assert keys == [k] + rest;
      FoundFromFewer(rest, view, after, input, lost);
      FilterCons(In(after.Keys), k, rest);
      var found := KeyEntry(k, view[k], input.unreadable, input.owner, input.now);
      if found.Some? { FilterCons(Outside(lost), found.value, FoundFrom(rest, view, input)); }
      if k in after {
        var more := Filter(In(after.Keys), rest);
        assert ([k] + more)[0] == k && ([k] + more)[1..] == more;
      }
    }
  }

  // Ids whose manifest a partial deletion has removed.
  ghost function Lost(view: map<string, Object>, after: map<string, Object>, input: PassInput): set<string> {
    set e | e in Found(view, input) && ManifestKey(e.id) !in after :: e.id
  }

  lemma {:induction false} EntryListed(keys: seq<string>, k: string, view: map<string, Object>, input: PassInput)
    requires k in keys && forall k :: k in keys ==> k in view
    requires KeyEntry(k, view[k], input.unreadable, input.owner, input.now).Some?
    ensures KeyEntry(k, view[k], input.unreadable, input.owner, input.now).value in FoundFrom(keys, view, input)
  {
    if k != keys[0] { EntryListed(keys[1..], k, view, input); }
  }

  lemma LostExactly(view: map<string, Object>, after: map<string, Object>, input: PassInput, k: string)
    requires WellNamed(view, input) && k in view
    requires KeyEntry(k, view[k], input.unreadable, input.owner, input.now).Some?
    ensures k in after <==> view[k].manifest.backupId !in Lost(view, after, input)
  {
    EntryListed(SortedKeys(view.Keys), k, view, input);
    assert k == ManifestKey(view[k].manifest.backupId);
  }

  lemma LostWithin(view: map<string, Object>, after: map<string, Object>, ids: set<string>, input: PassInput)
    requires WellNamed(view, input) && SlashFree(ids) && PartlyPruned(view, after, ids)
    ensures Lost(view, after, input) <= ids
  {
    FoundFromIds(SortedKeys(view.Keys), view, input);
    forall e | e in Found(view, input) && ManifestKey(e.id) !in after ensures e.id in ids {
      assert ManifestKey(e.id) in view;
      assert UnderAny(ids, ManifestKey(e.id));
      var x :| x in ids && KeyUnder(x, ManifestKey(e.id));
      ManifestUnder(x, e.id);
    }
  }

  // After a partial pruning the discovery is the old one without the lost ids.
  lemma FoundAfterLoss(view: map<string, Object>, after: map<string, Object>, ids: set<string>, input: PassInput)
    requires WellNamed(view, input) && SlashFree(ids) && PartlyPruned(view, after, ids)
    ensures UniqueIds(Found(view, input)) && SlashFree(Ids(Found(view, input)))
    ensures Found(after, input) == Without(Found(view, input), Lost(view, after, input))
    ensures Lost(view, after, input) <= ids
  {
    var keys, lost := SortedKeys(view.Keys), Lost(view, after, input);
    FoundFromIds(keys, view, input);
    LostWithin(view, after, ids, input);
    forall k | k in keys && KeyEntry(k, view[k], input.unreadable, input.owner, input.now).Some?
      ensures k in after <==> view[k].manifest.backupId !in lost
    {
      LostExactly(view, after, input, k);
    }
    FoundFromFewer(keys, view, after, input, lost);
    SortedKeysOfFewer(view.Keys, after.Keys);
  }

  // Pruned ids whose manifest is gone although the recorded history never knew them.
  ghost function Orphans(view: map<string, Object>, after: map<string, Object>, history: seq<Entry>, input: PassInput): set<string> {
    Lost(view, after, input) - Ids(history)
  }

  ghost predicate Recoverable(view: map<string, Object>, history: seq<Entry>, input: PassInput) {
    UniqueIds(history) && Sorted(history) && SlashFree(Ids(history)) && WellNamed(view, input)
  }

  // Some recorded id whose manifest is gone ranks, by its recorded entry, among the kept ones.
  ghost predicate LostReenters(view: map<string, Object>, after: map<string, Object>, history: seq<Entry>, input: PassInput) {
    SomeReenters(history, Found(view, input), Lost(view, after, input), input.spec, input.now)
  }

  lemma LostRanksBeyond(view: map<string, Object>, history: seq<Entry>, input: PassInput, after: map<string, Object>)
    requires Recoverable(view, history, input)
    requires PartlyPruned(view, after, Pruned(view, history, input))
    ensures BeyondKept(history, Found(view, input), Lost(view, after, input), input.spec, input.now)
    ensures MergedHistory(after, history, input) == Merged(history, Without(Found(view, input), Lost(view, after, input)))
    ensures Lost(view, after, input) <= Pruned(view, history, input)
  {
    PrunedExact(view, history, input);
    FoundSlashFree(view, history, input);
    FoundAfterLoss(view, after, Pruned(view, history, input), input);
  }

  // The ranking after a partial pruning without re-entry: same ids but for the orphans, same
  // kept prefix.
  lemma RankingAfterLoss(view: map<string, Object>, history: seq<Entry>, input: PassInput, after: map<string, Object>)
    requires Recoverable(view, history, input)
    requires PartlyPruned(view, after, Pruned(view, history, input)) && !LostReenters(view, after, history, input)
    ensures var m0, m1 := MergedHistory(view, history, input), MergedHistory(after, history, input);
            && Ids(m1) == Ids(m0) - Orphans(view, after, history, input)
            && Kept(after, history, input) == Kept(view, history, input)
            && Without(m1, Lost(view, after, input)) == Without(m0, Lost(view, after, input))
            && Lost(view, after, input) <= Pruned(view, history, input)
            && (forall i :: 0 <= i < Kept(view, history, input) ==> m1[i].id == m0[i].id)
  {
    var d, lost := Found(view, input), Lost(view, after, input);
    LostRanksBeyond(view, history, input, after);
    IdsAfterLoss(history, d, lost);
    SameOutside(history, d, lost);
    LossKeepsPrefix(history, d, lost, input.spec, input.now);
    var m0, m1, k := MergedHistory(view, history, input), MergedHistory(after, history, input), Kept(view, history, input);
    forall i | 0 <= i < k ensures m1[i].id == m0[i].id { assert m1[..k][i] == m0[..k][i]; }
  }

  lemma FoundSlashFree(view: map<string, Object>, history: seq<Entry>, input: PassInput)
    requires Recoverable(view, history, input)
    ensures SlashFree(Pruned(view, history, input))
  {
    PrunedExact(view, history, input);
    FoundFromIds(SortedKeys(view.Keys), view, input);
    MergeClosedForm(history, Found(view, input));
    var merged := MergedHistory(view, history, input);
    assert forall e :: e in merged[Kept(view, history, input)..] ==> e in merged;
  }

  // The pass after a failed one, without re-entry: it records exactly the history an
  // uninterrupted pass would have, and reaches the same storage exactly when no object of an
  // orphan is left.
  lemma RetryWithoutReentry(view: map<string, Object>, history: seq<Entry>, input: PassInput, after: map<string, Object>)
    requires Recoverable(view, history, input)
    requires PartlyPruned(view, after, Pruned(view, history, input)) && !LostReenters(view, after, history, input)
    ensures FinalHistory(after, history, input) == FinalHistory(view, history, input)
    ensures Pruned(after, history, input) == Pruned(view, history, input) - Orphans(view, after, history, input)
    ensures FinalView(after, history, input) == FinalView(view, history, input) <==>
            forall key :: key in after ==> !UnderAny(Orphans(view, after, history, input), key)
  {
    PrunedAfterLoss(view, history, input, after);
    FoundSlashFree(view, history, input);
    RankingAfterLoss(view, history, input, after);
    PrunedExact(view, history, input);
    SameSurvivors(MergedHistory(view, history, input), MergedHistory(after, history, input),
                  Lost(view, after, input), Pruned(view, history, input), Pruned(after, history, input));
    OrphansRemain(view, after, Pruned(view, history, input), Orphans(view, after, history, input));
  }

  // With a re-entry the next pass keeps a backup the failed one had begun to prune.
  lemma ReentryIsRecorded(view: map<string, Object>, history: seq<Entry>, input: PassInput, after: map<string, Object>)
    requires Recoverable(view, history, input)
    requires PartlyPruned(view, after, Pruned(view, history, input)) && LostReenters(view, after, history, input)
    ensures exists id :: id in Lost(view, after, input) && id in Ids(FinalHistory(after, history, input))
                         && id !in Ids(FinalHistory(view, history, input))
  {
    var m1 := MergedHistory(after, history, input);
    LostRanksBeyond(view, history, input, after);
    var i := ReentryIsKept(history, Found(view, input), Lost(view, after, input), input.spec, input.now);
    var id := m1[i].id;
    PrunedExact(after, history, input);
    PassExact(after, history, input);
    PassExact(view, history, input);
    SuffixIds(m1, Kept(after, history, input), i);
    assert m1[i] in m1;
  }

  // The pass after a failed one, exactly: the history comes out the same if and only if no
  // lost and recorded id re-enters the kept prefix; and then storage does if and only if no
  // object of an orphan is left.
  lemma RetryAfterFailure(view: map<string, Object>, history: seq<Entry>, input: PassInput, after: map<string, Object>)
    requires Recoverable(view, history, input)
    requires PartlyPruned(view, after, Pruned(view, history, input))
    ensures FinalHistory(after, history, input) == FinalHistory(view, history, input) <==> !LostReenters(view, after, history, input)
    ensures FinalHistory(after, history, input) == FinalHistory(view, history, input) ==>
              (FinalView(after, history, input) == FinalView(view, history, input) <==>
                 forall key :: key in after ==> !UnderAny(Orphans(view, after, history, input), key))
  {
    if LostReenters(view, after, history, input) {
      ReentryIsRecorded(view, history, input, after);
    } else {
      RetryWithoutReentry(view, history, input, after);
    }
  }

  // A pruned, discovered and recorded id that re-enters the kept prefix when ranked by its
  // recorded entry; Reentry.ReentersByStart compares it with the last kept entry or the cutoff.
  ghost predicate AnyReenters(view: map<string, Object>, history: seq<Entry>, input: PassInput) {
    SomeReenters(history, Found(view, input), Pruned(view, history, input) * Ids(Found(view, input)), input.spec, input.now)
  }

  ghost predicate HistoryAlwaysRecovers(view: map<string, Object>, history: seq<Entry>, input: PassInput) {
    forall after :: PartlyPruned(view, after, Pruned(view, history, input)) ==>
      FinalHistory(after, history, input) == FinalHistory(view, history, input)
  }

  // Whatever the failure leaves, the retry records the uninterrupted history, if and only if
  // no pruned backup re-enters.
  lemma HistoryAlwaysRecoversIff(view: map<string, Object>, history: seq<Entry>, input: PassInput)
    requires Recoverable(view, history, input)
    ensures HistoryAlwaysRecovers(view, history, input) <==> !AnyReenters(view, history, input)
  {
    if AnyReenters(view, history, input) {
      var x :| x in Pruned(view, history, input) * Ids(Found(view, input)) && x in Ids(history)
               && Reenters(history, Found(view, input), x, input.spec, input.now);
      OneManifestLost(view, history, input, x);
      RetryAfterFailure(view, history, input, view - {ManifestKey(x)});
    } else {
      forall after | PartlyPruned(view, after, Pruned(view, history, input))
        ensures FinalHistory(after, history, input) == FinalHistory(view, history, input)
      {
        LostRanksBeyond(view, history, input, after);
        RetryAfterFailure(view, history, input, after);
      }
    }
  }

  lemma ManifestKeyInjective(a: string, b: string)
    requires ManifestKey(a) == ManifestKey(b)
    ensures a == b
  {
    assert ManifestKey(a)[..|a|] == a && ManifestKey(b)[..|b|] == b;
  }

  // The failure that takes one manifest and nothing else.
  lemma OneManifestLost(view: map<string, Object>, history: seq<Entry>, input: PassInput, x: string)
    requires Recoverable(view, history, input)
    requires x in Pruned(view, history, input) && x in Ids(Found(view, input))
    ensures PartlyPruned(view, view - {ManifestKey(x)}, Pruned(view, history, input))
    ensures Lost(view, view - {ManifestKey(x)}, input) == {x}
  {
    FoundSlashFree(view, history, input);
    ManifestUnder(x, x);
    assert UnderAny(Pruned(view, history, input), ManifestKey(x));
    OneLost(view, input, x);
  }

  lemma OneLost(view: map<string, Object>, input: PassInput, x: string)
    requires WellNamed(view, input) && x in Ids(Found(view, input))
    ensures Lost(view, view - {ManifestKey(x)}, input) == {x}
  {
    var after := view - {ManifestKey(x)};
    FoundFromIds(SortedKeys(view.Keys), view, input);
    forall e | e in Found(view, input) ensures ManifestKey(e.id) !in after <==> e.id == x {
      assert ManifestKey(e.id) in view;
      if ManifestKey(e.id) == ManifestKey(x) { ManifestKeyInjective(e.id, x); }
    }
    LostAre(Found(view, input), after, x);
  }

  lemma LostAre(d: seq<Entry>, after: map<string, Object>, x: string)
    requires x in Ids(d) && forall e :: e in d ==> (ManifestKey(e.id) !in after <==> e.id == x)
    ensures (set e | e in d && ManifestKey(e.id) !in after :: e.id) == {x}
  {
  }

  lemma PrunedAfterLoss(view: map<string, Object>, history: seq<Entry>, input: PassInput, after: map<string, Object>)
    requires Recoverable(view, history, input)
    requires PartlyPruned(view, after, Pruned(view, history, input)) && !LostReenters(view, after, history, input)
    ensures Pruned(after, history, input) == Pruned(view, history, input) - Orphans(view, after, history, input)
    ensures forall e :: e in MergedHistory(after, history, input) ==> e.id !in Orphans(view, after, history, input)
  {
    var m0, m1 := MergedHistory(view, history, input), MergedHistory(after, history, input);
    var k := Kept(view, history, input);
    PrunedExact(view, history, input);
    PrunedExact(after, history, input);
    RankingAfterLoss(view, history, input, after);
    IdsBeyond(m0, k);
    IdsBeyond(m1, k);
    SamePrefixIds(m0, m1, k);
  }

  lemma SamePrefixIds(m0: seq<Entry>, m1: seq<Entry>, k: nat)
    requires k <= |m0| && k <= |m1| && forall i :: 0 <= i < k ==> m1[i].id == m0[i].id
    ensures Ids(m0[..k]) == Ids(m1[..k])
  {
  }

  lemma SameSurvivors(m0: seq<Entry>, m1: seq<Entry>, lost: set<string>, t0: set<string>, t1: set<string>)
    requires Without(m1, lost) == Without(m0, lost) && lost <= t0
    requires t1 <= t0 && forall e :: e in m1 && e.id in t0 ==> e.id in t1
    ensures Without(m1, t1) == Without(m0, t0)
  {
    WithoutWithout(m0, lost, t0);
    WithoutWithout(m1, lost, t0);
    WithoutSubset(m1, t1, t0);
  }

  lemma {:induction false} WithoutSubset(m: seq<Entry>, some: set<string>, more: set<string>)
    requires some <= more && forall e :: e in m && e.id in more ==> e.id in some
    ensures Without(m, some) == Without(m, more)
  {
    if m != [] { WithoutSubset(m[1..], some, more); }
  }

  lemma OrphansRemain(view: map<string, Object>, after: map<string, Object>, pruned: set<string>, orphans: set<string>)
    requires PartlyPruned(view, after, pruned) && orphans <= pruned && SlashFree(pruned)
    ensures Remaining(after, pruned - orphans) == Remaining(view, pruned) <==>
            forall key :: key in after ==> !UnderAny(orphans, key)
  {
    var rest := pruned - orphans;
    forall key ensures UnderAny(pruned, key) <==> UnderAny(orphans, key) || UnderAny(rest, key) {
      if UnderAny(pruned, key) {
        var id :| id in pruned && KeyUnder(id, key);
        assert id in orphans || id in rest;
      }
    }
    assert Remaining(view, pruned) == Remaining(after, pruned);
    if key :| key in after && UnderAny(orphans, key) {
      assert key !in Remaining(after, pruned);
      if UnderAny(rest, key) {
        var a :| a in orphans && KeyUnder(a, key);
        var b :| b in rest && KeyUnder(b, key);
        DirectoriesDisjoint(a, b, key);
      }
      assert key in Remaining(after, rest);
    }
  }

  // A key lies in the directory of at most one slash-free id.
  lemma DirectoriesDisjoint(a: string, b: string, key: string)
    requires '/' !in a && '/' !in b && KeyUnder(a, key) && KeyUnder(b, key)
    ensures a == b
  {
    assert a != "" ==> a[|a| - 1] in a;
    assert b != "" ==> b[|b| - 1] in b;
    assert TrimSlashEnd(a) == a && TrimSlashEnd(b) == b;
    assert key[|a|] == '/' && key[|b|] == '/' && key[..|a|] == a && key[..|b|] == b;
    assert |a| == |b|;
  }

  ghost predicate PassAlwaysRecovers(view: map<string, Object>, history: seq<Entry>, input: PassInput) {
    forall after :: PartlyPruned(view, after, Pruned(view, history, input)) ==>
      && FinalHistory(after, history, input) == FinalHistory(view, history, input)
      && FinalView(after, history, input) == FinalView(view, history, input)
  }

  // With every id to prune in the recorded history, any failure is made good, history and
  // storage, if and only if no pruned backup re-enters.
  lemma RetryRecoversRecorded(view: map<string, Object>, history: seq<Entry>, input: PassInput)
    requires Recoverable(view, history, input)
    requires Pruned(view, history, input) <= Ids(history)
    ensures PassAlwaysRecovers(view, history, input) <==> !AnyReenters(view, history, input)
  {
    HistoryAlwaysRecoversIff(view, history, input);
    if !AnyReenters(view, history, input) {
      forall after | PartlyPruned(view, after, Pruned(view, history, input))
        ensures FinalView(after, history, input) == FinalView(view, history, input)
      {
        RetryAfterFailure(view, history, input, after);
        LostRanksBeyond(view, history, input, after);
        assert Orphans(view, after, history, input) == {};
      }
    }
  }

  // In particular if no pruned backup was recorded as started later than its manifest says.
  lemma RecordedNoLaterRecovers(view: map<string, Object>, history: seq<Entry>, input: PassInput)
    requires Recoverable(view, history, input)
    requires forall e :: e in Found(view, input) && e.id in Pruned(view, history, input) && e.id in Ids(history) ==>
               AsMap(history)[e.id].startTime <= e.startTime
    ensures !AnyReenters(view, history, input)
  {
    PrunedExact(view, history, input);
    FoundFromIds(SortedKeys(view.Keys), view, input);
    var d := Found(view, input);
    forall x | x in Pruned(view, history, input) * Ids(d) && x in Ids(history)
      ensures !Reenters(history, d, x, input.spec, input.now)
    {
      RecordedNoLaterStaysOut(history, d, x, input.spec, input.now);
    }
  }

  // Below a prefix with an empty segment a pass that succeeds drops the pruned ids from the
  // history and deletes none of their objects, unless an id is the prefix's first segment.
  lemma EmptySegmentPassDeletesNothing(prefix: string, objects: map<Path, Object>, history: seq<Entry>, input: PassInput)
    requires Normalized(Some(prefix)) && !Canonical(prefix) && ValidStore(objects, LayoutOf(Some(prefix)))
    requires UniqueIds(history)
    requires var view := View(objects, LayoutOf(Some(prefix)));
             forall id :: id in Pruned(view, history, input) ==> '/' !in id && id != Pieces(prefix)[0]
    ensures var view := View(objects, LayoutOf(Some(prefix)));
            && AfterPruning(objects, LayoutOf(Some(prefix)), ToPrune(view, history, input)) == objects
            && Ids(FinalHistory(view, history, input)) == Ids(MergedHistory(view, history, input)) - Pruned(view, history, input)
  {
    var view := View(objects, LayoutOf(Some(prefix)));
    EmptySegmentPrunesNothing(prefix, objects, ToPrune(view, history, input));
    PassExact(view, history, input);
  }
}
