// Which pruned backups come back into the kept prefix when a pass that failed half-way has
// taken their manifest, so that they rank by their recorded entry.
module Reentry {
  import opened Wrappers
  import opened Sorting
  import opened History
  import opened PartialDiscovery
  import opened RetentionPolicy

  // The ranking when just this id's manifest is not discovered.
  ghost function RankedAsRecorded(h: seq<Entry>, d: seq<Entry>, id: string): seq<Entry> {
    Merged(h, Without(d, {id}))
  }

  ghost predicate Reenters(h: seq<Entry>, d: seq<Entry>, id: string, spec: RetentionSpec, now: int) {
    var m := RankedAsRecorded(h, d, id);
    id in Ids(m[..KeepCount(m, spec, now)])
  }

  lemma {:induction false} FilterKeepsPrefix(s: seq<Entry>, ids: set<string>, k: nat)
    requires k <= |s| && forall i :: 0 <= i < k ==> s[i].id !in ids
    ensures k <= |Without(s, ids)| && Without(s, ids)[..k] == s[..k]
  {
    if k > 0 {
      assert s == [s[0]] + s[1..];
      FilterCons(Outside(ids), s[0], s[1..]);
      FilterKeepsPrefix(s[1..], ids, k - 1);
      assert s[..k] == [s[0]] + s[1..][..k - 1];
      assert Without(s, ids)[..k] == [s[0]] + Without(s[1..], ids)[..k - 1];
    }
  }

  lemma {:induction false} WithoutUnion(h: seq<Entry>, a: set<string>, b: set<string>)
    ensures Without(Without(h, a), b) == Without(h, a + b)
  {
    if h != [] {
      WithoutUnion(h[1..], a, b);
      var f := Without(h[1..], a);
      assert ([h[0]] + f)[1..] == f;
    }
  }

  lemma {:induction false} WithoutAbsent(s: seq<Entry>, ids: set<string>)
    requires forall e :: e in s ==> e.id !in ids
    ensures Without(s, ids) == s
  {
    if s != [] { WithoutAbsent(s[1..], ids); }
  }

  // Dropping the id at one position drops that position.
  lemma {:induction false} WithoutOne(s: seq<Entry>, p: nat)
    requires UniqueIds(s) && p < |s|
    ensures Without(s, {s[p].id}) == s[..p] + s[p + 1..]
  {
    var x, t := s[p].id, s[1..];
    if p == 0 {
      WithoutAbsent(t, {x});
    } else {
      assert t[p - 1] == s[p];
      WithoutOne(t, p - 1);
      assert s[..p] == [s[0]] + t[..p - 1] && s[p + 1..] == t[p..];
    }
  }

  lemma {:induction false} IdsCount(h: seq<Entry>)
    requires UniqueIds(h)
    ensures |Ids(h)| == |h|
  {
    if h != [] {
      FirstAndRest(h);
      IdsCount(h[1..]);
    }
  }

  lemma FewerIds(m0: seq<Entry>, m1: seq<Entry>)
    requires UniqueIds(m0) && UniqueIds(m1) && Ids(m1) <= Ids(m0)
    ensures |m1| <= |m0|
    ensures Ids(m1) == Ids(m0) ==> |m1| == |m0|
  {
    IdsCount(m0);
    IdsCount(m1);
    SubsetCount(Ids(m1), Ids(m0));
  }

  lemma {:induction false} SubsetCount<T>(a: set<T>, b: set<T>)
    requires a <= b
    ensures |a| <= |b|
  {
    if a != {} {
      var x :| x in a;
      SubsetCount(a - {x}, b - {x});
    }
  }

  lemma MergedAt(h: seq<Entry>, d: seq<Entry>, id: string)
    requires UniqueIds(h) && UniqueIds(d) && id in Ids(h) + Ids(d)
    ensures UniqueIds(Merged(h, d)) && id in Ids(Merged(h, d))
    ensures AsMap(Merged(h, d))[id] == MergedEntry(AsMap(h), AsMap(d), id)
  {
    MergeClosedForm(h, d);
  }

  // An entry whose discovery was lost is the recorded one.
  lemma LostIsRecorded(h: seq<Entry>, d: seq<Entry>, lost: set<string>, e: Entry)
    requires UniqueIds(h) && UniqueIds(d)
    requires e in Merged(h, Without(d, lost)) && e.id in lost
    ensures e.id in Ids(h) && AsMap(h)[e.id] == e
  {
    FilteredUnique(d, lost);
    MergeClosedForm(h, Without(d, lost));
    assert e.id in Ids(Merged(h, Without(d, lost)));
    MergedAt(h, Without(d, lost), e.id);
  }

  // What a loss does to the merged history as a set: the unrecorded ids vanish.
  lemma IdsAfterLoss(h: seq<Entry>, d: seq<Entry>, lost: set<string>)
    requires UniqueIds(h) && UniqueIds(d) && lost <= Ids(d)
    ensures var m0, m1 := Merged(h, d), Merged(h, Without(d, lost));
            && UniqueIds(m0) && Sorted(m0) && UniqueIds(m1) && Sorted(m1)
            && Ids(m1) == Ids(m0) - (lost - Ids(h)) && |m1| <= |m0|
  {
    MergeRefinesMap(h, d);
    MergeClosedForm(h, d);
    FilteredUnique(d, lost);
    MergeRefinesMap(h, Without(d, lost));
    MergeClosedForm(h, Without(d, lost));
    FewerIds(Merged(h, d), Merged(h, Without(d, lost)));
  }

  // Outside the lost ids nothing differs, be it one loss or many.
  lemma SameOutsideLost(h: seq<Entry>, d: seq<Entry>, some: set<string>, lost: set<string>)
    requires Sorted(h) && some <= lost
    ensures Without(Merged(h, Without(d, lost)), lost - some) == Without(Merged(h, Without(d, some)), lost - some)
  {
    var rest := lost - some;
    WithoutMerged(h, Without(d, lost), rest);
    WithoutMerged(h, Without(d, some), rest);
    WithoutUnion(d, lost, rest);
    WithoutUnion(d, some, rest);
    assert lost + rest == lost && some + rest == lost;
  }

  // A ranking that differs from m0 only in ids beyond the kept prefix of m0, none of which
  // ranks among the kept ones nor is young enough to follow them, keeps the same prefix.
  lemma KeptPrefixSame(m0: seq<Entry>, m1: seq<Entry>, moved: set<string>, spec: RetentionSpec, now: int)
    requires Sorted(m0) && Sorted(m1) && |m1| <= |m0| && Without(m1, moved) == Without(m0, moved)
    requires var k := KeepCount(m0, spec, now);
             && (forall i :: 0 <= i < k ==> m0[i].id !in moved)
             && (forall i :: 0 <= i < k && i < |m1| ==> m1[i].id !in moved)
             && (k < CountLimit(|m0|, spec) && k < |m1| && m1[k].id in moved ==> !NotOlder(Cutoff(spec, now))(m1[k]))
    ensures KeepCount(m1, spec, now) == KeepCount(m0, spec, now)
    ensures m1[..KeepCount(m0, spec, now)] == m0[..KeepCount(m0, spec, now)]
  {
    var k := KeepCount(m0, spec, now);
    SamePrefix(m0, m1, moved, k);
    KeepCountExact(m0, spec, now, k);
    if k < CountLimit(|m0|, spec) && k < |m1| && m1[k].id !in moved {
      StaysBeyond(m0, m1, moved, k);
    }
    forall i | 0 <= i < k ensures m1[i] == m0[i] { assert m1[..k][i] == m0[..k][i]; }
    KeepCountExact(m1, spec, now, k);
  }

  lemma SamePrefix(m0: seq<Entry>, m1: seq<Entry>, moved: set<string>, k: nat)
    requires k <= |m0| && Without(m1, moved) == Without(m0, moved)
    requires forall i :: 0 <= i < k ==> m0[i].id !in moved
    requires forall i :: 0 <= i < k && i < |m1| ==> m1[i].id !in moved
    ensures k <= |m1| && m1[..k] == m0[..k]
  {
    FilterKeepsPrefix(m0, moved, k);
    assert |Without(m1, moved)| <= |m1|;
    FilterKeepsPrefix(m1, moved, k);
  }

  // An entry of m1 that did not move, after the common prefix, stands in m0 after it too.
  lemma StaysBeyond(m0: seq<Entry>, m1: seq<Entry>, moved: set<string>, k: nat)
    requires Sorted(m0) && k < |m0| && k < |m1| && m1[..k] == m0[..k] && Without(m1, moved) == Without(m0, moved)
    requires (forall i :: 0 <= i < k ==> m0[i].id !in moved) && m1[k].id !in moved
    ensures m1[k].startTime <= m0[k].startTime
  {
    forall i | 0 <= i < k ensures m1[i].id !in moved { assert m1[..k][i] == m0[..k][i]; }
    FilterKeepsPrefix(m1, moved, k + 1);
    FilterKeepsPrefix(m0, moved, k);
    FilterBeyond(m0, moved, k);
    assert m1[..k + 1][k] == m1[k];
  }

  lemma {:induction false} FilterBeyond(s: seq<Entry>, ids: set<string>, j: nat)
    requires Sorted(s) && j < |Without(s, ids)|
    ensures j < |s| && Without(s, ids)[j].startTime <= s[j].startTime
  {
    assert s == [s[0]] + s[1..];
    FilterCons(Outside(ids), s[0], s[1..]);
    if s[0].id in ids {
      FilterBeyond(s[1..], ids, j);
      assert NewerFirst(s[j], s[j + 1]);
    } else if j > 0 {
      FilterBeyond(s[1..], ids, j - 1);
    }
  }

  // One lost and recorded id: the ranking is the old one with that entry moved.
  lemma OneMoved(h: seq<Entry>, d: seq<Entry>, x: string) returns (p: nat)
    requires UniqueIds(h) && Sorted(h) && UniqueIds(d) && x in Ids(d) && x in Ids(h)
    ensures var m0, m := Merged(h, d), RankedAsRecorded(h, d, x);
            && UniqueIds(m0) && Sorted(m0) && UniqueIds(m) && Sorted(m) && |m| == |m0|
            && p < |m| && m[p] == AsMap(h)[x] && m[p].id == x
            && Without(m0, {x}) == m[..p] + m[p + 1..]
  {
    var m0, m := Merged(h, d), RankedAsRecorded(h, d, x);
    IdsAfterLoss(h, d, {x});
    FewerIds(m0, m);
    FilteredUnique(d, {x});
    MergedAt(h, Without(d, {x}), x);
    var e := AsMap(m)[x];
    assert e in m && e.id == x;
    LostIsRecorded(h, d, {x}, e);
    p :| 0 <= p < |m| && m[p] == e;
    WithoutOne(m, p);
    SameOutside(h, d, {x});
  }

  lemma SameOutside(h: seq<Entry>, d: seq<Entry>, lost: set<string>)
    requires Sorted(h)
    ensures Without(Merged(h, Without(d, lost)), lost) == Without(Merged(h, d), lost)
  {
    WithoutMerged(h, d, lost);
    WithoutMerged(h, Without(d, lost), lost);
    WithoutUnion(d, lost, lost);
    assert lost + lost == lost;
  }

  // A ranking m0 and the same with one entry, from beyond the kept prefix, moved to place p.
  ghost predicate MovedTo(m0: seq<Entry>, m: seq<Entry>, p: nat, x: string, k: nat) {
    && Sorted(m0) && UniqueIds(m) && Sorted(m) && |m| == |m0| && p < |m| && m[p].id == x
    && Without(m0, {x}) == m[..p] + m[p + 1..]
    && k <= |m0| && forall i :: 0 <= i < k ==> m0[i].id != x
  }

  lemma MovedPlaces(m0: seq<Entry>, m: seq<Entry>, p: nat, x: string, k: nat)
    requires MovedTo(m0, m, p, x, k)
    ensures forall i :: 0 <= i < p && i < k ==> m[i] == m0[i]
    ensures p < k ==> p + 1 < |m| && m[p + 1] == m0[p]
  {
    var f := Without(m0, {x});
    FilterKeepsPrefix(m0, {x}, k);
    forall i | 0 <= i < k ensures f[i] == m0[i] { assert f[..k][i] == m0[..k][i]; }
  }

  // Moved to a kept place it is kept.
  lemma MovedAhead(m0: seq<Entry>, m: seq<Entry>, p: nat, x: string, spec: RetentionSpec, now: int)
    requires MovedTo(m0, m, p, x, KeepCount(m0, spec, now)) && p < KeepCount(m0, spec, now)
    ensures p < KeepCount(m, spec, now)
  {
    var k, keep := KeepCount(m0, spec, now), KeepCount(m, spec, now);
    MovedPlaces(m0, m, p, x, k);
    KeepCountExact(m0, spec, now, k);
    KeepCountExact(m, spec, now, keep);
    assert m[p].startTime >= m[p + 1].startTime;
  }

  // Moved behind them it is kept exactly where only age limits and it is young.
  lemma MovedBehind(m0: seq<Entry>, m: seq<Entry>, p: nat, x: string, spec: RetentionSpec, now: int)
    requires MovedTo(m0, m, p, x, KeepCount(m0, spec, now)) && p >= KeepCount(m0, spec, now)
    ensures p < KeepCount(m, spec, now) <==>
            KeepCount(m0, spec, now) < CountLimit(|m0|, spec) && NotOlder(Cutoff(spec, now))(m[p])
  {
    var k, keep := KeepCount(m0, spec, now), KeepCount(m, spec, now);
    MovedPlaces(m0, m, p, x, k);
    KeepCountExact(m0, spec, now, k);
    KeepCountExact(m, spec, now, keep);
    if k < CountLimit(|m0|, spec) && k < p {
      FilterBeyond(m0, {x}, k);
      assert Without(m0, {x})[k] == m[k];
      assert m[k].startTime >= m[p].startTime;
    }
    if keep < p { assert m[keep].startTime >= m[p].startTime; }
  }

  lemma MovedIsKeptIff(m0: seq<Entry>, m: seq<Entry>, p: nat, x: string, spec: RetentionSpec, now: int)
    requires MovedTo(m0, m, p, x, KeepCount(m0, spec, now))
    ensures x in Ids(m[..KeepCount(m, spec, now)]) <==>
            || p < KeepCount(m0, spec, now)
            || (KeepCount(m0, spec, now) < CountLimit(|m0|, spec) && NotOlder(Cutoff(spec, now))(m[p]))
  {
    InPrefixIff(m, KeepCount(m, spec, now), p);
    if p < KeepCount(m0, spec, now) { MovedAhead(m0, m, p, x, spec, now); } else { MovedBehind(m0, m, p, x, spec, now); }
  }

  lemma InPrefixIff(m: seq<Entry>, k: nat, p: nat)
    requires UniqueIds(m) && k <= |m| && p < |m|
    ensures m[p].id in Ids(m[..k]) <==> p < k
  {
    if p < k { assert m[..k][p] == m[p]; }
    if m[p].id in Ids(m[..k]) {
      var e :| e in m[..k] && e.id == m[p].id;
      var i :| 0 <= i < k && m[..k][i] == e;
      assert m[i].id == m[p].id;
    }
  }

  // Lost ids are discovered and rank beyond the kept prefix.
  ghost predicate BeyondKept(h: seq<Entry>, d: seq<Entry>, lost: set<string>, spec: RetentionSpec, now: int) {
    var m0 := Merged(h, d);
    UniqueIds(h) && Sorted(h) && UniqueIds(d) && lost <= Ids(d) && lost <= Ids(m0[KeepCount(m0, spec, now)..])
  }

  lemma KeptAreNotLost(h: seq<Entry>, d: seq<Entry>, lost: set<string>, spec: RetentionSpec, now: int)
    requires BeyondKept(h, d, lost, spec, now)
    ensures var m0 := Merged(h, d);
            forall i :: 0 <= i < KeepCount(m0, spec, now) ==> m0[i].id !in lost
  {
    var m0 := Merged(h, d);
    var k := KeepCount(m0, spec, now);
    IdsAfterLoss(h, d, lost);
    forall i: nat | i < k ensures m0[i].id !in lost { SuffixIds(m0, k, i); }
  }

  // One lost and recorded id comes back exactly if its recorded entry ranks before the last
  // kept one or, where only age limits, is young.
  lemma ReentersAt(h: seq<Entry>, d: seq<Entry>, x: string, spec: RetentionSpec, now: int) returns (p: nat)
    requires BeyondKept(h, d, {x}, spec, now) && x in Ids(h)
    ensures var m0, m := Merged(h, d), RankedAsRecorded(h, d, x);
            var k := KeepCount(m0, spec, now);
            && MovedTo(m0, m, p, x, k) && m[p] == AsMap(h)[x]
            && (Reenters(h, d, x, spec, now) <==>
                  p < k || (k < CountLimit(|m0|, spec) && NotOlder(Cutoff(spec, now))(AsMap(h)[x])))
  {
    p := OneMoved(h, d, x);
    KeptAreNotLost(h, d, {x}, spec, now);
    MovedIsKeptIff(Merged(h, d), RankedAsRecorded(h, d, x), p, x, spec, now);
  }

  // Two rankings that agree but for some ids agree on a place both reach without those.
  lemma SamePlace(m1: seq<Entry>, m: seq<Entry>, rest: set<string>, j: nat)
    requires Without(m1, rest) == Without(m, rest) && j < |m1| && j < |m|
    requires forall i :: 0 <= i <= j ==> m1[i].id !in rest && m[i].id !in rest
    ensures m1[j] == m[j]
  {
    FilterKeepsPrefix(m1, rest, j + 1);
    FilterKeepsPrefix(m, rest, j + 1);
    assert m1[..j + 1][j] == m1[j] && m[..j + 1][j] == m[j];
  }

  // A lost id at a kept place, with none before it, was moved to a kept place.
  lemma KeptPlace(m0: seq<Entry>, m1: seq<Entry>, m: seq<Entry>, lost: set<string>, p: nat, x: string, k: nat, j: nat)
    requires MovedTo(m0, m, p, x, k) && x in lost && j < k && j < |m1| && m1[j].id == x
    requires Without(m1, lost - {x}) == Without(m, lost - {x})
    requires forall i :: 0 <= i < k ==> m0[i].id !in lost
    requires forall i :: 0 <= i < j ==> m1[i].id !in lost
    ensures p < k
  {
    if p >= k {
      MovedPlaces(m0, m, p, x, k);
      SamePlace(m1, m, lost - {x}, j);
    }
  }

  lemma LossShape(h: seq<Entry>, d: seq<Entry>, lost: set<string>, spec: RetentionSpec, now: int, m0: seq<Entry>, m1: seq<Entry>)
    requires BeyondKept(h, d, lost, spec, now) && m0 == Merged(h, d) && m1 == Merged(h, Without(d, lost))
    ensures Sorted(m0) && Sorted(m1) && |m1| <= |m0| && Without(m1, lost) == Without(m0, lost)
    ensures forall i :: 0 <= i < KeepCount(m0, spec, now) ==> m0[i].id !in lost
  {
    IdsAfterLoss(h, d, lost);
    KeptAreNotLost(h, d, lost, spec, now);
    SameOutside(h, d, lost);
  }

  // The first lost id among the kept places comes back by itself.
  lemma FirstAmongKept(h: seq<Entry>, d: seq<Entry>, lost: set<string>, spec: RetentionSpec, now: int, m1: seq<Entry>, j: nat)
    requires BeyondKept(h, d, lost, spec, now) && m1 == Merged(h, Without(d, lost))
    requires j < KeepCount(Merged(h, d), spec, now) && j < |m1| && m1[j].id in lost
    requires forall i :: 0 <= i < j ==> m1[i].id !in lost
    ensures m1[j].id in Ids(h) && Reenters(h, d, m1[j].id, spec, now)
  {
    var x := m1[j].id;
    LostIsRecorded(h, d, lost, m1[j]);
    KeptAreNotLost(h, d, lost, spec, now);
    SameOutsideLost(h, d, {x}, lost);
    var p := ReentersAt(h, d, x, spec, now);
    KeptPlace(Merged(h, d), m1, RankedAsRecorded(h, d, x), lost, p, x, KeepCount(Merged(h, d), spec, now), j);
  }

  lemma {:induction false} FirstIn(m: seq<Entry>, ids: set<string>, k: nat) returns (j: nat)
    requires k <= |m|
    ensures j <= k && (forall i :: 0 <= i < j ==> m[i].id !in ids) && (j < k ==> m[j].id in ids)
  {
    if k == 0 { j := 0; } else {
      j := FirstIn(m, ids, k - 1);
      if j == k - 1 && m[k - 1].id !in ids { j := k; }
    }
  }

  ghost predicate SomeReenters(h: seq<Entry>, d: seq<Entry>, lost: set<string>, spec: RetentionSpec, now: int) {
    exists x :: x in lost && x in Ids(h) && Reenters(h, d, x, spec, now)
  }

  // Without a re-entry the kept prefix is the old one, after any loss.
  lemma LossKeepsPrefix(h: seq<Entry>, d: seq<Entry>, lost: set<string>, spec: RetentionSpec, now: int)
    requires BeyondKept(h, d, lost, spec, now) && !SomeReenters(h, d, lost, spec, now)
    ensures var m0, m1 := Merged(h, d), Merged(h, Without(d, lost));
            var k := KeepCount(m0, spec, now);
            KeepCount(m1, spec, now) == k <= |m1| && m1[..k] == m0[..k]
  {
    var m0, m1 := Merged(h, d), Merged(h, Without(d, lost));
    var k := KeepCount(m0, spec, now);
    LossShape(h, d, lost, spec, now, m0, m1);
    var j := FirstIn(m1, lost, if k <= |m1| then k else |m1|);
    if j < k && j < |m1| { FirstAmongKept(h, d, lost, spec, now, m1, j); }
    if k < CountLimit(|m0|, spec) && k < |m1| && m1[k].id in lost { NextIsOld(h, d, lost, spec, now, m1, k); }
    KeptPrefixSame(m0, m1, lost, spec, now);
  }

  lemma NextIsOld(h: seq<Entry>, d: seq<Entry>, lost: set<string>, spec: RetentionSpec, now: int, m1: seq<Entry>, k: nat)
    requires BeyondKept(h, d, lost, spec, now) && !SomeReenters(h, d, lost, spec, now) && m1 == Merged(h, Without(d, lost))
    requires k == KeepCount(Merged(h, d), spec, now) < CountLimit(|Merged(h, d)|, spec) && k < |m1| && m1[k].id in lost
    ensures !NotOlder(Cutoff(spec, now))(m1[k])
  {
    LostIsRecorded(h, d, lost, m1[k]);
    var p := ReentersAt(h, d, m1[k].id, spec, now);
  }

  // The converse, on rankings: if no lost entry is kept in m1, the kept prefix of m0 is kept
  // there, and where only age limits nothing else is.
  lemma KeptStaysKept(m0: seq<Entry>, m1: seq<Entry>, lost: set<string>, spec: RetentionSpec, now: int)
    requires Sorted(m0) && Sorted(m1) && Without(m1, lost) == Without(m0, lost)
    requires forall i :: 0 <= i < KeepCount(m0, spec, now) ==> m0[i].id !in lost
    ensures KeepCount(m0, spec, now) <= |m1|
    ensures KeepCount(m0, spec, now) <= KeepCount(m1, spec, now)
  {
    var k0, k1 := KeepCount(m0, spec, now), KeepCount(m1, spec, now);
    KeepCountExact(m0, spec, now, k0);
    KeepCountExact(m1, spec, now, k1);
    FilterKeepsPrefix(m0, lost, k0);
    assert |Without(m1, lost)| <= |m1|;
    if k1 < k0 { FilterBeyond(m1, lost, k1); }
  }

  lemma KeptNeedsAll(m0: seq<Entry>, m1: seq<Entry>, lost: set<string>, spec: RetentionSpec, now: int)
    requires Sorted(m0) && Sorted(m1) && Without(m1, lost) == Without(m0, lost)
    requires forall i :: 0 <= i < KeepCount(m0, spec, now) ==> m0[i].id !in lost
    requires forall i :: 0 <= i < KeepCount(m1, spec, now) ==> m1[i].id !in lost
    ensures KeepCount(m0, spec, now) <= KeepCount(m1, spec, now)
    ensures KeepCount(m0, spec, now) < CountLimit(|m0|, spec) ==> KeepCount(m1, spec, now) == KeepCount(m0, spec, now)
  {
    var k0, k1 := KeepCount(m0, spec, now), KeepCount(m1, spec, now);
    KeptStaysKept(m0, m1, lost, spec, now);
    SamePrefix(m0, m1, lost, k0);
    if k0 < k1 && k0 < CountLimit(|m0|, spec) {
      StaysBeyond(m0, m1, lost, k0);
      KeepCountExact(m0, spec, now, k0);
      KeepCountExact(m1, spec, now, k1);
    }
  }

  // What holds of the kept prefixes if no lost id is kept after the whole loss.
  lemma KeptAfterLoss(h: seq<Entry>, d: seq<Entry>, lost: set<string>, spec: RetentionSpec, now: int, m0: seq<Entry>, m1: seq<Entry>)
    requires BeyondKept(h, d, lost, spec, now) && m0 == Merged(h, d) && m1 == Merged(h, Without(d, lost))
    requires forall i :: 0 <= i < KeepCount(m1, spec, now) ==> m1[i].id !in lost
    ensures Sorted(m1) && forall i :: 0 <= i < KeepCount(m0, spec, now) ==> m0[i].id !in lost
    ensures KeepCount(m0, spec, now) <= KeepCount(m1, spec, now)
    ensures KeepCount(m0, spec, now) < CountLimit(|m0|, spec) ==> KeepCount(m1, spec, now) == KeepCount(m0, spec, now)
  {
    LossShape(h, d, lost, spec, now, m0, m1);
    KeptNeedsAll(m0, m1, lost, spec, now);
  }

  // If no lost id is kept after the whole loss, none comes back by itself.
  lemma UnseenStaysOut(h: seq<Entry>, d: seq<Entry>, lost: set<string>, spec: RetentionSpec, now: int, m1: seq<Entry>, x: string)
    requires BeyondKept(h, d, lost, spec, now) && m1 == Merged(h, Without(d, lost)) && x in lost && x in Ids(h)
    requires forall i :: 0 <= i < KeepCount(m1, spec, now) ==> m1[i].id !in lost
    ensures !Reenters(h, d, x, spec, now)
  {
    var m0, m := Merged(h, d), RankedAsRecorded(h, d, x);
    KeptAfterLoss(h, d, lost, spec, now, m0, m1);
    SameOutsideLost(h, d, {x}, lost);
    var q := PlaceAfterLoss(h, d, lost, x, m1);
    var p := ReentersAt(h, d, x, spec, now);
    NoReentryUnseen(m0, m1, m, lost, p, q, x, spec, now);
  }

  // If one lost id comes back by itself, the kept prefix after the whole loss holds a lost id.
  lemma ReentryIsKept(h: seq<Entry>, d: seq<Entry>, lost: set<string>, spec: RetentionSpec, now: int) returns (i: nat)
    requires BeyondKept(h, d, lost, spec, now) && SomeReenters(h, d, lost, spec, now)
    ensures var m1 := Merged(h, Without(d, lost));
            i < KeepCount(m1, spec, now) && m1[i].id in lost
  {
    var m1 := Merged(h, Without(d, lost));
    i := FirstIn(m1, lost, KeepCount(m1, spec, now));
    if i == KeepCount(m1, spec, now) {
      var x :| x in lost && x in Ids(h) && Reenters(h, d, x, spec, now);
      UnseenStaysOut(h, d, lost, spec, now, m1, x);
    }
  }

  lemma PlaceAfterLoss(h: seq<Entry>, d: seq<Entry>, lost: set<string>, x: string, m1: seq<Entry>) returns (q: nat)
    requires UniqueIds(h) && UniqueIds(d) && lost <= Ids(d) && x in lost && x in Ids(h)
    requires m1 == Merged(h, Without(d, lost)) && Sorted(h)
    ensures q < |m1| && m1[q] == AsMap(h)[x] && m1[q].id == x
  {
    IdsAfterLoss(h, d, lost);
    MergeClosedForm(h, d);
    assert x in Ids(m1);
    var e := EntryOf(m1, x);
    LostIsRecorded(h, d, lost, e);
    q :| 0 <= q < |m1| && m1[q] == e;
  }

  // On rankings: a moved entry that is kept by itself is seen among the kept ones of m1, whether
  // it moved ahead of a kept entry
  lemma NotMovedAhead(m0: seq<Entry>, m1: seq<Entry>, m: seq<Entry>, lost: set<string>, p: nat, x: string, k: nat)
    requires MovedTo(m0, m, p, x, k) && x in lost && p < |m| && k <= |m1|
    requires Without(m1, lost - {x}) == Without(m, lost - {x})
    requires forall i :: 0 <= i < k ==> m0[i].id !in lost && m1[i].id !in lost
    ensures p >= k
  {
    if p < k {
      MovedPlaces(m0, m, p, x, k);
      SamePlace(m1, m, lost - {x}, p);
    }
  }

  // or is young enough to follow the last one.
  lemma NotYoungEnough(m1: seq<Entry>, k: nat, q: nat, spec: RetentionSpec, now: int)
    requires Sorted(m1) && k <= q < |m1| && k == KeepCount(m1, spec, now) && k < CountLimit(|m1|, spec)
    ensures !NotOlder(Cutoff(spec, now))(m1[q])
  {
    KeepCountExact(m1, spec, now, k);
    assert q > k ==> m1[k].startTime >= m1[q].startTime;
  }

  lemma NoReentryUnseen(m0: seq<Entry>, m1: seq<Entry>, m: seq<Entry>, lost: set<string>, p: nat, q: nat, x: string,
                        spec: RetentionSpec, now: int)
    requires Sorted(m1) && q < |m1| && m1[q].id == x && x in lost && p < |m| && m1[q] == m[p]
    requires MovedTo(m0, m, p, x, KeepCount(m0, spec, now))
    requires Without(m1, lost - {x}) == Without(m, lost - {x})
    requires forall i :: 0 <= i < KeepCount(m0, spec, now) ==> m0[i].id !in lost
    requires forall i :: 0 <= i < KeepCount(m1, spec, now) ==> m1[i].id !in lost
    requires KeepCount(m0, spec, now) <= KeepCount(m1, spec, now)
    requires KeepCount(m0, spec, now) < CountLimit(|m0|, spec) ==> KeepCount(m1, spec, now) == KeepCount(m0, spec, now)
    ensures p >= KeepCount(m0, spec, now)
    ensures KeepCount(m0, spec, now) < CountLimit(|m0|, spec) ==> !NotOlder(Cutoff(spec, now))(m[p])
  {
    var k := KeepCount(m0, spec, now);
    NotMovedAhead(m0, m1, m, lost, p, x, k);
    if k < CountLimit(|m0|, spec) { NotYoungEnough(m1, k, q, spec, now); }
  }

  // Without a tie, being moved ahead of the last kept entry is starting later than it.
  lemma MovedByStart(m0: seq<Entry>, m: seq<Entry>, p: nat, x: string, k: nat)
    requires MovedTo(m0, m, p, x, k) && k > 0
    ensures m[p].startTime > m0[k - 1].startTime ==> p < k
    ensures m[p].startTime < m0[k - 1].startTime ==> p >= k
  {
    MovedPlaces(m0, m, p, x, k);
    if p < k {
      assert m[p].startTime >= m[p + 1].startTime;
      assert m0[p].startTime >= m0[k - 1].startTime;
    } else {
      assert m[k - 1].startTime >= m[p].startTime;
    }
  }

  // On rankings: when a moved entry is kept, by its start.
  lemma KeptByStart(m0: seq<Entry>, m: seq<Entry>, p: nat, x: string, spec: RetentionSpec, now: int)
    requires MovedTo(m0, m, p, x, KeepCount(m0, spec, now))
    ensures var k, young := KeepCount(m0, spec, now), NotOlder(Cutoff(spec, now))(m[p]);
            var kept := p < k || (k < CountLimit(|m0|, spec) && young);
            && (k < CountLimit(|m0|, spec) ==> (kept <==> young))
            && (k == CountLimit(|m0|, spec) == 0 ==> !kept)
            && (k == CountLimit(|m0|, spec) > 0 && m[p].startTime > m0[k - 1].startTime ==> kept)
            && (k == CountLimit(|m0|, spec) > 0 && m[p].startTime < m0[k - 1].startTime ==> !kept)
  {
    var k := KeepCount(m0, spec, now);
    if k > 0 { MovedByStart(m0, m, p, x, k); }
    if p < k { MovedIsYoung(m0, m, p, x, spec, now); }
  }

  lemma ReentersByAge(h: seq<Entry>, d: seq<Entry>, x: string, spec: RetentionSpec, now: int)
    requires BeyondKept(h, d, {x}, spec, now) && x in Ids(h)
    requires KeepCount(Merged(h, d), spec, now) < CountLimit(|Merged(h, d)|, spec)
    ensures Reenters(h, d, x, spec, now) <==> NotOlder(Cutoff(spec, now))(AsMap(h)[x])
  {
    var p := ReentersAt(h, d, x, spec, now);
    KeptByStart(Merged(h, d), RankedAsRecorded(h, d, x), p, x, spec, now);
  }

  lemma ReentersByCount(h: seq<Entry>, d: seq<Entry>, x: string, spec: RetentionSpec, now: int, k: nat)
    requires BeyondKept(h, d, {x}, spec, now) && x in Ids(h)
    requires k == KeepCount(Merged(h, d), spec, now) == CountLimit(|Merged(h, d)|, spec)
    ensures k == 0 ==> !Reenters(h, d, x, spec, now)
    ensures k > 0 && AsMap(h)[x].startTime > Merged(h, d)[k - 1].startTime ==> Reenters(h, d, x, spec, now)
    ensures k > 0 && AsMap(h)[x].startTime < Merged(h, d)[k - 1].startTime ==> !Reenters(h, d, x, spec, now)
  {
    var p := ReentersAt(h, d, x, spec, now);
    KeptByStart(Merged(h, d), RankedAsRecorded(h, d, x), p, x, spec, now);
  }

  // The condition by recorded start: a comparison with the last kept entry, save for a tie, or
  // with the cutoff where only age limits.
  lemma ReentersByStart(h: seq<Entry>, d: seq<Entry>, x: string, spec: RetentionSpec, now: int)
    requires BeyondKept(h, d, {x}, spec, now) && x in Ids(h)
    ensures var m0, recorded := Merged(h, d), AsMap(h)[x];
            var k := KeepCount(m0, spec, now);
            && (k < CountLimit(|m0|, spec) ==> (Reenters(h, d, x, spec, now) <==> NotOlder(Cutoff(spec, now))(recorded)))
            && (k == CountLimit(|m0|, spec) == 0 ==> !Reenters(h, d, x, spec, now))
            && (k == CountLimit(|m0|, spec) > 0 && recorded.startTime > m0[k - 1].startTime ==> Reenters(h, d, x, spec, now))
            && (k == CountLimit(|m0|, spec) > 0 && recorded.startTime < m0[k - 1].startTime ==> !Reenters(h, d, x, spec, now))
  {
    var k, limit := KeepCount(Merged(h, d), spec, now), CountLimit(|Merged(h, d)|, spec);
    if k < limit { ReentersByAge(h, d, x, spec, now); }
    if k == limit { ReentersByCount(h, d, x, spec, now, k); }
  }

  lemma MovedIsYoung(m0: seq<Entry>, m: seq<Entry>, p: nat, x: string, spec: RetentionSpec, now: int)
    requires MovedTo(m0, m, p, x, KeepCount(m0, spec, now)) && p < KeepCount(m0, spec, now)
    ensures NotOlder(Cutoff(spec, now))(m[p])
  {
    MovedPlaces(m0, m, p, x, KeepCount(m0, spec, now));
    KeepCountExact(m0, spec, now, KeepCount(m0, spec, now));
    assert m[p].startTime >= m[p + 1].startTime;
  }

  // A backup recorded no later than its manifest says does not come back.
  lemma RecordedNoLaterStaysOut(h: seq<Entry>, d: seq<Entry>, x: string, spec: RetentionSpec, now: int)
    requires BeyondKept(h, d, {x}, spec, now) && x in Ids(h) && AsMap(h)[x].startTime <= AsMap(d)[x].startTime
    ensures !Reenters(h, d, x, spec, now)
  {
    var m0, k := Merged(h, d), KeepCount(Merged(h, d), spec, now);
    if AsMap(h)[x].startTime == AsMap(d)[x].startTime && k == CountLimit(|m0|, spec) {
      SameStartStaysOut(h, d, x, spec, now);
    } else {
      EarlierStaysOut(h, d, x, spec, now, m0);
    }
  }

  lemma EarlierStaysOut(h: seq<Entry>, d: seq<Entry>, x: string, spec: RetentionSpec, now: int, m0: seq<Entry>)
    requires BeyondKept(h, d, {x}, spec, now) && x in Ids(h) && m0 == Merged(h, d)
    requires AsMap(h)[x].startTime <= AsMap(d)[x].startTime
    requires KeepCount(m0, spec, now) == CountLimit(|m0|, spec) ==> AsMap(h)[x].startTime < AsMap(d)[x].startTime
    ensures !Reenters(h, d, x, spec, now)
  {
    MergedAt(h, d, x);
    KeptAreNotLost(h, d, {x}, spec, now);
    MergeRefinesMap(h, d);
    BeyondStart(m0, x, spec, now);
    ReentersByStart(h, d, x, spec, now);
  }

  lemma BeyondStart(m0: seq<Entry>, x: string, spec: RetentionSpec, now: int)
    requires UniqueIds(m0) && Sorted(m0) && x in Ids(m0)
    requires forall i :: 0 <= i < KeepCount(m0, spec, now) ==> m0[i].id != x
    ensures var k, start := KeepCount(m0, spec, now), AsMap(m0)[x].startTime;
            && (k > 0 ==> m0[k - 1].startTime >= start)
            && (k < CountLimit(|m0|, spec) ==> !NotOlder(Cutoff(spec, now))(AsMap(m0)[x]))
  {
    var k, e := KeepCount(m0, spec, now), AsMap(m0)[x];
    KeepCountExact(m0, spec, now, k);
    var i :| 0 <= i < |m0| && m0[i] == e;
    assert i > k ==> m0[k].startTime >= m0[i].startTime;
    assert k > 0 ==> m0[k - 1].startTime >= m0[i].startTime;
  }

  lemma SameStartStaysOut(h: seq<Entry>, d: seq<Entry>, x: string, spec: RetentionSpec, now: int)
    requires BeyondKept(h, d, {x}, spec, now) && x in Ids(h) && AsMap(h)[x].startTime == AsMap(d)[x].startTime
    requires KeepCount(Merged(h, d), spec, now) == CountLimit(|Merged(h, d)|, spec)
    ensures !Reenters(h, d, x, spec, now)
  {
    var m0, m := Merged(h, d), RankedAsRecorded(h, d, x);
    forall e | e in d && e.id in {x} ensures Holds(h, e) { assert AsMap(d)[x] == e; }
    MergeOfPartialDiscovery(h, d, {x}, {});
    WithoutAbsent(m0, {});
    WithoutAbsent(m, {});
    var p := ReentersAt(h, d, x, spec, now);
    assert m[p].id == m0[p].id;
  }
}
