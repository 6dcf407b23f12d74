// Merging discoveries in which an id repeats: the map is settled by the first merge, the order
// of ties by the second, and storage can hold such a discovery.
module RepeatedIds {
  import opened Wrappers
  import opened Sorting
  import opened History
  import opened PartialDiscovery
  import opened Reentry
  import opened ObjectKeys
  import opened ObjectStore
  import opened RetentionGuarantees
  import opened Ownership

  // What the entries of one id make of its value.
  ghost function Followed(v: Option<Entry>, d: seq<Entry>, id: string): Option<Entry>
    decreases |d|
  {
    if d == [] then v
    else if d[0].id != id then Followed(v, d[1..], id)
    else Followed(Some(if v.Some? then Fallback(d[0], v.value) else d[0]), d[1..], id)
  }

  ghost function Lookup(m: map<string, Entry>, id: string): Option<Entry> { if id in m then Some(m[id]) else None }

  lemma {:induction false} OverrideAllFollows(m: map<string, Entry>, d: seq<Entry>, id: string)
    ensures Lookup(OverrideAll(m, d), id) == Followed(Lookup(m, id), d, id)
    decreases |d|
  {
    if d != [] { OverrideAllFollows(Override(m, d[0]), d[1..], id); }
  }

  // A value followed through the discovery depends on the start only by its completion time, and
  // by that only if no entry has one.
  lemma {:induction false} FollowedForgets(v: Option<Entry>, w: Option<Entry>, d: seq<Entry>, id: string)
    requires exists e :: e in d && e.id == id
    requires Completion(v) == Completion(w) || exists e :: e in d && e.id == id && e.completionTime.Some?
    ensures Followed(v, d, id) == Followed(w, d, id)
    decreases |d|
  {
    var rest := d[1..];
    assert forall e :: e in d ==> e == d[0] || e in rest;
    if d[0].id != id {
      FollowedForgets(v, w, rest, id);
    } else {
      var v1 := Some(if v.Some? then Fallback(d[0], v.value) else d[0]);
      var w1 := Some(if w.Some? then Fallback(d[0], w.value) else d[0]);
      if v1 != w1 { FollowedForgets(v1, w1, rest, id); }
    }
  }

  ghost function Completion(v: Option<Entry>): Option<int> { if v.Some? then v.value.completionTime else None }

  lemma {:induction false} FollowedKeepsCompletion(v: Option<Entry>, d: seq<Entry>, id: string)
    requires forall e :: e in d && e.id == id ==> e.completionTime.None?
    ensures Completion(Followed(v, d, id)) == Completion(v)
    ensures (forall e :: e in d ==> e.id != id) ==> Followed(v, d, id) == v
    decreases |d|
  {
    if d != [] {
      if d[0].id != id {
        FollowedKeepsCompletion(v, d[1..], id);
      } else {
        FollowedKeepsCompletion(Some(if v.Some? then Fallback(d[0], v.value) else d[0]), d[1..], id);
      }
    }
  }

  lemma FollowedTwice(v: Option<Entry>, d: seq<Entry>, id: string)
    ensures Followed(Followed(v, d, id), d, id) == Followed(v, d, id)
  {
    if exists e :: e in d && e.id == id && e.completionTime.Some? {
      FollowedForgets(Followed(v, d, id), v, d, id);
    } else {
      FollowedKeepsCompletion(v, d, id);
      FollowedKeepsCompletion(Followed(v, d, id), d, id);
      if exists e :: e in d && e.id == id { FollowedForgets(Followed(v, d, id), v, d, id); }
    }
  }

  // A second merge gives the same map, whatever repeats.
  lemma SecondMergeSameMap(h: seq<Entry>, d: seq<Entry>)
    requires UniqueIds(h)
    ensures UniqueIds(Merged(h, d)) && UniqueIds(Merged(Merged(h, d), d))
    ensures AsMap(Merged(Merged(h, d), d)) == AsMap(Merged(h, d))
  {
    var m := AsMap(h);
    MergeRefinesMap(h, d);
    MergeRefinesMap(Merged(h, d), d);
    forall id ensures Lookup(OverrideAll(OverrideAll(m, d), d), id) == Lookup(OverrideAll(m, d), id) {
      OverrideAllFollows(m, d, id);
      OverrideAllFollows(OverrideAll(m, d), d, id);
      FollowedTwice(Lookup(m, id), d, id);
    }
    SameLookups(OverrideAll(OverrideAll(m, d), d), OverrideAll(m, d));
  }

  lemma SameLookups(a: map<string, Entry>, b: map<string, Entry>)
    requires forall id :: Lookup(a, id) == Lookup(b, id)
    ensures a == b
  {
    assert forall id :: id in a <==> Lookup(a, id).Some?;
    assert forall id :: id in b <==> Lookup(b, id).Some?;
  }

  // Two tied entries in both orders: while they stay tied each run keeps its order, and once
  // they part the runs coincide.
  lemma {:induction false} TiedRuns(p: Entry, q: Entry, d: seq<Entry>)
    requires p.id != q.id && p.startTime == q.startTime && forall e :: e in d ==> e.id == p.id || e.id == q.id
    ensures var u := UpsertedAll([p, q], d);
            || u == UpsertedAll([q, p], d)
            || (|u| == 2 && u[0].id == p.id && u[1].id == q.id && u[0].startTime == u[1].startTime)
    decreases |d|
  {
    if d != [] {
      var e, rest := d[0], d[1..];
      assert e in d;
      PairUpserted(p, q, e);
      PairUpserted(q, p, e);
      var p1 := if e.id == p.id then Fallback(e, p) else p;
      var q1 := if e.id == q.id then Fallback(e, q) else q;
      if p1.startTime == q1.startTime { TiedRuns(p1, q1, rest); }
    }
  }

  lemma PairUpserted(p: Entry, q: Entry, e: Entry)
    requires p.id != q.id && (e.id == p.id || e.id == q.id)
    ensures var p1 := if e.id == p.id then Fallback(e, p) else p;
            var q1 := if e.id == q.id then Fallback(e, q) else q;
            Upserted([p, q], e) == if p1.startTime >= q1.startTime then [p1, q1] else [q1, p1]
  {
    var p1 := if e.id == p.id then Fallback(e, p) else p;
    var q1 := if e.id == q.id then Fallback(e, q) else q;
    assert Placed([p, q], e) == [p1, q1] by {
      assert IndexOf([p, q], e.id) == if e.id == p.id then 0 else 1 by {
        assert [p, q][1..] == [q];
      }
    }
    SortPair(p1, q1);
  }

  // Merging again reorders two entries no further.
  lemma SwappedStays(p: Entry, q: Entry, d: seq<Entry>)
    requires p.id != q.id && p.startTime == q.startTime && forall e :: e in d ==> e.id == p.id || e.id == q.id
    requires Merged([p, q], d) == [q, p]
    ensures Merged([q, p], d) == [q, p]
  {
    TiedRuns(p, q, d);
    var u := UpsertedAll([p, q], d);
    if u != UpsertedAll([q, p], d) {
      assert u == [u[0], u[1]];
      SortPair(u[0], u[1]);
    }
  }

  lemma PairStable(a: seq<Entry>, b: seq<Entry>, d: seq<Entry>)
    requires |a| == 2 && UniqueIds(a) && Sorted(a) && forall e :: e in d ==> e.id in Ids(a)
    requires b == Merged(a, d) && Sorted(b) && UniqueIds(b) && |b| == 2 && b[0] in a && b[1] in a
    ensures Merged(b, d) == b
  {
    if a != b {
      assert b == [a[1], a[0]] && a == [a[0], a[1]];
      SwappedStays(a[0], a[1], d);
    }
  }

  lemma SameIds(a: seq<Entry>, b: seq<Entry>)
    requires forall e :: e in a <==> e in b
    ensures Ids(a) == Ids(b)
  {
  }

  // Sequences with the same entries in the same order pair by pair are equal.
  lemma {:induction false} SamePairwise(a: seq<Entry>, b: seq<Entry>)
    requires UniqueIds(a) && UniqueIds(b) && forall e :: e in a <==> e in b
    requires forall x, y :: x in Ids(a) && y in Ids(a) && x != y ==> OnlyPair(a, x, y) == OnlyPair(b, x, y)
    ensures a == b
  {
    SameIds(a, b);
    IdsCount(a);
    IdsCount(b);
    if a != [] {
      FirstsAgree(a, b);
      RestPairwise(a, b);
      SamePairwise(a[1..], b[1..]);
    }
  }

  lemma FirstsAgree(a: seq<Entry>, b: seq<Entry>)
    requires UniqueIds(a) && UniqueIds(b) && (forall e :: e in a <==> e in b) && a != []
    requires forall x, y :: x in Ids(a) && y in Ids(a) && x != y ==> OnlyPair(a, x, y) == OnlyPair(b, x, y)
    ensures b != [] && a[0] == b[0]
  {
    assert a[0] in b && b[0] in a;
    var p, q := a[0], b[0];
    PairHead(a, p.id, q.id);
    PairHead(b, p.id, q.id);
    assert p.id != q.id ==> OnlyPair(a, p.id, q.id) == OnlyPair(b, p.id, q.id);
    var k :| 0 <= k < |b| && b[k] == p;
  }

  lemma PairHead(h: seq<Entry>, x: string, y: string)
    requires h != [] && (h[0].id == x || h[0].id == y)
    ensures OnlyPair(h, x, y) != [] && OnlyPair(h, x, y)[0] == h[0]
  {
  }

  function Pair(x: string, y: string): Entry -> bool { (e: Entry) => e.id == x || e.id == y }

  function OnlyPair(h: seq<Entry>, x: string, y: string): seq<Entry> { Filter(Pair(x, y), h) }

  lemma RestPairwise(a: seq<Entry>, b: seq<Entry>)
    requires UniqueIds(a) && UniqueIds(b) && (forall e :: e in a <==> e in b) && a != [] && b != [] && a[0] == b[0]
    requires forall x, y :: x in Ids(a) && y in Ids(a) && x != y ==> OnlyPair(a, x, y) == OnlyPair(b, x, y)
    ensures forall e :: e in a[1..] <==> e in b[1..]
    ensures forall x, y :: x in Ids(a[1..]) && y in Ids(a[1..]) && x != y ==> OnlyPair(a[1..], x, y) == OnlyPair(b[1..], x, y)
  {
    assert a[0] !in a[1..] && b[0] !in b[1..];
    assert forall e :: e in a ==> e == a[0] || e in a[1..];
    assert forall e :: e in b ==> e == b[0] || e in b[1..];
    forall x, y | x in Ids(a[1..]) && y in Ids(a[1..]) && x != y
      ensures OnlyPair(a[1..], x, y) == OnlyPair(b[1..], x, y)
    {
      assert OnlyPair(a, x, y) == OnlyPair(b, x, y);
      assert a[0].id != x && a[0].id != y;
    }
  }

  lemma SameMapSameEntries(a: seq<Entry>, b: seq<Entry>)
    requires UniqueIds(a) && UniqueIds(b) && AsMap(a) == AsMap(b)
    ensures forall e :: e in a <==> e in b
    ensures Ids(a) == Ids(b)
  {
    forall e ensures e in a <==> e in b {
      if e in a { assert e.id in AsMap(b) && AsMap(b)[e.id] == e; }
      if e in b { assert e.id in AsMap(a) && AsMap(a)[e.id] == e; }
    }
  }

  lemma {:induction false} PairIsWithout(h: seq<Entry>, rest: set<string>, x: string, y: string)
    requires forall e :: e in h ==> (e.id in rest <==> e.id != x && e.id != y)
    ensures OnlyPair(h, x, y) == Without(h, rest)
  {
    if h != [] { PairIsWithout(h[1..], rest, x, y); }
  }

  lemma TwoIds(p: seq<Entry>, x: string, y: string)
    requires UniqueIds(p) && Ids(p) == {x, y} && x != y
    ensures |p| == 2
  {
    IdsCount(p);
    assert |{x, y}| == 2;
  }

  // The two entries of a pair, taken out of a sorted history.
  lemma PairOf(h: seq<Entry>, rest: set<string>, x: string, y: string)
    requires UniqueIds(h) && Sorted(h) && x != y && Ids(h) - rest == {x, y}
    ensures var p := Without(h, rest); UniqueIds(p) && Sorted(p) && Ids(p) == {x, y} && |p| == 2
  {
    FilteredUnique(h, rest);
    FilterSorted(NewerFirst, Outside(rest), h);
    TwoIds(Without(h, rest), x, y);
  }

  // The second merge settles the order of ties too: a third changes nothing.
  lemma ThirdMergeChangesNothing(h: seq<Entry>, d: seq<Entry>)
    requires UniqueIds(h)
    ensures var m := Merged(Merged(h, d), d); Merged(m, d) == m
  {
    var m1 := Merged(h, d);
    var m2 := Merged(m1, d);
    var m3 := Merged(m2, d);
    MergeRefinesMap(h, d);
    MergeRefinesMap(m1, d);
    MergeRefinesMap(m2, d);
    SecondMergeSameMap(h, d);
    SecondMergeSameMap(m1, d);
    SameMapSameEntries(m1, m2);
    SameMapSameEntries(m2, m3);
    forall x, y | x in Ids(m2) && y in Ids(m2) && x != y ensures OnlyPair(m2, x, y) == OnlyPair(m3, x, y) {
      PairOrderSettled(m1, m2, m3, d, x, y);
    }
    SamePairwise(m2, m3);
  }

  // Every id but two.
  ghost function Others(h: seq<Entry>, d: seq<Entry>, x: string, y: string): set<string> { Ids(h) + Ids(d) - {x, y} }

  lemma OthersLeave(h: seq<Entry>, d: seq<Entry>, x: string, y: string, m: seq<Entry>)
    requires x in Ids(h) && y in Ids(h) && Ids(m) == Ids(h)
    ensures Ids(m) - Others(h, d, x, y) == {x, y}
    ensures OnlyPair(m, x, y) == Without(m, Others(h, d, x, y))
    ensures forall e :: e in Without(d, Others(h, d, x, y)) ==> e.id == x || e.id == y
  {
    assert forall e :: e in m ==> e.id in Ids(m);
    assert forall e :: e in d ==> e.id in Ids(d);
    PairIsWithout(m, Others(h, d, x, y), x, y);
  }

  lemma PairOrderSettled(m1: seq<Entry>, m2: seq<Entry>, m3: seq<Entry>, d: seq<Entry>, x: string, y: string)
    requires m2 == Merged(m1, d) && m3 == Merged(m2, d) && Sorted(m1) && Sorted(m2)
    requires UniqueIds(m1) && UniqueIds(m2)
    requires (forall e :: e in m1 <==> e in m2) && Ids(m1) == Ids(m2) == Ids(m3)
    requires x in Ids(m2) && y in Ids(m2) && x != y
    ensures OnlyPair(m2, x, y) == OnlyPair(m3, x, y)
  {
    var rest := Others(m2, d, x, y);
    OthersLeave(m2, d, x, y, m1);
    OthersLeave(m2, d, x, y, m2);
    OthersLeave(m2, d, x, y, m3);
    PairOf(m1, rest, x, y);
    PairOf(m2, rest, x, y);
    WithoutMerged(m1, d, rest);
    WithoutMerged(m2, d, rest);
    SettledPair(Without(m1, rest), Without(m2, rest), Without(d, rest), x, y);
  }

  lemma SettledPair(a: seq<Entry>, b: seq<Entry>, d: seq<Entry>, x: string, y: string)
    requires UniqueIds(a) && Sorted(a) && Ids(a) == {x, y} && |a| == 2
    requires UniqueIds(b) && Sorted(b) && |b| == 2 && forall e :: e in b ==> e in a
    requires b == Merged(a, d) && forall e :: e in d ==> e.id == x || e.id == y
    ensures Merged(b, d) == b
  {
    assert b[0] in b && b[1] in b;
    PairStable(a, b, d);
  }

  // What a discovery with a repeated id does to ties.
  function Completed(id: string, start: int): Entry { Entry(id, BackupStatus.Completed, start, None, Some(0), Some(0), Some(0)) }

  function Repeating(a: string, b: string): seq<Entry> { [Completed(a, 1), Completed(a, 2), Completed(b, 2)] }


  lemma UpsertedAllTriple(h: seq<Entry>, x: Entry, y: Entry, z: Entry)
    ensures UpsertedAll(h, [x, y, z]) == Upserted(Upserted(Upserted(h, x), y), z)
  {
    var h1 := Upserted(h, x);
    var h2 := Upserted(h1, y);
    assert [x, y, z][1..] == [y, z] && [y, z][1..] == [z] && [z][1..] == [];
    assert UpsertedAll(h, [x, y, z]) == UpsertedAll(h1, [y, z]);
    assert UpsertedAll(h1, [y, z]) == UpsertedAll(h2, [z]);
    assert UpsertedAll(h2, [z]) == UpsertedAll(Upserted(h2, z), []);
  }

  // With a repeated id in the discovery the second merge can reorder ties.
  lemma RepeatedDiscoveryReordersTies(a: string, b: string)
    requires a != b
    ensures Merged(Merged([], Repeating(a, b)), Repeating(a, b)) != Merged([], Repeating(a, b))
  {
    var a1, a2, b2 := Completed(a, 1), Completed(a, 2), Completed(b, 2);
    assert Merged([], Repeating(a, b)) == [a2, b2] by {
      UpsertedAllTriple([], a1, a2, b2);
      assert Placed([], a1) == [a1] && Placed([a1], a2) == [a2] && Placed([a2], b2) == [a2, b2];
      SortPair(a2, b2);
    }
    assert Merged([a2, b2], Repeating(a, b)) == [b2, a2] by {
      UpsertedAllTriple([a2, b2], a1, a2, b2);
      assert Placed([a2, b2], a1) == [a1, b2];
      SortPair(a1, b2);
      assert Placed([b2, a1], a2) == [b2, a2];
      SortPair(b2, a2);
      assert Placed([b2, a2], b2) == [b2, a2];
    }
    assert [a2, b2][0] != [b2, a2][0];
  }

  lemma {:induction false} LexicographicAfter(p: string, a: string, b: string)
    requires Lexicographic(a, b)
    ensures Lexicographic(p + a, p + b)
  {
    if p == [] {
      assert p + a == a && p + b == b;
    } else {
      assert (p + a)[1..] == p[1..] + a && (p + b)[1..] == p[1..] + b;
      LexicographicAfter(p[1..], a, b);
    }
  }

  // Three directories of one CR, the first two with manifests of the same backup.
  ghost function NthKey(owner: string, n: char): string { ManifestKey(owner + "-" + [n]) }

  lemma NthKeysOrdered(owner: string, m: char, n: char)
    requires m < n
    ensures Lexicographic(NthKey(owner, m), NthKey(owner, n)) && NthKey(owner, m) != NthKey(owner, n)
  {
    var a, b := [m] + MANIFEST_SUFFIX, [n] + MANIFEST_SUFFIX;
    assert Lexicographic(a, b);
    LexicographicAfter(owner + "-", a, b);
    assert NthKey(owner, m) == owner + "-" + a && NthKey(owner, n) == owner + "-" + b;
    assert NthKey(owner, m)[|owner| + 1] == m && NthKey(owner, n)[|owner| + 1] == n;
  }

  ghost function RepeatingView(owner: string, a: string, b: string): map<string, Object> {
    map[NthKey(owner, '1') := StoredManifest(a, 1), NthKey(owner, '2') := StoredManifest(a, 2),
        NthKey(owner, '3') := StoredManifest(b, 2)]
  }

  lemma NthEntry(owner: string, n: char, id: string, start: int, now: int)
    requires Segment(owner) && n != '/'
    ensures KeyEntry(NthKey(owner, n), StoredManifest(id, start), {}, owner, now) == Some(Completed(id, start))
  {
    TrimManifestKey(owner + "-" + [n]);
  }

  lemma ThreeInOrder(owner: string, a: string, b: string)
    ensures SortedKeys(RepeatingView(owner, a, b).Keys) == [NthKey(owner, '1'), NthKey(owner, '2'), NthKey(owner, '3')]
  {
    NthKeysOrdered(owner, '1', '2');
    NthKeysOrdered(owner, '2', '3');
    NthKeysOrdered(owner, '1', '3');
    var keys := [NthKey(owner, '1'), NthKey(owner, '2'), NthKey(owner, '3')];
    SortedKeysEnumerates(RepeatingView(owner, a, b).Keys);
    EnumerationUnique(keys, SortedKeys(RepeatingView(owner, a, b).Keys), RepeatingView(owner, a, b).Keys);
  }

  // Storage can hold such a discovery: an id comes from a manifest, not from its directory.
  lemma StorageMayRepeatIds(owner: string, a: string, b: string, now: int)
    requires Segment(owner)
    ensures Discovered(RepeatingView(owner, a, b), {}, owner, now) == Repeating(a, b)
  {
    var view := RepeatingView(owner, a, b);
    NthKeysOrdered(owner, '1', '2');
    NthKeysOrdered(owner, '2', '3');
    NthKeysOrdered(owner, '1', '3');
    NthEntry(owner, '1', a, 1, now);
    NthEntry(owner, '2', a, 2, now);
    NthEntry(owner, '3', b, 2, now);
    ThreeInOrder(owner, a, b);
    DiscoveredTriple(NthKey(owner, '1'), NthKey(owner, '2'), NthKey(owner, '3'), view, owner, now,
                     Completed(a, 1), Completed(a, 2), Completed(b, 2));
  }

  lemma DiscoveredTriple(k1: string, k2: string, k3: string, view: map<string, Object>, owner: string, now: int,
                         x: Entry, y: Entry, z: Entry)
    requires k1 in view && k2 in view && k3 in view
    requires KeyEntry(k1, view[k1], {}, owner, now) == Some(x) && KeyEntry(k2, view[k2], {}, owner, now) == Some(y)
    requires KeyEntry(k3, view[k3], {}, owner, now) == Some(z)
    ensures DiscoveredFrom([k1, k2, k3], view, {}, owner, now) == [x, y, z]
  {
    DiscoveredFromAppend([], k1, view, {}, owner, now);
    DiscoveredFromAppend([k1], k2, view, {}, owner, now);
    DiscoveredFromAppend([k1, k2], k3, view, {}, owner, now);
    assert [] + [k1] == [k1] && [k1] + [k2] == [k1, k2] && [k1, k2] + [k3] == [k1, k2, k3];
  }
}
