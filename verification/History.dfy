// The backup history kept in a KafkaBackup's status: a vector of entries, newest first,
// updated in place by upserts. It refines a map from backup id to entry.
module History {
  import opened Wrappers
  import opened Sorting

  datatype BackupStatus = Running | Completed | Failed

  datatype Entry = Entry(
    id: string,
    status: BackupStatus,
    startTime: int,
    completionTime: Option<int>,
    sizeBytes: Option<int>,
    topics: Option<int>,
    partitions: Option<int>)

  // The order of `sort_by_key(Reverse(start_time))`.
  predicate NewerFirst(a: Entry, b: Entry) { a.startTime >= b.startTime }

  ghost predicate Sorted(h: seq<Entry>) { SortedBy(NewerFirst, h) }

  ghost predicate UniqueIds(h: seq<Entry>) {
    forall i, j :: 0 <= i < j < |h| ==> h[i].id != h[j].id
  }

  ghost function Ids(h: seq<Entry>): (r: set<string>) { set e | e in h :: e.id }

  function IndexOf(h: seq<Entry>, id: string): (i: nat)
    ensures i <= |h|
    ensures i < |h| ==> h[i].id == id
    ensures forall j :: 0 <= j < i ==> h[j].id != id
  {
    if h == [] || h[0].id == id then 0 else 1 + IndexOf(h[1..], id)
  }

  ghost function EntryOf(h: seq<Entry>, id: string): (e: Entry)
    requires id in Ids(h)
    ensures e in h && e.id == id
  {
    var e :| e in h && e.id == id;
    e
  }

  ghost function AsMap(h: seq<Entry>): (m: map<string, Entry>)
    requires UniqueIds(h)
    ensures m.Keys == Ids(h)
    ensures forall e :: e in h ==> m[e.id] == e
  {
    map id | id in Ids(h) :: EntryOf(h, id)
  }

  // A new entry without completion time keeps the one already recorded.
  function Fallback(e: Entry, previous: Entry): Entry {
    if e.completionTime.None? then e.(completionTime := previous.completionTime) else e
  }

  function Placed(h: seq<Entry>, e: Entry): seq<Entry> {
    var i := IndexOf(h, e.id);
    if i < |h| then h[i := Fallback(e, h[i])] else h + [e]
  }

  function Upserted(h: seq<Entry>, e: Entry): seq<Entry> { Sort(NewerFirst, Placed(h, e)) }

  function UpsertedAll(h: seq<Entry>, d: seq<Entry>): seq<Entry>
    decreases |d|
  {
    if d == [] then h else UpsertedAll(Upserted(h, d[0]), d[1..])
  }

  function Merged(h: seq<Entry>, d: seq<Entry>): seq<Entry> { Sort(NewerFirst, UpsertedAll(h, d)) }

  // Entries whose id is outside a set.
  function Outside(ids: set<string>): Entry -> bool { (e: Entry) => e.id !in ids }

  function Without(h: seq<Entry>, ids: set<string>): seq<Entry> { Filter(Outside(ids), h) }

  class BackupHistory {
    var entries: seq<Entry>

    constructor (initial: seq<Entry>)
      ensures entries == initial
    {
      entries := initial;
    }

    method Upsert(entry: Entry)
      modifies this
      ensures entries == Upserted(old(entries), entry)
    {
      var i := 0;
      while i < |entries| && entries[i].id != entry.id
        invariant 0 <= i <= |entries|
        invariant entries == old(entries)
        invariant forall j :: 0 <= j < i ==> entries[j].id != entry.id
      {
        i := i + 1;
      }
      assert i == IndexOf(entries, entry.id);
      if i < |entries| {
        var replacement := entry;
        if replacement.completionTime.None? {
          replacement := replacement.(completionTime := entries[i].completionTime);
        }
        entries := entries[i := replacement];
      } else {
        entries := entries + [entry];
      }
      assert entries == Placed(old(entries), entry);
      entries := Sort(NewerFirst, entries);
    }

    method Merge(discovered: seq<Entry>)
      modifies this
      ensures entries == Merged(old(entries), discovered)
    {
      for k := 0 to |discovered|
        invariant UpsertedAll(entries, discovered[k..]) == UpsertedAll(old(entries), discovered)
      {
        Upsert(discovered[k]);
        assert discovered[k..][1..] == discovered[k + 1..];
      }
      entries := Sort(NewerFirst, entries);
    }

    // `retain`: drops the entries of the given ids and keeps the order of the others.
    method Retain(pruned: seq<string>)
      modifies this
      ensures entries == Without(old(entries), set id | id in pruned)
    {
      entries := Filter(Outside(set id | id in pruned), entries);
    }
  }

  lemma NewerFirstPreorder()
    ensures TotalPreorder(NewerFirst)
  {
  }

  lemma {:induction false} PermutedUnique(a: seq<Entry>, b: seq<Entry>)
    requires multiset(a) == multiset(b) && UniqueIds(a)
    ensures UniqueIds(b) && Ids(a) == Ids(b) && AsMap(a) == AsMap(b)
  {
    SameElements(a, b);
    forall i, j | 0 <= i < j < |b| ensures b[i].id != b[j].id {
      if b[i].id == b[j].id {
        assert b[i] in a && b[j] in a;
        assert b[i] == b[j];
        TwoCopies(b, i, j);
        OneCopy(a, b[i]);
      }
    }
  }

  lemma TwoCopies(s: seq<Entry>, i: nat, j: nat)
    requires i < j < |s| && s[i] == s[j]
    ensures multiset(s)[s[i]] >= 2
  {
    assert s == s[..j] + s[j..];
    assert multiset(s) == multiset(s[..j]) + multiset(s[j..]);
    assert s[..j][i] == s[i] && s[j..][0] == s[i];
  }

  lemma {:induction false} OneCopy(s: seq<Entry>, e: Entry)
    requires UniqueIds(s) && e in s
    ensures multiset(s)[e] == 1
  {
    assert s == [s[0]] + s[1..];
    assert multiset(s) == multiset{s[0]} + multiset(s[1..]);
    if e == s[0] {
      assert e !in s[1..];
    } else {
      OneCopy(s[1..], e);
    }
  }

  // One upsert refines one map update, and keeps ids unique and the vector sorted.
  ghost function Override(m: map<string, Entry>, e: Entry): map<string, Entry> {
    m[e.id := if e.id in m then Fallback(e, m[e.id]) else e]
  }

  ghost function OverrideAll(m: map<string, Entry>, d: seq<Entry>): map<string, Entry>
    decreases |d|
  {
    if d == [] then m else OverrideAll(Override(m, d[0]), d[1..])
  }

  lemma PlacedUnique(h: seq<Entry>, e: Entry)
    requires UniqueIds(h)
    ensures UniqueIds(Placed(h, e))
  {
  }

  lemma PlacedElements(h: seq<Entry>, e: Entry)
    requires UniqueIds(h)
    ensures forall x :: x in Placed(h, e) <==> (x in h && x.id != e.id) || x == Override(AsMap(h), e)[e.id]
  {
    var i, p := IndexOf(h, e.id), Placed(h, e);
    var placed := Override(AsMap(h), e)[e.id];
    if i < |h| {
      assert h[i] in h && AsMap(h)[e.id] == h[i] && p[i] == placed;
      forall x ensures x in p <==> (x in h && x.id != e.id) || x == placed {
        if x in p && x != placed {
          var k :| 0 <= k < |p| && p[k] == x;
          assert h[k] == x;
        }
        if x in h && x.id != e.id {
          var k :| 0 <= k < |h| && h[k] == x;
          assert p[k] == x;
        }
        assert p[i] in p;
      }
    } else {
      assert e.id !in Ids(h);
    }
  }

  lemma AsMapIs(h: seq<Entry>, m: map<string, Entry>)
    requires UniqueIds(h) && m.Keys == Ids(h) && forall e :: e in h ==> m[e.id] == e
    ensures AsMap(h) == m
  {
  }

  lemma PlacedRefinesMap(h: seq<Entry>, e: Entry)
    requires UniqueIds(h)
    ensures UniqueIds(Placed(h, e)) && AsMap(Placed(h, e)) == Override(AsMap(h), e)
  {
    var p, m := Placed(h, e), Override(AsMap(h), e);
    PlacedUnique(h, e);
    PlacedElements(h, e);
    forall id ensures id in m.Keys <==> id in Ids(p) {
      if id in m.Keys {
        if id == e.id {
          assert m[id] in p && m[id].id == id;
        } else {
          assert AsMap(h)[id] in p;
        }
      }
    }
    AsMapIs(p, m);
  }

  lemma UpsertRefinesMap(h: seq<Entry>, e: Entry)
    requires UniqueIds(h)
    ensures UniqueIds(Upserted(h, e)) && Sorted(Upserted(h, e))
    ensures AsMap(Upserted(h, e)) == Override(AsMap(h), e)
  {
    PlacedRefinesMap(h, e);
    NewerFirstPreorder();
    SortSorted(NewerFirst, Placed(h, e));
    SortPermutes(NewerFirst, Placed(h, e));
    PermutedUnique(Placed(h, e), Upserted(h, e));
  }

  lemma {:induction false} UpsertedAllRefinesMap(h: seq<Entry>, d: seq<Entry>)
    requires UniqueIds(h)
    ensures UniqueIds(UpsertedAll(h, d)) && AsMap(UpsertedAll(h, d)) == OverrideAll(AsMap(h), d)
    ensures Sorted(h) ==> Sorted(UpsertedAll(h, d))
    decreases |d|
  {
    if d != [] {
      UpsertRefinesMap(h, d[0]);
      UpsertedAllRefinesMap(Upserted(h, d[0]), d[1..]);
    }
  }

  // Merging yields unique ids, newest first, whose map is the old one overridden by the
  // discovered entries in turn.
  lemma MergeRefinesMap(h: seq<Entry>, d: seq<Entry>)
    requires UniqueIds(h)
    ensures UniqueIds(Merged(h, d)) && Sorted(Merged(h, d))
    ensures AsMap(Merged(h, d)) == OverrideAll(AsMap(h), d)
  {
    UpsertedAllRefinesMap(h, d);
    NewerFirstPreorder();
    SortSorted(NewerFirst, UpsertedAll(h, d));
    SortPermutes(NewerFirst, UpsertedAll(h, d));
    PermutedUnique(UpsertedAll(h, d), Merged(h, d));
  }

  // For a discovery without repeated ids the override has a closed form.
  ghost function MergedEntry(m: map<string, Entry>, d: map<string, Entry>, id: string): Entry
    requires id in m || id in d
  {
    if id !in d then m[id] else if id in m then Fallback(d[id], m[id]) else d[id]
  }

  lemma FirstAndRest(d: seq<Entry>)
    requires UniqueIds(d) && d != []
    ensures UniqueIds(d[1..]) && d[0].id !in Ids(d[1..])
    ensures Ids(d) == {d[0].id} + Ids(d[1..])
    ensures AsMap(d) == AsMap(d[1..])[d[0].id := d[0]]
  {
  }

  lemma {:induction false} OverrideAllAt(m: map<string, Entry>, d: seq<Entry>, id: string)
    requires UniqueIds(d)
    ensures id in OverrideAll(m, d) <==> id in m || id in Ids(d)
    ensures id in m || id in Ids(d) ==> OverrideAll(m, d)[id] == MergedEntry(m, AsMap(d), id)
    decreases |d|
  {
    if d != [] {
      FirstAndRest(d);
      OverrideAllAt(Override(m, d[0]), d[1..], id);
      if id in Ids(d[1..]) { assert AsMap(d)[id] == AsMap(d[1..])[id]; }
    }
  }

  lemma OverrideAllClosedForm(m: map<string, Entry>, d: seq<Entry>)
    requires UniqueIds(d)
    ensures OverrideAll(m, d).Keys == m.Keys + Ids(d)
    ensures forall id :: id in m.Keys + Ids(d) ==> OverrideAll(m, d)[id] == MergedEntry(m, AsMap(d), id)
  {
    forall id
      ensures id in OverrideAll(m, d) <==> id in m || id in Ids(d)
      ensures id in m || id in Ids(d) ==> OverrideAll(m, d)[id] == MergedEntry(m, AsMap(d), id)
    {
      OverrideAllAt(m, d, id);
    }
  }

  lemma MergeClosedForm(h: seq<Entry>, d: seq<Entry>)
    requires UniqueIds(h) && UniqueIds(d)
    ensures UniqueIds(Merged(h, d))
    ensures Ids(Merged(h, d)) == Ids(h) + Ids(d)
    ensures forall id :: id in Ids(h) + Ids(d) ==>
              AsMap(Merged(h, d))[id] == MergedEntry(AsMap(h), AsMap(d), id)
  {
    MergeRefinesMap(h, d);
    OverrideAllClosedForm(AsMap(h), d);
  }

  // On the fields: the entry of a discovered id is the discovered one, but for a completion time
  // that only the recorded one has; every other entry is the recorded one.
  lemma MergeOnFields(h: seq<Entry>, d: seq<Entry>, id: string)
    requires UniqueIds(h) && UniqueIds(d) && id in Ids(h) + Ids(d)
    ensures id in Ids(Merged(h, d))
    ensures UniqueIds(Merged(h, d)) && AsMap(Merged(h, d))[id] ==
            if id !in Ids(d) then AsMap(h)[id]
            else
              var e := AsMap(d)[id];
              var completion := if e.completionTime.Some? || id !in Ids(h) then e.completionTime else AsMap(h)[id].completionTime;
              Entry(e.id, e.status, e.startTime, completion, e.sizeBytes, e.topics, e.partitions)
  {
    MergeClosedForm(h, d);
  }

  // Upserting an entry the vector already holds changes nothing.
  lemma UpsertHeld(h: seq<Entry>, e: Entry)
    requires UniqueIds(h) && Sorted(h) && e.id in Ids(h) && AsMap(h)[e.id] == Fallback(e, AsMap(h)[e.id])
    ensures Upserted(h, e) == h
  {
    var x :| x in h && x.id == e.id;
    var k :| 0 <= k < |h| && h[k] == x;
    var i := IndexOf(h, e.id);
    assert i == k;
    assert Placed(h, e) == h;
    SortIdentity(NewerFirst, h);
  }

  lemma {:induction false} UpsertAllHeld(h: seq<Entry>, d: seq<Entry>)
    requires UniqueIds(h) && Sorted(h)
    requires forall e :: e in d ==> e.id in Ids(h) && AsMap(h)[e.id] == Fallback(e, AsMap(h)[e.id])
    ensures Merged(h, d) == h
    decreases |d|
  {
    if d == [] {
      SortIdentity(NewerFirst, h);
    } else {
      UpsertHeld(h, d[0]);
      UpsertAllHeld(h, d[1..]);
    }
  }

  // Merging the same duplicate-free discovery again changes nothing, not even tie order.
  lemma MergeIdempotent(h: seq<Entry>, d: seq<Entry>)
    requires UniqueIds(h) && UniqueIds(d)
    ensures Merged(Merged(h, d), d) == Merged(h, d)
  {
    MergeRefinesMap(h, d);
    MergeClosedForm(h, d);
    forall e | e in d
      ensures e.id in Ids(Merged(h, d)) && AsMap(Merged(h, d))[e.id] == Fallback(e, AsMap(Merged(h, d))[e.id])
    {
      assert AsMap(d)[e.id] == e;
    }
    UpsertAllHeld(Merged(h, d), d);
  }

  lemma SortPair(p: Entry, q: Entry)
    ensures Sort(NewerFirst, [p, q]) == if p.startTime >= q.startTime then [p, q] else [q, p]
  {
    assert [p, q][0] == p && [p, q][1..] == [q] && [q][0] == q && [q][1..] == [];
    assert Sort(NewerFirst, []) == [];
    assert Insert(NewerFirst, q, []) == [q];
    assert Sort(NewerFirst, [q]) == Insert(NewerFirst, q, Sort(NewerFirst, [])) == [q];
    assert Sort(NewerFirst, [p, q]) == Insert(NewerFirst, p, Sort(NewerFirst, [q]));
    assert NewerFirst(p, q) <==> p.startTime >= q.startTime;
    if p.startTime >= q.startTime {
      assert Insert(NewerFirst, p, [q]) == [p] + [q];
    } else {
      assert Insert(NewerFirst, p, []) == [p];
      assert Insert(NewerFirst, p, [q]) == [q] + Insert(NewerFirst, p, []);
    }
  }
}
