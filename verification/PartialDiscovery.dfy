// What merging yields when some discovered entries are missing, as after a retention pass
// that failed half-way through deleting a backup.
module PartialDiscovery {
  import opened Wrappers
  import opened Sorting
  import opened History

  lemma {:induction false} WithoutWithout(h: seq<Entry>, some: set<string>, more: set<string>)
    requires some <= more
    ensures Without(Without(h, some), more) == Without(h, more)
    ensures Without(Without(h, more), some) == Without(h, more)
  {
    if h != [] {
      WithoutWithout(h[1..], some, more);
      var f, g := Without(h[1..], some), Without(h[1..], more);
      assert ([h[0]] + f)[1..] == f && ([h[0]] + g)[1..] == g;
    }
  }

  lemma PlacedCons(x: Entry, h: seq<Entry>, e: Entry)
    ensures Placed([x] + h, e) == if x.id == e.id then [Fallback(e, x)] + h else [x] + Placed(h, e)
  {
  }

  lemma {:induction false} WithoutPlaced(h: seq<Entry>, e: Entry, ids: set<string>)
    ensures Without(Placed(h, e), ids) ==
            if e.id in ids then Without(h, ids) else Placed(Without(h, ids), e)
  {
    if h == [] {
      FilterCons(Outside(ids), e, []);
      assert Placed(h, e) == [e] == [e] + [];
    } else {
      var x, t := h[0], h[1..];
      assert h == [x] + t;
      FilterCons(Outside(ids), x, t);
      PlacedCons(x, t, e);
      PlacedCons(x, Without(t, ids), e);
      if x.id == e.id {
        FilterCons(Outside(ids), Fallback(e, x), t);
      } else {
        WithoutPlaced(t, e, ids);
        FilterCons(Outside(ids), x, Placed(t, e));
      }
    }
  }

  // Dropping ids commutes with an upsert into a sorted history.
  lemma WithoutUpserted(h: seq<Entry>, e: Entry, ids: set<string>)
    requires Sorted(h)
    ensures Without(Upserted(h, e), ids) ==
            if e.id in ids then Without(h, ids) else Upserted(Without(h, ids), e)
  {
    SortFilter(NewerFirst, Outside(ids), Placed(h, e));
    WithoutPlaced(h, e, ids);
    FilterSorted(NewerFirst, Outside(ids), h);
    SortIdentity(NewerFirst, Without(h, ids));
  }

  lemma {:induction false} WithoutUpsertedAll(h: seq<Entry>, d: seq<Entry>, ids: set<string>)
    requires Sorted(h)
    ensures Without(UpsertedAll(h, d), ids) == UpsertedAll(Without(h, ids), Without(d, ids))
    decreases |d|
  {
    if d != [] {
      SortSorted(NewerFirst, Placed(h, d[0]));
      WithoutUpserted(h, d[0], ids);
      WithoutUpsertedAll(Upserted(h, d[0]), d[1..], ids);
      assert ([d[0]] + Without(d[1..], ids))[1..] == Without(d[1..], ids);
    }
  }

  lemma WithoutMerged(h: seq<Entry>, d: seq<Entry>, ids: set<string>)
    requires Sorted(h)
    ensures Without(Merged(h, d), ids) == Merged(Without(h, ids), Without(d, ids))
  {
    WithoutUpsertedAll(h, d, ids);
    SortFilter(NewerFirst, Outside(ids), UpsertedAll(h, d));
  }

  // Two histories that rank the same ids at the same times.
  ghost predicate SameShape(a: seq<Entry>, b: seq<Entry>) {
    && |a| == |b|
    && forall i :: 0 <= i < |a| ==> a[i].id == b[i].id && a[i].startTime == b[i].startTime
  }

  ghost predicate Holds(h: seq<Entry>, e: Entry)
    requires UniqueIds(h)
  {
    e.id in Ids(h) && AsMap(h)[e.id].startTime == e.startTime
  }

  lemma {:induction false} ShapeInsert(x: Entry, y: Entry, a: seq<Entry>, b: seq<Entry>)
    requires SameShape(a, b) && x.id == y.id && x.startTime == y.startTime
    ensures SameShape(Insert(NewerFirst, x, a), Insert(NewerFirst, y, b))
  {
    if a != [] && !NewerFirst(x, a[0]) { ShapeInsert(x, y, a[1..], b[1..]); }
  }

  lemma {:induction false} ShapeSort(a: seq<Entry>, b: seq<Entry>)
    requires SameShape(a, b)
    ensures SameShape(Sort(NewerFirst, a), Sort(NewerFirst, b))
  {
    if a != [] {
      ShapeSort(a[1..], b[1..]);
      ShapeInsert(a[0], b[0], Sort(NewerFirst, a[1..]), Sort(NewerFirst, b[1..]));
    }
  }

  lemma ShapeUpserted(a: seq<Entry>, b: seq<Entry>, e: Entry)
    requires SameShape(a, b)
    ensures SameShape(Upserted(a, e), Upserted(b, e))
  {
    var i, j := IndexOf(a, e.id), IndexOf(b, e.id);
    assert i == j by {
      if i < |a| { assert b[i].id == e.id; }
      if j < |b| { assert a[j].id == e.id; }
    }
    ShapeSort(Placed(a, e), Placed(b, e));
  }

  lemma ShapePlaced(h: seq<Entry>, e: Entry)
    requires UniqueIds(h) && Holds(h, e)
    ensures SameShape(Placed(h, e), h)
  {
  }

  // Upserting an entry already held at the same time keeps the ranking.
  lemma ShapeHeld(h: seq<Entry>, e: Entry)
    requires UniqueIds(h) && Sorted(h) && Holds(h, e)
    ensures SameShape(Upserted(h, e), h)
  {
    ShapePlaced(h, e);
    SortIdentity(NewerFirst, Placed(h, e));
  }

  lemma {:induction false} ShapeSkipping(a: seq<Entry>, b: seq<Entry>, d: seq<Entry>, skip: set<string>)
    requires SameShape(a, b) && UniqueIds(a) && Sorted(a) && UniqueIds(d)
    requires forall e :: e in d && e.id in skip ==> Holds(a, e)
    ensures SameShape(UpsertedAll(a, d), UpsertedAll(b, Without(d, skip)))
    decreases |d|
  {
    if d != [] {
      var a', d' := Upserted(a, d[0]), d[1..];
      FirstAndRest(d);
      UpsertRefinesMap(a, d[0]);
      assert d[0] in d;
      forall e | e in d' && e.id in skip ensures Holds(a', e) {
        assert e in d && e.id in Ids(d');
      }
      if d[0].id in skip {
        ShapeHeld(a, d[0]);
        ShapeSkipping(a', b, d', skip);
      } else {
        ShapeUpserted(a, b, d[0]);
        ShapeSkipping(a', Upserted(b, d[0]), d', skip);
        assert ([d[0]] + Without(d', skip))[1..] == Without(d', skip);
      }
    }
  }

  // Merging a discovery that lost the entries of some ids: outside the lost ids nothing
  // differs, and outside the ids whose recorded start differs the ranking is the same.
  lemma MergeOfPartialDiscovery(h: seq<Entry>, d: seq<Entry>, lost: set<string>, changed: set<string>)
    requires UniqueIds(h) && Sorted(h) && UniqueIds(d) && changed <= lost
    requires forall e :: e in d && e.id in lost - changed ==> Holds(h, e)
    ensures Without(Merged(h, Without(d, lost)), lost) == Without(Merged(h, d), lost)
    ensures SameShape(Without(Merged(h, d), changed), Without(Merged(h, Without(d, lost)), changed))
  {
    var h', d' := Without(h, changed), Without(d, changed);
    WithoutMerged(h, d, lost);
    WithoutMerged(h, Without(d, lost), lost);
    WithoutWithout(d, lost, lost);

    WithoutMerged(h, d, changed);
    WithoutMerged(h, Without(d, lost), changed);
    WithoutWithout(d, changed, lost);
    FilterSorted(NewerFirst, Outside(changed), h);
    FilteredUnique(h, changed);
    FilteredUnique(d, changed);
    forall e | e in d' && e.id in lost ensures Holds(h', e) {
      assert e in d && Holds(h, e);
      assert AsMap(h)[e.id] in h';
    }
    ShapeSkipping(h', h', d', lost);
    ShapeSort(UpsertedAll(h', d'), UpsertedAll(h', Without(d', lost)));
  }

  lemma FilteredIds(h: seq<Entry>, ids: set<string>)
    ensures Ids(Without(h, ids)) == Ids(h) - ids
  {
  }

  lemma {:induction false} FilteredUnique(h: seq<Entry>, ids: set<string>)
    requires UniqueIds(h)
    ensures UniqueIds(Without(h, ids)) && Ids(Without(h, ids)) == Ids(h) - ids
  {
    FilteredIds(h, ids);
    if h != [] {
      FilteredUnique(h[1..], ids);
      var f := Without(h[1..], ids);
      if h[0].id !in ids {
        forall j | 0 <= j < |f| ensures f[j].id != h[0].id {
          assert f[j] in h[1..];
        }
      }
    }
  }
}
