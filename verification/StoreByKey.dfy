// What pruning does to the objects as the operator sees them, by key: with a faithful layout
// exactly the ids' directories go, with an empty segment in the prefix nothing does.
module StoreByKey {
  import opened Wrappers
  import opened ObjectKeys
  import opened Layouts
  import opened ObjectStore

  // With a faithful layout every listed key can be read, and keys and paths are in step.
  lemma ViewIsWhole(objects: map<Path, Object>, layout: Layout)
    requires ValidStore(objects, layout) && Faithful(layout)
    ensures View(objects, layout).Keys == Keys(objects, layout)
    ensures forall k :: k in View(objects, layout) ==>
              var p := layout.pathOf(k);
              p in objects && layout.root < p && layout.keyOf(p) == k && View(objects, layout)[k] == objects[p]
  {
    forall k | k in Keys(objects, layout)
      ensures var p := layout.pathOf(k); p in objects && layout.root < p && layout.keyOf(p) == k
    {
      var p :| p in objects && layout.root < p && layout.keyOf(p) == k;
      assert Below(layout, p);
    }
  }

  // The doomed paths are those of the directory's keys.
  lemma DoomedByKey(objects: map<Path, Object>, layout: Layout, id: string, p: Path)
    requires ValidStore(objects, layout) && Faithful(layout) && p in objects && layout.root < p
    ensures p in Doomed(objects, layout, id) <==> KeyUnder(id, layout.keyOf(p))
  {
    assert Below(layout, p);
    if p in Doomed(objects, layout, id) {
      var q :| q in objects && layout.pathOf(Directory(id)) < q && KeyUnder(id, layout.keyOf(q))
               && p == layout.pathOf(layout.keyOf(q));
      assert layout.root <= layout.pathOf(Directory(id));
      assert Below(layout, q);
    }
  }

  lemma PartlyDeletedByKey(before: map<Path, Object>, after: map<Path, Object>, layout: Layout, id: string)
    requires ValidStore(before, layout) && Faithful(layout)
    requires PartlyDeleted(before, after, Doomed(before, layout, id))
    ensures ValidStore(after, layout)
    ensures PartlyPruned(View(before, layout), View(after, layout), {id})
  {
    ViewIsWhole(before, layout);
    ViewIsWhole(after, layout);
    forall k | k in View(after, layout)
      ensures k in View(before, layout) && View(after, layout)[k] == View(before, layout)[k]
    {
      var p := layout.pathOf(k);
      assert p in before && layout.keyOf(p) in Keys(before, layout);
    }
    forall k | k in View(before, layout) && !UnderAny({id}, k) ensures k in View(after, layout) {
      var p := layout.pathOf(k);
      DoomedByKey(before, layout, id, p);
      assert id in {id};
      assert p in after && layout.keyOf(p) in Keys(after, layout);
    }
  }

  lemma DeletedByKey(objects: map<Path, Object>, layout: Layout, id: string)
    requires ValidStore(objects, layout) && Faithful(layout)
    ensures var after := objects - Doomed(objects, layout, id);
            ValidStore(after, layout) && View(after, layout) == Remaining(View(objects, layout), {id})
  {
    var after := objects - Doomed(objects, layout, id);
    PartlyDeletedByKey(objects, after, layout, id);
    ViewIsWhole(objects, layout);
    ViewIsWhole(after, layout);
    forall k | k in View(after, layout) ensures !UnderAny({id}, k) {
      DoomedByKey(objects, layout, id, layout.pathOf(k));
    }
  }

  lemma RemainingTwice(view: map<string, Object>, ids: seq<string>, i: nat)
    requires i < |ids|
    ensures Remaining(Remaining(view, IdSet(ids[..i])), {ids[i]}) == Remaining(view, IdSet(ids[..i + 1]))
    ensures forall after :: PartlyPruned(Remaining(view, IdSet(ids[..i])), after, {ids[i]}) ==>
              PartlyPruned(view, after, IdSet(ids))
  {
  }

  // With a faithful layout pruning leaves exactly the keys outside the ids' directories.
  lemma {:induction false} PrunedByKey(objects: map<Path, Object>, layout: Layout, ids: seq<string>)
    requires ValidStore(objects, layout) && Faithful(layout)
    ensures var after := AfterPruning(objects, layout, ids);
            ValidStore(after, layout) && View(after, layout) == Remaining(View(objects, layout), IdSet(ids))
    decreases |ids|
  {
    if ids != [] {
      var n := |ids| - 1;
      PrunedByKey(objects, layout, ids[..n]);
      DeletedByKey(AfterPruning(objects, layout, ids[..n]), layout, ids[n]);
      RemainingTwice(View(objects, layout), ids, n);
      assert ids[..n + 1] == ids;
    }
  }

  // And pruning cut short has deleted only keys of those directories.
  lemma CutShortByKey(before: map<Path, Object>, after: map<Path, Object>, layout: Layout, ids: seq<string>)
    requires ValidStore(before, layout) && Faithful(layout) && CutShort(before, after, layout, ids)
    ensures PartlyPruned(View(before, layout), View(after, layout), IdSet(ids))
  {
    var i :| 0 <= i < |ids| && CutShortAt(before, after, layout, ids, i);
    PrunedByKey(before, layout, ids[..i]);
    PartlyDeletedByKey(AfterPruning(before, layout, ids[..i]), after, layout, ids[i]);
    RemainingTwice(View(before, layout), ids, i);
  }

  // Below a prefix with an empty segment the keys of a slash-free id are never listed under the
  // id, unless it is the prefix's first segment.
  lemma NoKeyUnder(prefix: string, objects: map<Path, Object>, id: string)
    requires Normalized(Some(prefix)) && !Canonical(prefix) && ValidStore(objects, LayoutOf(Some(prefix)))
    requires '/' !in id && id != Pieces(prefix)[0]
    ensures Doomed(objects, LayoutOf(Some(prefix)), id) == {}
  {
    var layout := LayoutOf(Some(prefix));
    forall p | p in objects && layout.pathOf(Directory(id)) < p ensures !KeyUnder(id, layout.keyOf(p)) {
      assert layout.root <= layout.pathOf(Directory(id));
      KeyIsLocation(prefix, p);
      assert p[0] == layout.root[0];
      if KeyUnder(id, Show(p)) { FirstOfLocation(p, id); }
    }
  }

  // A location starts with a slash-free id's directory only if the id is its first segment.
  lemma FirstOfLocation(p: Path, id: string)
    requires IsPath(p) && p != [] && '/' !in id && KeyUnder(id, Show(p))
    ensures id == p[0]
  {
    var text, n := Show(p), |p[0]|;
    assert TrimSlashEnd(id) == id by {
      if id != "" { assert id[|id| - 1] in id; }
    }
    assert p[0] in p;
    assert text[|id|] == '/' && text[..|id|] == id;
    assert |p| > 1 && text == p[0] + "/" + Show(p[1..]);
    assert text[..n] == p[0] && text[n] == '/';
    assert forall i :: 0 <= i < |id| ==> id[i] == text[i];
    assert forall i :: 0 <= i < n ==> p[0][i] == text[i];
    assert |id| == n;
  }

  // Then a pass that succeeds has deleted none of the objects of the ids it drops.
  lemma {:induction false} EmptySegmentPrunesNothing(prefix: string, objects: map<Path, Object>, ids: seq<string>)
    requires Normalized(Some(prefix)) && !Canonical(prefix) && ValidStore(objects, LayoutOf(Some(prefix)))
    requires forall id :: id in ids ==> '/' !in id && id != Pieces(prefix)[0]
    ensures AfterPruning(objects, LayoutOf(Some(prefix)), ids) == objects
    decreases |ids|
  {
    if ids != [] {
      var n := |ids| - 1;
      EmptySegmentPrunesNothing(prefix, objects, ids[..n]);
      NoKeyUnder(prefix, objects, ids[n]);
      assert ids[n] in ids;
    }
  }
}
