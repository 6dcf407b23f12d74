// The object store that holds backups: listing, discovering manifests and deleting the
// objects of pruned backups, under any failure of a single store call.
module ObjectStore {
  import opened Wrappers
  import opened Sorting
  import opened ObjectKeys
  import opened Layouts
  import opened History

  // A parsed manifest. `createdAt` is None when the stored milliseconds denote no instant.
  datatype Manifest = Manifest(backupId: string, createdAt: Option<int>, topics: seq<seq<seq<nat>>>)

  datatype Object = ManifestFile(manifest: Manifest) | OtherBytes

  datatype StorageError = Unavailable

  // Objects are stored under paths, and every path of the layout can be told apart by key.
  ghost predicate ValidStore(objects: map<Path, Object>, layout: Layout) {
    Sound(layout) && forall p :: p in objects ==> IsPath(p)
  }

  // The keys of the objects below a path.
  ghost function KeysBelow(objects: map<Path, Object>, layout: Layout, root: Path): set<string> {
    set p | p in objects && root < p :: layout.keyOf(p)
  }

  ghost function Keys(objects: map<Path, Object>, layout: Layout): set<string> {
    KeysBelow(objects, layout, layout.root)
  }

  // What the operator can read: the listed keys that lead to an object.
  ghost function View(objects: map<Path, Object>, layout: Layout): map<string, Object> {
    map k | k in Keys(objects, layout) && layout.pathOf(k) in objects :: objects[layout.pathOf(k)]
  }

  // What pruning some ids leaves.
  ghost predicate UnderAny(ids: set<string>, key: string) { exists id :: id in ids && KeyUnder(id, key) }

  ghost function Remaining(view: map<string, Object>, ids: set<string>): map<string, Object> {
    map k | k in view && !UnderAny(ids, k) :: view[k]
  }

  const MANIFEST_SUFFIX := "/manifest.json"

  predicate EndsWith(s: string, suffix: string) { |suffix| <= |s| && s[|s| - |suffix|..] == suffix }

  // `trim_end_matches`: drops the suffix as often as it occurs.
  function TrimManifest(key: string): string {
    if EndsWith(key, MANIFEST_SUFFIX) then TrimManifest(key[..|key| - |MANIFEST_SUFFIX|]) else key
  }

  predicate BelongsTo(id: string, owner: string) { id == owner || owner + "-" <= id }

  function SumPartitions(topics: seq<seq<seq<nat>>>): nat {
    if topics == [] then 0 else |topics[0]| + SumPartitions(topics[1..])
  }

  function Sum(sizes: seq<nat>): nat { if sizes == [] then 0 else sizes[0] + Sum(sizes[1..]) }

  function SumSegments(partitions: seq<seq<nat>>): nat {
    if partitions == [] then 0 else Sum(partitions[0]) + SumSegments(partitions[1..])
  }

  function SumSizes(topics: seq<seq<seq<nat>>>): nat {
    if topics == [] then 0 else SumSegments(topics[0]) + SumSizes(topics[1..])
  }

  function Bounded(n: nat, max: nat): Option<int> { if n <= max then Some(n) else None }

  function ManifestEntry(m: Manifest, now: int): Entry {
    Entry(m.backupId, Completed, m.createdAt.GetOr(now), None,
          Bounded(SumSizes(m.topics), 0x7FFF_FFFF_FFFF_FFFF),
          Bounded(|m.topics|, 0x7FFF_FFFF),
          Bounded(SumPartitions(m.topics), 0x7FFF_FFFF))
  }

  // All partitions of a manifest, and the sizes of all their segments, in one sequence each.
  function AllPartitions(topics: seq<seq<seq<nat>>>): seq<seq<nat>> {
    if topics == [] then [] else topics[0] + AllPartitions(topics[1..])
  }

  function AllSegments(partitions: seq<seq<nat>>): seq<nat> {
    if partitions == [] then [] else partitions[0] + AllSegments(partitions[1..])
  }

  // A sum takes in each of its sizes once.
  lemma SumAdds(n: nat, sizes: seq<nat>)
    ensures Sum([]) == 0 && Sum([n] + sizes) == n + Sum(sizes)
  {
    assert ([n] + sizes)[1..] == sizes;
  }

  lemma {:induction false} SumAppend(a: seq<nat>, b: seq<nat>)
    ensures Sum(a + b) == Sum(a) + Sum(b)
  {
    if a == [] {
      assert a + b == b;
    } else {
      assert (a + b)[1..] == a[1..] + b;
      SumAppend(a[1..], b);
    }
  }

  lemma {:induction false} SegmentsFlatten(partitions: seq<seq<nat>>)
    ensures SumSegments(partitions) == Sum(AllSegments(partitions))
  {
    if partitions != [] {
      SegmentsFlatten(partitions[1..]);
      SumAppend(partitions[0], AllSegments(partitions[1..]));
    }
  }

  lemma {:induction false} SumSegmentsAppend(a: seq<seq<nat>>, b: seq<seq<nat>>)
    ensures SumSegments(a + b) == SumSegments(a) + SumSegments(b)
  {
    if a == [] {
      assert a + b == b;
    } else {
      assert (a + b)[1..] == a[1..] + b;
      SumSegmentsAppend(a[1..], b);
    }
  }

  lemma {:induction false} TopicsFlatten(topics: seq<seq<seq<nat>>>)
    ensures SumPartitions(topics) == |AllPartitions(topics)|
    ensures SumSizes(topics) == SumSegments(AllPartitions(topics))
  {
    if topics != [] {
      TopicsFlatten(topics[1..]);
      SumSegmentsAppend(topics[0], AllPartitions(topics[1..]));
    }
  }

  function Within(n: nat, bits: nat): Option<int> { if n < Power2(bits) then Some(n) else None }

  function Power2(n: nat): nat { if n == 0 then 1 else 2 * Power2(n - 1) }

  // The figures of a discovered entry: the topics, the partitions and the segment sizes of the
  // manifest counted and added up, each left out if it does not fit its signed field.
  lemma EntryFigures(m: Manifest, now: int)
    ensures var e := ManifestEntry(m, now);
            && e.id == m.backupId && e.status == Completed && e.completionTime == None
            && e.startTime == (if m.createdAt.Some? then m.createdAt.value else now)
            && e.topics == Within(|m.topics|, 31)
            && e.partitions == Within(|AllPartitions(m.topics)|, 31)
            && e.sizeBytes == Within(Sum(AllSegments(AllPartitions(m.topics))), 63)
  {
    TopicsFlatten(m.topics);
    SegmentsFlatten(AllPartitions(m.topics));
    FieldWidths();
  }

  lemma FieldWidths()
    ensures Power2(31) == 0x8000_0000 && Power2(63) == 0x8000_0000_0000_0000
  {
    PowerAdds(15, 16);
    PowerAdds(31, 32);
    PowerAdds(16, 16);
    assert Power2(15) == 0x8000 && Power2(16) == 0x1_0000;
  }

  lemma {:induction false} PowerAdds(a: nat, b: nat)
    ensures Power2(a + b) == Power2(a) * Power2(b)
  {
    if a > 0 {
      PowerAdds(a - 1, b);
      DoubleProduct(Power2(a - 1), Power2(b));
    }
  }

  lemma DoubleProduct(x: nat, y: nat)
    ensures 2 * (x * y) == (2 * x) * y
  {
  }

  // The entry a key contributes: a readable manifest in a directory owned by the CR.
  function KeyEntry(key: string, stored: Object, unreadable: set<string>, owner: string, now: int): Option<Entry> {
    if EndsWith(key, MANIFEST_SUFFIX) && BelongsTo(TrimManifest(key), owner)
       && key !in unreadable && stored.ManifestFile?
    then Some(ManifestEntry(stored.manifest, now))
    else None
  }

  function Suffixes(n: nat): string { if n == 0 then "" else Suffixes(n - 1) + MANIFEST_SUFFIX }

  // The key is the manifest of a directory: the suffix once or more often, and before it a
  // directory that does not end in it again.
  ghost predicate ManifestIn(key: string, directory: string) {
    && (exists n: nat :: n > 0 && key == directory + Suffixes(n))
    && forall d: string :: directory != d + "/manifest.json"
  }

  lemma EndsIff(s: string, suffix: string)
    ensures EndsWith(s, suffix) <==> exists d: string :: s == d + suffix
  {
    if EndsWith(s, suffix) { assert s == s[..|s| - |suffix|] + suffix; }
  }

  lemma Associate(a: string, b: string, c: string)
    ensures (a + b) + c == a + (b + c)
  {
  }

  lemma {:induction false} TrimmedDirectory(key: string) returns (n: nat)
    ensures key == TrimManifest(key) + Suffixes(n) && (n > 0 <==> EndsWith(key, MANIFEST_SUFFIX))
    ensures forall d: string :: TrimManifest(key) != d + MANIFEST_SUFFIX
  {
    EndsIff(key, MANIFEST_SUFFIX);
    n := 0;
    if EndsWith(key, MANIFEST_SUFFIX) {
      var rest := key[..|key| - |MANIFEST_SUFFIX|];
      n := TrimmedDirectory(rest);
      Associate(TrimManifest(rest), Suffixes(n), MANIFEST_SUFFIX);
      n := n + 1;
    } else {
      assert key == TrimManifest(key) + Suffixes(0);
    }
  }

  lemma {:induction false} DirectoryIsOne(key: string, directory: string, n: nat)
    requires key == directory + Suffixes(n) && forall d: string :: directory != d + MANIFEST_SUFFIX
    ensures TrimManifest(key) == directory && (n > 0 ==> EndsWith(key, MANIFEST_SUFFIX))
  {
    EndsIff(key, MANIFEST_SUFFIX);
    if n > 0 {
      var rest := directory + Suffixes(n - 1);
      assert key == rest + MANIFEST_SUFFIX;
      assert key[..|key| - |MANIFEST_SUFFIX|] == rest;
      DirectoryIsOne(rest, directory, n - 1);
    }
  }

  // A key contributes its manifest exactly if it is the manifest of a directory named after the
  // CR, or after the CR and a dash, and can be read.
  lemma KeyEntryExact(key: string, stored: Object, unreadable: set<string>, owner: string, now: int)
    ensures var r := KeyEntry(key, stored, unreadable, owner, now);
            && (r.Some? <==>
                  && (exists d: string :: ManifestIn(key, d) && (d == owner || exists rest: string :: d == owner + "-" + rest))
                  && key !in unreadable && stored.ManifestFile?)
            && (r.Some? ==> r.value == ManifestEntry(stored.manifest, now))
  {
    var trimmed := TrimManifest(key);
    var n := TrimmedDirectory(key);
    forall d | ManifestIn(key, d) ensures d == trimmed && n > 0 {
      var m: nat :| m > 0 && key == d + Suffixes(m);
      DirectoryIsOne(key, d, m);
    }
    if n > 0 { assert ManifestIn(key, trimmed); }
    BelongsIff(trimmed, owner);
  }

  lemma BelongsIff(id: string, owner: string)
    ensures BelongsTo(id, owner) <==> id == owner || exists rest: string :: id == owner + "-" + rest
  {
    if owner + "-" <= id { assert id == owner + "-" + id[|owner| + 1..]; }
  }

  ghost function DiscoveredFrom(keys: seq<string>, view: map<string, Object>, unreadable: set<string>,
                                owner: string, now: int): seq<Entry>
    requires forall k :: k in keys ==> k in view
  {
    if keys == [] then [] else
      match KeyEntry(keys[0], view[keys[0]], unreadable, owner, now)
      case Some(e) => [e] + DiscoveredFrom(keys[1..], view, unreadable, owner, now)
      case None => DiscoveredFrom(keys[1..], view, unreadable, owner, now)
  }

  ghost function Discovered(view: map<string, Object>, unreadable: set<string>, owner: string, now: int): seq<Entry> {
    DiscoveredFrom(SortedKeys(view.Keys), view, unreadable, owner, now)
  }

  function In(keys: set<string>): string -> bool { (k: string) => k in keys }

  // The listed keys that can be read, and what the manifests among them say.
  ghost function ReadFrom(keys: seq<string>, view: map<string, Object>, unreadable: set<string>,
                          owner: string, now: int): seq<Entry> {
    DiscoveredFrom(Filter(In(view.Keys), keys), view, unreadable, owner, now)
  }

  lemma {:induction false} DiscoveredFromAppend(keys: seq<string>, key: string, view: map<string, Object>,
                                                unreadable: set<string>, owner: string, now: int)
    requires key in view && forall k :: k in keys ==> k in view
    ensures DiscoveredFrom(keys + [key], view, unreadable, owner, now) ==
            DiscoveredFrom(keys, view, unreadable, owner, now)
            + match KeyEntry(key, view[key], unreadable, owner, now) case Some(e) => [e] case None => []
  {
    if keys == [] {
      assert [] + [key] == [key];
    } else {
      DiscoveredFromAppend(keys[1..], key, view, unreadable, owner, now);
      assert (keys + [key])[1..] == keys[1..] + [key];
    }
  }

  // What a listed key yields: nothing if it leads nowhere.
  ghost function Reading(key: string, view: map<string, Object>, unreadable: set<string>, owner: string, now: int): Option<Entry> {
    if key in view then KeyEntry(key, view[key], unreadable, owner, now) else None
  }

  lemma ReadFromSnoc(keys: seq<string>, key: string, view: map<string, Object>, unreadable: set<string>,
                     owner: string, now: int)
    ensures ReadFrom(keys + [key], view, unreadable, owner, now) ==
            ReadFrom(keys, view, unreadable, owner, now)
            + match Reading(key, view, unreadable, owner, now) case Some(e) => [e] case None => []
  {
    FilterSnoc(In(view.Keys), keys, key);
    var readable := Filter(In(view.Keys), keys);
    if key in view {
      DiscoveredFromAppend(readable, key, view, unreadable, owner, now);
    } else {
      assert readable + [] == readable;
    }
  }

  lemma SortedKeysOfFewer(keys: set<string>, fewer: set<string>)
    requires fewer <= keys
    ensures SortedKeys(fewer) == Filter(In(fewer), SortedKeys(keys))
  {
    SortedKeysFilter(keys, In(fewer));
    assert (set k | k in keys && In(fewer)(k)) == fewer;
  }

  // The paths that pruning an id deletes: those its listed keys lead to, if they start with its
  // directory.
  ghost function Targets(layout: Layout, id: string, keys: seq<string>): set<Path> {
    set k | k in keys && KeyUnder(id, k) :: layout.pathOf(k)
  }

  ghost function Doomed(objects: map<Path, Object>, layout: Layout, id: string): set<Path> {
    set p | p in objects && layout.pathOf(Directory(id)) < p && KeyUnder(id, layout.keyOf(p)) ::
      layout.pathOf(layout.keyOf(p))
  }

  // The objects left after the ids were pruned one after the other.
  ghost function AfterPruning(objects: map<Path, Object>, layout: Layout, ids: seq<string>): map<Path, Object>
    decreases |ids|
  {
    if ids == [] then objects
    else
      var before := AfterPruning(objects, layout, ids[..|ids| - 1]);
      before - Doomed(before, layout, ids[|ids| - 1])
  }

  // Some of the doomed objects are gone and no other.
  ghost predicate PartlyDeleted(before: map<Path, Object>, after: map<Path, Object>, doomed: set<Path>) {
    && (forall p :: p in after ==> p in before && after[p] == before[p])
    && (forall p :: p in before && p !in doomed ==> p in after)
  }

  // Pruning got through some ids and partly through the next.
  ghost predicate CutShort(before: map<Path, Object>, after: map<Path, Object>, layout: Layout, ids: seq<string>) {
    exists i :: 0 <= i < |ids| && CutShortAt(before, after, layout, ids, i)
  }

  ghost predicate CutShortAt(before: map<Path, Object>, after: map<Path, Object>, layout: Layout, ids: seq<string>, i: nat)
    requires i < |ids|
  {
    var reached := AfterPruning(before, layout, ids[..i]);
    PartlyDeleted(reached, after, Doomed(reached, layout, ids[i]))
  }

  lemma TargetsSnoc(layout: Layout, id: string, keys: seq<string>, j: nat)
    requires j < |keys|
    ensures Targets(layout, id, keys[..j + 1]) ==
            Targets(layout, id, keys[..j]) + if KeyUnder(id, keys[j]) then {layout.pathOf(keys[j])} else {}
    ensures Targets(layout, id, keys[..j + 1]) <= Targets(layout, id, keys)
  {
  }

  lemma ListedAreDoomed(objects: map<Path, Object>, layout: Layout, id: string, keys: seq<string>)
    requires forall k :: k in keys <==> k in KeysBelow(objects, layout, layout.pathOf(Directory(id)))
    ensures Targets(layout, id, keys) == Doomed(objects, layout, id)
  {
    forall path | path in Doomed(objects, layout, id) ensures path in Targets(layout, id, keys) {
      var p :| p in objects && layout.pathOf(Directory(id)) < p && KeyUnder(id, layout.keyOf(p))
               && path == layout.pathOf(layout.keyOf(p));
      assert layout.keyOf(p) in keys;
    }
  }

  // Everything deleted is below the root.
  lemma DoomedBelow(objects: map<Path, Object>, layout: Layout, id: string)
    requires ValidStore(objects, layout)
    ensures forall p :: p in Doomed(objects, layout, id) ==> layout.root < p
  {
    forall p | p in objects && layout.pathOf(Directory(id)) < p ensures Below(layout, p) {
      assert layout.root <= layout.pathOf(Directory(id));
    }
  }

  class BackupObjectStore {
    var objects: map<Path, Object>
    const layout: Layout
    // Keys whose `get` fails.
    const unreadable: set<string>
    // How many more list and delete calls succeed (None: all), and whether the one that
    // fails takes effect before its response is lost.
    var healthyCalls: Option<nat>
    const lostResponse: bool

    constructor (objects: map<Path, Object>, prefix: Option<string>, unreadable: set<string>,
                 healthyCalls: Option<nat>, lostResponse: bool)
      requires forall p :: p in objects ==> IsPath(p)
      ensures Valid()
      ensures this.objects == objects && this.layout == LayoutOf(NormalizeOptionalPrefix(prefix))
      ensures this.unreadable == unreadable && this.healthyCalls == healthyCalls && this.lostResponse == lostResponse
    {
      this.objects := objects;
      this.layout := LayoutOf(NormalizeOptionalPrefix(prefix));
      this.unreadable := unreadable;
      this.healthyCalls := healthyCalls;
      this.lostResponse := lostResponse;
      new;
      NormalizeIdempotent(prefix);
      EveryPrefixIsSound(NormalizeOptionalPrefix(prefix));
    }

    ghost predicate Valid()
      reads this
    {
      ValidStore(objects, layout)
    }

    method Call() returns (ok: bool)
      modifies this`healthyCalls
      ensures ok <==> old(healthyCalls) != Some(0)
      ensures healthyCalls.None? == old(healthyCalls.None?)
    {
      ok := healthyCalls != Some(0);
      if ok && healthyCalls.Some? {
        healthyCalls := Some(healthyCalls.value - 1);
      }
    }

    method List(arg: string) returns (r: Result<seq<string>, StorageError>)
      requires Valid()
      modifies this`healthyCalls
      ensures Valid()
      ensures healthyCalls.None? == old(healthyCalls.None?)
      ensures old(healthyCalls.None?) ==> r.Ok?
      ensures r.Ok? ==> r.value == SortedKeys(KeysBelow(objects, layout, layout.pathOf(arg)))
    {
      var ok := Call();
      if !ok {
        return Err(Unavailable);
      }
      var root := layout.pathOf(arg);
      var below := set p | p in objects && root < p;
      assert forall p :: p in below ==> Below(layout, p);
      var pending := below;
      var keys: seq<string> := [];
      while pending != {}
        invariant pending <= below
        invariant Distinct(keys)
        invariant forall p :: p in below - pending ==> layout.keyOf(p) in keys
        invariant forall k :: k in keys ==> exists p :: p in below - pending && layout.keyOf(p) == k
      {
        var p :| p in pending;
        assert Below(layout, p) && layout.keyOf(p) !in keys;
        keys := keys + [layout.keyOf(p)];
        pending := pending - {p};
      }
      SortedKeysOf(keys, KeysBelow(objects, layout, root));
      return Ok(Sort(Lexicographic, keys));
    }

    method Get(key: string) returns (r: Option<Object>)
      ensures r == if key in unreadable || layout.pathOf(key) !in objects then None
                   else Some(objects[layout.pathOf(key)])
    {
      var path := layout.pathOf(key);
      if key in unreadable || path !in objects {
        return None;
      }
      return Some(objects[path]);
    }

    // A missing object counts as deleted.
    method Delete(key: string) returns (r: Result<(), StorageError>)
      modifies this`healthyCalls, this`objects
      ensures healthyCalls.None? == old(healthyCalls.None?)
      ensures old(healthyCalls.None?) ==> r.Ok?
      ensures objects == if r.Ok? || lostResponse then old(objects) - {layout.pathOf(key)} else old(objects)
    {
      var ok := Call();
      if ok || lostResponse {
        objects := objects - {layout.pathOf(key)};
      }
      return if ok then Ok(()) else Err(Unavailable);
    }

    method DiscoverBackupHistory(owner: string, now: int) returns (r: Result<seq<Entry>, StorageError>)
      requires Valid()
      modifies this`healthyCalls
      ensures Valid()
      ensures healthyCalls.None? == old(healthyCalls.None?)
      ensures old(healthyCalls.None?) ==> r.Ok?
      ensures r.Ok? ==> r.value == Discovered(View(objects, layout), unreadable, owner, now)
    {
      var listed := List("");
      if listed.Err? {
        return Err(listed.error);
      }
      SortedKeysOfFewer(Keys(objects, layout), View(objects, layout).Keys);
      var history := ReadManifests(listed.value, owner, now);
      return Ok(history);
    }

    method ReadManifests(keys: seq<string>, owner: string, now: int) returns (history: seq<Entry>)
      requires Valid() && forall k :: k in keys ==> k in Keys(objects, layout)
      ensures history == ReadFrom(keys, View(objects, layout), unreadable, owner, now)
    {
      ghost var view := View(objects, layout);
      history := [];
      for i := 0 to |keys|
        invariant history == ReadFrom(keys[..i], view, unreadable, owner, now)
      {
        assert keys[..i + 1] == keys[..i] + [keys[i]];
        ReadFromSnoc(keys[..i], keys[i], view, unreadable, owner, now);
        var found := ReadManifest(keys[i], owner, now);
        if found.Some? {
          history := history + [found.value];
        }
      }
      assert keys[..|keys|] == keys;
    }

    // One round of the discovery loop; unreadable or unparsable manifests are skipped.
    method ReadManifest(key: string, owner: string, now: int) returns (found: Option<Entry>)
      requires Valid() && key in Keys(objects, layout)
      ensures found == Reading(key, View(objects, layout), unreadable, owner, now)
    {
      if !EndsWith(key, MANIFEST_SUFFIX) || !BelongsTo(TrimManifest(key), owner) {
        return None;
      }
      var stored := Get(key);
      if stored.None? || !stored.value.ManifestFile? {
        return None;
      }
      return Some(ManifestEntry(stored.value.manifest, now));
    }

    // Success has deleted exactly what the ids' listed keys lead to; a failure got through some
    // ids and partly through the next.
    method PruneBackupIds(ids: seq<string>) returns (r: Result<seq<string>, StorageError>)
      requires Valid()
      modifies this`healthyCalls, this`objects
      ensures Valid()
      ensures healthyCalls.None? == old(healthyCalls.None?)
      ensures old(healthyCalls.None?) ==> r.Ok?
      ensures OnlyDeletes(old(objects), objects, layout)
      ensures r.Ok? ==> r.value == ids && objects == AfterPruning(old(objects), layout, ids)
      ensures r.Err? ==> CutShort(old(objects), objects, layout, ids)
    {
      var pruned: seq<string> := [];
      for i := 0 to |ids|
        invariant Valid()
        invariant healthyCalls.None? == old(healthyCalls.None?)
        invariant pruned == ids[..i]
        invariant OnlyDeletes(old(objects), objects, layout)
        invariant objects == AfterPruning(old(objects), layout, ids[..i])
      {
        ghost var reached := objects;
        var ok := PruneOne(ids[i]);
        DeletesFurther(old(objects), reached, objects, layout);
        PrunedFurther(old(objects), objects, layout, ids, i);
        if !ok {
          return Err(Unavailable);
        }
        pruned := pruned + [ids[i]];
      }
      assert ids[..|ids|] == ids;
      return Ok(pruned);
    }

    method PruneOne(id: string) returns (ok: bool)
      requires Valid()
      modifies this`healthyCalls, this`objects
      ensures Valid()
      ensures healthyCalls.None? == old(healthyCalls.None?)
      ensures old(healthyCalls.None?) ==> ok
      ensures OnlyDeletes(old(objects), objects, layout)
      ensures ok ==> objects == old(objects) - Doomed(old(objects), layout, id)
      ensures PartlyDeleted(old(objects), objects, Doomed(old(objects), layout, id))
    {
      var listed := List(Directory(id));
      if listed.Err? {
        return false;
      }
      ListedAreDoomed(objects, layout, id, listed.value);
      DoomedBelow(objects, layout, id);
      ok := DeleteUnder(id, listed.value);
    }

    method DeleteUnder(id: string, keys: seq<string>) returns (ok: bool)
      modifies this`healthyCalls, this`objects
      ensures healthyCalls.None? == old(healthyCalls.None?)
      ensures old(healthyCalls.None?) ==> ok
      ensures ok ==> objects == old(objects) - Targets(layout, id, keys)
      ensures PartlyDeleted(old(objects), objects, Targets(layout, id, keys))
    {
      for j := 0 to |keys|
        invariant healthyCalls.None? == old(healthyCalls.None?)
        invariant objects == old(objects) - Targets(layout, id, keys[..j])
      {
        TargetsSnoc(layout, id, keys, j);
        if KeyUnder(id, keys[j]) {
          var deleted := Delete(keys[j]);
          if deleted.Err? {
            return false;
          }
        }
      }
      assert keys[..|keys|] == keys;
      return true;
    }
  }

  ghost function IdSet(ids: seq<string>): set<string> { set id | id in ids }

  // Nothing is written, and nothing outside the store's root is deleted.
  ghost predicate OnlyDeletes(before: map<Path, Object>, after: map<Path, Object>, layout: Layout) {
    && (forall p :: p in before && !(layout.root < p) ==> p in after)
    && (forall p :: p in after ==> p in before && after[p] == before[p])
  }

  lemma DeletesFurther(first: map<Path, Object>, before: map<Path, Object>, after: map<Path, Object>, layout: Layout)
    requires OnlyDeletes(first, before, layout) && OnlyDeletes(before, after, layout)
    ensures OnlyDeletes(first, after, layout)
  {
  }

  lemma PrunedFurther(before: map<Path, Object>, after: map<Path, Object>, layout: Layout, ids: seq<string>, i: nat)
    requires i < |ids|
    requires var reached := AfterPruning(before, layout, ids[..i]);
             PartlyDeleted(reached, after, Doomed(reached, layout, ids[i]))
    ensures CutShort(before, after, layout, ids)
    ensures var reached := AfterPruning(before, layout, ids[..i]);
            AfterPruning(before, layout, ids[..i + 1]) == reached - Doomed(reached, layout, ids[i])
  {
    assert ids[..i + 1][..i] == ids[..i];
    assert CutShortAt(before, after, layout, ids, i);
  }

  // Some, but only, objects of the ids' directories are gone.
  ghost predicate PartlyPruned(before: map<string, Object>, after: map<string, Object>, ids: set<string>) {
    && (forall k :: k in after ==> k in before && after[k] == before[k])
    && (forall k :: k in before && !UnderAny(ids, k) ==> k in after)
  }
}
