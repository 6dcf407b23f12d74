// Which backups a retention policy prunes: the loops of the source and the specification
// "keep a prefix of the newest-first order".
module RetentionPolicy {
  import opened Wrappers
  import opened Sorting
  import opened History
  import opened Durations

  newtype int32 = x: int | -0x8000_0000 <= x < 0x8000_0000

  datatype RetentionSpec = RetentionSpec(maxBackups: Option<int32>, maxAge: Option<string>, pruneOnSchedule: bool)

  // `as usize` on a 64-bit target: negative values wrap to huge ones.
  function AsUsize(v: int32): nat {
    if v >= 0 then v as int else 0x1_0000_0000_0000_0000 + v as int
  }

  function Cutoff(spec: RetentionSpec, now: int): Option<int> {
    match spec.maxAge
    case None => None
    case Some(text) =>
      match ParseDuration(text)
      case None => None
      case Some(d) => Some(now - d)
  }

  function NotOlder(cutoff: Option<int>): Entry -> bool {
    (e: Entry) => cutoff.None? || e.startTime >= cutoff.value
  }

  function AddNew(acc: seq<string>, entries: seq<Entry>): seq<string>
    decreases |entries|
  {
    if entries == [] then acc
    else AddNew(if entries[0].id in acc then acc else acc + [entries[0].id], entries[1..])
  }

  function AddOld(acc: seq<string>, entries: seq<Entry>, cutoff: int): seq<string>
    decreases |entries|
  {
    if entries == [] then acc
    else
      var e := entries[0];
      AddOld(if e.startTime < cutoff && e.id !in acc then acc + [e.id] else acc, entries[1..], cutoff)
  }

  function BeyondCount(sorted: seq<Entry>, spec: RetentionSpec): seq<Entry> {
    if spec.maxBackups.Some? && |sorted| > AsUsize(spec.maxBackups.value)
    then sorted[AsUsize(spec.maxBackups.value)..] else []
  }

  function Evaluated(history: seq<Entry>, spec: RetentionSpec, now: int): seq<string> {
    var sorted := Sort(NewerFirst, history);
    var byCount := AddNew([], BeyondCount(sorted, spec));
    match Cutoff(spec, now)
    case None => byCount
    case Some(cutoff) => AddOld(byCount, sorted, cutoff)
  }

  method MarkBeyond(marked: seq<string>, beyond: seq<Entry>) returns (toPrune: seq<string>)
    ensures toPrune == AddNew(marked, beyond)
  {
    toPrune := marked;
    for i := 0 to |beyond|
      invariant AddNew(toPrune, beyond[i..]) == AddNew(marked, beyond)
    {
      if beyond[i].id !in toPrune {
        toPrune := toPrune + [beyond[i].id];
      }
      assert beyond[i..][1..] == beyond[i + 1..];
    }
  }

  method MarkOlder(marked: seq<string>, sorted: seq<Entry>, cutoff: int) returns (toPrune: seq<string>)
    ensures toPrune == AddOld(marked, sorted, cutoff)
  {
    toPrune := marked;
    for i := 0 to |sorted|
      invariant AddOld(toPrune, sorted[i..], cutoff) == AddOld(marked, sorted, cutoff)
    {
      if sorted[i].startTime < cutoff && sorted[i].id !in toPrune {
        toPrune := toPrune + [sorted[i].id];
      }
      assert sorted[i..][1..] == sorted[i + 1..];
    }
  }

  method EvaluateRetention(history: seq<Entry>, spec: RetentionSpec, now: int) returns (toPrune: seq<string>)
    ensures toPrune == Evaluated(history, spec, now)
  {
    toPrune := [];
    if history == [] {
      return;
    }
    var sorted := Sort(NewerFirst, history);
    if spec.maxBackups.Some? {
      var max := AsUsize(spec.maxBackups.value);
      if |sorted| > max {
        toPrune := MarkBeyond(toPrune, sorted[max..]);
      }
    }
    if spec.maxAge.Some? {
      var duration := ParseDuration(spec.maxAge.value);
      if duration.Some? {
        toPrune := MarkOlder(toPrune, sorted, now - duration.value);
      }
    }
  }

  lemma {:induction false} AddNewExact(acc: seq<string>, entries: seq<Entry>)
    requires Distinct(acc)
    ensures Distinct(AddNew(acc, entries))
    ensures forall id :: id in AddNew(acc, entries) <==> id in acc || id in Ids(entries)
    decreases |entries|
  {
    if entries != [] {
      var acc' := if entries[0].id in acc then acc else acc + [entries[0].id];
      AddNewExact(acc', entries[1..]);
      assert entries == [entries[0]] + entries[1..];
      assert Ids(entries) == {entries[0].id} + Ids(entries[1..]) by {
        assert forall e :: e in entries <==> e == entries[0] || e in entries[1..];
      }
    }
  }

  lemma {:induction false} AddOldExact(acc: seq<string>, entries: seq<Entry>, cutoff: int)
    requires Distinct(acc)
    ensures Distinct(AddOld(acc, entries, cutoff))
    ensures forall id :: id in AddOld(acc, entries, cutoff) <==>
              id in acc || exists e :: e in entries && e.startTime < cutoff && e.id == id
    decreases |entries|
  {
    if entries != [] {
      var e := entries[0];
      AddOldExact(if e.startTime < cutoff && e.id !in acc then acc + [e.id] else acc, entries[1..], cutoff);
      assert forall x :: x in entries <==> x == e || x in entries[1..];
    }
  }

  // Without any assumption on ids: no duplicates, and an id is pruned exactly when some
  // entry of that id is beyond the count or older than the cutoff.
  lemma EvaluatedExact(history: seq<Entry>, spec: RetentionSpec, now: int)
    ensures Distinct(Evaluated(history, spec, now))
    ensures forall id :: id in Evaluated(history, spec, now) <==>
              || id in Ids(BeyondCount(Sort(NewerFirst, history), spec))
              || exists e :: e in history && !NotOlder(Cutoff(spec, now))(e) && e.id == id
  {
    var sorted := Sort(NewerFirst, history);
    AddNewExact([], BeyondCount(sorted, spec));
    SortPermutes(NewerFirst, history);
    SameElements(sorted, history);
    if Cutoff(spec, now).Some? {
      AddOldExact(AddNew([], BeyondCount(sorted, spec)), sorted, Cutoff(spec, now).value);
    }
  }

  function CountLimit(n: nat, spec: RetentionSpec): (k: nat)
    ensures k <= n
  {
    if spec.maxBackups.Some? && n > AsUsize(spec.maxBackups.value) then AsUsize(spec.maxBackups.value) else n
  }

  // How many of the newest backups survive.
  function KeepCount(history: seq<Entry>, spec: RetentionSpec, now: int): (k: nat)
    ensures k <= |history|
  {
    var young := |Filter(NotOlder(Cutoff(spec, now)), history)|;
    if young < CountLimit(|history|, spec) then young else CountLimit(|history|, spec)
  }

  lemma {:induction false} YoungPrefix(s: seq<Entry>, cutoff: Option<int>, i: nat)
    requires Sorted(s) && i < |s|
    ensures NotOlder(cutoff)(s[i]) <==> i < |Filter(NotOlder(cutoff), s)|
  {
    if NotOlder(cutoff)(s[0]) {
      assert |Filter(NotOlder(cutoff), s)| == 1 + |Filter(NotOlder(cutoff), s[1..])|;
      if i > 0 { YoungPrefix(s[1..], cutoff, i - 1); }
    } else {
      forall e | e in s ensures !NotOlder(cutoff)(e) {
        var k :| 0 <= k < |s| && s[k] == e;
        assert k > 0 ==> NewerFirst(s[0], s[k]);
      }
      StalePrefix(s, cutoff);
    }
  }

  lemma StalePrefix(s: seq<Entry>, cutoff: Option<int>)
    requires forall e :: e in s ==> !NotOlder(cutoff)(e)
    ensures Filter(NotOlder(cutoff), s) == []
  {
  }

  lemma KeepCountExact(s: seq<Entry>, spec: RetentionSpec, now: int, k: nat)
    requires Sorted(s)
    ensures k == KeepCount(s, spec, now) <==>
            && k <= CountLimit(|s|, spec)
            && (forall i :: 0 <= i < k ==> NotOlder(Cutoff(spec, now))(s[i]))
            && (k < CountLimit(|s|, spec) ==> !NotOlder(Cutoff(spec, now))(s[k]))
  {
    var young := NotOlder(Cutoff(spec, now));
    forall i: nat | i < |s| ensures young(s[i]) <==> i < |Filter(young, s)| {
      YoungPrefix(s, Cutoff(spec, now), i);
    }
    if 0 < k <= |s| { assert young(s[k - 1]) <==> k - 1 < |Filter(young, s)|; }
  }

  function MaxAge(spec: RetentionSpec): Option<int> { if spec.maxAge.Some? then ParseDuration(spec.maxAge.value) else None }

  predicate Limits(spec: RetentionSpec, k: nat) { spec.maxBackups.Some? && spec.maxBackups.value as int == k }

  // On the fields, for entries whose starts never increase: at most maxBackups are kept, unless it
  // is negative; none of them started more than maxAge ago, if that is a duration; and the next
  // one is beyond the former or started longer ago than the latter.
  lemma KeepCountOnFields(s: seq<Entry>, spec: RetentionSpec, now: int, k: nat)
    requires |s| <= I64_MAX && forall i, j :: 0 <= i < j < |s| ==> s[i].startTime >= s[j].startTime
    ensures k == KeepCount(s, spec, now) <==>
            && k <= |s|
            && (spec.maxBackups.Some? && spec.maxBackups.value as int >= 0 ==> k <= spec.maxBackups.value as int)
            && (MaxAge(spec).Some? ==> forall i :: 0 <= i < k ==> now - s[i].startTime <= MaxAge(spec).value)
            && (k < |s| && !Limits(spec, k) ==> MaxAge(spec).Some? && now - s[k].startTime > MaxAge(spec).value)
  {
    KeepCountExact(s, spec, now, k);
  }

  lemma SuffixIds(s: seq<Entry>, k: nat, i: nat)
    requires UniqueIds(s) && k <= |s| && i < |s|
    ensures s[i].id in Ids(s[k..]) <==> i >= k
  {
  }

  // With unique ids the policy keeps exactly the first KeepCount entries of the stable
  // newest-first order and prunes every other one, once.
  lemma KeepsNewestPrefix(history: seq<Entry>, spec: RetentionSpec, now: int)
    requires UniqueIds(history)
    ensures var sorted := Sort(NewerFirst, history);
            var k := KeepCount(sorted, spec, now);
            && Distinct(Evaluated(history, spec, now))
            && (forall id :: id in Evaluated(history, spec, now) <==> id in Ids(sorted[k..]))
            && (forall i :: 0 <= i < |sorted| ==> (sorted[i].id in Evaluated(history, spec, now) <==> i >= k))
  {
    var sorted := Sort(NewerFirst, history);
    var k := KeepCount(sorted, spec, now);
    NewerFirstPreorder();
    SortSorted(NewerFirst, history);
    SortPermutes(NewerFirst, history);
    PermutedUnique(history, sorted);
    EvaluatedExact(history, spec, now);
    forall i: nat | i < |sorted|
      ensures sorted[i].id in Evaluated(history, spec, now) <==> i >= k
      ensures sorted[i].id in Ids(sorted[k..]) <==> i >= k
    {
      PrunedAt(history, spec, now, i);
      SuffixIds(sorted, k, i);
    }
    forall id ensures id in Evaluated(history, spec, now) <==> id in Ids(sorted[k..]) {
      if id in Evaluated(history, spec, now) {
        PrunedIsHeld(history, spec, now, id);
      }
      if id in Ids(sorted[k..]) {
        var e :| e in sorted[k..] && e.id == id;
        assert e in sorted;
      }
    }
  }

  // What an entry's place in the sorted history says about both criteria.
  lemma SortedHistory(history: seq<Entry>)
    requires UniqueIds(history)
    ensures var sorted := Sort(NewerFirst, history);
            Sorted(sorted) && UniqueIds(sorted) && forall e :: e in sorted <==> e in history
  {
    var sorted := Sort(NewerFirst, history);
    NewerFirstPreorder();
    SortSorted(NewerFirst, history);
    SortPermutes(NewerFirst, history);
    PermutedUnique(history, sorted);
    SameElements(sorted, history);
  }

  lemma PrunedAt(history: seq<Entry>, spec: RetentionSpec, now: int, i: nat)
    requires UniqueIds(history) && i < |history|
    ensures var sorted := Sort(NewerFirst, history);
            sorted[i].id in Evaluated(history, spec, now) <==> i >= KeepCount(sorted, spec, now)
  {
    var sorted, cutoff := Sort(NewerFirst, history), Cutoff(spec, now);
    var x, limit := sorted[i], CountLimit(|history|, spec);
    SortedHistory(history);
    EvaluatedExact(history, spec, now);
    assert BeyondCount(sorted, spec) == sorted[limit..];
    SuffixIds(sorted, limit, i);
    YoungPrefix(sorted, cutoff, i);
    assert x in sorted;
    OldById(history, x, cutoff);
  }

  lemma OldById(history: seq<Entry>, x: Entry, cutoff: Option<int>)
    requires UniqueIds(history) && x in history
    ensures (exists e :: e in history && !NotOlder(cutoff)(e) && e.id == x.id) <==> !NotOlder(cutoff)(x)
  {
  }

  lemma PrunedIsHeld(history: seq<Entry>, spec: RetentionSpec, now: int, id: string)
    requires id in Evaluated(history, spec, now)
    ensures var sorted := Sort(NewerFirst, history);
            exists i :: 0 <= i < |sorted| && sorted[i].id == id
  {
    var sorted := Sort(NewerFirst, history);
    EvaluatedExact(history, spec, now);
    SortPermutes(NewerFirst, history);
    SameElements(sorted, history);
    if id in Ids(BeyondCount(sorted, spec)) {
      var e :| e in BeyondCount(sorted, spec) && e.id == id;
      assert e in sorted;
    } else {
      var e :| e in history && e.id == id;
      assert e in sorted;
    }
  }

  // A negative maxBackups imposes no count limit: a vector never has 2^63 entries.
  lemma NegativeMaxBackupsIsNoLimit(history: seq<Entry>, spec: RetentionSpec, now: int)
    requires spec.maxBackups.Some? && spec.maxBackups.value < 0 && |history| <= I64_MAX
    ensures Evaluated(history, spec, now) == Evaluated(history, spec.(maxBackups := None), now)
  {
  }
}
