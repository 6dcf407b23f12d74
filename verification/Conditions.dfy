// Status conditions: the in-place update of a condition list and the constructors and lookups
// the reconcilers use.
module Conditions {
  import opened Wrappers

  datatype Condition = Condition(
    kind: string,
    status: string,
    reason: Option<string>,
    message: Option<string>,
    lastTransition: Option<int>)

  const READY := "Ready"
  const RESTORE_COMPLETE := "RestoreComplete"
  const ERROR := "Error"
  const RECONCILIATION_PAUSED := "ReconciliationPaused"

  const STATUS_TRUE := "True"
  const STATUS_FALSE := "False"

  const BACKUP_RUNNING := "BackupRunning"
  const BACKUP_COMPLETED := "BackupCompleted"
  const BACKUP_FAILED := "BackupFailed"
  const BACKUP_SCHEDULED := "BackupScheduled"
  const BACKUP_SUSPENDED := "BackupSuspended"
  const RESTORE_RUNNING := "RestoreRunning"
  const RESTORE_COMPLETED := "RestoreCompleted"
  const RESTORE_FAILED := "RestoreFailed"

  function NewCondition(kind: string, status: string, reason: string, message: string, now: int): Condition {
    Condition(kind, status, Some(reason), Some(message), Some(now))
  }

  function Ready(reason: string, message: string, now: int): Condition {
    NewCondition(READY, STATUS_TRUE, reason, message, now)
  }

  function NotReady(reason: string, message: string, now: int): Condition {
    NewCondition(READY, STATUS_FALSE, reason, message, now)
  }

  function ReconciliationPaused(now: int): Condition {
    NewCondition(RECONCILIATION_PAUSED, STATUS_TRUE, RECONCILIATION_PAUSED, "Reconciliation is paused by annotation", now)
  }

  function ErrorConditions(reason: string, message: string, now: int): seq<Condition> {
    [NotReady(reason, message, now), NewCondition(ERROR, STATUS_TRUE, reason, message, now)]
  }

  function FindCondition(cs: seq<Condition>, kind: string): (r: Option<Condition>)
    ensures r.Some? ==> r.value in cs && r.value.kind == kind
    ensures r.None? ==> forall c :: c in cs ==> c.kind != kind
  {
    if cs == [] then None else if cs[0].kind == kind then Some(cs[0]) else FindCondition(cs[1..], kind)
  }

  // What is found is the first condition of the type.
  lemma {:induction false} FindConditionIsFirst(cs: seq<Condition>, kind: string) returns (i: nat)
    ensures i <= |cs| && (i < |cs| ==> cs[i].kind == kind) && forall k :: 0 <= k < i ==> cs[k].kind != kind
    ensures FindCondition(cs, kind) == if i < |cs| then Some(cs[i]) else None
  {
    if cs == [] || cs[0].kind == kind {
      i := 0;
    } else {
      i := FindConditionIsFirst(cs[1..], kind);
      i := i + 1;
    }
  }

  predicate IsConditionTrue(cs: seq<Condition>, kind: string) {
    FindCondition(cs, kind).Some? && FindCondition(cs, kind).value.status == STATUS_TRUE
  }

  predicate HasConditionReason(cs: seq<Condition>, kind: string, reason: string) {
    FindCondition(cs, kind).Some? && FindCondition(cs, kind).value.reason == Some(reason)
  }

  // The update of one condition by a call for its type.
  function Updated(existing: Condition, c: Condition): Condition {
    if existing.status != c.status then c else existing.(reason := c.reason, message := c.message)
  }

  function WithCondition(cs: seq<Condition>, c: Condition): seq<Condition> {
    if cs == [] then [c]
    else if cs[0].kind == c.kind then [Updated(cs[0], c)] + cs[1..]
    else [cs[0]] + WithCondition(cs[1..], c)
  }

  function WithConditions(cs: seq<Condition>, calls: seq<Condition>): seq<Condition>
    decreases |calls|
  {
    if calls == [] then cs else WithCondition(WithConditions(cs, calls[..|calls| - 1]), calls[|calls| - 1])
  }

  class ConditionList {
    var conditions: seq<Condition>

    constructor (initial: seq<Condition>)
      ensures conditions == initial
    {
      conditions := initial;
    }

    method SetCondition(c: Condition)
      modifies this
      ensures conditions == WithCondition(old(conditions), c)
    {
      var i := 0;
      while i < |conditions| && conditions[i].kind != c.kind
        invariant 0 <= i <= |conditions|
        invariant conditions == old(conditions)
        invariant forall k :: 0 <= k < i ==> conditions[k].kind != c.kind
      {
        i := i + 1;
      }
      WithConditionAt(conditions, c, i);
      if i < |conditions| {
        var existing := conditions[i];
        if existing.status != c.status {
          conditions := conditions[i := c];
        } else {
          conditions := conditions[i := existing.(reason := c.reason, message := c.message)];
        }
      } else {
        conditions := conditions + [c];
      }
    }
  }

  // The first condition of the type is updated; without one the condition comes last.
  lemma {:induction false} WithConditionAt(cs: seq<Condition>, c: Condition, i: nat)
    requires i <= |cs| && (i < |cs| ==> cs[i].kind == c.kind) && forall k :: 0 <= k < i ==> cs[k].kind != c.kind
    ensures WithCondition(cs, c) == if i < |cs| then cs[i := Updated(cs[i], c)] else cs + [c]
  {
    if i > 0 {
      WithConditionAt(cs[1..], c, i - 1);
      if i < |cs| {
        assert [cs[0]] + cs[1..][i - 1 := Updated(cs[i], c)] == cs[i := Updated(cs[i], c)];
      } else {
        assert [cs[0]] + (cs[1..] + [c]) == cs + [c];
      }
    }
  }

  ghost predicate DistinctKinds(cs: seq<Condition>) {
    forall i, j :: 0 <= i < j < |cs| ==> cs[i].kind != cs[j].kind
  }

  ghost function Kinds(cs: seq<Condition>): set<string> { set c | c in cs :: c.kind }

  lemma KindsAppend(a: seq<Condition>, b: seq<Condition>)
    ensures Kinds(a + b) == Kinds(a) + Kinds(b)
  {
    assert forall x :: x in a + b <==> x in a || x in b;
  }

  // Lists whose conditions have the same types one by one.
  lemma SameKinds(a: seq<Condition>, b: seq<Condition>)
    requires |a| == |b| && forall i :: 0 <= i < |a| ==> a[i].kind == b[i].kind
    ensures Kinds(a) == Kinds(b) && (DistinctKinds(a) <==> DistinctKinds(b))
  {
    forall k ensures k in Kinds(a) <==> k in Kinds(b) {
      if x :| x in a && x.kind == k {
        var i :| 0 <= i < |a| && a[i] == x;
        assert b[i] in b;
      }
      if x :| x in b && x.kind == k {
        var i :| 0 <= i < |b| && b[i] == x;
        assert a[i] in a;
      }
    }
  }

  lemma KindsUpdated(cs: seq<Condition>, c: Condition, i: nat)
    requires i < |cs| && cs[i].kind == c.kind
    ensures Kinds(cs[i := c]) == Kinds(cs) + {c.kind} && (DistinctKinds(cs) ==> DistinctKinds(cs[i := c]))
  {
    assert cs[i] in cs;
    SameKinds(cs, cs[i := c]);
  }

  lemma KindsPushed(cs: seq<Condition>, c: Condition)
    requires DistinctKinds(cs) && forall k :: 0 <= k < |cs| ==> cs[k].kind != c.kind
    ensures Kinds(cs + [c]) == Kinds(cs) + {c.kind} && DistinctKinds(cs + [c])
  {
    KindsAppend(cs, [c]);
  }

  // One call adds at most its own type and keeps the types distinct.
  lemma OneCallKinds(cs: seq<Condition>, c: Condition)
    requires DistinctKinds(cs)
    ensures DistinctKinds(WithCondition(cs, c)) && Kinds(WithCondition(cs, c)) == Kinds(cs) + {c.kind}
  {
    var i := FindConditionIsFirst(cs, c.kind);
    WithConditionAt(cs, c, i);
    if i < |cs| { KindsUpdated(cs, Updated(cs[i], c), i); } else { KindsPushed(cs, c); }
  }

  // One call updates the condition of its own type and no other.
  lemma {:induction false} OneCallFind(cs: seq<Condition>, c: Condition, kind: string)
    ensures FindCondition(WithCondition(cs, c), kind) ==
            var before := FindCondition(cs, kind);
            if kind != c.kind then before
            else if before.None? then Some(c) else Some(Updated(before.value, c))
  {
    if cs != [] {
      assert ([cs[0]] + WithCondition(cs[1..], c))[1..] == WithCondition(cs[1..], c);
      assert ([Updated(cs[0], c)] + cs[1..])[1..] == cs[1..];
      OneCallFind(cs[1..], c, kind);
    }
  }

  lemma LastKind(calls: seq<Condition>)
    requires calls != []
    ensures Kinds(calls) == Kinds(calls[..|calls| - 1]) + {calls[|calls| - 1].kind}
  {
    assert calls == calls[..|calls| - 1] + [calls[|calls| - 1]];
    KindsAppend(calls[..|calls| - 1], [calls[|calls| - 1]]);
  }

  lemma {:induction false} TypesStayDistinct(cs: seq<Condition>, calls: seq<Condition>)
    requires DistinctKinds(cs)
    ensures DistinctKinds(WithConditions(cs, calls))
    ensures Kinds(WithConditions(cs, calls)) == Kinds(cs) + Kinds(calls)
    decreases |calls|
  {
    if calls != [] {
      var earlier, last := calls[..|calls| - 1], calls[|calls| - 1];
      TypesStayDistinct(cs, earlier);
      OneCallKinds(WithConditions(cs, earlier), last);
      LastKind(calls);
    }
  }

  // The status a type has before the i-th call.
  ghost function StatusBefore(cs: seq<Condition>, calls: seq<Condition>, i: nat, kind: string): Option<string>
    requires i <= |calls|
  {
    if i == 0 then
      if FindCondition(cs, kind).Some? then Some(FindCondition(cs, kind).value.status) else None
    else if calls[i - 1].kind == kind then Some(calls[i - 1].status)
    else StatusBefore(cs, calls, i - 1, kind)
  }

  // The i-th call introduces its type or changes its status.
  ghost predicate Changes(cs: seq<Condition>, calls: seq<Condition>, i: nat, kind: string)
    requires i < |calls|
  {
    calls[i].kind == kind && StatusBefore(cs, calls, i, kind) != Some(calls[i].status)
  }

  ghost predicate LatestFor(calls: seq<Condition>, i: nat, kind: string) {
    i < |calls| && calls[i].kind == kind && forall j :: i < j < |calls| ==> calls[j].kind != kind
  }

  ghost predicate LatestChange(cs: seq<Condition>, calls: seq<Condition>, i: nat, kind: string) {
    i < |calls| && Changes(cs, calls, i, kind) && forall j :: i < j < |calls| ==> !Changes(cs, calls, j, kind)
  }

  lemma {:induction false} StatusBeforePrefix(cs: seq<Condition>, calls: seq<Condition>, n: nat, i: nat, kind: string)
    requires i <= n <= |calls|
    ensures StatusBefore(cs, calls[..n], i, kind) == StatusBefore(cs, calls, i, kind)
  {
    if i > 0 { StatusBeforePrefix(cs, calls, n, i - 1, kind); }
  }

  lemma {:induction false} CurrentStatus(cs: seq<Condition>, calls: seq<Condition>, kind: string)
    ensures var found := FindCondition(WithConditions(cs, calls), kind);
            StatusBefore(cs, calls, |calls|, kind) == if found.Some? then Some(found.value.status) else None
    decreases |calls|
  {
    if calls != [] {
      var n := |calls| - 1;
      CurrentStatus(cs, calls[..n], kind);
      OneCallFind(WithConditions(cs, calls[..n]), calls[n], kind);
      StatusBeforePrefix(cs, calls, n, n, kind);
    }
  }

  // Over any sequence of calls, status, reason and message are those of the latest call for
  // the type.
  lemma {:induction false} LatestCallWins(cs: seq<Condition>, calls: seq<Condition>, i: nat, kind: string)
    requires LatestFor(calls, i, kind)
    ensures var found := FindCondition(WithConditions(cs, calls), kind);
            && found.Some? && found.value.status == calls[i].status
            && found.value.reason == calls[i].reason && found.value.message == calls[i].message
    decreases |calls|
  {
    var n := |calls| - 1;
    OneCallFind(WithConditions(cs, calls[..n]), calls[n], kind);
    if i < n {
      assert LatestFor(calls[..n], i, kind);
      LatestCallWins(cs, calls[..n], i, kind);
    }
  }

  lemma ChangesPrefix(cs: seq<Condition>, calls: seq<Condition>, n: nat, i: nat, kind: string)
    requires i < n <= |calls|
    ensures Changes(cs, calls[..n], i, kind) <==> Changes(cs, calls, i, kind)
  {
    StatusBeforePrefix(cs, calls, n, i, kind);
  }

  // The last call either changes the status of the type, and sets its time, or keeps it.
  lemma LastCallTime(cs: seq<Condition>, calls: seq<Condition>, kind: string)
    requires calls != []
    ensures var n := |calls| - 1;
            var before := FindCondition(WithConditions(cs, calls[..n]), kind);
            var found := FindCondition(WithConditions(cs, calls), kind);
            if Changes(cs, calls, n, kind)
            then found.Some? && found.value.lastTransition == calls[n].lastTransition
            else found.Some? == before.Some? && (found.Some? ==> found.value.lastTransition == before.value.lastTransition)
  {
    var n := |calls| - 1;
    OneCallFind(WithConditions(cs, calls[..n]), calls[n], kind);
    CurrentStatus(cs, calls[..n], kind);
    StatusBeforePrefix(cs, calls, n, n, kind);
  }

  lemma LatestChangePrefix(cs: seq<Condition>, calls: seq<Condition>, i: nat, kind: string)
    requires LatestChange(cs, calls, i, kind) && i < |calls| - 1
    ensures LatestChange(cs, calls[..|calls| - 1], i, kind)
  {
    var n := |calls| - 1;
    forall j: nat | i <= j < n ensures Changes(cs, calls[..n], j, kind) <==> Changes(cs, calls, j, kind) {
      ChangesPrefix(cs, calls, n, j, kind);
    }
  }

  // The transition time is that of the latest call that introduced the type or changed its
  // status.
  lemma {:induction false} LatestChangeSetsTime(cs: seq<Condition>, calls: seq<Condition>, i: nat, kind: string)
    requires LatestChange(cs, calls, i, kind)
    ensures var found := FindCondition(WithConditions(cs, calls), kind);
            found.Some? && found.value.lastTransition == calls[i].lastTransition
    decreases |calls|
  {
    LastCallTime(cs, calls, kind);
    if i < |calls| - 1 {
      LatestChangePrefix(cs, calls, i, kind);
      LatestChangeSetsTime(cs, calls[..|calls| - 1], i, kind);
    }
  }

  // Without such a call the original time stays.
  lemma {:induction false} NoChangeKeepsTime(cs: seq<Condition>, calls: seq<Condition>, kind: string)
    requires forall i :: 0 <= i < |calls| ==> !Changes(cs, calls, i, kind)
    ensures var found, original := FindCondition(WithConditions(cs, calls), kind), FindCondition(cs, kind);
            && found.Some? == original.Some?
            && (found.Some? ==> found.value.lastTransition == original.value.lastTransition)
    decreases |calls|
  {
    if calls != [] {
      var n := |calls| - 1;
      LastCallTime(cs, calls, kind);
      forall j: nat | j < n ensures !Changes(cs, calls[..n], j, kind) {
        ChangesPrefix(cs, calls, n, j, kind);
      }
      NoChangeKeepsTime(cs, calls[..n], kind);
    }
  }
}
