// The KafkaRestore status as the operator serialises it: sending a report as a merge patch
// leaves what RestoreProtocol says it does.
module RestoreStatusPatch {
  import opened Wrappers
  import opened MergePatch
  import opened Conditions
  import opened StatusPatch
  import opened RestoreProtocol

  function DetailsField(i: RestoreInfo, k: Field): Option<Doc> {
    match k
    case StartTime => Some(Number(i.startTime))
    case CompletionTime => Some(Number(i.completionTime))
    case StatusName => Some(Text("Completed"))
    case _ => None
  }

  function EncodeDetails(i: RestoreInfo): Doc {
    Object(map k: Field | DetailsField(i, k).Some? :: DetailsField(i, k).value)
  }

  function RestoreField(s: RestoreStatus, k: Field): Option<Doc> {
    match k
    case ConditionList => OfList(EncodeConditions(s.conditions))
    case RestoreDetails => if s.restore.Some? then Some(EncodeDetails(s.restore.value)) else None
    case ObservedGeneration => OfInt(s.observedGeneration)
    case _ => None
  }

  function EncodeRestoreStatus(s: RestoreStatus): map<Field, Doc> {
    map k: Field | RestoreField(s, k).Some? :: RestoreField(s, k).value
  }

  function ReadDetails(d: Doc): Option<RestoreInfo> {
    var f := Fields(d);
    match (NumberAt(f, StartTime), NumberAt(f, CompletionTime), TextAt(f, StatusName))
    case (Some(start), Some(completion), Some(status)) =>
      if status == "Completed" then Some(RestoreInfo(start, completion)) else None
    case _ => None
  }

  function ReadRestoreStatus(doc: map<Field, Doc>): Option<RestoreStatus> {
    match (ReadAll(ReadCondition, ItemsAt(doc, ConditionList)), ReadOptional(ReadDetails, doc, RestoreDetails))
    case (Some(conditions), Some(details)) => Some(RestoreStatus(conditions, details, NumberAt(doc, ObservedGeneration)))
    case _ => None
  }

  lemma DetailsReadBack(i: RestoreInfo)
    ensures ReadDetails(EncodeDetails(i)) == Some(i)
  {
    var f := EncodeDetails(i).fields;
    assert At(f, StartTime) == DetailsField(i, StartTime) && At(f, CompletionTime) == DetailsField(i, CompletionTime);
    assert At(f, StatusName) == DetailsField(i, StatusName);
  }

  // What is serialised is read back as it was.
  lemma RestoreStatusReadsBack(s: RestoreStatus)
    ensures ReadRestoreStatus(EncodeRestoreStatus(s)) == Some(s)
  {
    var doc := EncodeRestoreStatus(s);
    ConditionsReadBack(s.conditions);
    if s.restore.Some? { DetailsReadBack(s.restore.value); }
    assert At(doc, ConditionList) == RestoreField(s, ConditionList) && At(doc, RestoreDetails) == RestoreField(s, RestoreDetails);
    assert At(doc, ObservedGeneration) == RestoreField(s, ObservedGeneration);
    assert ItemsAt(doc, ConditionList) == EncodeConditions(s.conditions);
  }

  // The record each `update_status_*` builds: restore details only on completion, the cached
  // ones on a pause.
  function SentRecord(c: Restore, w: Write, now: int): RestoreStatus {
    RestoreStatus(
      ConditionsOf(w, now),
      match w case CompletedWrite(info) => Some(info) case PausedWrite => c.status.restore case _ => None,
      Some(c.generation))
  }

  lemma DetailsMerge(f: RestoreInfo, g: RestoreInfo)
    ensures Apply(EncodeDetails(f), EncodeDetails(g)) == EncodeDetails(g)
    ensures Apply(Null, EncodeDetails(g)) == EncodeDetails(g)
  {
    var x, y := EncodeDetails(f).fields, EncodeDetails(g).fields;
    forall k: Field ensures At(Sent(x, y), k) == At(y, k) && At(Sent(map[], y), k) == At(y, k) {
      AtSent(x, y, k);
      AtSent(map[], y, k);
      assert At(x, k) == DetailsField(f, k) && At(y, k) == DetailsField(g, k);
    }
    SameFields(Sent(x, y), y);
    SameFields(Sent(map[], y), y);
    assert Apply(Null, Object(y)) == Apply(Object(map[]), Object(y));
  }

  // What the patch leaves on the server is the status the protocol goes on with.
  lemma RestorePatchIsWritten(s: RestoreStatus, c: Restore, w: Write, now: int)
    ensures Sent(EncodeRestoreStatus(s), EncodeRestoreStatus(SentRecord(c, w, now))) == EncodeRestoreStatus(Written(s, c, w, now))
  {
    var f, g, h := EncodeRestoreStatus(s), EncodeRestoreStatus(SentRecord(c, w, now)), EncodeRestoreStatus(Written(s, c, w, now));
    assert ConditionsOf(w, now) != [];
    forall k: Field ensures At(Sent(f, g), k) == At(h, k) {
      AtSent(f, g, k);
      assert At(f, k) == RestoreField(s, k) && At(g, k) == RestoreField(SentRecord(c, w, now), k);
      assert At(h, k) == RestoreField(Written(s, c, w, now), k);
      if k.RestoreDetails? && SentRecord(c, w, now).restore.Some? {
        var sent := SentRecord(c, w, now).restore.value;
        DetailsMerge(s.restore.GetOr(sent), sent);
      }
    }
    SameFields(Sent(f, g), h);
  }
}
