// The KafkaBackup status as the operator serialises it, and what sending it as a merge patch
// leaves on the server.
module StatusPatch {
  import opened Wrappers
  import opened MergePatch
  import opened Conditions
  import opened History

  // The field names of the statuses and of the records in them.
  datatype Field =
    | ConditionList | LastBackupInfo | BackupHistoryList | RestoreDetails | ObservedGeneration | NextScheduledBackup
    | Kind | StatusName | ReasonText | MessageText | LastTransitionTime
    | Id | StartTime | CompletionTime | SizeBytes | TopicsBackedUp | PartitionsBackedUp
    | OldestTimestamp | NewestTimestamp

  type Doc = Json<Field>

  datatype LastBackup = LastBackup(
    id: string,
    startTime: int,
    completionTime: Option<int>,
    status: BackupStatus,
    sizeBytes: Option<int>,
    topics: Option<int>,
    partitions: Option<int>,
    oldestTimestamp: Option<int>,
    newestTimestamp: Option<int>)

  datatype KafkaBackupStatus = KafkaBackupStatus(
    conditions: seq<Condition>,
    lastBackup: Option<LastBackup>,
    backupHistory: seq<Entry>,
    observedGeneration: Option<int>,
    nextScheduledBackup: Option<string>)

  // `skip_serializing_if`: what an absent value or an empty list leaves is no field at all.
  function OfInt(v: Option<int>): Option<Doc> { if v.Some? then Some(Number(v.value)) else None }

  function OfText(v: Option<string>): Option<Doc> { if v.Some? then Some(Text(v.value)) else None }

  function OfList(v: seq<Doc>): Option<Doc> { if v == [] then None else Some(List(v)) }

  function EncodeBackupStatus(s: BackupStatus): Doc {
    Text(match s case Running => "Running" case Completed => "Completed" case Failed => "Failed")
  }

  // Instants stand for their RFC 3339 text.
  function ConditionField(c: Condition, k: Field): Option<Doc> {
    match k
    case Kind => Some(Text(c.kind))
    case StatusName => Some(Text(c.status))
    case ReasonText => OfText(c.reason)
    case MessageText => OfText(c.message)
    case LastTransitionTime => OfInt(c.lastTransition)
    case _ => None
  }

  function EncodeCondition(c: Condition): Doc {
    Object(map k: Field | ConditionField(c, k).Some? :: ConditionField(c, k).value)
  }

  function EntryField(e: Entry, k: Field): Option<Doc> {
    match k
    case Id => Some(Text(e.id))
    case StatusName => Some(EncodeBackupStatus(e.status))
    case StartTime => Some(Number(e.startTime))
    case CompletionTime => OfInt(e.completionTime)
    case SizeBytes => OfInt(e.sizeBytes)
    case TopicsBackedUp => OfInt(e.topics)
    case PartitionsBackedUp => OfInt(e.partitions)
    case _ => None
  }

  function EncodeEntry(e: Entry): Doc {
    Object(map k: Field | EntryField(e, k).Some? :: EntryField(e, k).value)
  }

  function LastBackupField(b: LastBackup, k: Field): Option<Doc> {
    match k
    case Id => Some(Text(b.id))
    case StatusName => Some(EncodeBackupStatus(b.status))
    case StartTime => Some(Number(b.startTime))
    case CompletionTime => OfInt(b.completionTime)
    case SizeBytes => OfInt(b.sizeBytes)
    case TopicsBackedUp => OfInt(b.topics)
    case PartitionsBackedUp => OfInt(b.partitions)
    case OldestTimestamp => OfInt(b.oldestTimestamp)
    case NewestTimestamp => OfInt(b.newestTimestamp)
    case _ => None
  }

  function EncodeLastBackup(b: LastBackup): Doc {
    Object(map k: Field | LastBackupField(b, k).Some? :: LastBackupField(b, k).value)
  }

  function EncodeConditions(cs: seq<Condition>): (r: seq<Doc>)
    ensures |r| == |cs|
  {
    if cs == [] then [] else [EncodeCondition(cs[0])] + EncodeConditions(cs[1..])
  }

  function EncodeEntries(h: seq<Entry>): (r: seq<Doc>)
    ensures |r| == |h|
  {
    if h == [] then [] else [EncodeEntry(h[0])] + EncodeEntries(h[1..])
  }

  function StatusField(s: KafkaBackupStatus, k: Field): Option<Doc> {
    match k
    case ConditionList => OfList(EncodeConditions(s.conditions))
    case LastBackupInfo => if s.lastBackup.Some? then Some(EncodeLastBackup(s.lastBackup.value)) else None
    case BackupHistoryList => OfList(EncodeEntries(s.backupHistory))
    case ObservedGeneration => OfInt(s.observedGeneration)
    case NextScheduledBackup => OfText(s.nextScheduledBackup)
    case _ => None
  }

  function EncodeStatus(s: KafkaBackupStatus): map<Field, Doc> {
    map k: Field | StatusField(s, k).Some? :: StatusField(s, k).value
  }

  function At(doc: map<Field, Doc>, k: Field): Option<Doc> { if k in doc then Some(doc[k]) else None }

  // The documents that are read back as a status: its serialisation, or the same with an
  // explicitly empty history.
  ghost predicate Represents(doc: map<Field, Doc>, s: KafkaBackupStatus) {
    forall k :: At(doc, k) == StatusField(s, k) || EmptyHistory(doc, s, k)
  }

  ghost predicate EmptyHistory(doc: map<Field, Doc>, s: KafkaBackupStatus, k: Field) {
    k.BackupHistoryList? && s.backupHistory == [] && At(doc, k) == Some(List([]))
  }

  // How a document is read: fields that are not there are absent, and a record without one that
  // it must have is not read at all.
  function NumberAt(doc: map<Field, Doc>, k: Field): Option<int> {
    match At(doc, k) case Some(Number(n)) => Some(n) case _ => None
  }

  function TextAt(doc: map<Field, Doc>, k: Field): Option<string> {
    match At(doc, k) case Some(Text(t)) => Some(t) case _ => None
  }

  function ItemsAt(doc: map<Field, Doc>, k: Field): seq<Doc> {
    match At(doc, k) case Some(List(items)) => items case _ => []
  }

  function ReadCondition(d: Doc): Option<Condition> {
    var f := Fields(d);
    match (TextAt(f, Kind), TextAt(f, StatusName))
    case (Some(kind), Some(status)) =>
      Some(Condition(kind, status, TextAt(f, ReasonText), TextAt(f, MessageText), NumberAt(f, LastTransitionTime)))
    case _ => None
  }

  function ReadBackupStatus(text: string): Option<BackupStatus> {
    if text == "Running" then Some(Running)
    else if text == "Completed" then Some(Completed)
    else if text == "Failed" then Some(Failed)
    else None
  }

  function StatusAt(f: map<Field, Doc>): Option<BackupStatus> {
    if TextAt(f, StatusName).Some? then ReadBackupStatus(TextAt(f, StatusName).value) else None
  }

  function ReadEntry(d: Doc): Option<Entry> {
    var f := Fields(d);
    match (TextAt(f, Id), StatusAt(f), NumberAt(f, StartTime))
    case (Some(id), Some(status), Some(start)) =>
      Some(Entry(id, status, start, NumberAt(f, CompletionTime), NumberAt(f, SizeBytes), NumberAt(f, TopicsBackedUp),
                 NumberAt(f, PartitionsBackedUp)))
    case _ => None
  }

  function ReadLastBackup(d: Doc): Option<LastBackup> {
    var f := Fields(d);
    match (TextAt(f, Id), NumberAt(f, StartTime), StatusAt(f))
    case (Some(id), Some(start), Some(status)) =>
      Some(LastBackup(id, start, NumberAt(f, CompletionTime), status, NumberAt(f, SizeBytes), NumberAt(f, TopicsBackedUp),
                      NumberAt(f, PartitionsBackedUp), NumberAt(f, OldestTimestamp), NumberAt(f, NewestTimestamp)))
    case _ => None
  }

  function ReadAll<T>(read: Doc -> Option<T>, items: seq<Doc>): Option<seq<T>> {
    if items == [] then Some([])
    else match (read(items[0]), ReadAll(read, items[1..]))
      case (Some(first), Some(rest)) => Some([first] + rest)
      case _ => None
  }

  // A record that may be absent, but not unreadable.
  function ReadOptional<T>(read: Doc -> Option<T>, doc: map<Field, Doc>, k: Field): Option<Option<T>> {
    if At(doc, k).None? then Some(None)
    else match read(At(doc, k).value) case Some(v) => Some(Some(v)) case None => None
  }

  function ReadStatus(doc: map<Field, Doc>): Option<KafkaBackupStatus> {
    match (ReadAll(ReadCondition, ItemsAt(doc, ConditionList)), ReadOptional(ReadLastBackup, doc, LastBackupInfo),
           ReadAll(ReadEntry, ItemsAt(doc, BackupHistoryList)))
    case (Some(conditions), Some(last), Some(history)) =>
      Some(KafkaBackupStatus(conditions, last, history, NumberAt(doc, ObservedGeneration), TextAt(doc, NextScheduledBackup)))
    case _ => None
  }

  lemma ConditionAt(c: Condition, k: Field)
    ensures At(EncodeCondition(c).fields, k) == ConditionField(c, k)
  {
  }

  lemma ConditionReadsBack(c: Condition)
    ensures ReadCondition(EncodeCondition(c)) == Some(c)
  {
    ConditionAt(c, Kind);
    ConditionAt(c, StatusName);
    ConditionAt(c, ReasonText);
    ConditionAt(c, MessageText);
    ConditionAt(c, LastTransitionTime);
  }

  lemma EntryAt(e: Entry, k: Field)
    ensures At(EncodeEntry(e).fields, k) == EntryField(e, k)
  {
  }

  lemma EntryFiguresReadBack(e: Entry)
    ensures var f := EncodeEntry(e).fields;
            && NumberAt(f, CompletionTime) == e.completionTime && NumberAt(f, SizeBytes) == e.sizeBytes
            && NumberAt(f, TopicsBackedUp) == e.topics && NumberAt(f, PartitionsBackedUp) == e.partitions
  {
    EntryAt(e, CompletionTime);
    EntryAt(e, SizeBytes);
    EntryAt(e, TopicsBackedUp);
    EntryAt(e, PartitionsBackedUp);
  }

  lemma EntryReadsBack(e: Entry)
    ensures ReadEntry(EncodeEntry(e)) == Some(e)
  {
    EntryFiguresReadBack(e);
    EntryAt(e, Id);
    EntryAt(e, StatusName);
    EntryAt(e, StartTime);
  }

  // What a field of an encoded last backup holds: a scalar.
  lemma LastBackupAt(b: LastBackup, k: Field)
    ensures At(EncodeLastBackup(b).fields, k) == LastBackupField(b, k)
    ensures LastBackupField(b, k).Some? ==> LastBackupField(b, k).value.Number? || LastBackupField(b, k).value.Text?
  {
  }

  lemma FiguresReadBack(b: LastBackup)
    ensures var f := EncodeLastBackup(b).fields;
            && NumberAt(f, SizeBytes) == b.sizeBytes && NumberAt(f, TopicsBackedUp) == b.topics
            && NumberAt(f, PartitionsBackedUp) == b.partitions && NumberAt(f, OldestTimestamp) == b.oldestTimestamp
            && NumberAt(f, NewestTimestamp) == b.newestTimestamp
  {
    LastBackupAt(b, SizeBytes);
    LastBackupAt(b, TopicsBackedUp);
    LastBackupAt(b, PartitionsBackedUp);
    LastBackupAt(b, OldestTimestamp);
    LastBackupAt(b, NewestTimestamp);
  }

  lemma RunReadsBack(b: LastBackup)
    ensures var f := EncodeLastBackup(b).fields;
            && TextAt(f, Id) == Some(b.id) && StatusAt(f) == Some(b.status)
            && NumberAt(f, StartTime) == Some(b.startTime) && NumberAt(f, CompletionTime) == b.completionTime
  {
    LastBackupAt(b, Id);
    LastBackupAt(b, StartTime);
    LastBackupAt(b, StatusName);
    LastBackupAt(b, CompletionTime);
  }

  lemma LastBackupReadsBack(b: LastBackup)
    ensures ReadLastBackup(EncodeLastBackup(b)) == Some(b)
  {
    FiguresReadBack(b);
    RunReadsBack(b);
  }

  lemma {:induction false} ConditionsReadBack(cs: seq<Condition>)
    ensures ReadAll(ReadCondition, EncodeConditions(cs)) == Some(cs)
  {
    if cs != [] {
      ConditionReadsBack(cs[0]);
      ConditionsReadBack(cs[1..]);
      var docs := EncodeConditions(cs);
      assert docs[0] == EncodeCondition(cs[0]) && docs[1..] == EncodeConditions(cs[1..]);
      assert cs == [cs[0]] + cs[1..];
    }
  }

  lemma {:induction false} EntriesReadBack(h: seq<Entry>)
    ensures ReadAll(ReadEntry, EncodeEntries(h)) == Some(h)
  {
    if h != [] {
      EntryReadsBack(h[0]);
      EntriesReadBack(h[1..]);
      var docs := EncodeEntries(h);
      assert docs[0] == EncodeEntry(h[0]) && docs[1..] == EncodeEntries(h[1..]);
      assert h == [h[0]] + h[1..];
    }
  }

  // A document that represents a status is read back as that status, and so as no other.
  lemma StatusReadsBack(doc: map<Field, Doc>, s: KafkaBackupStatus)
    requires Represents(doc, s)
    ensures ReadStatus(doc) == Some(s)
  {
    ConditionsReadBack(s.conditions);
    EntriesReadBack(s.backupHistory);
    if s.lastBackup.Some? { LastBackupReadsBack(s.lastBackup.value); }
    FieldsOf(doc, s);
  }

  lemma FieldsOf(doc: map<Field, Doc>, s: KafkaBackupStatus)
    requires Represents(doc, s)
    ensures ItemsAt(doc, ConditionList) == EncodeConditions(s.conditions)
    ensures ItemsAt(doc, BackupHistoryList) == EncodeEntries(s.backupHistory)
    ensures At(doc, LastBackupInfo) == (if s.lastBackup.Some? then Some(EncodeLastBackup(s.lastBackup.value)) else None)
    ensures NumberAt(doc, ObservedGeneration) == s.observedGeneration && TextAt(doc, NextScheduledBackup) == s.nextScheduledBackup
  {
    assert At(doc, ConditionList) == StatusField(s, ConditionList);
    assert At(doc, LastBackupInfo) == StatusField(s, LastBackupInfo);
    assert At(doc, ObservedGeneration) == StatusField(s, ObservedGeneration);
    assert At(doc, NextScheduledBackup) == StatusField(s, NextScheduledBackup);
    assert At(doc, BackupHistoryList) == StatusField(s, BackupHistoryList) || EmptyHistory(doc, s, BackupHistoryList);
  }

  // What is left of the current status when another is sent as a patch.
  function Newer<T>(current: Option<T>, sent: Option<T>): Option<T> { if sent.Some? then sent else current }

  function PatchedLastBackup(c: LastBackup, w: LastBackup): LastBackup {
    LastBackup(w.id, w.startTime, Newer(c.completionTime, w.completionTime), w.status,
               Newer(c.sizeBytes, w.sizeBytes), Newer(c.topics, w.topics), Newer(c.partitions, w.partitions),
               Newer(c.oldestTimestamp, w.oldestTimestamp), Newer(c.newestTimestamp, w.newestTimestamp))
  }

  function Patched(c: KafkaBackupStatus, w: KafkaBackupStatus): KafkaBackupStatus {
    KafkaBackupStatus(
      if w.conditions != [] then w.conditions else c.conditions,
      if c.lastBackup.Some? && w.lastBackup.Some?
      then Some(PatchedLastBackup(c.lastBackup.value, w.lastBackup.value))
      else Newer(c.lastBackup, w.lastBackup),
      if w.backupHistory != [] then w.backupHistory else c.backupHistory,
      Newer(c.observedGeneration, w.observedGeneration),
      Newer(c.nextScheduledBackup, w.nextScheduledBackup))
  }

  // `patch_status`: the fields on the server after the merge patch.
  function Sent(doc: map<Field, Doc>, fields: map<Field, Doc>): map<Field, Doc> {
    Fields(Apply(Object(doc), Object(fields)))
  }

  // Per field: what a patch of one object by another leaves.
  lemma AtSent(f: map<Field, Doc>, g: map<Field, Doc>, k: Field)
    ensures At(Sent(f, g), k) ==
            if k !in g then At(f, k)
            else if g[k].Null? then None
            else if g[k].Object? then Some(Apply(At(f, k).GetOr(Null), g[k]))
            else At(g, k)
  {
    var r := Apply(Object(f), Object(g)).fields;
    if k in g && !g[k].Null? {
      assert r[k] == Apply(if k in f then f[k] else Null, g[k]);
    }
  }

  lemma SameFields(f: map<Field, Doc>, g: map<Field, Doc>)
    requires forall k :: At(f, k) == At(g, k)
    ensures f == g
  {
    forall k: Field ensures k in f <==> k in g { assert At(f, k) == At(g, k); }
    forall k | k in f ensures f[k] == g[k] { assert At(f, k) == At(g, k); }
  }

  lemma LastBackupMerges(c: LastBackup, w: LastBackup)
    ensures Apply(EncodeLastBackup(c), EncodeLastBackup(w)) == EncodeLastBackup(PatchedLastBackup(c, w))
  {
    var f, g, h := EncodeLastBackup(c).fields, EncodeLastBackup(w).fields, EncodeLastBackup(PatchedLastBackup(c, w)).fields;
    forall k: Field ensures At(Sent(f, g), k) == At(h, k) {
      MergedAt(c, w, k);
    }
    SameFields(Sent(f, g), h);
  }

  lemma MergedAt(c: LastBackup, w: LastBackup, k: Field)
    ensures At(Sent(EncodeLastBackup(c).fields, EncodeLastBackup(w).fields), k) ==
            At(EncodeLastBackup(PatchedLastBackup(c, w)).fields, k)
  {
    AtSent(EncodeLastBackup(c).fields, EncodeLastBackup(w).fields, k);
    LastBackupAt(c, k);
    LastBackupAt(w, k);
    LastBackupAt(PatchedLastBackup(c, w), k);
    assert LastBackupField(PatchedLastBackup(c, w), k) == Newer(LastBackupField(c, k), LastBackupField(w, k));
  }

  lemma LastBackupArrives(w: LastBackup)
    ensures Apply(Null, EncodeLastBackup(w)) == EncodeLastBackup(w)
  {
  }

  // The merge patch acts on the documents exactly as Patched acts on the statuses.
  lemma PatchRefines(doc: map<Field, Doc>, c: KafkaBackupStatus, w: KafkaBackupStatus)
    requires Represents(doc, c)
    ensures Represents(Sent(doc, EncodeStatus(w)), Patched(c, w))
  {
    var g, p := EncodeStatus(w), Patched(c, w);
    var r := Sent(doc, g);
    forall k: Field ensures At(r, k) == StatusField(p, k) || EmptyHistory(r, p, k) {
      AtSent(doc, g, k);
      assert At(g, k) == StatusField(w, k);
      assert At(doc, k) == StatusField(c, k) || EmptyHistory(doc, c, k);
      if k.LastBackupInfo? && w.lastBackup.Some? {
        LastBackupArrives(w.lastBackup.value);
        if c.lastBackup.Some? { LastBackupMerges(c.lastBackup.value, w.lastBackup.value); }
      }
    }
  }

  // No field, at either level, goes from present to absent.
  predicate Kept<T>(c: Option<T>, w: Option<T>) { c.Some? ==> w.Some? }

  predicate FiguresKept(c: LastBackup, w: LastBackup) {
    && Kept(c.completionTime, w.completionTime) && Kept(c.sizeBytes, w.sizeBytes)
    && Kept(c.topics, w.topics) && Kept(c.partitions, w.partitions)
    && Kept(c.oldestTimestamp, w.oldestTimestamp) && Kept(c.newestTimestamp, w.newestTimestamp)
  }

  predicate NoFieldLost(c: KafkaBackupStatus, w: KafkaBackupStatus) {
    && (c.conditions != [] ==> w.conditions != [])
    && (c.backupHistory != [] ==> w.backupHistory != [])
    && Kept(c.lastBackup, w.lastBackup)
    && Kept(c.observedGeneration, w.observedGeneration)
    && Kept(c.nextScheduledBackup, w.nextScheduledBackup)
    && (c.lastBackup.Some? && w.lastBackup.Some? ==> FiguresKept(c.lastBackup.value, w.lastBackup.value))
  }

  // What was sent is what is read back, exactly when no field was lost.
  lemma PatchFaithfulIff(doc: map<Field, Doc>, c: KafkaBackupStatus, w: KafkaBackupStatus)
    requires Represents(doc, c)
    ensures Represents(Sent(doc, EncodeStatus(w)), w) <==> NoFieldLost(c, w)
  {
    PatchRefines(doc, c, w);
    assert Patched(c, w) == w <==> NoFieldLost(c, w);
    if Represents(Sent(doc, EncodeStatus(w)), w) {
      StatusReadsBack(Sent(doc, EncodeStatus(w)), Patched(c, w));
      StatusReadsBack(Sent(doc, EncodeStatus(w)), w);
    }
  }

  // The read-modify-patch writers of the backup reconciler.
  function WithOutcome(s: KafkaBackupStatus, conditions: seq<Condition>, generation: int): KafkaBackupStatus {
    s.(conditions := conditions, observedGeneration := Some(generation))
  }

  function WithSchedule(s: KafkaBackupStatus, condition: Condition, generation: int, next: string): KafkaBackupStatus {
    s.(conditions := [condition], observedGeneration := Some(generation), nextScheduledBackup := Some(next))
  }

  function OfEntry(e: Entry): LastBackup {
    LastBackup(e.id, e.startTime, e.completionTime, Completed, e.sizeBytes, e.topics, e.partitions, None, None)
  }

  function WithCompleted(s: KafkaBackupStatus, condition: Condition, generation: int, e: Entry): KafkaBackupStatus {
    s.(conditions := [condition], lastBackup := Some(OfEntry(e)), observedGeneration := Some(generation),
       backupHistory := Upserted(s.backupHistory, e))
  }

  // Reporting an outcome or a schedule by reading the status, changing it and patching it
  // writes exactly what was meant.
  lemma OutcomeIsFaithful(doc: map<Field, Doc>, s: KafkaBackupStatus, conditions: seq<Condition>, generation: int)
    requires Represents(doc, s) && conditions != []
    ensures Represents(Sent(doc, EncodeStatus(WithOutcome(s, conditions, generation))), WithOutcome(s, conditions, generation))
  {
    PatchFaithfulIff(doc, s, WithOutcome(s, conditions, generation));
  }

  lemma ScheduleIsFaithful(doc: map<Field, Doc>, s: KafkaBackupStatus, condition: Condition, generation: int, next: string)
    requires Represents(doc, s)
    ensures Represents(Sent(doc, EncodeStatus(WithSchedule(s, condition, generation, next))), WithSchedule(s, condition, generation, next))
  {
    PatchFaithfulIff(doc, s, WithSchedule(s, condition, generation, next));
  }

  predicate NoFigures(b: LastBackup) {
    b.sizeBytes.None? && b.topics.None? && b.partitions.None? && b.oldestTimestamp.None? && b.newestTimestamp.None?
  }

  // Recording a completed Job, whose entry carries a completion time and no figures, is
  // faithful exactly when the previous record carries no figures; the new one carries none.
  lemma CompletedFaithfulIff(doc: map<Field, Doc>, s: KafkaBackupStatus, condition: Condition, generation: int, e: Entry)
    requires Represents(doc, s)
    requires e.completionTime.Some? && e.sizeBytes.None? && e.topics.None? && e.partitions.None?
    ensures Represents(Sent(doc, EncodeStatus(WithCompleted(s, condition, generation, e))), WithCompleted(s, condition, generation, e))
            <==> (s.lastBackup.Some? ==> NoFigures(s.lastBackup.value))
    ensures NoFigures(WithCompleted(s, condition, generation, e).lastBackup.value)
  {
    assert |Upserted(s.backupHistory, e)| == |Placed(s.backupHistory, e)| > 0;
    PatchFaithfulIff(doc, s, WithCompleted(s, condition, generation, e));
  }

  // The suspend patch, built by hand, clears the next run and touches neither history nor
  // last backup.
  function SuspendPatch(condition: Condition, generation: int): map<Field, Doc> {
    map[ConditionList := List([EncodeCondition(condition)]), ObservedGeneration := Number(generation), NextScheduledBackup := Null]
  }

  function Suspended(s: KafkaBackupStatus, condition: Condition, generation: int): KafkaBackupStatus {
    s.(conditions := [condition], observedGeneration := Some(generation), nextScheduledBackup := None)
  }

  // Sending the suspended status itself would leave a set next run in place.
  lemma SuspendIsExact(doc: map<Field, Doc>, s: KafkaBackupStatus, condition: Condition, generation: int)
    requires Represents(doc, s)
    ensures Represents(Sent(doc, SuspendPatch(condition, generation)), Suspended(s, condition, generation))
    ensures Represents(Sent(doc, EncodeStatus(Suspended(s, condition, generation))), Suspended(s, condition, generation))
            <==> s.nextScheduledBackup.None?
  {
    var w, g := Suspended(s, condition, generation), SuspendPatch(condition, generation);
    var r := Sent(doc, g);
    assert EncodeConditions([condition]) == [EncodeCondition(condition)];
    forall k: Field ensures At(r, k) == StatusField(w, k) || EmptyHistory(r, w, k) {
      AtSent(doc, g, k);
      assert At(doc, k) == StatusField(s, k) || EmptyHistory(doc, s, k);
    }
    PatchFaithfulIff(doc, s, w);
  }

  // The history patch sets any history, the empty one included.
  lemma HistoryPatchIsExact(doc: map<Field, Doc>, s: KafkaBackupStatus, h: seq<Entry>)
    requires Represents(doc, s)
    ensures Represents(Sent(doc, map[BackupHistoryList := List(EncodeEntries(h))]), s.(backupHistory := h))
  {
    var g, w := map[BackupHistoryList := List(EncodeEntries(h))], s.(backupHistory := h);
    var r := Sent(doc, g);
    forall k: Field ensures At(r, k) == StatusField(w, k) || EmptyHistory(r, w, k) {
      AtSent(doc, g, k);
      assert At(doc, k) == StatusField(s, k) || EmptyHistory(doc, s, k);
    }
  }
}
