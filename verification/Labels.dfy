// The labels put on Jobs and the selector that finds them again.
module Labels {
  import opened Wrappers

  datatype JobType = BackupJob | RestoreJob

  const TYPE_KEY := "kafkabackup.com/type"

  function TypeName(t: JobType): string { if t.BackupJob? then "backup" else "restore" }

  function OwnerKey(t: JobType): string { "kafkabackup.com/" + TypeName(t) }

  function StandardLabels(owner: string, cluster: string, t: JobType): map<string, string> {
    map["app.kubernetes.io/name" := "kafka-backup-operator"]
      ["app.kubernetes.io/instance" := owner]
      ["app.kubernetes.io/part-of" := "kafka-backup"]
      ["app.kubernetes.io/managed-by" := "kafka-backup-operator"]
      ["strimzi.io/cluster" := cluster]
      [TYPE_KEY := TypeName(t)]
      [OwnerKey(t) := owner]
  }

  // The labels of a built Job: template labels win over the standard ones.
  function JobLabels(owner: string, cluster: string, t: JobType, template: map<string, string>): map<string, string> {
    StandardLabels(owner, cluster, t) + template
  }

  method BuildJobLabels(owner: string, cluster: string, t: JobType, template: map<string, string>)
    returns (labels: map<string, string>)
    ensures labels == JobLabels(owner, cluster, t, template)
  {
    labels := map[];
    labels := labels["app.kubernetes.io/name" := "kafka-backup-operator"];
    labels := labels["app.kubernetes.io/instance" := owner];
    labels := labels["app.kubernetes.io/part-of" := "kafka-backup"];
    labels := labels["app.kubernetes.io/managed-by" := "kafka-backup-operator"];
    labels := labels["strimzi.io/cluster" := cluster];
    labels := labels[TYPE_KEY := TypeName(t)];
    labels := labels[OwnerKey(t) := owner];
    labels := labels + template;
  }

  // The selector `kafkabackup.com/{type}={owner},kafkabackup.com/type={type}`.
  predicate Matches(labels: map<string, string>, owner: string, t: JobType) {
    && OwnerKey(t) in labels && labels[OwnerKey(t)] == owner
    && TYPE_KEY in labels && labels[TYPE_KEY] == TypeName(t)
  }

  function LabelAt(labels: map<string, string>, key: string): Option<string> { if key in labels then Some(labels[key]) else None }

  // The selectors as they are sent.
  lemma SelectorOnFields(labels: map<string, string>, owner: string)
    ensures Matches(labels, owner, BackupJob) <==>
            LabelAt(labels, "kafkabackup.com/backup") == Some(owner) && LabelAt(labels, "kafkabackup.com/type") == Some("backup")
    ensures Matches(labels, owner, RestoreJob) <==>
            LabelAt(labels, "kafkabackup.com/restore") == Some(owner) && LabelAt(labels, "kafkabackup.com/type") == Some("restore")
  {
    OwnerKeys();
  }

  lemma OwnerKeys()
    ensures OwnerKey(BackupJob) == "kafkabackup.com/backup" && OwnerKey(RestoreJob) == "kafkabackup.com/restore"
    ensures "kafkabackup.com/backup" != "kafkabackup.com/restore"
  {
    assert "kafkabackup.com/backup"[16] == 'b';
  }

  // Each label of a built Job; it has no others.
  lemma LabelsOnFields(owner: string, cluster: string, t: JobType, template: map<string, string>, key: string)
    ensures LabelAt(JobLabels(owner, cluster, t, template), key) ==
            if key in template then Some(template[key])
            else if key == "app.kubernetes.io/name" || key == "app.kubernetes.io/managed-by" then Some("kafka-backup-operator")
            else if key == "app.kubernetes.io/part-of" then Some("kafka-backup")
            else if key == "app.kubernetes.io/instance" then Some(owner)
            else if key == "strimzi.io/cluster" then Some(cluster)
            else if key == "kafkabackup.com/type" then Some(if t.BackupJob? then "backup" else "restore")
            else if key == "kafkabackup.com/backup" && t.BackupJob? then Some(owner)
            else if key == "kafkabackup.com/restore" && t.RestoreJob? then Some(owner)
            else None
  {
    OwnerKeys();
  }

  // The template leaves both selector keys alone or gives them the values they have.
  predicate KeepsSelector(template: map<string, string>, owner: string, t: JobType) {
    && (OwnerKey(t) in template ==> template[OwnerKey(t)] == owner)
    && (TYPE_KEY in template ==> template[TYPE_KEY] == TypeName(t))
  }

  // A built Job is found by the selector of its own CR exactly when its template keeps the
  // two selector keys.
  lemma BuiltJobMatchesIff(owner: string, cluster: string, t: JobType, template: map<string, string>)
    ensures Matches(JobLabels(owner, cluster, t, template), owner, t) <==> KeepsSelector(template, owner, t)
  {
  }

  // What a label of a built Job is: the template's, or else the builder's.
  function LabelOr(template: map<string, string>, key: string, standard: Option<string>): Option<string> {
    if key in template then Some(template[key]) else standard
  }

  // Any selector, of any CR and type, finds a built Job exactly when the template gives the two
  // selector keys those values, or leaves them to a builder of that CR and type.
  lemma BuiltJobMatchesOtherIff(owner: string, cluster: string, t: JobType, template: map<string, string>,
                                other: string, u: JobType)
    ensures Matches(JobLabels(owner, cluster, t, template), other, u) <==>
            && LabelOr(template, OwnerKey(u), if u == t then Some(owner) else None) == Some(other)
            && LabelOr(template, TYPE_KEY, Some(TypeName(t))) == Some(TypeName(u))
  {
    OwnerKeyIsItsOwn(owner, cluster, t, u);
  }

  lemma OwnerKeyIsItsOwn(owner: string, cluster: string, t: JobType, u: JobType)
    ensures OwnerKey(u) in StandardLabels(owner, cluster, t) <==> u == t
    ensures OwnerKey(t) in StandardLabels(owner, cluster, t) && StandardLabels(owner, cluster, t)[OwnerKey(t)] == owner
    ensures TYPE_KEY in StandardLabels(owner, cluster, t) && StandardLabels(owner, cluster, t)[TYPE_KEY] == TypeName(t)
  {
    assert OwnerKey(BackupJob)[|"kafkabackup.com/"|] == 'b' && OwnerKey(RestoreJob)[|"kafkabackup.com/"|] == 'r';
    assert TYPE_KEY[|"kafkabackup.com/"|] == 't';
  }

  // So a Job whose template keeps the selector keys is found by its own CR's selector alone.
  lemma BuiltJobMatchesNoOther(owner: string, cluster: string, t: JobType, template: map<string, string>,
                               other: string, u: JobType)
    requires KeepsSelector(template, owner, t)
    requires Matches(JobLabels(owner, cluster, t, template), other, u)
    ensures other == owner && u == t
  {
  }
}
