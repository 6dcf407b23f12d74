// Where the variables and files of a pod come from: exactly the secrets and keys the CR names.
module PodSecrets {
  import opened Wrappers
  import opened PodConfig

  // The section of the configured backend.
  function S3Of(s: Storage): Option<S3Storage> { if s.storageType.S3? then s.s3 else None }

  function AzureOf(s: Storage): Option<AzureStorage> { if s.storageType.Azure? then s.azure else None }

  function GcsOf(s: Storage): Option<GcsStorage> { if s.storageType.Gcs? then s.gcs else None }

  function Secret(ref: Option<SecretKeyRef>): Option<EnvSource> { if ref.Some? then Some(FromSecret(ref.value)) else None }

  // What the CR gives for a variable of the operator's.
  function CrSource(auth: ResolvedAuth, s: Storage, name: EnvName): Option<EnvSource> {
    match name
    case AWS_ACCESS_KEY_ID => if S3Of(s).Some? then Secret(S3Of(s).value.accessKeySecret) else None
    case AWS_SECRET_ACCESS_KEY => if S3Of(s).Some? then Secret(S3Of(s).value.secretKeySecret) else None
    case AWS_SHARED_CREDENTIALS_FILE =>
      if S3Of(s).Some? && S3Of(s).value.credentialsSecret.Some? then Some(StaticPath("/credentials/credentials")) else None
    case AZURE_STORAGE_KEY =>
      if AzureOf(s).None? then None
      else if AzureOf(s).value.accountKeySecret.Some? then Secret(AzureOf(s).value.accountKeySecret)
      else Secret(AzureOf(s).value.credentialsSecret)
    case AZURE_STORAGE_SAS_TOKEN => if AzureOf(s).Some? then Secret(AzureOf(s).value.sasTokenSecret) else None
    case AZURE_CLIENT_SECRET => if AzureOf(s).Some? then Secret(AzureOf(s).value.clientSecretSecret) else None
    case GOOGLE_APPLICATION_CREDENTIALS =>
      if GcsOf(s).Some? && GcsOf(s).value.credentialsSecret.Some? then Some(StaticPath("/credentials/credentials")) else None
    case KAFKA_SASL_PASSWORD =>
      if auth.ScramSha512? then Some(FromSecret(SecretKeyRef(auth.secretName, auth.passwordKey))) else None
    case _ => None
  }

  lemma SecretEnvGives(p: PodParts, name: EnvName, ref: Option<SecretKeyRef>, other: EnvName)
    ensures Effective(WithSecretEnv(p, name, ref).env, other) ==
            if other == name && ref.Some? then Secret(ref) else Effective(p.env, other)
  {
    if ref.Some? { EffectiveSnoc(p, name, FromSecret(ref.value), other); }
  }

  lemma CredentialsFileGives(p: PodParts, ref: Option<SecretKeyRef>, name: EnvName, other: EnvName)
    ensures Effective(WithCredentialsFile(p, ref, name).env, other) ==
            if other == name && ref.Some? then Some(StaticPath("/credentials/credentials")) else Effective(p.env, other)
  {
    if ref.Some? {
      var q := WithVolume(p, StorageCredentials, SecretFiles(ref.value.name, [(ref.value.key, CREDENTIALS_FILE)]), CREDENTIALS_MOUNT);
      EffectiveSnoc(q, name, StaticPath("/credentials/credentials"), other);
    }
  }

  lemma S3Gives(p: PodParts, auth: ResolvedAuth, s: Storage, name: EnvName)
    requires S3Of(s).Some? && (name.KAFKA_SASL_PASSWORD? || Effective(p.env, name) == None)
    ensures Effective(WithStorage(p, s).env, name) ==
            if name.KAFKA_SASL_PASSWORD? then Effective(p.env, name) else CrSource(auth, s, name)
  {
    var s3 := s.s3.value;
    var q := WithSecretEnv(p, AWS_ACCESS_KEY_ID, s3.accessKeySecret);
    var r := WithSecretEnv(q, AWS_SECRET_ACCESS_KEY, s3.secretKeySecret);
    SecretEnvGives(p, AWS_ACCESS_KEY_ID, s3.accessKeySecret, name);
    SecretEnvGives(q, AWS_SECRET_ACCESS_KEY, s3.secretKeySecret, name);
    CredentialsFileGives(r, s3.credentialsSecret, AWS_SHARED_CREDENTIALS_FILE, name);
  }

  lemma AzureGives(p: PodParts, auth: ResolvedAuth, s: Storage, name: EnvName)
    requires AzureOf(s).Some? && (name.KAFKA_SASL_PASSWORD? || Effective(p.env, name) == None)
    ensures Effective(WithStorage(p, s).env, name) ==
            if name.KAFKA_SASL_PASSWORD? then Effective(p.env, name) else CrSource(auth, s, name)
  {
    var a := s.azure.value;
    var key := if a.accountKeySecret.Some? then a.accountKeySecret else a.credentialsSecret;
    var q := WithSecretEnv(p, AZURE_STORAGE_KEY, key);
    var r := WithSecretEnv(q, AZURE_STORAGE_SAS_TOKEN, a.sasTokenSecret);
    SecretEnvGives(p, AZURE_STORAGE_KEY, key, name);
    SecretEnvGives(q, AZURE_STORAGE_SAS_TOKEN, a.sasTokenSecret, name);
    SecretEnvGives(r, AZURE_CLIENT_SECRET, a.clientSecretSecret, name);
  }

  lemma StorageGives(p: PodParts, auth: ResolvedAuth, s: Storage, name: EnvName)
    requires name.KAFKA_SASL_PASSWORD? || Effective(p.env, name) == None
    ensures Effective(WithStorage(p, s).env, name) ==
            if name.KAFKA_SASL_PASSWORD? then Effective(p.env, name) else CrSource(auth, s, name)
  {
    if S3Of(s).Some? {
      S3Gives(p, auth, s, name);
    } else if AzureOf(s).Some? {
      AzureGives(p, auth, s, name);
    } else if GcsOf(s).Some? {
      CredentialsFileGives(p, s.gcs.value.credentialsSecret, GOOGLE_APPLICATION_CREDENTIALS, name);
    }
  }

  function ConfigParts(configMap: string): PodParts {
    PodParts([Volume(ConfigVolume, ConfigMapFiles(configMap))], [Mount(ConfigVolume, "/config")], [])
  }

  lemma AuthGives(p: PodParts, auth: ResolvedAuth, name: EnvName)
    requires p.env == []
    ensures Effective(WithAuth(p, auth).env, name) ==
            if name.KAFKA_SASL_PASSWORD? && auth.ScramSha512?
            then Some(FromSecret(SecretKeyRef(auth.secretName, auth.passwordKey))) else None
  {
    if auth.ScramSha512? {
      EffectiveSnoc(p, KAFKA_SASL_PASSWORD, FromSecret(SecretKeyRef(auth.secretName, auth.passwordKey)), name);
    }
  }

  lemma PartsGive(configMap: string, cluster: string, tls: bool, auth: ResolvedAuth, s: Storage,
                  caOverride: Option<SecretKeyRef>, name: EnvName)
    ensures Effective(VolumesAndMounts(configMap, cluster, tls, auth, s, caOverride).env, name) == CrSource(auth, s, name)
  {
    var p := WithCa(ConfigParts(configMap), cluster, tls, auth, caOverride);
    AuthGives(p, auth, name);
    StorageGives(WithAuth(p, auth), auth, s, name);
  }

  // A variable the user does not set comes from what the CR gives for it, in the pods of a backup
  // and of a restore; the Job's name is the one variable of a backup that comes from elsewhere.
  lemma VariablesComeFromTheCr(configMap: string, cluster: string, tls: bool, auth: ResolvedAuth, s: Storage,
                               caOverride: Option<SecretKeyRef>, extra: seq<UserVar>, name: EnvName)
    requires LastUserValue(extra, name).None?
    ensures Effective(BackupPod(configMap, cluster, tls, auth, s, caOverride, extra).env, name) ==
            if name.BACKUP_ID? then Some(JobNameLabel) else CrSource(auth, s, name)
    ensures Effective(RestorePod(configMap, cluster, tls, auth, s, caOverride, extra).env, name) == CrSource(auth, s, name)
  {
    var p := VolumesAndMounts(configMap, cluster, tls, auth, s, caOverride);
    PartsGive(configMap, cluster, tls, auth, s, caOverride, name);
    EffectiveSnoc(p, BACKUP_ID, JobNameLabel, name);
    UserWins(p, extra, name);
    UserWins(WithEnv(p, BACKUP_ID, JobNameLabel), extra, name);
  }

  // A mounted file with the secret and the key it is taken from.
  ghost predicate FileIn(source: Source, mount: string, path: string, ref: SecretKeyRef) {
    match source
    case SecretFiles(name, items) => name == ref.name && exists item :: item in items && item.0 == ref.key && path == mount + "/" + item.1
    case WholeSecret(name) => name == ref.name && path == mount + "/" + ref.key
    case ConfigMapFiles(_) => false
  }

  ghost predicate FileFrom(p: PodParts, path: string, ref: SecretKeyRef) {
    exists i :: 0 <= i < |p.volumes| && i < |p.mounts| && p.mounts[i].name == p.volumes[i].name
                && FileIn(p.volumes[i].source, p.mounts[i].path, path, ref)
  }

  lemma VolumeAddsFiles(p: PodParts, name: VolumeName, source: Source, mount: string, path: string, ref: SecretKeyRef)
    requires |p.mounts| == |p.volumes|
    ensures FileFrom(WithVolume(p, name, source, mount), path, ref) <==> FileFrom(p, path, ref) || FileIn(source, mount, path, ref)
  {
    var q, n := WithVolume(p, name, source, mount), |p.volumes|;
    assert q.volumes[n] == Volume(name, source) && q.mounts[n] == Mount(name, mount);
    if FileFrom(p, path, ref) {
      var i :| 0 <= i < |p.volumes| && p.mounts[i].name == p.volumes[i].name && FileIn(p.volumes[i].source, p.mounts[i].path, path, ref);
      assert q.volumes[i] == p.volumes[i] && q.mounts[i] == p.mounts[i];
    }
  }

  lemma OneFile(secret: string, key: string, file: string, mount: string, path: string, ref: SecretKeyRef)
    ensures FileIn(SecretFiles(secret, [(key, file)]), mount, path, ref) <==>
            ref == SecretKeyRef(secret, key) && path == mount + "/" + file
  {
    assert (key, file) in [(key, file)];
  }

  // The secret the storage section gives as a credentials file.
  function CredentialsOf(s: Storage): Option<SecretKeyRef> {
    if S3Of(s).Some? then S3Of(s).value.credentialsSecret
    else if GcsOf(s).Some? then GcsOf(s).value.credentialsSecret
    else None
  }

  // The files of a pod, each with its secret and key as the CR names them.
  ghost predicate CrFile(cluster: string, tls: bool, auth: ResolvedAuth, s: Storage, caOverride: Option<SecretKeyRef>,
                         path: string, ref: SecretKeyRef) {
    || ((tls || auth.Tls?) && path == "/certs/cluster-ca/ca.crt"
        && ref == caOverride.GetOr(SecretKeyRef(cluster + "-cluster-ca-cert", "ca.crt")))
    || (auth.Tls? && path == "/certs/user/" + ref.key && ref.name == auth.secretName)
    || (auth.ScramSha512? && path == "/certs/user/password" && ref == SecretKeyRef(auth.secretName, auth.passwordKey))
    || (path == "/credentials/credentials" && CredentialsOf(s) == Some(ref))
  }

  lemma CaFiles(p: PodParts, cluster: string, tls: bool, auth: ResolvedAuth, caOverride: Option<SecretKeyRef>,
                path: string, ref: SecretKeyRef)
    requires |p.mounts| == |p.volumes|
    ensures var q := WithCa(p, cluster, tls, auth, caOverride);
            && |q.mounts| == |q.volumes| && q.env == p.env
            && (FileFrom(q, path, ref) <==>
                  || FileFrom(p, path, ref)
                  || ((tls || auth.Tls?) && path == "/certs/cluster-ca/ca.crt"
                      && ref == caOverride.GetOr(SecretKeyRef(cluster + "-cluster-ca-cert", "ca.crt"))))
  {
    if tls || auth.Tls? {
      var secret := CaSecret(cluster, caOverride);
      VolumeAddsFiles(p, ClusterCa, SecretFiles(secret.name, [(secret.key, CA_FILE)]), CLUSTER_CA_MOUNT, path, ref);
      OneFile(secret.name, secret.key, CA_FILE, CLUSTER_CA_MOUNT, path, ref);
      GeneratedPaths();
    }
  }

  lemma AuthFiles(p: PodParts, auth: ResolvedAuth, path: string, ref: SecretKeyRef)
    requires |p.mounts| == |p.volumes|
    ensures var q := WithAuth(p, auth);
            && |q.mounts| == |q.volumes|
            && (FileFrom(q, path, ref) <==>
                  || FileFrom(p, path, ref)
                  || (auth.Tls? && path == "/certs/user/" + ref.key && ref.name == auth.secretName)
                  || (auth.ScramSha512? && path == "/certs/user/password" && ref == SecretKeyRef(auth.secretName, auth.passwordKey)))
  {
    match auth
    case Tls(secretName) =>
      VolumeAddsFiles(p, UserCerts, WholeSecret(secretName), USER_MOUNT, path, ref);
      assert USER_MOUNT + "/" == "/certs/user/";
    case ScramSha512(_, secretName, passwordKey) =>
      var q := WithEnv(p, KAFKA_SASL_PASSWORD, FromSecret(SecretKeyRef(secretName, passwordKey)));
      VolumeAddsFiles(q, UserCerts, SecretFiles(secretName, [(passwordKey, "password")]), USER_MOUNT, path, ref);
      OneFile(secretName, passwordKey, "password", USER_MOUNT, path, ref);
      assert USER_MOUNT + "/" + "password" == "/certs/user/password";
    case NoAuth =>
  }

  lemma CredentialsFiles(p: PodParts, secret: Option<SecretKeyRef>, variable: EnvName, path: string, ref: SecretKeyRef)
    requires |p.mounts| == |p.volumes|
    ensures FileFrom(WithCredentialsFile(p, secret, variable), path, ref) <==>
            FileFrom(p, path, ref) || (path == "/credentials/credentials" && secret == Some(ref))
  {
    if secret.Some? {
      VolumeAddsFiles(p, StorageCredentials, SecretFiles(secret.value.name, [(secret.value.key, CREDENTIALS_FILE)]),
                      CREDENTIALS_MOUNT, path, ref);
      OneFile(secret.value.name, secret.value.key, CREDENTIALS_FILE, CREDENTIALS_MOUNT, path, ref);
      GeneratedPaths();
    }
  }

  lemma StorageFiles(p: PodParts, s: Storage, path: string, ref: SecretKeyRef)
    requires |p.mounts| == |p.volumes|
    ensures FileFrom(WithStorage(p, s), path, ref) <==>
            FileFrom(p, path, ref) || (path == "/credentials/credentials" && CredentialsOf(s) == Some(ref))
  {
    if S3Of(s).Some? {
      var s3 := s.s3.value;
      var q := WithSecretEnv(WithSecretEnv(p, AWS_ACCESS_KEY_ID, s3.accessKeySecret), AWS_SECRET_ACCESS_KEY, s3.secretKeySecret);
      CredentialsFiles(q, s3.credentialsSecret, AWS_SHARED_CREDENTIALS_FILE, path, ref);
    } else if GcsOf(s).Some? {
      CredentialsFiles(p, s.gcs.value.credentialsSecret, GOOGLE_APPLICATION_CREDENTIALS, path, ref);
    }
  }

  lemma PartsFiles(configMap: string, cluster: string, tls: bool, auth: ResolvedAuth, s: Storage,
                   caOverride: Option<SecretKeyRef>, path: string, ref: SecretKeyRef)
    ensures FileFrom(VolumesAndMounts(configMap, cluster, tls, auth, s, caOverride), path, ref) <==>
            CrFile(cluster, tls, auth, s, caOverride, path, ref)
  {
    var p := ConfigParts(configMap);
    var q := WithCa(p, cluster, tls, auth, caOverride);
    CaFiles(p, cluster, tls, auth, caOverride, path, ref);
    AuthFiles(q, auth, path, ref);
    StorageFiles(WithAuth(q, auth), s, path, ref);
  }

  // The pod has exactly those files, from exactly those secrets and keys.
  lemma FilesComeFromTheCr(configMap: string, cluster: string, tls: bool, auth: ResolvedAuth, s: Storage,
                           caOverride: Option<SecretKeyRef>, extra: seq<UserVar>, path: string, ref: SecretKeyRef)
    ensures FileFrom(BackupPod(configMap, cluster, tls, auth, s, caOverride, extra), path, ref) <==>
            CrFile(cluster, tls, auth, s, caOverride, path, ref)
    ensures FileFrom(RestorePod(configMap, cluster, tls, auth, s, caOverride, extra), path, ref) <==>
            CrFile(cluster, tls, auth, s, caOverride, path, ref)
  {
    var p := VolumesAndMounts(configMap, cluster, tls, auth, s, caOverride);
    PartsFiles(configMap, cluster, tls, auth, s, caOverride, path, ref);
    OverridesExtend(p, extra);
    OverridesExtend(WithEnv(p, BACKUP_ID, JobNameLabel), extra);
  }

  // A ConfigMap mounted there.
  ghost predicate ConfigMounted(p: PodParts, path: string, configMap: string) {
    exists i :: 0 <= i < |p.volumes| && i < |p.mounts| && p.mounts[i].name == p.volumes[i].name
                && p.volumes[i].source == ConfigMapFiles(configMap) && p.mounts[i].path == path
  }

  // The given ConfigMap is mounted at /config, and no other anywhere.
  lemma ConfigIsTheGivenOne(configMap: string, cluster: string, tls: bool, auth: ResolvedAuth, s: Storage,
                            caOverride: Option<SecretKeyRef>, extra: seq<UserVar>, path: string, other: string)
    ensures ConfigMounted(BackupPod(configMap, cluster, tls, auth, s, caOverride, extra), path, other) <==>
            path == "/config" && other == configMap
    ensures ConfigMounted(RestorePod(configMap, cluster, tls, auth, s, caOverride, extra), path, other) <==>
            path == "/config" && other == configMap
  {
    var p := VolumesAndMounts(configMap, cluster, tls, auth, s, caOverride);
    FirstIsConfig(configMap, cluster, tls, auth, s, caOverride);
    OverridesExtend(p, extra);
    OverridesExtend(WithEnv(p, BACKUP_ID, JobNameLabel), extra);
  }

  lemma FirstIsConfig(configMap: string, cluster: string, tls: bool, auth: ResolvedAuth, s: Storage, caOverride: Option<SecretKeyRef>)
    ensures var p := VolumesAndMounts(configMap, cluster, tls, auth, s, caOverride);
            && p.volumes != [] && p.mounts != []
            && p.volumes[0] == Volume(ConfigVolume, ConfigMapFiles(configMap)) && p.mounts[0] == Mount(ConfigVolume, "/config")
            && forall i :: 0 < i < |p.volumes| ==> !p.volumes[i].source.ConfigMapFiles?
  {
    var p := WithCa(ConfigParts(configMap), cluster, tls, auth, caOverride);
    var q := WithAuth(p, auth);
    assert forall i :: 0 < i < |q.volumes| ==> !q.volumes[i].source.ConfigMapFiles?;
    StorageExtends(q, s);
  }

  // What the storage section of a config says under a key.
  function StorageValue(s: Storage, key: Key): Option<Value> {
    match key
    case Backend =>
      Some(Fixed(match s.storageType case S3 => "s3" case Azure => "azure" case Gcs => "gcs" case Filesystem => "filesystem"))
    case Bucket => if S3Of(s).Some? then Some(User(S3Of(s).value.bucket)) else if GcsOf(s).Some? then Some(User(GcsOf(s).value.bucket)) else None
    case ContainerName => if AzureOf(s).Some? then Some(User(AzureOf(s).value.container)) else None
    case AccountName => if AzureOf(s).Some? then Some(User(AzureOf(s).value.storageAccount)) else None
    case PathKey => if s.storageType.Filesystem? && s.filesystem.Some? then Some(User(s.filesystem.value)) else None
    case AccessKey => Reading(s, AWS_ACCESS_KEY_ID)
    case SecretKey => Reading(s, AWS_SECRET_ACCESS_KEY)
    case AccountKey => Reading(s, AZURE_STORAGE_KEY)
    case SasToken => Reading(s, AZURE_STORAGE_SAS_TOKEN)
    case ClientSecret => Reading(s, AZURE_CLIENT_SECRET)
    case ServiceAccountPath =>
      if GcsOf(s).None? then None
      else if GcsOf(s).value.credentialsSecret.Some? then Some(GeneratedPath("/credentials/credentials"))
      else if GcsOf(s).value.serviceAccountPath.Some? then Some(User(GcsOf(s).value.serviceAccountPath.value))
      else None
    case _ => None
  }

  // A key that reads a variable is there exactly when the CR gives the variable.
  function Reading(s: Storage, name: EnvName): Option<Value> {
    if CrSource(NoAuth, s, name).Some? then Some(Placeholder(name)) else None
  }

  function At(section: map<Key, Value>, key: Key): Option<Value> { if key in section then Some(section[key]) else None }

  // The storage section key by key; it is missing exactly with the section of the CR's backend.
  lemma StorageSectionOnFields(s: Storage, key: Key)
    ensures StorageConfig(s).Err? <==>
            S3Of(s).None? && AzureOf(s).None? && GcsOf(s).None? && !(s.storageType.Filesystem? && s.filesystem.Some?)
    ensures StorageConfig(s).Ok? ==> At(StorageConfig(s).value, key) == StorageValue(s, key)
  {
    match s.storageType
    case S3 => S3Section(s, key);
    case Azure => AzureSection(s, key);
    case Gcs => GcsSection(s, key);
    case Filesystem =>
  }

  lemma GcsSection(s: Storage, key: Key)
    requires s.storageType.Gcs?
    ensures StorageConfig(s).Err? <==> s.gcs.None?
    ensures StorageConfig(s).Ok? ==> At(StorageConfig(s).value, key) == StorageValue(s, key)
  {
  }

  lemma S3Section(s: Storage, key: Key)
    requires s.storageType.S3?
    ensures StorageConfig(s).Err? <==> s.s3.None?
    ensures StorageConfig(s).Ok? ==> At(StorageConfig(s).value, key) == StorageValue(s, key)
  {
  }

  lemma AzureSection(s: Storage, key: Key)
    requires s.storageType.Azure?
    ensures StorageConfig(s).Err? <==> s.azure.None?
    ensures StorageConfig(s).Ok? ==> At(StorageConfig(s).value, key) == StorageValue(s, key)
  {
  }

  // What the security section says under a key.
  function SecurityValue(tls: bool, auth: ResolvedAuth, key: Key): Option<Value> {
    match key
    case SecurityProtocolKey =>
      Some(SecurityProtocol(if auth.ScramSha512? then (if tls then SASL_SSL else SASL_PLAINTEXT)
                            else if auth.Tls? || tls then SSL else PLAINTEXT))
    case SslCaLocation => if tls || auth.Tls? then Some(GeneratedPath("/certs/cluster-ca/ca.crt")) else None
    case SslCertificateLocation => if auth.Tls? then Some(GeneratedPath("/certs/user/user.crt")) else None
    case SslKeyLocation => if auth.Tls? then Some(GeneratedPath("/certs/user/user.key")) else None
    case SaslMechanism => if auth.ScramSha512? then Some(Fixed("SCRAM-SHA-512")) else None
    case SaslUsername => if auth.ScramSha512? then Some(User(auth.username)) else None
    case SaslPassword => if auth.ScramSha512? then Some(Placeholder(KAFKA_SASL_PASSWORD)) else None
    case _ => None
  }

  lemma SecuritySectionOnFields(tls: bool, auth: ResolvedAuth, key: Key)
    ensures At(SecurityConfig(tls, auth), key) == SecurityValue(tls, auth, key)
  {
  }

  // Both configs: a backup's has the id of an incremental backup or reads BACKUP_ID, a restore's
  // the requested id or else the last backup's, without which there is none; both have the
  // sections above, and fail with the storage section.
  lemma ConfigsOnFields(crName: string, offsetStorage: bool, continuous: Option<bool>, requested: Option<string>,
                        last: Option<string>, tls: bool, auth: ResolvedAuth, s: Storage)
    ensures var r := BackupConfig(crName, offsetStorage, continuous, tls, auth, s);
            && r.Ok? == StorageConfig(s).Ok?
            && (r.Ok? ==>
                  && r.value.backupId == (if offsetStorage && continuous != Some(true) then User(crName) else Placeholder(BACKUP_ID))
                  && r.value.security == SecurityConfig(tls, auth) && r.value.storage == StorageConfig(s).value)
    ensures var r := RestoreConfig(requested, last, tls, auth, s);
            && (r.Ok? <==> (requested.Some? || last.Some?) && StorageConfig(s).Ok?)
            && (requested.None? && last.None? ==> r == Err(MissingBackupId))
            && (r.Ok? ==>
                  && r.value.backupId == User(if requested.Some? then requested.value else last.value)
                  && r.value.security == SecurityConfig(tls, auth) && r.value.storage == StorageConfig(s).value)
  {
  }
}
