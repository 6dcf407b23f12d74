// Two generators that must agree: the config file a Job reads, and the volumes, mounts and
// environment of the pod that reads it.
module PodConfig {
  import opened Wrappers
  import opened Listener

  datatype SecretKeyRef = SecretKeyRef(name: string, key: string)

  datatype ResolvedAuth =
    | Tls(secretName: string)
    | ScramSha512(username: string, secretName: string, passwordKey: string)
    | NoAuth

  datatype S3Storage = S3Storage(
    bucket: string,
    credentialsSecret: Option<SecretKeyRef>,
    accessKeySecret: Option<SecretKeyRef>,
    secretKeySecret: Option<SecretKeyRef>)

  datatype AzureStorage = AzureStorage(
    container: string,
    storageAccount: string,
    credentialsSecret: Option<SecretKeyRef>,
    accountKeySecret: Option<SecretKeyRef>,
    sasTokenSecret: Option<SecretKeyRef>,
    clientSecretSecret: Option<SecretKeyRef>)

  datatype GcsStorage = GcsStorage(
    bucket: string,
    credentialsSecret: Option<SecretKeyRef>,
    serviceAccountPath: Option<string>)

  datatype StorageType = S3 | Azure | Gcs | Filesystem

  datatype Storage = Storage(
    storageType: StorageType,
    s3: Option<S3Storage>,
    azure: Option<AzureStorage>,
    gcs: Option<GcsStorage>,
    filesystem: Option<string>)

  // The variables the operator itself names, and all others. A user variable may carry any name.
  datatype EnvName =
    | AWS_ACCESS_KEY_ID | AWS_SECRET_ACCESS_KEY | AWS_SHARED_CREDENTIALS_FILE
    | AZURE_STORAGE_KEY | AZURE_STORAGE_SAS_TOKEN | AZURE_CLIENT_SECRET
    | GOOGLE_APPLICATION_CREDENTIALS | KAFKA_SASL_PASSWORD | BACKUP_ID
    | OtherName(name: string)

  datatype Protocol = SSL | SASL_SSL | SASL_PLAINTEXT | PLAINTEXT

  // A config value: given by the user, fixed text, a `${VAR}` or a path of the operator's making.
  datatype Value =
    | User(text: string)
    | Fixed(text: string)
    | SecurityProtocol(protocol: Protocol)
    | Placeholder(name: EnvName)
    | GeneratedPath(path: string)

  datatype Key =
    | Backend | Bucket | ContainerName | AccountName | PathKey
    | AccessKey | SecretKey | AccountKey | SasToken | ClientSecret | ServiceAccountPath
    | SecurityProtocolKey | SslCaLocation | SslCertificateLocation | SslKeyLocation
    | SaslMechanism | SaslUsername | SaslPassword

  datatype ConfigError = MissingSection | MissingBackupId

  const CLUSTER_CA_MOUNT := "/certs/cluster-ca"
  const USER_MOUNT := "/certs/user"
  const CREDENTIALS_MOUNT := "/credentials"
  const CA_FILE := "ca.crt"
  const CREDENTIALS_FILE := "credentials"

  function Put(config: map<Key, Value>, key: Key, present: bool, value: Value): map<Key, Value> {
    if present then config[key := value] else config
  }

  function StorageConfig(s: Storage): Result<map<Key, Value>, ConfigError> {
    match s.storageType
    case S3 =>
      if s.s3.None? then Err(MissingSection) else
        var c := map[Backend := Fixed("s3"), Bucket := User(s.s3.value.bucket)];
        var c := Put(c, AccessKey, s.s3.value.accessKeySecret.Some?, Placeholder(AWS_ACCESS_KEY_ID));
        Ok(Put(c, SecretKey, s.s3.value.secretKeySecret.Some?, Placeholder(AWS_SECRET_ACCESS_KEY)))
    case Azure =>
      if s.azure.None? then Err(MissingSection) else
        var a := s.azure.value;
        var c := map[Backend := Fixed("azure"), ContainerName := User(a.container), AccountName := User(a.storageAccount)];
        var c := Put(c, AccountKey, a.credentialsSecret.Some? || a.accountKeySecret.Some?, Placeholder(AZURE_STORAGE_KEY));
        var c := Put(c, SasToken, a.sasTokenSecret.Some?, Placeholder(AZURE_STORAGE_SAS_TOKEN));
        Ok(Put(c, ClientSecret, a.clientSecretSecret.Some?, Placeholder(AZURE_CLIENT_SECRET)))
    case Gcs =>
      if s.gcs.None? then Err(MissingSection) else
        var g := s.gcs.value;
        var c := map[Backend := Fixed("gcs"), Bucket := User(g.bucket)];
        Ok(if g.credentialsSecret.Some? then c[ServiceAccountPath := GeneratedPath("/credentials/credentials")]
           else Put(c, ServiceAccountPath, g.serviceAccountPath.Some?, User(g.serviceAccountPath.GetOr(""))))
    case Filesystem =>
      if s.filesystem.None? then Err(MissingSection)
      else Ok(map[Backend := Fixed("filesystem"), PathKey := User(s.filesystem.value)])
  }

  function ProtocolFor(tls: bool, auth: ResolvedAuth): Protocol {
    match auth
    case Tls(_) => SSL
    case ScramSha512(_, _, _) => if tls then SASL_SSL else SASL_PLAINTEXT
    case NoAuth => if tls then SSL else PLAINTEXT
  }

  function SecurityConfig(tls: bool, auth: ResolvedAuth): map<Key, Value> {
    var c := map[SecurityProtocolKey := SecurityProtocol(ProtocolFor(tls, auth))];
    var c := Put(c, SslCaLocation, tls || auth.Tls?, GeneratedPath("/certs/cluster-ca/ca.crt"));
    match auth
    case Tls(_) =>
      c[SslCertificateLocation := GeneratedPath("/certs/user/user.crt")][SslKeyLocation := GeneratedPath("/certs/user/user.key")]
    case ScramSha512(username, _, _) =>
      c[SaslMechanism := Fixed("SCRAM-SHA-512")][SaslUsername := User(username)][SaslPassword := Placeholder(KAFKA_SASL_PASSWORD)]
    case NoAuth => c
  }

  // The operator-made parts of a config file.
  datatype Config = Config(backupId: Value, security: map<Key, Value>, storage: map<Key, Value>)

  predicate IncrementalOneShot(offsetStorage: bool, continuous: Option<bool>) { offsetStorage && !continuous.GetOr(false) }

  function BackupConfig(crName: string, offsetStorage: bool, continuous: Option<bool>, tls: bool, auth: ResolvedAuth, storage: Storage)
    : Result<Config, ConfigError>
  {
    var id := if IncrementalOneShot(offsetStorage, continuous) then User(crName) else Placeholder(BACKUP_ID);
    match StorageConfig(storage)
    case Err(e) => Err(e)
    case Ok(section) => Ok(Config(id, SecurityConfig(tls, auth), section))
  }

  function ResolveBackupId(requested: Option<string>, lastBackupId: Option<string>): Result<string, ConfigError> {
    if requested.Some? then Ok(requested.value)
    else if lastBackupId.Some? then Ok(lastBackupId.value)
    else Err(MissingBackupId)
  }

  // A restore reads the storage of its source backup.
  function RestoreConfig(requested: Option<string>, lastBackupId: Option<string>, tls: bool, auth: ResolvedAuth, sourceStorage: Storage)
    : Result<Config, ConfigError>
  {
    match ResolveBackupId(requested, lastBackupId)
    case Err(e) => Err(e)
    case Ok(id) =>
      match StorageConfig(sourceStorage)
      case Err(e) => Err(e)
      case Ok(section) => Ok(Config(User(id), SecurityConfig(tls, auth), section))
  }

  datatype VolumeName = ConfigVolume | ClusterCa | UserCerts | StorageCredentials

  // The files of a volume: those named, or every key of the secret.
  datatype Source =
    | ConfigMapFiles(name: string)
    | SecretFiles(name: string, items: seq<(string, string)>)
    | WholeSecret(name: string)

  datatype Volume = Volume(name: VolumeName, source: Source)

  datatype Mount = Mount(name: VolumeName, path: string)

  datatype EnvSource = FromSecret(secret: SecretKeyRef) | StaticPath(path: string) | JobNameLabel | UserValue(value: string)

  datatype EnvVar = EnvVar(name: EnvName, source: EnvSource)

  // A variable the user adds, with the value it resolves to.
  datatype UserVar = UserVar(name: EnvName, value: string)

  datatype PodParts = PodParts(volumes: seq<Volume>, mounts: seq<Mount>, env: seq<EnvVar>)

  function CaSecret(cluster: string, caOverride: Option<SecretKeyRef>): SecretKeyRef {
    if caOverride.Some? then caOverride.value else SecretKeyRef(cluster + "-cluster-ca-cert", "ca.crt")
  }

  function WithVolume(p: PodParts, name: VolumeName, source: Source, path: string): PodParts {
    PodParts(p.volumes + [Volume(name, source)], p.mounts + [Mount(name, path)], p.env)
  }

  function WithEnv(p: PodParts, name: EnvName, source: EnvSource): PodParts { p.(env := p.env + [EnvVar(name, source)]) }

  function WithSecretEnv(p: PodParts, name: EnvName, secret: Option<SecretKeyRef>): PodParts {
    if secret.Some? then WithEnv(p, name, FromSecret(secret.value)) else p
  }

  function WithCredentialsFile(p: PodParts, secret: Option<SecretKeyRef>, variable: EnvName): PodParts {
    if secret.None? then p else
      WithEnv(WithVolume(p, StorageCredentials, SecretFiles(secret.value.name, [(secret.value.key, CREDENTIALS_FILE)]), CREDENTIALS_MOUNT),
              variable, StaticPath("/credentials/credentials"))
  }

  function WithStorage(p: PodParts, s: Storage): PodParts {
    match s.storageType
    case S3 =>
      if s.s3.None? then p else
        var p := WithSecretEnv(p, AWS_ACCESS_KEY_ID, s.s3.value.accessKeySecret);
        var p := WithSecretEnv(p, AWS_SECRET_ACCESS_KEY, s.s3.value.secretKeySecret);
        WithCredentialsFile(p, s.s3.value.credentialsSecret, AWS_SHARED_CREDENTIALS_FILE)
    case Azure =>
      if s.azure.None? then p else
        var a := s.azure.value;
        var p := WithSecretEnv(p, AZURE_STORAGE_KEY, if a.accountKeySecret.Some? then a.accountKeySecret else a.credentialsSecret);
        var p := WithSecretEnv(p, AZURE_STORAGE_SAS_TOKEN, a.sasTokenSecret);
        WithSecretEnv(p, AZURE_CLIENT_SECRET, a.clientSecretSecret)
    case Gcs => if s.gcs.None? then p else WithCredentialsFile(p, s.gcs.value.credentialsSecret, GOOGLE_APPLICATION_CREDENTIALS)
    case Filesystem => p
  }

  function WithCa(p: PodParts, cluster: string, tls: bool, auth: ResolvedAuth, caOverride: Option<SecretKeyRef>): PodParts {
    if !(tls || auth.Tls?) then p else
      var secret := CaSecret(cluster, caOverride);
      WithVolume(p, ClusterCa, SecretFiles(secret.name, [(secret.key, CA_FILE)]), CLUSTER_CA_MOUNT)
  }

  function WithAuth(p: PodParts, auth: ResolvedAuth): PodParts {
    match auth
    case Tls(secretName) => WithVolume(p, UserCerts, WholeSecret(secretName), USER_MOUNT)
    case ScramSha512(_, secretName, passwordKey) =>
      WithVolume(WithEnv(p, KAFKA_SASL_PASSWORD, FromSecret(SecretKeyRef(secretName, passwordKey))),
                 UserCerts, SecretFiles(secretName, [(passwordKey, "password")]), USER_MOUNT)
    case NoAuth => p
  }

  function VolumesAndMounts(configMap: string, cluster: string, tls: bool, auth: ResolvedAuth, storage: Storage,
                            caOverride: Option<SecretKeyRef>): PodParts {
    var p := PodParts([Volume(ConfigVolume, ConfigMapFiles(configMap))], [Mount(ConfigVolume, "/config")], []);
    WithStorage(WithAuth(WithCa(p, cluster, tls, auth, caOverride), auth), storage)
  }

  // `append_env_overrides`: the user's variables come after the operator's.
  function Overridden(p: PodParts, extra: seq<UserVar>): PodParts
    decreases |extra|
  {
    if extra == [] then p else Overridden(WithEnv(p, extra[0].name, UserValue(extra[0].value)), extra[1..])
  }

  // Backup Job and CronJob pods also learn their Job's name.
  function BackupPod(configMap: string, cluster: string, tls: bool, auth: ResolvedAuth, storage: Storage,
                     caOverride: Option<SecretKeyRef>, extra: seq<UserVar>): PodParts {
    Overridden(WithEnv(VolumesAndMounts(configMap, cluster, tls, auth, storage, caOverride), BACKUP_ID, JobNameLabel), extra)
  }

  function RestorePod(configMap: string, cluster: string, tls: bool, auth: ResolvedAuth, sourceStorage: Storage,
                      caOverride: Option<SecretKeyRef>, extra: seq<UserVar>): PodParts {
    Overridden(VolumesAndMounts(configMap, cluster, tls, auth, sourceStorage, caOverride), extra)
  }

  // Of entries with one name the last gives the value.
  function Effective(env: seq<EnvVar>, name: EnvName): Option<EnvSource>
    decreases |env|
  {
    if env == [] then None
    else if env[|env| - 1].name == name then Some(env[|env| - 1].source)
    else Effective(env[..|env| - 1], name)
  }

  // The value the user gives a name last.
  function LastUserValue(extra: seq<UserVar>, name: EnvName): Option<string>
    decreases |extra|
  {
    if extra == [] then None
    else
      var later := LastUserValue(extra[1..], name);
      if later.Some? then later else if extra[0].name == name then Some(extra[0].value) else None
  }

  // A variable set by the operator.
  ghost predicate SetByOperator(p: PodParts, name: EnvName) {
    exists e :: e in p.env && e.name == name && !e.source.UserValue?
  }

  // A file in a volume that is mounted over it.
  ghost predicate Provided(p: PodParts, path: string) {
    exists i :: 0 <= i < |p.mounts| && i < |p.volumes| && p.mounts[i].name == p.volumes[i].name
                && Holds(p.volumes[i].source, p.mounts[i].path, path)
  }

  ghost predicate Holds(source: Source, mount: string, path: string) {
    match source
    case SecretFiles(_, items) => exists item :: item in items && path == mount + "/" + item.1
    case WholeSecret(_) => mount + "/" <= path
    case ConfigMapFiles(_) => false
  }

  // Mounts and volumes correspond one to one, by names that are all different.
  ghost predicate Paired(p: PodParts) {
    && |p.mounts| == |p.volumes|
    && (forall i :: 0 <= i < |p.volumes| ==> p.mounts[i].name == p.volumes[i].name)
    && (forall i, j :: 0 <= i < j < |p.volumes| ==> p.volumes[i].name != p.volumes[j].name)
  }

  // A generated value refers to something that is there in the pod.
  ghost predicate Met(p: PodParts, v: Value) {
    && (v.Placeholder? ==> SetByOperator(p, v.name))
    && (v.GeneratedPath? ==> Provided(p, v.path))
  }

  ghost predicate AllMet(p: PodParts, section: map<Key, Value>) { forall k :: k in section ==> Met(p, section[k]) }

  ghost predicate Agree(c: Config, p: PodParts) { Met(p, c.backupId) && AllMet(p, c.security) && AllMet(p, c.storage) }

  // The builders, in the order of the code.
  method BuildStorageConfig(storage: Storage) returns (r: Result<map<Key, Value>, ConfigError>)
    ensures r == StorageConfig(storage)
  {
    var config: map<Key, Value> := map[];
    match storage.storageType
    case S3 =>
      if storage.s3.None? { return Err(MissingSection); }
      config := config[Backend := Fixed("s3")];
      config := config[Bucket := User(storage.s3.value.bucket)];
      if storage.s3.value.accessKeySecret.Some? { config := config[AccessKey := Placeholder(AWS_ACCESS_KEY_ID)]; }
      if storage.s3.value.secretKeySecret.Some? { config := config[SecretKey := Placeholder(AWS_SECRET_ACCESS_KEY)]; }
      return Ok(config);
    case Azure =>
      if storage.azure.None? { return Err(MissingSection); }
      var azure := storage.azure.value;
      config := config[Backend := Fixed("azure")];
      config := config[ContainerName := User(azure.container)];
      config := config[AccountName := User(azure.storageAccount)];
      if azure.credentialsSecret.Some? || azure.accountKeySecret.Some? {
        config := config[AccountKey := Placeholder(AZURE_STORAGE_KEY)];
      }
      if azure.sasTokenSecret.Some? { config := config[SasToken := Placeholder(AZURE_STORAGE_SAS_TOKEN)]; }
      if azure.clientSecretSecret.Some? { config := config[ClientSecret := Placeholder(AZURE_CLIENT_SECRET)]; }
      return Ok(config);
    case Gcs =>
      if storage.gcs.None? { return Err(MissingSection); }
      config := config[Backend := Fixed("gcs")];
      config := config[Bucket := User(storage.gcs.value.bucket)];
      if storage.gcs.value.credentialsSecret.Some? {
        config := config[ServiceAccountPath := GeneratedPath("/credentials/credentials")];
      } else if storage.gcs.value.serviceAccountPath.Some? {
        config := config[ServiceAccountPath := User(storage.gcs.value.serviceAccountPath.value)];
      }
      return Ok(config);
    case Filesystem =>
      if storage.filesystem.None? { return Err(MissingSection); }
      config := config[Backend := Fixed("filesystem")];
      config := config[PathKey := User(storage.filesystem.value)];
      return Ok(config);
  }

  method BuildVolumesAndMounts(configMap: string, cluster: string, tls: bool, auth: ResolvedAuth, storage: Storage,
                               caOverride: Option<SecretKeyRef>) returns (volumes: seq<Volume>, mounts: seq<Mount>, env: seq<EnvVar>)
    ensures PodParts(volumes, mounts, env) == VolumesAndMounts(configMap, cluster, tls, auth, storage, caOverride)
  {
    volumes, mounts, env := [Volume(ConfigVolume, ConfigMapFiles(configMap))], [Mount(ConfigVolume, "/config")], [];
    if tls || auth.Tls? {
      var secret := CaSecret(cluster, caOverride);
      volumes := volumes + [Volume(ClusterCa, SecretFiles(secret.name, [(secret.key, CA_FILE)]))];
      mounts := mounts + [Mount(ClusterCa, CLUSTER_CA_MOUNT)];
    }
    match auth {
      case Tls(secretName) =>
        volumes := volumes + [Volume(UserCerts, WholeSecret(secretName))];
        mounts := mounts + [Mount(UserCerts, USER_MOUNT)];
      case ScramSha512(_, secretName, passwordKey) =>
        env := env + [EnvVar(KAFKA_SASL_PASSWORD, FromSecret(SecretKeyRef(secretName, passwordKey)))];
        volumes := volumes + [Volume(UserCerts, SecretFiles(secretName, [(passwordKey, "password")]))];
        mounts := mounts + [Mount(UserCerts, USER_MOUNT)];
      case NoAuth =>
    }
    volumes, mounts, env := AddStorageCredentials(storage, volumes, mounts, env);
  }

  method AddStorageCredentials(storage: Storage, volumes0: seq<Volume>, mounts0: seq<Mount>, env0: seq<EnvVar>)
    returns (volumes: seq<Volume>, mounts: seq<Mount>, env: seq<EnvVar>)
    ensures PodParts(volumes, mounts, env) == WithStorage(PodParts(volumes0, mounts0, env0), storage)
  {
    volumes, mounts, env := volumes0, mounts0, env0;
    match storage.storageType
    case S3 =>
      if storage.s3.None? { return; }
      var s3 := storage.s3.value;
      if s3.accessKeySecret.Some? { env := env + [EnvVar(AWS_ACCESS_KEY_ID, FromSecret(s3.accessKeySecret.value))]; }
      if s3.secretKeySecret.Some? { env := env + [EnvVar(AWS_SECRET_ACCESS_KEY, FromSecret(s3.secretKeySecret.value))]; }
      if s3.credentialsSecret.Some? {
        volumes, mounts := AddCredentialsFile(s3.credentialsSecret.value, volumes, mounts);
        env := env + [EnvVar(AWS_SHARED_CREDENTIALS_FILE, StaticPath("/credentials/credentials"))];
      }
    case Azure =>
      if storage.azure.None? { return; }
      var azure := storage.azure.value;
      var key := if azure.accountKeySecret.Some? then azure.accountKeySecret else azure.credentialsSecret;
      if key.Some? { env := env + [EnvVar(AZURE_STORAGE_KEY, FromSecret(key.value))]; }
      if azure.sasTokenSecret.Some? { env := env + [EnvVar(AZURE_STORAGE_SAS_TOKEN, FromSecret(azure.sasTokenSecret.value))]; }
      if azure.clientSecretSecret.Some? { env := env + [EnvVar(AZURE_CLIENT_SECRET, FromSecret(azure.clientSecretSecret.value))]; }
    case Gcs =>
      if storage.gcs.None? { return; }
      if storage.gcs.value.credentialsSecret.Some? {
        volumes, mounts := AddCredentialsFile(storage.gcs.value.credentialsSecret.value, volumes, mounts);
        env := env + [EnvVar(GOOGLE_APPLICATION_CREDENTIALS, StaticPath("/credentials/credentials"))];
      }
    case Filesystem =>
  }

  method AddCredentialsFile(secret: SecretKeyRef, volumes0: seq<Volume>, mounts0: seq<Mount>)
    returns (volumes: seq<Volume>, mounts: seq<Mount>)
    ensures volumes == volumes0 + [Volume(StorageCredentials, SecretFiles(secret.name, [(secret.key, CREDENTIALS_FILE)]))]
    ensures mounts == mounts0 + [Mount(StorageCredentials, CREDENTIALS_MOUNT)]
  {
    volumes := volumes0 + [Volume(StorageCredentials, SecretFiles(secret.name, [(secret.key, CREDENTIALS_FILE)]))];
    mounts := mounts0 + [Mount(StorageCredentials, CREDENTIALS_MOUNT)];
  }

  // What comes later takes nothing away.
  predicate Extends(p: PodParts, q: PodParts) { p.volumes <= q.volumes && p.mounts <= q.mounts && p.env <= q.env }

  lemma ExtendedKeeps(p: PodParts, q: PodParts)
    requires Extends(p, q)
    ensures forall name :: SetByOperator(p, name) ==> SetByOperator(q, name)
    ensures forall path :: Provided(p, path) ==> Provided(q, path)
  {
  }

  lemma StorageExtends(p: PodParts, s: Storage)
    ensures Extends(p, WithStorage(p, s))
  {
  }

  lemma {:induction false} OverridesExtend(p: PodParts, extra: seq<UserVar>)
    ensures Extends(p, Overridden(p, extra))
    ensures Overridden(p, extra).volumes == p.volumes && Overridden(p, extra).mounts == p.mounts
    decreases |extra|
  {
    if extra != [] { OverridesExtend(WithEnv(p, extra[0].name, UserValue(extra[0].value)), extra[1..]); }
  }

  lemma EnvAdded(p: PodParts, name: EnvName, source: EnvSource)
    requires !source.UserValue?
    ensures SetByOperator(WithEnv(p, name, source), name)
  {
  }

  lemma FileAdded(p: PodParts, name: VolumeName, source: Source, mount: string, path: string)
    requires |p.mounts| == |p.volumes| && Holds(source, mount, path)
    ensures Provided(WithVolume(p, name, source, mount), path)
  {
    var q, n := WithVolume(p, name, source, mount), |p.mounts|;
    assert q.mounts[n] == Mount(name, mount) && q.volumes[n] == Volume(name, source);
  }

  lemma GeneratedPaths()
    ensures CLUSTER_CA_MOUNT + "/" + CA_FILE == "/certs/cluster-ca/ca.crt"
    ensures CREDENTIALS_MOUNT + "/" + CREDENTIALS_FILE == "/credentials/credentials"
    ensures USER_MOUNT + "/" <= "/certs/user/user.crt" && USER_MOUNT + "/" <= "/certs/user/user.key"
  {
  }

  lemma MetKept(p: PodParts, q: PodParts, section: map<Key, Value>)
    requires Extends(p, q) && AllMet(p, section)
    ensures AllMet(q, section)
  {
  }

  lemma CaAgrees(p: PodParts, cluster: string, tls: bool, auth: ResolvedAuth, caOverride: Option<SecretKeyRef>)
    requires |p.mounts| == |p.volumes|
    ensures var q := WithCa(p, cluster, tls, auth, caOverride);
            |q.mounts| == |q.volumes| && (tls || auth.Tls? ==> Provided(q, "/certs/cluster-ca/ca.crt"))
  {
    if tls || auth.Tls? {
      GeneratedPaths();
      var secret := CaSecret(cluster, caOverride);
      var source := SecretFiles(secret.name, [(secret.key, CA_FILE)]);
      assert (secret.key, CA_FILE) in source.items;
      FileAdded(p, ClusterCa, source, CLUSTER_CA_MOUNT, "/certs/cluster-ca/ca.crt");
    }
  }

  lemma AuthAgrees(p: PodParts, auth: ResolvedAuth)
    requires |p.mounts| == |p.volumes|
    ensures var q := WithAuth(p, auth);
            && |q.mounts| == |q.volumes| && Extends(p, q)
            && (auth.Tls? ==> Provided(q, "/certs/user/user.crt") && Provided(q, "/certs/user/user.key"))
            && (auth.ScramSha512? ==> SetByOperator(q, KAFKA_SASL_PASSWORD))
  {
    match auth
    case Tls(secretName) =>
      GeneratedPaths();
      FileAdded(p, UserCerts, WholeSecret(secretName), USER_MOUNT, "/certs/user/user.crt");
      FileAdded(p, UserCerts, WholeSecret(secretName), USER_MOUNT, "/certs/user/user.key");
    case ScramSha512(_, secretName, passwordKey) =>
      var r := WithEnv(p, KAFKA_SASL_PASSWORD, FromSecret(SecretKeyRef(secretName, passwordKey)));
      EnvAdded(p, KAFKA_SASL_PASSWORD, FromSecret(SecretKeyRef(secretName, passwordKey)));
      ExtendedKeeps(r, WithAuth(p, auth));
    case NoAuth =>
  }

  lemma SecurityAgrees(p: PodParts, cluster: string, tls: bool, auth: ResolvedAuth, caOverride: Option<SecretKeyRef>)
    requires |p.mounts| == |p.volumes|
    ensures var q := WithAuth(WithCa(p, cluster, tls, auth, caOverride), auth);
            |q.mounts| == |q.volumes| && AllMet(q, SecurityConfig(tls, auth))
  {
    var r := WithCa(p, cluster, tls, auth, caOverride);
    CaAgrees(p, cluster, tls, auth, caOverride);
    AuthAgrees(r, auth);
    ExtendedKeeps(r, WithAuth(r, auth));
  }

  lemma CredentialsAgree(p: PodParts, secret: Option<SecretKeyRef>, variable: EnvName)
    requires |p.mounts| == |p.volumes|
    ensures var q := WithCredentialsFile(p, secret, variable);
            && Extends(p, q)
            && (secret.Some? ==> SetByOperator(q, variable) && Provided(q, "/credentials/credentials"))
  {
    if secret.Some? {
      GeneratedPaths();
      var source := SecretFiles(secret.value.name, [(secret.value.key, CREDENTIALS_FILE)]);
      assert (secret.value.key, CREDENTIALS_FILE) in source.items;
      var r := WithVolume(p, StorageCredentials, source, CREDENTIALS_MOUNT);
      FileAdded(p, StorageCredentials, source, CREDENTIALS_MOUNT, "/credentials/credentials");
      EnvAdded(r, variable, StaticPath("/credentials/credentials"));
      ExtendedKeeps(r, WithCredentialsFile(p, secret, variable));
    }
  }

  lemma S3Agrees(p: PodParts, s: Storage)
    requires |p.mounts| == |p.volumes| && s.storageType.S3? && s.s3.Some?
    ensures AllMet(WithStorage(p, s), StorageConfig(s).value)
  {
  }

  lemma AzureAgrees(p: PodParts, s: Storage)
    requires s.storageType.Azure? && s.azure.Some?
    ensures AllMet(WithStorage(p, s), StorageConfig(s).value)
  {
  }

  lemma StorageAgrees(p: PodParts, s: Storage)
    requires |p.mounts| == |p.volumes| && StorageConfig(s).Ok?
    ensures AllMet(WithStorage(p, s), StorageConfig(s).value)
  {
    match s.storageType
    case S3 => S3Agrees(p, s);
    case Azure => AzureAgrees(p, s);
    case Gcs => CredentialsAgree(p, s.gcs.value.credentialsSecret, GOOGLE_APPLICATION_CREDENTIALS);
    case Filesystem =>
  }

  lemma PartsAgree(configMap: string, cluster: string, tls: bool, auth: ResolvedAuth, storage: Storage, caOverride: Option<SecretKeyRef>)
    requires StorageConfig(storage).Ok?
    ensures var p := VolumesAndMounts(configMap, cluster, tls, auth, storage, caOverride);
            AllMet(p, SecurityConfig(tls, auth)) && AllMet(p, StorageConfig(storage).value)
  {
    var p := PodParts([Volume(ConfigVolume, ConfigMapFiles(configMap))], [Mount(ConfigVolume, "/config")], []);
    var q := WithAuth(WithCa(p, cluster, tls, auth, caOverride), auth);
    SecurityAgrees(p, cluster, tls, auth, caOverride);
    StorageAgrees(q, storage);
    StorageExtends(q, storage);
    MetKept(q, WithStorage(q, storage), SecurityConfig(tls, auth));
  }

  // Whenever the backup config is built: every placeholder in it is set in the pods of the Job
  // and of the CronJob, and every generated path is a file of a mounted volume.
  lemma BackupConfigAgrees(crName: string, offsetStorage: bool, continuous: Option<bool>, tls: bool, auth: ResolvedAuth,
                           storage: Storage, configMap: string, cluster: string, caOverride: Option<SecretKeyRef>, extra: seq<UserVar>)
    requires BackupConfig(crName, offsetStorage, continuous, tls, auth, storage).Ok?
    ensures Agree(BackupConfig(crName, offsetStorage, continuous, tls, auth, storage).value,
                  BackupPod(configMap, cluster, tls, auth, storage, caOverride, extra))
  {
    var p := VolumesAndMounts(configMap, cluster, tls, auth, storage, caOverride);
    var q := WithEnv(p, BACKUP_ID, JobNameLabel);
    PartsAgree(configMap, cluster, tls, auth, storage, caOverride);
    EnvAdded(p, BACKUP_ID, JobNameLabel);
    OverridesExtend(q, extra);
    MetKept(p, Overridden(q, extra), SecurityConfig(tls, auth));
    MetKept(p, Overridden(q, extra), StorageConfig(storage).value);
    ExtendedKeeps(q, Overridden(q, extra));
  }

  // The same of a restore, whose pod takes its storage from the source backup.
  lemma RestoreConfigAgrees(requested: Option<string>, lastBackupId: Option<string>, tls: bool, auth: ResolvedAuth,
                            sourceStorage: Storage, configMap: string, cluster: string, caOverride: Option<SecretKeyRef>, extra: seq<UserVar>)
    requires RestoreConfig(requested, lastBackupId, tls, auth, sourceStorage).Ok?
    ensures Agree(RestoreConfig(requested, lastBackupId, tls, auth, sourceStorage).value,
                  RestorePod(configMap, cluster, tls, auth, sourceStorage, caOverride, extra))
  {
    var p := VolumesAndMounts(configMap, cluster, tls, auth, sourceStorage, caOverride);
    PartsAgree(configMap, cluster, tls, auth, sourceStorage, caOverride);
    OverridesExtend(p, extra);
    MetKept(p, Overridden(p, extra), SecurityConfig(tls, auth));
    MetKept(p, Overridden(p, extra), StorageConfig(sourceStorage).value);
  }

  // The config key that reads a variable.
  function KeyFor(name: EnvName): Key {
    match name
    case AWS_ACCESS_KEY_ID => AccessKey
    case AWS_SECRET_ACCESS_KEY => SecretKey
    case AZURE_STORAGE_KEY => AccountKey
    case AZURE_STORAGE_SAS_TOKEN => SasToken
    case AZURE_CLIENT_SECRET => ClientSecret
    case _ => SaslPassword
  }

  predicate Reads(section: map<Key, Value>, name: EnvName) {
    KeyFor(name) in section && section[KeyFor(name)] == Placeholder(name)
  }

  lemma S3SecretsRead(p: PodParts, s: Storage, e: EnvVar)
    requires s.storageType.S3? && s.s3.Some?
    requires e in WithStorage(p, s).env && e !in p.env && e.source.FromSecret?
    ensures Reads(StorageConfig(s).value, e.name)
  {
  }

  lemma AzureSecretsRead(p: PodParts, s: Storage, e: EnvVar)
    requires s.storageType.Azure? && s.azure.Some?
    requires e in WithStorage(p, s).env && e !in p.env && e.source.FromSecret?
    ensures Reads(StorageConfig(s).value, e.name)
  {
  }

  lemma StorageSecretsRead(p: PodParts, s: Storage, e: EnvVar)
    requires StorageConfig(s).Ok?
    requires e in WithStorage(p, s).env && e !in p.env && e.source.FromSecret?
    ensures Reads(StorageConfig(s).value, e.name)
  {
    if s.storageType.S3? {
      S3SecretsRead(p, s, e);
    } else if s.storageType.Azure? {
      AzureSecretsRead(p, s, e);
    }
  }

  lemma AuthSecretsRead(p: PodParts, tls: bool, auth: ResolvedAuth)
    ensures forall e :: e in WithAuth(p, auth).env ==> e in p.env || Reads(SecurityConfig(tls, auth), e.name)
  {
  }

  lemma {:induction false} OverridesAreUsers(p: PodParts, extra: seq<UserVar>)
    ensures forall e :: e in Overridden(p, extra).env ==> e in p.env || e.source.UserValue?
    decreases |extra|
  {
    if extra != [] { OverridesAreUsers(WithEnv(p, extra[0].name, UserValue(extra[0].value)), extra[1..]); }
  }

  // The other direction: no secret is handed to the pod that the config does not read.
  lemma SecretsAreRead(crName: string, offsetStorage: bool, continuous: Option<bool>, tls: bool, auth: ResolvedAuth,
                       storage: Storage, configMap: string, cluster: string, caOverride: Option<SecretKeyRef>, extra: seq<UserVar>, e: EnvVar)
    requires BackupConfig(crName, offsetStorage, continuous, tls, auth, storage).Ok?
    requires e in BackupPod(configMap, cluster, tls, auth, storage, caOverride, extra).env && e.source.FromSecret?
    ensures var c := BackupConfig(crName, offsetStorage, continuous, tls, auth, storage).value;
            Reads(c.security, e.name) || Reads(c.storage, e.name)
  {
    var p := WithCa(PodParts([Volume(ConfigVolume, ConfigMapFiles(configMap))], [Mount(ConfigVolume, "/config")], []),
                    cluster, tls, auth, caOverride);
    var q := VolumesAndMounts(configMap, cluster, tls, auth, storage, caOverride);
    AuthSecretsRead(p, tls, auth);
    OverridesAreUsers(WithEnv(q, BACKUP_ID, JobNameLabel), extra);
    assert e in q.env;
    if e !in WithAuth(p, auth).env { StorageSecretsRead(WithAuth(p, auth), storage, e); }
  }

  lemma EffectiveSnoc(p: PodParts, name: EnvName, source: EnvSource, other: EnvName)
    ensures Effective(WithEnv(p, name, source).env, other) == if other == name then Some(source) else Effective(p.env, other)
  {
    assert (p.env + [EnvVar(name, source)])[..|p.env|] == p.env;
  }

  // What the user sets last wins, over the operator too.
  lemma {:induction false} UserWins(p: PodParts, extra: seq<UserVar>, name: EnvName)
    ensures Effective(Overridden(p, extra).env, name) ==
            var user := LastUserValue(extra, name);
            if user.Some? then Some(UserValue(user.value)) else Effective(p.env, name)
    decreases |extra|
  {
    if extra != [] {
      EffectiveSnoc(p, extra[0].name, UserValue(extra[0].value), name);
      UserWins(WithEnv(p, extra[0].name, UserValue(extra[0].value)), extra[1..], name);
    }
  }

  lemma {:induction false} EffectiveIsAnEntry(env: seq<EnvVar>, name: EnvName)
    requires exists e :: e in env && e.name == name
    ensures Effective(env, name).Some? && EnvVar(name, Effective(env, name).value) in env
    decreases |env|
  {
    var n := |env| - 1;
    if env[n].name != name {
      var e :| e in env && e.name == name;
      assert e in env[..n];
      EffectiveIsAnEntry(env[..n], name);
    }
  }

  ghost predicate OperatorsOnly(p: PodParts) { forall e :: e in p.env ==> !e.source.UserValue? }

  lemma StorageIsOperators(p: PodParts, s: Storage)
    requires OperatorsOnly(p)
    ensures OperatorsOnly(WithStorage(p, s))
  {
  }

  lemma OperatorsOwn(configMap: string, cluster: string, tls: bool, auth: ResolvedAuth, storage: Storage, caOverride: Option<SecretKeyRef>)
    ensures OperatorsOnly(VolumesAndMounts(configMap, cluster, tls, auth, storage, caOverride))
  {
    var p := PodParts([Volume(ConfigVolume, ConfigMapFiles(configMap))], [Mount(ConfigVolume, "/config")], []);
    var q := WithAuth(WithCa(p, cluster, tls, auth, caOverride), auth);
    assert OperatorsOnly(q);
    StorageIsOperators(q, storage);
  }

  // A variable the operator sets reaches the program as the operator set it exactly when the
  // user does not set the name.
  lemma OperatorValueIff(p: PodParts, extra: seq<UserVar>, name: EnvName)
    requires OperatorsOnly(p) && SetByOperator(p, name)
    ensures var source := Effective(Overridden(p, extra).env, name);
            source.Some? && (!source.value.UserValue? <==> LastUserValue(extra, name).None?)
  {
    UserWins(p, extra, name);
    EffectiveIsAnEntry(p.env, name);
  }

  ghost predicate PlaceholderIn(c: Config, name: EnvName) {
    || c.backupId == Placeholder(name)
    || (exists k :: k in c.security && c.security[k] == Placeholder(name))
    || (exists k :: k in c.storage && c.storage[k] == Placeholder(name))
  }

  // So every placeholder of a backup config has a value in the pod, and it is the operator's
  // exactly when the user does not set that name.
  lemma PlaceholderValueIff(crName: string, offsetStorage: bool, continuous: Option<bool>, tls: bool, auth: ResolvedAuth,
                            storage: Storage, configMap: string, cluster: string, caOverride: Option<SecretKeyRef>,
                            extra: seq<UserVar>, name: EnvName)
    requires BackupConfig(crName, offsetStorage, continuous, tls, auth, storage).Ok?
    requires PlaceholderIn(BackupConfig(crName, offsetStorage, continuous, tls, auth, storage).value, name)
    ensures var source := Effective(BackupPod(configMap, cluster, tls, auth, storage, caOverride, extra).env, name);
            source.Some? && (!source.value.UserValue? <==> LastUserValue(extra, name).None?)
  {
    var p := WithEnv(VolumesAndMounts(configMap, cluster, tls, auth, storage, caOverride), BACKUP_ID, JobNameLabel);
    BackupConfigAgrees(crName, offsetStorage, continuous, tls, auth, storage, configMap, cluster, caOverride, []);
    OperatorsOwn(configMap, cluster, tls, auth, storage, caOverride);
    OperatorValueIff(p, extra, name);
  }

  predicate NamesWithin(p: PodParts, names: set<VolumeName>) { forall v :: v in p.volumes ==> v.name in names }

  lemma VolumePaired(p: PodParts, name: VolumeName, source: Source, path: string, names: set<VolumeName>)
    requires Paired(p) && NamesWithin(p, names) && name !in names
    ensures Paired(WithVolume(p, name, source, path)) && NamesWithin(WithVolume(p, name, source, path), names + {name})
  {
  }

  // Mounts and volumes correspond one to one by name in every pod.
  lemma MountsArePaired(configMap: string, cluster: string, tls: bool, auth: ResolvedAuth, storage: Storage,
                        caOverride: Option<SecretKeyRef>, extra: seq<UserVar>)
    ensures Paired(BackupPod(configMap, cluster, tls, auth, storage, caOverride, extra))
    ensures Paired(RestorePod(configMap, cluster, tls, auth, storage, caOverride, extra))
  {
    var p := PodParts([Volume(ConfigVolume, ConfigMapFiles(configMap))], [Mount(ConfigVolume, "/config")], []);
    var q := WithCa(p, cluster, tls, auth, caOverride);
    var secret := CaSecret(cluster, caOverride);
    VolumePaired(p, ClusterCa, SecretFiles(secret.name, [(secret.key, CA_FILE)]), CLUSTER_CA_MOUNT, {ConfigVolume});
    assert Paired(q) && NamesWithin(q, {ConfigVolume, ClusterCa});
    AuthPaired(q, auth, {ConfigVolume, ClusterCa});
    var r := WithAuth(q, auth);
    StoragePaired(r, storage, {ConfigVolume, ClusterCa, UserCerts});
    var t := VolumesAndMounts(configMap, cluster, tls, auth, storage, caOverride);
    OverridesExtend(t, extra);
    OverridesExtend(WithEnv(t, BACKUP_ID, JobNameLabel), extra);
  }

  lemma AuthPaired(p: PodParts, auth: ResolvedAuth, names: set<VolumeName>)
    requires Paired(p) && NamesWithin(p, names) && UserCerts !in names
    ensures Paired(WithAuth(p, auth)) && NamesWithin(WithAuth(p, auth), names + {UserCerts})
  {
  }

  lemma CredentialsPaired(p: PodParts, secret: Option<SecretKeyRef>, variable: EnvName, names: set<VolumeName>)
    requires Paired(p) && NamesWithin(p, names) && StorageCredentials !in names
    ensures Paired(WithCredentialsFile(p, secret, variable))
  {
  }

  lemma StoragePaired(p: PodParts, s: Storage, names: set<VolumeName>)
    requires Paired(p) && NamesWithin(p, names) && StorageCredentials !in names
    ensures Paired(WithStorage(p, s))
  {
    match s.storageType
    case S3 =>
      if s.s3.Some? {
        var q := WithSecretEnv(WithSecretEnv(p, AWS_ACCESS_KEY_ID, s.s3.value.accessKeySecret), AWS_SECRET_ACCESS_KEY, s.s3.value.secretKeySecret);
        CredentialsPaired(q, s.s3.value.credentialsSecret, AWS_SHARED_CREDENTIALS_FILE, names);
      }
    case Gcs =>
      if s.gcs.Some? { CredentialsPaired(p, s.gcs.value.credentialsSecret, GOOGLE_APPLICATION_CREDENTIALS, names); }
    case _ =>
  }

  // The authentication a CR declares and the credentials it resolves to.
  predicate ResolvesTo(desired: Option<AuthenticationType>, auth: ResolvedAuth) {
    match desired
    case None => auth.NoAuth?
    case Some(TlsAuth) => auth.Tls?
    case Some(ScramSha512Auth) => auth.ScramSha512?
  }

  // Without an override the protocol is the one the chosen listener speaks: SASL exactly on a
  // SCRAM listener, and for SCRAM and for no authentication TLS exactly on a TLS listener. So
  // such a CR talks in plaintext only if no compatible listener that is as reachable has TLS.
  lemma ProtocolFollowsListener(ls: seq<Listener>, desired: Option<AuthenticationType>, auth: ResolvedAuth, i: nat)
    requires ResolvesTo(desired, auth) && Chosen(ls, desired, i)
    ensures SelectListener(ls, desired, None).Ok?
    ensures var protocol := ProtocolFor(SelectListener(ls, desired, None).value.tls, auth);
            && (protocol in {SASL_SSL, SASL_PLAINTEXT} <==> ls[i].authentication == Some("scram-sha-512"))
            && (if desired == Some(TlsAuth) then protocol == SSL else protocol in {SSL, SASL_SSL} <==> ls[i].tls == Some(true))
            && (protocol in {PLAINTEXT, SASL_PLAINTEXT} ==>
                  forall j: nat :: Candidate(ls, desired, j) && Reachable(ls[j]) == Reachable(ls[i]) ==> ls[j].tls != Some(true))
  {
    ChoiceOnFields(ls, desired);
    var j: nat :| Chosen(ls, desired, j) && SelectListener(ls, desired, None).value.tls == (ls[j].tls == Some(true));
    ChosenIsOne(ls, desired, i, j);
    assert |"tls"| != |"scram-sha-512"|;
  }
}
