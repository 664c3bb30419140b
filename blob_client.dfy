/** The blob client of blob/client.go and blob/operations.go: argument and
    bucket-name checks in front of the object store, the read and write
    paths, and bucket creation (create when absent, enable versioning,
    install two lifecycle rules). Each operation is a function on the
    `VersionedStore.Store` value, and a method performs the same steps on
    the in-memory store class and is proved to agree with it. */
module BlobClient {
  import opened Wrappers
  import opened VersionedStore
  import opened MockMinio
  import opened Configurations
  import opened Text
  import Decimal
  import StoreProperties

  /** `Client`: the store it talks to and the configuration, which may be
      nil. */
  datatype Client = Client(minioClient: MockMinioClient, config: Option<Config>)

  /** `NewClientWithInterface`: no checks; the configuration may be nil. */
  function NewClientWithInterface(minioClient: MockMinioClient, cfg: Option<Config>): (c: Client)
    ensures c.minioClient == minioClient && c.config == cfg
  {
    Client(minioClient, cfg)
  }

  /** The checks `NewClient` makes before it connects: endpoint, access key
      ID and secret access key must be set, in that order. */
  function NewClientChecks(cfg: Config): (r: Result<Unit>)
    ensures r.Ok? <==> cfg.blob.endpoint != "" && cfg.blob.accessKeyID != "" && cfg.blob.secretAccessKey != ""
    ensures cfg.blob.endpoint == "" ==> r == Err("endpoint is required")
    ensures cfg.blob.endpoint != "" && cfg.blob.accessKeyID == "" ==> r == Err("access key ID is required")
    ensures cfg.blob.endpoint != "" && cfg.blob.accessKeyID != "" && cfg.blob.secretAccessKey == "" ==>
      r == Err("secret access key is required")
  {
    if cfg.blob.endpoint == "" then Err("endpoint is required")
    else if cfg.blob.accessKeyID == "" then Err("access key ID is required")
    else if cfg.blob.secretAccessKey == "" then Err("secret access key is required")
    else Ok(())
  }

  // ---------------------------------------------------------------------------
  // Bucket names

  /** A character allowed at either end of a bucket name. */
  predicate BucketEdgeChar(c: char) { ('a' <= c <= 'z') || ('0' <= c <= '9') }

  /** A character allowed anywhere in a bucket name. */
  predicate BucketChar(c: char) { BucketEdgeChar(c) || c == '.' || c == '-' }

  /** The pattern `^[a-z0-9]([a-z0-9.-]*[a-z0-9])?$`: one edge character,
      or an edge character, any run of bucket characters and an edge
      character. */
  predicate MatchesBucketPattern(s: string) {
    |s| >= 1 && BucketEdgeChar(s[0])
    && (|s| == 1 || (BucketEdgeChar(s[|s| - 1]) && forall i :: 1 <= i < |s| - 1 ==> BucketChar(s[i])))
  }

  /** The names the client accepts: 3 to 63 characters, all lower-case
      letters, digits, dots and hyphens, starting and ending with a letter or
      digit, and without two dots in a row. */
  predicate ValidBucketName(b: string) {
    && 3 <= |b| <= 63
    && (forall i :: 0 <= i < |b| ==> BucketChar(b[i]))
    && BucketEdgeChar(b[0]) && BucketEdgeChar(b[|b| - 1])
    && !Contains(b, "..")
  }

  /** `validateBucketName`: length, then pattern, then consecutive dots. */
  function ValidateBucketName(b: string): (r: Result<Unit>)
    ensures !(3 <= |b| <= 63) ==>
      r == Err("bucket name must be between 3 and 63 characters, got length " + Decimal.NatToString(|b|))
  {
    if |b| < 3 || |b| > 63 then
      Err("bucket name must be between 3 and 63 characters, got length " + Decimal.NatToString(|b|))
    else if !MatchesBucketPattern(b) then Err("bucket name contains invalid characters or format: " + b)
    else if Contains(b, "..") then Err("bucket name cannot contain consecutive dots: " + b)
    else Ok(())
  }

  /** The checks accept exactly the valid names. */
  lemma ValidateBucketNameIff(b: string)
    ensures ValidateBucketName(b).Ok? <==> ValidBucketName(b)
  {
    if ValidBucketName(b) {
      assert MatchesBucketPattern(b);
    }
    if ValidateBucketName(b).Ok? {
      forall i | 0 <= i < |b|
        ensures BucketChar(b[i])
      {
        if i == 0 || i == |b| - 1 {
        }
      }
    }
  }

  /** An upper-case letter anywhere in a name makes it invalid. */
  lemma UpperCaseRejected(b: string, i: nat)
    requires i < |b| && 'A' <= b[i] <= 'Z'
    ensures ValidateBucketName(b).Err?
  {
    ValidateBucketNameIff(b);
  }

  /** Two dots in a row anywhere in a name make it invalid. */
  lemma DoubleDotRejected(b: string, i: nat)
    requires i + 2 <= |b| && b[i..i + 2] == ".."
    ensures ValidateBucketName(b).Err?
  {
    assert OccursAt(b, "..", i);
    ValidateBucketNameIff(b);
  }

  /** Every name of 3 to 63 lower-case letters, digits and hyphens that
      starts and ends with a letter or digit is accepted. */
  lemma DotFreeNameAccepted(b: string)
    requires 3 <= |b| <= 63
    requires forall i :: 0 <= i < |b| ==> BucketEdgeChar(b[i]) || b[i] == '-'
    requires BucketEdgeChar(b[0]) && BucketEdgeChar(b[|b| - 1])
    ensures ValidateBucketName(b) == Ok(())
  {
    forall i: nat | i <= |b|
      ensures !OccursAt(b, "..", i)
    {
      if i + 2 <= |b| {
        assert b[i..i + 2][0] == b[i];
      }
    }
    ValidateBucketNameIff(b);
  }

  // ---------------------------------------------------------------------------
  // Reads and writes on the store value

  /** `ReadFile`: the names must be non-empty; the version is passed on only
      when it is non-empty; a store error is wrapped with the file name. */
  function ReadFileOn(s: Store, bucket: string, file: string, versionID: string): (r: Result<Bytes>)
    ensures bucket != "" && file != "" ==> (r.Ok? <==> GetObject(s, bucket, file, versionID).Ok?)
    ensures r.Ok? ==> GetObject(s, bucket, file, versionID) == Ok(r.value)
  {
    if bucket == "" then Err("bucket name cannot be empty")
    else if file == "" then Err("file name cannot be empty")
    else match GetObject(s, bucket, file, versionID)
      case Err(e) => Err("failed to get object " + file + ": " + e)
      case Ok(data) => Ok(data)
  }

  /** `WriteFile`: the names must be non-empty and the payload non-nil (an
      empty payload is fine); the result is the version ID the store reports
      for the put. */
  function WriteFileOn(s: Store, bucket: string, file: string, data: Option<Bytes>): (r: (Store, Result<string>))
    ensures bucket == "" || file == "" || data.None? ==> r.0 == s && r.1.Err?
    ensures bucket != "" && file != "" && data.Some? ==>
      var (t, put) := PutObject(s, bucket, file, data.value);
      && r.0 == t && (r.1.Ok? <==> put.Ok?)
      && (r.1.Ok? ==> r.1.value == put.value.versionID)
  {
    if bucket == "" then (s, Err("bucket name cannot be empty"))
    else if file == "" then (s, Err("file name cannot be empty"))
    else if data.None? then (s, Err("data cannot be nil"))
    else
      var (t, put) := PutObject(s, bucket, file, data.value);
      match put
      case Err(e) => (t, Err("failed to put object " + file + ": " + e))
      case Ok(info) => (t, Ok(info.versionID))
  }

  /** Whether the latest-object table holds `file`; a missing bucket is an
      error. */
  function FileExistsOn(s: Store, bucket: string, file: string): (r: Result<bool>)
    ensures r.Ok? <==> bucket in s.objects
    ensures r.Ok? && FaultKey(bucket, file) !in s.faults.getObject ==> (r.value <==> GetObject(s, bucket, file, "").Ok?)
  {
    if bucket in s.objects then Ok(file in s.objects[bucket])
    else Err("bucket " + bucket + " does not exist")
  }

  /** An empty bucket or file name is rejected before the store is
      consulted: the answer does not depend on the store, which is left as
      it was. */
  lemma EmptyNamesRejected(s: Store, bucket: string, file: string, versionID: string, data: Option<Bytes>)
    requires bucket == "" || file == ""
    ensures var e := if bucket == "" then "bucket name cannot be empty" else "file name cannot be empty";
      && ReadFileOn(s, bucket, file, versionID) == Err(e)
      && WriteFileOn(s, bucket, file, data) == (s, Err(e))
  {
  }

  /** A nil payload is rejected before the store is consulted. */
  lemma NilDataRejected(s: Store, bucket: string, file: string)
    requires bucket != "" && file != ""
    ensures WriteFileOn(s, bucket, file, None) == (s, Err("data cannot be nil"))
  {
  }

  /** Round trip: after a successful write, reading the latest version
      returns the bytes written, zero-length ones included. */
  lemma ReadAfterWrite(s: Store, bucket: string, file: string, data: Bytes)
    requires Valid(s)
    requires WriteFileOn(s, bucket, file, Some(data)).1.Ok?
    requires FaultKey(bucket, file) !in s.faults.getObject
    ensures ReadFileOn(WriteFileOn(s, bucket, file, Some(data)).0, bucket, file, "") == Ok(data)
  {
    StoreProperties.ReadAfterPut(s, bucket, file, data);
  }

  /** Two puts to one key of a versioned bucket: distinct version IDs, each
      reading its own bytes afterwards, the latest read the second. */
  lemma TwoPuts(s: Store, bucket: string, file: string, d1: Bytes, d2: Bytes)
    requires Valid(s) && bucket in s.versioning
    requires FaultKey(bucket, file) !in s.faults.getObject
    requires PutObject(s, bucket, file, d1).1.Ok?
    requires PutObject(PutObject(s, bucket, file, d1).0, bucket, file, d2).1.Ok?
    ensures var first := PutObject(s, bucket, file, d1);
      var second := PutObject(first.0, bucket, file, d2);
      && first.1.value.versionID != second.1.value.versionID
      && GetObject(second.0, bucket, file, first.1.value.versionID) == Ok(d1)
      && GetObject(second.0, bucket, file, second.1.value.versionID) == Ok(d2)
      && GetObject(second.0, bucket, file, "") == Ok(d2)
  {
    var first := PutObject(s, bucket, file, d1);
    var t1, v1 := first.0, first.1.value.versionID;
    StoreProperties.ReadAfterPut(s, bucket, file, d1);
    assert GetObject(t1, bucket, file, v1) == Ok(d1);
    StoreProperties.PutObjectKeepsValid(s, bucket, file, d1);
    assert bucket in t1.versioning && t1.faults == s.faults;
    var second := PutObject(t1, bucket, file, d2);
    StoreProperties.ReadAfterPut(t1, bucket, file, d2);
    assert v1 == VersionId(s.versionCounter + 1);
    assert second.1.value.versionID == VersionId(s.versionCounter + 2);
    StoreProperties.PutObjectKeepsVersions(t1, bucket, file, d2, bucket, file, v1);
    VersionIdInjective(s.versionCounter + 1, s.versionCounter + 2);
  }

  /** Two writes to one key of a versioned bucket: the two version IDs
      differ, the first still reads the first payload, and the second and
      the latest read the second payload. */
  lemma TwoWrites(s: Store, bucket: string, file: string, d1: Bytes, d2: Bytes)
    requires Valid(s) && bucket in s.versioning
    requires FaultKey(bucket, file) !in s.faults.getObject
    requires WriteFileOn(s, bucket, file, Some(d1)).1.Ok?
    requires WriteFileOn(WriteFileOn(s, bucket, file, Some(d1)).0, bucket, file, Some(d2)).1.Ok?
    ensures var (t1, v1) := WriteFileOn(s, bucket, file, Some(d1));
      var (t2, v2) := WriteFileOn(t1, bucket, file, Some(d2));
      && v1.value != v2.value
      && ReadFileOn(t2, bucket, file, v1.value) == Ok(d1)
      && ReadFileOn(t2, bucket, file, v2.value) == Ok(d2)
      && ReadFileOn(t2, bucket, file, "") == Ok(d2)
  {
    TwoPuts(s, bucket, file, d1, d2);
  }

  /** A version ID the store never issued for the object cannot be read. */
  lemma UnknownVersionFails(s: Store, bucket: string, file: string, versionID: string)
    requires versionID != "" && !StoredVersion(s, bucket, file, versionID)
    ensures ReadFileOn(s, bucket, file, versionID).Err?
  {
  }

  // ---------------------------------------------------------------------------
  // Bucket creation on the store value

  /** `applyLifecycleRules`'s configuration: one enabled rule expiring
      delete markers after the configured delete-marker delay and one
      enabled rule expiring non-current versions after the configured
      non-current-version delay. */
  function LifecycleRules(cfg: Config): (lc: LifecycleConfiguration)
    ensures |lc.rules| == 2
    ensures forall i :: 0 <= i < 2 ==> lc.rules[i].status == "Enabled"
    ensures lc.rules[0].id != lc.rules[1].id
    ensures lc.rules[0].delMarkerExpirationDays == cfg.blob.deleteMarkerCleanupDelayDays
    ensures lc.rules[1].noncurrentVersionExpirationDays == cfg.blob.nonCurrentVersionCleanupDelayDays
    ensures lc.rules[0].noncurrentVersionExpirationDays == 0 && lc.rules[1].delMarkerExpirationDays == 0
    ensures lc.rules[0].id == "CleanDeleteMarkers" && lc.rules[1].id == "CleanOldVersions"
  {
    LifecycleConfiguration([
      LifecycleRule("CleanDeleteMarkers", "Enabled", cfg.blob.deleteMarkerCleanupDelayDays, 0),
      LifecycleRule("CleanOldVersions", "Enabled", 0, cfg.blob.nonCurrentVersionCleanupDelayDays)])
  }

  /** The first half of `CreateBucket` after the name checks: probe for the
      bucket and make it only when it is absent. On success the bucket
      exists; an existing bucket is left as it was. */
  function EnsureBucket(s: Store, bucket: string): (r: (Store, Result<Unit>))
    ensures r.1.Err? ==> r.0 == s
    ensures r.1.Ok? <==> bucket !in s.faults.bucketExists && (bucket in s.buckets || bucket !in s.faults.makeBucket)
    ensures r.1.Ok? && bucket in s.buckets ==> r.0 == s
    ensures r.1.Ok? && bucket !in s.buckets ==> r.0 == s.(buckets := s.buckets + {bucket}, objects := s.objects[bucket := map[]])
  {
    match BucketExists(s, bucket)
    case Err(e) => (s, Err("failed to check if bucket exists: " + e))
    case Ok(found) =>
      if found then (s, Ok(()))
      else
        var (s1, made) := MakeBucket(s, bucket);
        if made.Err? then (s1, Err("failed to create bucket " + bucket + ": " + made.msg))
        else (s1, Ok(()))
  }

  /** The second half: enable versioning, then, when a configuration is
      present, install the lifecycle rules. On success exactly the
      versioning set and the bucket's lifecycle entry change. */
  function ConfigureBucket(s: Store, cfg: Option<Config>, bucket: string): (r: (Store, Result<Unit>))
    ensures r.1.Ok? <==> (bucket in s.buckets && cfg.Some? && bucket !in s.faults.enableVersioning
                          && bucket !in s.faults.setLifecycle)
    ensures r.1.Ok? ==>
      r.0 == s.(versioning := s.versioning + {bucket},
                lifecycleConfigs := s.lifecycleConfigs[bucket := LifecycleRules(cfg.value)])
    ensures r.1.Err? ==> r.0 == s || r.0 == s.(versioning := s.versioning + {bucket})
  {
    var (s1, enabled) := EnableVersioning(s, bucket);
    if enabled.Err? then (s1, Err("failed to enable versioning on bucket " + bucket + ": " + enabled.msg))
    else if cfg.None? then (s1, Err("config is required to apply lifecycle rules to bucket " + bucket))
    else
      var (s2, applied) := SetBucketLifecycle(s1, bucket, LifecycleRules(cfg.value));
      if applied.Err? then (s2, Err("failed to apply lifecycle rules to bucket " + bucket + ": " + applied.msg))
      else (s2, Ok(()))
  }

  /** `CreateBucket`: the name checks, then the two halves. */
  function CreateBucketOn(s: Store, cfg: Option<Config>, bucket: string): (r: (Store, Result<Unit>))
    ensures bucket == "" ==> r == (s, Err("bucket name cannot be empty"))
  {
    if bucket == "" then (s, Err("bucket name cannot be empty"))
    else if ValidateBucketName(bucket).Err? then (s, ValidateBucketName(bucket))
    else
      var (s1, ensured) := EnsureBucket(s, bucket);
      if ensured.Err? then (s1, ensured)
      else ConfigureBucket(s1, cfg, bucket)
  }

  /** An empty or invalid name is rejected before the store is consulted. */
  lemma CreateBucketChecksNameFirst(s: Store, cfg: Option<Config>, bucket: string)
    requires !ValidBucketName(bucket)
    ensures CreateBucketOn(s, cfg, bucket).0 == s && CreateBucketOn(s, cfg, bucket).1.Err?
  {
    ValidateBucketNameIff(bucket);
  }

  /** After a successful creation the bucket exists, is versioned and has
      the two lifecycle rules; an existing bucket keeps its objects; no
      version, counter or other bucket changes. */
  lemma CreateBucketEffect(s: Store, cfg: Option<Config>, bucket: string)
    requires CreateBucketOn(s, cfg, bucket).1.Ok?
    ensures var t := CreateBucketOn(s, cfg, bucket).0;
      && cfg.Some? && ValidBucketName(bucket)
      && t.buckets == s.buckets + {bucket} && t.versioning == s.versioning + {bucket}
      && t.lifecycleConfigs == s.lifecycleConfigs[bucket := LifecycleRules(cfg.value)]
      && t.objectVersions == s.objectVersions && t.latestVersions == s.latestVersions
      && t.versionCounter == s.versionCounter && t.faults == s.faults
      && (bucket in s.buckets ==> t.objects == s.objects)
  {
    ValidateBucketNameIff(bucket);
  }

  /** Creating a bucket a second time changes nothing and succeeds again. */
  lemma CreateBucketIdempotent(s: Store, cfg: Option<Config>, bucket: string)
    requires CreateBucketOn(s, cfg, bucket).1.Ok?
    ensures var t := CreateBucketOn(s, cfg, bucket).0;
      CreateBucketOn(t, cfg, bucket) == (t, Ok(()))
  {
    var t := CreateBucketOn(s, cfg, bucket).0;
    CreateBucketEffect(s, cfg, bucket);
    assert EnsureBucket(t, bucket) == (t, Ok(()));
    assert t.versioning + {bucket} == t.versioning;
    assert t.lifecycleConfigs[bucket := LifecycleRules(cfg.value)] == t.lifecycleConfigs;
    assert ConfigureBucket(t, cfg, bucket).0 == t;
  }

  /** Without a configuration the call fails, but only after the bucket
      exists and has versioning on. */
  lemma CreateBucketWithoutConfig(s: Store, bucket: string)
    requires ValidBucketName(bucket)
    requires bucket !in s.faults.bucketExists && bucket !in s.faults.makeBucket && bucket !in s.faults.enableVersioning
    ensures var (t, r) := CreateBucketOn(s, None, bucket);
      && r == Err("config is required to apply lifecycle rules to bucket " + bucket)
      && bucket in t.buckets && bucket in t.versioning
  {
    ValidateBucketNameIff(bucket);
    var s1 := EnsureBucket(s, bucket).0;
    assert bucket in s1.buckets;
  }

  /** Probing and making the bucket keeps the store consistent. */
  lemma EnsureBucketKeepsValid(s: Store, bucket: string)
    requires Valid(s)
    ensures Valid(EnsureBucket(s, bucket).0)
  {
    if EnsureBucket(s, bucket).1.Ok? && bucket !in s.buckets {
      StoreProperties.MakeBucketKeepsValid(s, bucket);
    }
  }

  /** Enabling versioning and installing the rules keeps the store
      consistent. */
  lemma ConfigureBucketKeepsValid(s: Store, cfg: Option<Config>, bucket: string)
    requires Valid(s)
    ensures Valid(ConfigureBucket(s, cfg, bucket).0)
  {
    StoreProperties.EnableVersioningKeepsValid(s, bucket);
    var s1 := EnableVersioning(s, bucket).0;
    if cfg.Some? {
      StoreProperties.SetBucketLifecycleKeepsValid(s1, bucket, LifecycleRules(cfg.value));
    }
  }

  /** Creation keeps the store consistent. */
  lemma CreateBucketKeepsValid(s: Store, cfg: Option<Config>, bucket: string)
    requires Valid(s)
    ensures Valid(CreateBucketOn(s, cfg, bucket).0)
  {
    if bucket != "" && ValidateBucketName(bucket).Ok? {
      var (s1, ensured) := EnsureBucket(s, bucket);
      EnsureBucketKeepsValid(s, bucket);
      if ensured.Ok? {
        ConfigureBucketKeepsValid(s1, cfg, bucket);
        assert CreateBucketOn(s, cfg, bucket) == ConfigureBucket(s1, cfg, bucket);
      }
    }
  }

  // ---------------------------------------------------------------------------
  // The same operations on the in-memory store

  /** `ReadFile`. */
  method ReadFile(c: Client, bucket: string, file: string, versionID: string) returns (r: Result<Bytes>)
    ensures r == ReadFileOn(c.minioClient.Snapshot(), bucket, file, versionID)
  {
    if bucket == "" {
      return Err("bucket name cannot be empty");
    }
    if file == "" {
      return Err("file name cannot be empty");
    }
    var got := c.minioClient.GetObject(bucket, file, versionID);
    if got.Err? {
      return Err("failed to get object " + file + ": " + got.msg);
    }
    return Ok(got.value);
  }

  /** `WriteFile`. */
  method WriteFile(c: Client, bucket: string, file: string, data: Option<Bytes>) returns (r: Result<string>)
    modifies c.minioClient
    ensures (c.minioClient.Snapshot(), r) == WriteFileOn(old(c.minioClient.Snapshot()), bucket, file, data)
  {
    if bucket == "" {
      return Err("bucket name cannot be empty");
    }
    if file == "" {
      return Err("file name cannot be empty");
    }
    if data.None? {
      return Err("data cannot be nil");
    }
    var uploadInfo := c.minioClient.PutObject(bucket, file, data.value);
    if uploadInfo.Err? {
      return Err("failed to put object " + file + ": " + uploadInfo.msg);
    }
    return Ok(uploadInfo.value.versionID);
  }

  /** The existence query the write path uses when overwriting is off. */
  method FileExists(c: Client, bucket: string, file: string) returns (r: Result<bool>)
    ensures r == FileExistsOn(c.minioClient.Snapshot(), bucket, file)
  {
    if bucket in c.minioClient.objects {
      return Ok(file in c.minioClient.objects[bucket]);
    }
    return Err("bucket " + bucket + " does not exist");
  }

  /** `applyLifecycleRules`: one store call with the two rules. */
  method ApplyLifecycleRules(c: Client, bucket: string) returns (r: Result<Unit>)
    requires c.config.Some?
    modifies c.minioClient
    ensures (c.minioClient.Snapshot(), r)
      == SetBucketLifecycle(old(c.minioClient.Snapshot()), bucket, LifecycleRules(c.config.value))
  {
    r := c.minioClient.SetBucketLifecycle(bucket, LifecycleRules(c.config.value));
  }

  /** `CreateBucket`. */
  method CreateBucket(c: Client, bucket: string) returns (r: Result<Unit>)
    modifies c.minioClient
    ensures (c.minioClient.Snapshot(), r) == CreateBucketOn(old(c.minioClient.Snapshot()), c.config, bucket)
  {
    if bucket == "" {
      return Err("bucket name cannot be empty");
    }
    var valid := ValidateBucketName(bucket);
    if valid.Err? {
      return valid;
    }
    var present := c.minioClient.BucketExists(bucket);
    if present.Err? {
      return Err("failed to check if bucket exists: " + present.msg);
    }
    if !present.value {
      var made := c.minioClient.MakeBucket(bucket);
      if made.Err? {
        return Err("failed to create bucket " + bucket + ": " + made.msg);
      }
    }
    var enabled := c.minioClient.EnableVersioning(bucket);
    if enabled.Err? {
      return Err("failed to enable versioning on bucket " + bucket + ": " + enabled.msg);
    }
    if c.config.None? {
      return Err("config is required to apply lifecycle rules to bucket " + bucket);
    }
    var applied := ApplyLifecycleRules(c, bucket);
    if applied.Err? {
      return Err("failed to apply lifecycle rules to bucket " + bucket + ": " + applied.msg);
    }
    return Ok(());
  }
}
