/** The versioned object store as the in-memory mock in blob/mock_minio.go
    defines it, as values: one `Store` record holding every table the mock
    keeps, and one function per store operation giving the new store and the
    result. `MockMinio.MockMinioClient` updates the same tables in place and is
    proved to agree with these functions. */
module VersionedStore {
  import opened Wrappers
  import Decimal

  type Bytes = seq<bv8>

  /** One lifecycle rule: which of the two expirations it carries is given by
      the rule; the other stays at its zero value, as in the Go struct. */
  datatype LifecycleRule = LifecycleRule(
    id: string,
    status: string,
    delMarkerExpirationDays: int,
    noncurrentVersionExpirationDays: int)

  datatype LifecycleConfiguration = LifecycleConfiguration(rules: seq<LifecycleRule>)

  /** Errors a test injects into the mock. The per-object tables are keyed by
      `FaultKey(bucket, object)`, the per-bucket ones by the bucket name. */
  datatype Faults = Faults(
    getObject: map<string, string>,
    putObject: map<string, string>,
    bucketExists: map<string, string>,
    makeBucket: map<string, string>,
    enableVersioning: map<string, string>,
    removeObject: map<string, string>,
    removeBucket: map<string, string>,
    setLifecycle: map<string, string>)

  /** Everything the mock holds. `buckets` and `versioning` are the Go
      `map[string]bool` tables, whose only stored value is `true`. */
  datatype Store = Store(
    buckets: set<string>,
    objects: map<string, map<string, Bytes>>,
    objectVersions: map<string, map<string, map<string, Bytes>>>,
    latestVersions: map<string, map<string, string>>,
    versioning: set<string>,
    versionCounter: nat,
    lifecycleConfigs: map<string, LifecycleConfiguration>,
    faults: Faults)

  datatype UploadInfo = UploadInfo(bucket: string, key: string, size: nat, versionID: string)

  const NoFaults := Faults(map[], map[], map[], map[], map[], map[], map[], map[])

  /** The key of the per-object fault tables: `fmt.Sprintf("%s/%s", b, o)`. */
  function FaultKey(bucket: string, obj: string): string { bucket + "/" + obj }

  /** `m[k1][k2] = x` on a two-level table, creating the inner table first
      when `k1` is absent. */
  function Assign2<V>(m: map<string, map<string, V>>, k1: string, k2: string, x: V): map<string, map<string, V>> {
    var inner := if k1 in m then m[k1] else map[];
    m[k1 := inner[k2 := x]]
  }

  /** `m[k1][k2][k3] = x` on a three-level table, creating inner tables first. */
  function Assign3<V>(m: map<string, map<string, map<string, V>>>, k1: string, k2: string, k3: string, x: V)
    : map<string, map<string, map<string, V>>>
  {
    var inner := if k1 in m then m[k1] else map[];
    m[k1 := Assign2(inner, k2, k3, x)]
  }

  /** The version identifier the mock issues for counter value `n`. */
  function VersionId(n: nat): (v: string)
    ensures v != ""
  {
    "version-" + Decimal.NatToString(n)
  }

  /** The counter value a version identifier was issued for, if it has the
      mock's form. */
  function VersionNumber(v: string): Option<nat> {
    if |v| >= 8 && v[..8] == "version-" then Decimal.ParseNat(v[8..]) else None
  }

  lemma VersionNumberOfId(n: nat)
    ensures VersionNumber(VersionId(n)) == Some(n)
  {
    assert VersionId(n)[8..] == Decimal.NatToString(n);
    Decimal.ParseNatToString(n);
  }

  /** Version identifiers issued for different counter values differ. */
  lemma VersionIdInjective(m: nat, n: nat)
    requires m != n
    ensures VersionId(m) != VersionId(n)
  {
    VersionNumberOfId(m);
    VersionNumberOfId(n);
  }

  /** `v` was issued while the counter was at most `c`. */
  predicate IssuedBy(v: string, c: nat) {
    VersionNumber(v).Some? && 1 <= VersionNumber(v).value <= c
  }

  /** The consistency the mock's operations keep: the latest-object table and
      the bucket set agree; versioning, version and lifecycle tables only name
      existing buckets (version tables only versioned ones); every stored
      version identifier was issued by the counter; and a latest-version entry
      names a stored version holding the latest bytes. */
  ghost predicate Valid(s: Store) {
    TablesAgree(s) && IdsIssued(s) && LatestConsistent(s)
  }

  /** Every table names only existing buckets, version tables only versioned ones. */
  ghost predicate TablesAgree(s: Store) {
    && s.objects.Keys == s.buckets
    && s.versioning <= s.buckets
    && s.lifecycleConfigs.Keys <= s.buckets
    && s.objectVersions.Keys <= s.versioning
    && s.latestVersions.Keys <= s.versioning
  }

  /** Every stored version identifier was issued by the counter. */
  ghost predicate IdsIssued(s: Store) {
    forall b, o, v :: StoredVersion(s, b, o, v) ==> IssuedBy(v, s.versionCounter)
  }

  /** A latest-version entry names a stored version, which holds the latest
      bytes while the object has a latest entry. */
  ghost predicate LatestConsistent(s: Store) {
    forall b, o :: b in s.latestVersions && o in s.latestVersions[b] ==>
      && StoredVersion(s, b, o, s.latestVersions[b][o])
      && (b in s.objects && o in s.objects[b] ==> s.objectVersions[b][o][s.latestVersions[b][o]] == s.objects[b][o])
  }

  /** `newMockMinioClient`: every table empty, the counter at zero. */
  function Empty(): (s: Store)
    ensures Valid(s) && s.buckets == {} && s.versionCounter == 0
  {
    Store({}, map[], map[], map[], {}, 0, map[], NoFaults)
  }

  /** `GetObject`: with an empty version ID the latest bytes, otherwise the
      bytes stored under that version ID. An injected fault comes first; the
      bucket is looked up in the latest-object table. */
  function GetObject(s: Store, bucket: string, obj: string, versionID: string): (r: Result<Bytes>)
    ensures FaultKey(bucket, obj) !in s.faults.getObject && bucket !in s.objects ==> r.Err?
    ensures FaultKey(bucket, obj) !in s.faults.getObject && bucket in s.objects && versionID == "" ==>
      (r.Ok? <==> obj in s.objects[bucket]) && (r.Ok? ==> r.value == s.objects[bucket][obj])
    ensures FaultKey(bucket, obj) !in s.faults.getObject && bucket in s.objects && versionID != "" ==>
      (r.Ok? <==> StoredVersion(s, bucket, obj, versionID))
      && (r.Ok? ==> r.value == s.objectVersions[bucket][obj][versionID])
  {
    var key := FaultKey(bucket, obj);
    if key in s.faults.getObject then Err(s.faults.getObject[key])
    else if bucket !in s.objects then Err("bucket " + bucket + " does not exist")
    else if versionID != "" then
      if StoredVersion(s, bucket, obj, versionID) then Ok(s.objectVersions[bucket][obj][versionID])
      else Err("version " + versionID + " does not exist for object " + obj + " in bucket " + bucket)
    else if obj in s.objects[bucket] then Ok(s.objects[bucket][obj])
    else Err("object " + obj + " does not exist in bucket " + bucket)
  }

  predicate StoredVersion(s: Store, bucket: string, obj: string, versionID: string) {
    bucket in s.objectVersions && obj in s.objectVersions[bucket]
    && versionID in s.objectVersions[bucket][obj]
  }

  /** `PutObject`: replaces the latest bytes; on a versioned bucket also bumps
      the counter, stores the bytes under the new identifier and makes it the
      latest. A missing bucket or an injected fault is an error and changes
      nothing. */
  function PutObject(s: Store, bucket: string, obj: string, data: Bytes): (r: (Store, Result<UploadInfo>))
    ensures FaultKey(bucket, obj) in s.faults.putObject || bucket !in s.buckets ==> r.0 == s && r.1.Err?
    ensures r.1.Ok? ==> FaultKey(bucket, obj) !in s.faults.putObject && bucket in s.buckets
    ensures r.1.Ok? ==>
      && r.0.buckets == s.buckets && r.0.versioning == s.versioning
      && r.0.lifecycleConfigs == s.lifecycleConfigs && r.0.faults == s.faults
      && r.1.value.bucket == bucket && r.1.value.key == obj && r.1.value.size == |data|
    ensures r.1.Ok? && bucket !in s.versioning ==>
      && r.1.value.versionID == "" && r.0.versionCounter == s.versionCounter
      && r.0.objectVersions == s.objectVersions && r.0.latestVersions == s.latestVersions
    ensures r.1.Ok? ==> r.0.objects == Assign2(s.objects, bucket, obj, data)
    ensures r.1.Ok? && bucket in s.versioning ==>
      && r.1.value.versionID == VersionId(s.versionCounter + 1) && r.0.versionCounter == s.versionCounter + 1
      && r.0.objectVersions == Assign3(s.objectVersions, bucket, obj, r.1.value.versionID, data)
      && r.0.latestVersions == Assign2(s.latestVersions, bucket, obj, r.1.value.versionID)
      && bucket in r.0.latestVersions && obj in r.0.latestVersions[bucket]
      && r.0.latestVersions[bucket][obj] == r.1.value.versionID
  {
    var key := FaultKey(bucket, obj);
    if key in s.faults.putObject then (s, Err(s.faults.putObject[key]))
    else if bucket !in s.buckets then (s, Err("bucket " + bucket + " does not exist"))
    else
      var s1 := s.(objects := Assign2(s.objects, bucket, obj, data));
      if bucket in s.versioning then
        var vid := VersionId(s.versionCounter + 1);
        var s2 := s1.(
          versionCounter := s.versionCounter + 1,
          objectVersions := Assign3(s.objectVersions, bucket, obj, vid, data),
          latestVersions := Assign2(s.latestVersions, bucket, obj, vid));
        (s2, Ok(UploadInfo(bucket, obj, |data|, vid)))
      else
        (s1, Ok(UploadInfo(bucket, obj, |data|, "")))
  }

  /** `BucketExists`. */
  function BucketExists(s: Store, bucket: string): (r: Result<bool>)
    ensures bucket !in s.faults.bucketExists ==> r == Ok(bucket in s.buckets)
    ensures bucket in s.faults.bucketExists ==> r.Err?
  {
    if bucket in s.faults.bucketExists then Err(s.faults.bucketExists[bucket])
    else Ok(bucket in s.buckets)
  }

  /** `MakeBucket`: adds a new bucket with an empty object table; an existing
      bucket is an error. */
  function MakeBucket(s: Store, bucket: string): (r: (Store, Result<Unit>))
    ensures r.1.Ok? <==> bucket !in s.faults.makeBucket && bucket !in s.buckets
    ensures r.1.Err? ==> r.0 == s
    ensures r.1.Ok? ==> r.0 == s.(buckets := s.buckets + {bucket}, objects := s.objects[bucket := map[]])
  {
    if bucket in s.faults.makeBucket then (s, Err(s.faults.makeBucket[bucket]))
    else if bucket in s.buckets then (s, Err("bucket " + bucket + " already exists"))
    else (s.(buckets := s.buckets + {bucket}, objects := s.objects[bucket := map[]]), Ok(()))
  }

  /** `EnableVersioning`: fails on a missing bucket, otherwise only marks that
      bucket as versioned. */
  function EnableVersioning(s: Store, bucket: string): (r: (Store, Result<Unit>))
    ensures r.1.Ok? <==> bucket !in s.faults.enableVersioning && bucket in s.buckets
    ensures r.1.Err? ==> r.0 == s
    ensures r.1.Ok? ==> r.0 == s.(versioning := s.versioning + {bucket})
  {
    if bucket in s.faults.enableVersioning then (s, Err(s.faults.enableVersioning[bucket]))
    else if bucket !in s.buckets then (s, Err("bucket " + bucket + " does not exist"))
    else (s.(versioning := s.versioning + {bucket}), Ok(()))
  }

  /** `GetBucketVersioning`: "Enabled" or "Disabled"; a missing bucket is an
      error. The mock has no injected fault for this call. */
  function GetBucketVersioning(s: Store, bucket: string): (r: Result<string>)
    ensures r.Ok? <==> bucket in s.buckets
    ensures r.Ok? ==> (r.value == "Enabled" <==> bucket in s.versioning)
    ensures r.Ok? ==> (r.value == "Disabled" <==> bucket !in s.versioning)
  {
    if bucket !in s.buckets then Err("bucket " + bucket + " does not exist")
    else if bucket in s.versioning then Ok("Enabled") else Ok("Disabled")
  }

  /** `RemoveObject`: drops only the latest entry of the object; its stored
      versions stay. */
  function RemoveObject(s: Store, bucket: string, obj: string): (r: (Store, Result<Unit>))
    ensures r.1.Ok? <==> FaultKey(bucket, obj) !in s.faults.removeObject && bucket in s.objects
    ensures r.1.Err? ==> r.0 == s
    ensures r.1.Ok? ==> r.0 == s.(objects := s.objects[bucket := s.objects[bucket] - {obj}])
  {
    var key := FaultKey(bucket, obj);
    if key in s.faults.removeObject then (s, Err(s.faults.removeObject[key]))
    else if bucket !in s.objects then (s, Err("bucket " + bucket + " does not exist"))
    else (s.(objects := s.objects[bucket := s.objects[bucket] - {obj}]), Ok(()))
  }

  /** `RemoveBucket`: erases the bucket from every per-bucket table. The
      counter is kept. */
  function RemoveBucket(s: Store, bucket: string): (r: (Store, Result<Unit>))
    ensures r.1.Ok? <==> bucket !in s.faults.removeBucket && bucket in s.buckets
    ensures r.1.Err? ==> r.0 == s
    ensures r.1.Ok? ==>
      && bucket !in r.0.buckets && bucket !in r.0.objects && bucket !in r.0.versioning
      && bucket !in r.0.lifecycleConfigs && bucket !in r.0.objectVersions && bucket !in r.0.latestVersions
      && r.0.versionCounter == s.versionCounter
    ensures r.1.Ok? ==>
      r.0 == s.(buckets := s.buckets - {bucket}, objects := s.objects - {bucket},
                versioning := s.versioning - {bucket}, lifecycleConfigs := s.lifecycleConfigs - {bucket},
                objectVersions := s.objectVersions - {bucket}, latestVersions := s.latestVersions - {bucket})
  {
    if bucket in s.faults.removeBucket then (s, Err(s.faults.removeBucket[bucket]))
    else if bucket !in s.buckets then (s, Err("bucket " + bucket + " does not exist"))
    else
      (s.(buckets := s.buckets - {bucket},
          objects := s.objects - {bucket},
          versioning := s.versioning - {bucket},
          lifecycleConfigs := s.lifecycleConfigs - {bucket},
          objectVersions := s.objectVersions - {bucket},
          latestVersions := s.latestVersions - {bucket}), Ok(()))
  }

  /** `SetBucketLifecycle`: fails on a missing bucket, otherwise only sets that
      bucket's lifecycle entry. */
  function SetBucketLifecycle(s: Store, bucket: string, config: LifecycleConfiguration): (r: (Store, Result<Unit>))
    ensures r.1.Ok? <==> bucket !in s.faults.setLifecycle && bucket in s.buckets
    ensures r.1.Err? ==> r.0 == s
    ensures r.1.Ok? ==> r.0 == s.(lifecycleConfigs := s.lifecycleConfigs[bucket := config])
  {
    if bucket in s.faults.setLifecycle then (s, Err(s.faults.setLifecycle[bucket]))
    else if bucket !in s.buckets then (s, Err("bucket " + bucket + " does not exist"))
    else (s.(lifecycleConfigs := s.lifecycleConfigs[bucket := config]), Ok(()))
  }

  /** `createBucketForTesting`: a versioned bucket with empty tables (an
      existing bucket's tables are reset; its lifecycle entry is kept). */
  function CreateBucketForTesting(s: Store, bucket: string): (r: Store)
    ensures bucket in r.buckets && bucket in r.versioning
    ensures bucket in r.objects && r.objects[bucket] == map[]
    ensures bucket in r.objectVersions && r.objectVersions[bucket] == map[]
    ensures bucket in r.latestVersions && r.latestVersions[bucket] == map[]
    ensures r.lifecycleConfigs == s.lifecycleConfigs && r.versionCounter == s.versionCounter
    ensures r == s.(buckets := s.buckets + {bucket}, objects := s.objects[bucket := map[]],
                    versioning := s.versioning + {bucket}, objectVersions := s.objectVersions[bucket := map[]],
                    latestVersions := s.latestVersions[bucket := map[]])
  {
    s.(buckets := s.buckets + {bucket},
       objects := s.objects[bucket := map[]],
       versioning := s.versioning + {bucket},
       objectVersions := s.objectVersions[bucket := map[]],
       latestVersions := s.latestVersions[bucket := map[]])
  }
}
