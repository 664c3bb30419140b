/** `mockMinioClient` of blob/mock_minio.go: the versioned object store the
    blob client is tested against, as a class whose map fields the methods
    update in place. Each method is proved to agree with the function of the
    same name in `VersionedStore`, which is where the store's properties are
    stated and proved (module `StoreProperties`). */
module MockMinio {
  import opened Wrappers
  import opened VersionedStore

  class MockMinioClient {
    var buckets: set<string>
    var objects: map<string, map<string, Bytes>>
    var objectVersions: map<string, map<string, map<string, Bytes>>>
    var latestVersions: map<string, map<string, string>>
    var versioning: set<string>
    var versionCounter: nat
    var lifecycleConfigs: map<string, LifecycleConfiguration>
    /** The injected errors, keyed by bucket or by `bucket/object`: one record
        holding the eight error tables of the Go struct. */
    var faults: Faults

    /** The store these fields hold, as a value. */
    function Snapshot(): Store
      reads this
    {
      Store(buckets, objects, objectVersions, latestVersions, versioning, versionCounter, lifecycleConfigs, faults)
    }

    /** `newMockMinioClient`. */
    constructor ()
      ensures Snapshot() == Empty()
    {
      buckets, objects, objectVersions, latestVersions := {}, map[], map[], map[];
      versioning, versionCounter, lifecycleConfigs := {}, 0, map[];
      faults := NoFaults;
    }

    method GetObject(bucket: string, obj: string, versionID: string) returns (r: Result<Bytes>)
      ensures r == VersionedStore.GetObject(Snapshot(), bucket, obj, versionID)
    {
      var key := FaultKey(bucket, obj);
      if key in faults.getObject {
        return Err(faults.getObject[key]);
      }
      if bucket !in objects {
        return Err("bucket " + bucket + " does not exist");
      }
      var table := objects[bucket];
      if versionID != "" {
        var found := bucket in objectVersions && obj in objectVersions[bucket]
          && versionID in objectVersions[bucket][obj];
        if !found {
          return Err("version " + versionID + " does not exist for object " + obj + " in bucket " + bucket);
        }
        r := Ok(objectVersions[bucket][obj][versionID]);
      } else {
        if obj !in table {
          return Err("object " + obj + " does not exist in bucket " + bucket);
        }
        r := Ok(table[obj]);
      }
    }

    method PutObject(bucket: string, obj: string, data: Bytes) returns (r: Result<UploadInfo>)
      modifies this
      ensures (Snapshot(), r) == VersionedStore.PutObject(old(Snapshot()), bucket, obj, data)
    {
      var key := FaultKey(bucket, obj);
      if key in faults.putObject {
        r := Err(faults.putObject[key]);
      } else if bucket !in buckets {
        r := Err("bucket " + bucket + " does not exist");
      } else {
        var versionID := "";
        if bucket in versioning {
          versionID := VersionId(versionCounter + 1);
          objects, versionCounter, objectVersions, latestVersions :=
            Assign2(objects, bucket, obj, data), versionCounter + 1,
            Assign3(objectVersions, bucket, obj, versionID, data), Assign2(latestVersions, bucket, obj, versionID);
        } else {
          objects := Assign2(objects, bucket, obj, data);
        }
        r := Ok(UploadInfo(bucket, obj, |data|, versionID));
      }
    }

    method BucketExists(bucket: string) returns (r: Result<bool>)
      ensures r == VersionedStore.BucketExists(Snapshot(), bucket)
    {
      if bucket in faults.bucketExists {
        return Err(faults.bucketExists[bucket]);
      }
      r := Ok(bucket in buckets);
    }

    method MakeBucket(bucket: string) returns (r: Result<Unit>)
      modifies this
      ensures (Snapshot(), r) == VersionedStore.MakeBucket(old(Snapshot()), bucket)
    {
      if bucket in faults.makeBucket {
        return Err(faults.makeBucket[bucket]);
      }
      if bucket in buckets {
        return Err("bucket " + bucket + " already exists");
      }
      buckets := buckets + {bucket};
      objects := objects[bucket := map[]];
      r := Ok(());
    }

    method EnableVersioning(bucket: string) returns (r: Result<Unit>)
      modifies this
      ensures (Snapshot(), r) == VersionedStore.EnableVersioning(old(Snapshot()), bucket)
    {
      if bucket in faults.enableVersioning {
        return Err(faults.enableVersioning[bucket]);
      }
      if bucket !in buckets {
        return Err("bucket " + bucket + " does not exist");
      }
      versioning := versioning + {bucket};
      r := Ok(());
    }

    method GetBucketVersioning(bucket: string) returns (r: Result<string>)
      ensures r == VersionedStore.GetBucketVersioning(Snapshot(), bucket)
    {
      if bucket !in buckets {
        return Err("bucket " + bucket + " does not exist");
      }
      var status := "Disabled";
      if bucket in versioning {
        status := "Enabled";
      }
      r := Ok(status);
    }

    method RemoveObject(bucket: string, obj: string) returns (r: Result<Unit>)
      modifies this
      ensures (Snapshot(), r) == VersionedStore.RemoveObject(old(Snapshot()), bucket, obj)
    {
      var key := FaultKey(bucket, obj);
      if key in faults.removeObject {
        return Err(faults.removeObject[key]);
      }
      if bucket !in objects {
        return Err("bucket " + bucket + " does not exist");
      }
      objects := objects[bucket := objects[bucket] - {obj}];
      r := Ok(());
    }

    method RemoveBucket(bucket: string) returns (r: Result<Unit>)
      modifies this
      ensures (Snapshot(), r) == VersionedStore.RemoveBucket(old(Snapshot()), bucket)
    {
      if bucket in faults.removeBucket {
        return Err(faults.removeBucket[bucket]);
      }
      if bucket !in buckets {
        return Err("bucket " + bucket + " does not exist");
      }
      buckets := buckets - {bucket};
      objects := objects - {bucket};
      versioning := versioning - {bucket};
      lifecycleConfigs := lifecycleConfigs - {bucket};
      objectVersions := objectVersions - {bucket};
      latestVersions := latestVersions - {bucket};
      r := Ok(());
    }

    method SetBucketLifecycle(bucket: string, config: LifecycleConfiguration) returns (r: Result<Unit>)
      modifies this
      ensures (Snapshot(), r) == VersionedStore.SetBucketLifecycle(old(Snapshot()), bucket, config)
    {
      if bucket in faults.setLifecycle {
        return Err(faults.setLifecycle[bucket]);
      }
      if bucket !in buckets {
        return Err("bucket " + bucket + " does not exist");
      }
      lifecycleConfigs := lifecycleConfigs[bucket := config];
      r := Ok(());
    }

    /** `createBucketForTesting`. */
    method CreateBucketForTesting(bucket: string)
      modifies this
      ensures Snapshot() == VersionedStore.CreateBucketForTesting(old(Snapshot()), bucket)
    {
      buckets := buckets + {bucket};
      objects := objects[bucket := map[]];
      versioning := versioning + {bucket};
      objectVersions := objectVersions[bucket := map[]];
      latestVersions := latestVersions[bucket := map[]];
    }

    /** `setGetObjectError`: later reads of that object fail with `err`. */
    method SetGetObjectError(bucket: string, obj: string, err: string)
      modifies this
      ensures Snapshot() == old(Snapshot()).(faults := old(faults).(getObject := old(faults.getObject)[FaultKey(bucket, obj) := err]))
    {
      faults := faults.(getObject := faults.getObject[FaultKey(bucket, obj) := err]);
    }

    /** `setPutObjectError`: later writes of that object fail with `err`. */
    method SetPutObjectError(bucket: string, obj: string, err: string)
      modifies this
      ensures Snapshot() == old(Snapshot()).(faults := old(faults).(putObject := old(faults.putObject)[FaultKey(bucket, obj) := err]))
    {
      faults := faults.(putObject := faults.putObject[FaultKey(bucket, obj) := err]);
    }

    /** `setBucketExistsError`. */
    method SetBucketExistsError(bucket: string, err: string)
      modifies this
      ensures Snapshot() == old(Snapshot()).(faults := old(faults).(bucketExists := old(faults.bucketExists)[bucket := err]))
    {
      faults := faults.(bucketExists := faults.bucketExists[bucket := err]);
    }

    /** `setMakeBucketError`. */
    method SetMakeBucketError(bucket: string, err: string)
      modifies this
      ensures Snapshot() == old(Snapshot()).(faults := old(faults).(makeBucket := old(faults.makeBucket)[bucket := err]))
    {
      faults := faults.(makeBucket := faults.makeBucket[bucket := err]);
    }

    /** `setEnableVersioningError`. */
    method SetEnableVersioningError(bucket: string, err: string)
      modifies this
      ensures Snapshot() == old(Snapshot()).(faults := old(faults).(enableVersioning := old(faults.enableVersioning)[bucket := err]))
    {
      faults := faults.(enableVersioning := faults.enableVersioning[bucket := err]);
    }
  }
}
