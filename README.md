# NimbusDb shard pipeline, blob client and configuration: a Dafny model

NimbusDb is a node that stores files in an S3-compatible, versioned blob store
and serves them over NATS, one handler per owned shard. This project models
the parts of it that compute or change state in sequence:

- **The in-memory versioned object store** used as the store's reference
  behaviour (`blob/mock_minio.go`). `VersionedStore` holds one function per
  call on a `Store` value: buckets, latest objects, stored versions per
  object, the latest version ID, the versioning set, the version counter,
  lifecycle entries and injected faults. `MockMinio.MockMinioClient` is a
  class with the same map fields. Each of its methods updates those fields
  in place and is proved equal to the function. `StoreProperties` proves
  several things about the store:
  - a consistency invariant (`Valid`) is kept by every call;
  - a put reads back;
  - stored versions stay readable;
  - no version ID is handed out twice over any run of calls.
- **The blob client** (`blob/operations.go`, `blob/client.go`). It covers:
  - the constructor checks;
  - the bucket-name rule;
  - the guarded `ReadFile` and `WriteFile`, where a nil payload is refused
    and an empty one is not;
  - `CreateBucket`: make the bucket if it is absent, always enable
    versioning, then install the two lifecycle rules.
- **Shard-ownership state** (`configurations/state.go`) and the process-wide
  cells of `db/common.go`: the once-only `InitializeGlobals`, the state cell,
  and the `0..ShardCount-1` single-node initialisation.
- **The shard dispatcher** (`db/common.go`, `db/shard_operations.go`). It
  covers:
  - header extraction;
  - routing by operation type;
  - the write-if-absent guard;
  - the 200/400/500 envelopes;
  - a handler loop that drains a bounded FIFO queue and answers every
    message exactly once;
  - the per-shard subjects.
- **Configuration**:
  - zero-means-default filling, range checks, the subject-prefix charset
    and the environment-variable key map (`configurations/loader.go`);
  - mode normalisation and validation (`configurations/program_arguments.go`);
  - log-level parsing (`configurations/logger.go`).

Go's `nil` is `None` of an `Option`. An `error` is `Err(msg)` of a `Result`,
and the message is the one the source formats. `fmt`'s `%d` and
`strconv.Atoi` are modelled in `Decimal`. `strings.TrimSpace` and
`strings.ToLower` are modelled in `Text`.

## Model

| member | source | states |
|---|---|---|
| VersionedStore.Empty | blob/mock_minio.go:37-54 | a new store is consistent, has no bucket and its counter is 0 |
| VersionedStore.VersionIdInjective | blob/mock_minio.go:142 | distinct counter values give distinct `version-N` identifiers |
| VersionedStore.VersionNumberOfId | blob/mock_minio.go:142 | the number in `version-N` parses back to N |
| VersionedStore.GetObject | blob/mock_minio.go:76-112 | with an empty version ID it returns the latest bytes, otherwise the bytes stored under that ID; a missing bucket, object or version is an error; an injected fault comes first |
| VersionedStore.PutObject | blob/mock_minio.go:115-166 | a fault or a missing bucket is an error and leaves the store unchanged; on success only the written object's latest bytes change in the object table and buckets, versioning, lifecycle rules and faults stay; on a versioned bucket it returns `version-(counter+1)`, bumps the counter, stores the bytes under that identifier and makes it the object's latest; on an unversioned one it returns "" and leaves the version tables and counter as they were |
| VersionedStore.BucketExists | blob/mock_minio.go:169-178 | answers membership unless a fault is injected |
| VersionedStore.MakeBucket | blob/mock_minio.go:181-197 | succeeds exactly when the bucket is new and no fault is set, adding it with an empty object table; otherwise nothing changes |
| VersionedStore.EnableVersioning | blob/mock_minio.go:200-214 | succeeds exactly when the bucket exists, and then only marks it versioned |
| VersionedStore.GetBucketVersioning | blob/mock_minio.go:217-233 | "Enabled" exactly for versioned buckets, "Disabled" otherwise; a missing bucket is an error |
| VersionedStore.RemoveObject | blob/mock_minio.go:236-252 | drops only the latest entry of the object |
| VersionedStore.RemoveBucket | blob/mock_minio.go:255-275 | on success the new store is the old one with the bucket taken out of the bucket set, the object, versioning, lifecycle, version and latest-version tables; nothing else (counter, faults) changes |
| VersionedStore.SetBucketLifecycle | blob/mock_minio.go:278-292 | succeeds exactly when the bucket exists, and then only sets its lifecycle entry |
| VersionedStore.CreateBucketForTesting | blob/mock_minio.go:341-349 | the new store is the old one with the bucket added and versioned and with empty object, version and latest-version tables for it; lifecycle rules, counter and faults are unchanged |
| MockMinio.MockMinioClient.constructor | blob/mock_minio.go:37-54 | the new client's state is the empty store |
| MockMinio.MockMinioClient.GetObject | blob/mock_minio.go:76-112 | answers as `VersionedStore.GetObject` on the current fields |
| MockMinio.MockMinioClient.PutObject | blob/mock_minio.go:115-166 | the new fields and the reply are those of `VersionedStore.PutObject` on the old fields |
| MockMinio.MockMinioClient.BucketExists | blob/mock_minio.go:169-178 | answers as `VersionedStore.BucketExists` |
| MockMinio.MockMinioClient.MakeBucket | blob/mock_minio.go:181-197 | the new fields and the reply are those of `VersionedStore.MakeBucket` |
| MockMinio.MockMinioClient.EnableVersioning | blob/mock_minio.go:200-214 | the new fields and the reply are those of `VersionedStore.EnableVersioning` |
| MockMinio.MockMinioClient.GetBucketVersioning | blob/mock_minio.go:217-233 | answers as `VersionedStore.GetBucketVersioning` |
| MockMinio.MockMinioClient.RemoveObject | blob/mock_minio.go:236-252 | the new fields and the reply are those of `VersionedStore.RemoveObject` |
| MockMinio.MockMinioClient.RemoveBucket | blob/mock_minio.go:255-275 | the new fields and the reply are those of `VersionedStore.RemoveBucket` |
| MockMinio.MockMinioClient.SetBucketLifecycle | blob/mock_minio.go:278-292 | the new fields and the reply are those of `VersionedStore.SetBucketLifecycle` |
| MockMinio.MockMinioClient.CreateBucketForTesting | blob/mock_minio.go:341-349 | the new fields are those of `VersionedStore.CreateBucketForTesting` |
| MockMinio.MockMinioClient.SetGetObjectError | blob/mock_minio.go:304-309 | only the get-object fault for that bucket/object key changes |
| MockMinio.MockMinioClient.SetPutObjectError | blob/mock_minio.go:312-317 | only the put-object fault for that key changes |
| MockMinio.MockMinioClient.SetBucketExistsError | blob/mock_minio.go:320-324 | only that bucket's existence-probe fault changes |
| MockMinio.MockMinioClient.SetMakeBucketError | blob/mock_minio.go:327-331 | only that bucket's make-bucket fault changes |
| MockMinio.MockMinioClient.SetEnableVersioningError | blob/mock_minio.go:334-338 | only that bucket's enable-versioning fault changes |
| StoreProperties.PutObjectKeepsValid | blob/mock_minio.go:115-166 | a put keeps the consistency invariant |
| StoreProperties.MakeBucketKeepsValid | blob/mock_minio.go:181-197 | making a bucket keeps the invariant |
| StoreProperties.EnableVersioningKeepsValid | blob/mock_minio.go:200-214 | enabling versioning keeps the invariant |
| StoreProperties.RemoveObjectKeepsValid | blob/mock_minio.go:236-252 | removing an object keeps the invariant |
| StoreProperties.RemoveBucketKeepsValid | blob/mock_minio.go:255-275 | removing a bucket keeps the invariant |
| StoreProperties.SetBucketLifecycleKeepsValid | blob/mock_minio.go:278-292 | setting a lifecycle keeps the invariant |
| StoreProperties.CreateBucketForTestingKeepsValid | blob/mock_minio.go:341-349 | the test helper keeps the invariant |
| StoreProperties.ApplyKeepsValid | blob/mock_minio.go:115-292 | every mutating call keeps the invariant |
| StoreProperties.PutObjectVersionTables | blob/mock_minio.go:141-158 | a versioned put adds the new identifier to the written object's version table only |
| StoreProperties.PutObjectIssuesFreshId | blob/mock_minio.go:141-146 | the identifier a put hands out is not stored anywhere yet |
| StoreProperties.ReadAfterPut | blob/mock_minio.go:115-166 | after a successful put the latest read, and on a versioned bucket the read by the returned identifier, give the bytes written |
| StoreProperties.PutObjectKeepsOtherLatest | blob/mock_minio.go:128-137 | in a store whose tables agree, a put leaves the latest read of every other object, in any bucket, as it was |
| StoreProperties.PutObjectKeepsVersions | blob/mock_minio.go:141-158 | a put leaves every readable version readable with the same bytes |
| StoreProperties.RemoveObjectKeepsVersions | blob/mock_minio.go:245-251 | after removing an object, reads by version answer as before and the latest read fails |
| StoreProperties.LatestVersionReadsLatest | blob/mock_minio.go:148-158 | in a consistent store the latest version ID reads the latest bytes |
| StoreProperties.ApplyCounter | blob/mock_minio.go:142 | no call lowers the counter; a handed-out identifier is numbered with the new counter |
| StoreProperties.RunNumbered | blob/mock_minio.go:142 | along any run of calls, each identifier handed out is numbered one past the counter before its call |
| StoreProperties.NumberedMonotone | blob/mock_minio.go:142 | along a run the counter never decreases |
| StoreProperties.NumberedDistinct | blob/mock_minio.go:142 | along a numbered run no identifier repeats |
| StoreProperties.RunIdsDistinct | blob/mock_minio.go:141-146 | over any run of store calls, no two calls hand out the same version ID |
| StoreProperties.RunIdsInRange | blob/mock_minio.go:141-146 | every identifier handed out in a run is above the starting counter and issued by the final one |
| BlobClient.NewClientWithInterface | blob/client.go:70-75 | the client holds the given store and configuration, nil included |
| BlobClient.NewClientChecks | blob/client.go:29-37 | succeeds exactly when endpoint, access key ID and secret are all set; otherwise the first missing one is named |
| BlobClient.ValidateBucketNameIff | blob/operations.go:22-42 | the name check accepts exactly names of 3 to 63 characters from `[a-z0-9.-]`, starting and ending with a letter or digit, without `..` |
| BlobClient.ValidateBucketName | blob/operations.go:27-30 | a name of the wrong length is rejected with its length in the message |
| BlobClient.UpperCaseRejected | blob/operations.go:22-42 | any name holding an upper-case letter is rejected |
| BlobClient.DoubleDotRejected | blob/operations.go:37-39 | any name holding ".." at any position is rejected |
| BlobClient.DotFreeNameAccepted | blob/operations.go:22-42 | every name of 3 to 63 lower-case letters, digits and hyphens that starts and ends with a letter or digit is accepted |
| BlobClient.ReadFileOn | blob/operations.go:57-82 | with non-empty names it succeeds exactly when the store read does, and returns its bytes |
| BlobClient.WriteFileOn | blob/operations.go:95-114 | empty names or a nil payload are errors and change nothing; otherwise the store is the store after the put and the result is the put's version ID |
| BlobClient.FileExistsOn | db/shard_operations.go:128 | a missing bucket is an error; otherwise true exactly when a latest read would succeed |
| BlobClient.EmptyNamesRejected | blob/operations.go:57-63 | an empty bucket or file name is refused, bucket first, before the store is consulted |
| BlobClient.NilDataRejected | blob/operations.go:102-104 | a nil payload is refused and nothing is written |
| BlobClient.ReadAfterWrite | blob/operations.go:57-114 | after a successful write the latest read returns the bytes written, an empty payload included |
| BlobClient.TwoPuts | blob/mock_minio.go:141-158 | two puts to one versioned key give distinct IDs, each reading its own bytes, and the latest reads the second |
| BlobClient.TwoWrites | blob/operations.go:57-114 | two writes to one versioned key give distinct version IDs; the first ID still reads the first payload; the second ID and the latest read the second |
| BlobClient.UnknownVersionFails | blob/operations.go:65-73 | a version ID the store does not hold cannot be read |
| BlobClient.LifecycleRules | blob/operations.go:170-196 | exactly two enabled rules: "CleanDeleteMarkers" expiring delete markers after the configured delay and nothing else, and "CleanOldVersions" expiring non-current versions after the configured delay and nothing else |
| BlobClient.EnsureBucket | blob/operations.go:133-144 | the bucket is made only when absent; on success it exists, and an existing bucket is left untouched |
| BlobClient.ConfigureBucket | blob/operations.go:147-163 | on success only the versioning set and the bucket's lifecycle entry change; a nil configuration fails after versioning is on |
| BlobClient.CreateBucketOn | blob/operations.go:124-127 | an empty name is refused first |
| BlobClient.CreateBucketChecksNameFirst | blob/operations.go:124-130 | an invalid name is refused and the store is unchanged |
| BlobClient.CreateBucketEffect | blob/operations.go:124-166 | after success the bucket exists, is versioned and has the two rules; an existing bucket keeps its objects; versions and the counter are untouched |
| BlobClient.CreateBucketIdempotent | blob/operations.go:133-150 | creating the same bucket again succeeds and changes nothing |
| BlobClient.CreateBucketWithoutConfig | blob/operations.go:152-155 | without a configuration the call fails, but only after the bucket exists and is versioned |
| BlobClient.EnsureBucketKeepsValid | blob/operations.go:133-144 | the probe-and-make step keeps the store consistent |
| BlobClient.ConfigureBucketKeepsValid | blob/operations.go:147-163 | the versioning-and-rules step keeps the store consistent |
| BlobClient.CreateBucketKeepsValid | blob/operations.go:124-166 | bucket creation keeps the store consistent |
| BlobClient.ReadFile | blob/operations.go:57-82 | on the in-memory store it answers as `ReadFileOn` |
| BlobClient.WriteFile | blob/operations.go:95-114 | on the in-memory store the new state and result are those of `WriteFileOn` |
| BlobClient.FileExists | db/shard_operations.go:128 | answers as `FileExistsOn` |
| BlobClient.ApplyLifecycleRules | blob/operations.go:170-196 | one lifecycle call with `LifecycleRules` of the configuration |
| BlobClient.CreateBucket | blob/operations.go:124-166 | on the in-memory store the new state and result are those of `CreateBucketOn` |
| ShardState.NewState | configurations/state.go:16-20 | the state holds the given slice itself, nil included |
| ShardState.GetShardIDs | configurations/state.go:33-42 | nil on a nil state; otherwise a non-nil slice with the stored elements in order |
| ShardState.GetShardIDsUnsafe | configurations/state.go:58-63 | nil on a nil state; otherwise the stored slice |
| ShardState.AccessorsAgree | configurations/state.go:33-63 | both accessors see the same IDs; they differ only when the stored slice is nil |
| ShardState.NewStateRoundTrip | configurations/state.go:16-42 | IDs given to `NewState` come back from both accessors in order |
| ShardState.EmptyStateAccessors | configurations/state_test.go:120-131 | an empty state gives an empty, non-nil result from both accessors |
| DbCommon.HeaderGet | db/common.go:161 | the first value under the key, or "" |
| DbCommon.ParseBool | db/common.go:186 | true for the six true spellings, false for the six false ones, error otherwise |
| DbCommon.ExtractShardOperationHeaders | db/common.go:157-199 | succeeds exactly when type is a present integer, fileName and bucketName are non-empty and overwrite is absent or a boolean; errors come in that order; an absent overwrite means true |
| DbCommon.ExtractEncoded | db/common.go:157-199 | extracting an encoded header record gives the record back |
| DbCommon.OverwriteDefaultsToTrue | db/common.go:183-190 | without an overwrite header a valid request overwrites |
| DbCommon.ErrorEnvelope | db/common.go:129-136 | the envelope carries the given status and description |
| DbCommon.SuccessEnvelope | db/common.go:138-146 | the envelope is `{error: "", status: 200}` |
| DbCommon.Globals.constructor | db/common.go:26-48 | nothing is set and the state cell is empty |
| DbCommon.Globals.InitializeGlobals | db/common.go:72-79 | only the first call sets the four handles; later calls change nothing |
| DbCommon.Globals.GetGlobalState | db/common.go:100-108 | None until a state is stored (the constructor leaves it None), then the state last stored by `SetGlobalState` |
| DbCommon.Globals.SetGlobalState | db/common.go:113-115 | `GetGlobalState` then returns the stored state; nothing else changes |
| DbCommon.Globals.InitializeSingleModeState | db/common.go:84-90 | the state cell holds a state owning `0..ShardCount-1` |
| DbCommon.SingleModeShardIDsExact | db/common.go:84-90 | the single-node IDs are exactly `0..ShardCount-1`, ascending, and empty for a count of 0 |
| DbCommon.BuildShardIDs | db/common.go:85-88 | the append loop builds exactly the single-node ID list |
| ShardOperations.WriteOp | db/shard_operations.go:120-149 | with overwrite off, a probe error gives 500 and an existing file 400, and nothing is written; otherwise the store is the store after the write, a write error gives 500 and success 200 |
| ShardOperations.ReadOp | db/shard_operations.go:159-175 | a successful latest read is answered with the bytes unchanged; a read error with 500 and the message "failed to read file: " followed by the error's text |
| ShardOperations.ProcessMessage | db/shard_operations.go:85-109 | only a request answered with the success envelope can change the store |
| ShardOperations.ProcessAll | db/shard_operations.go:86-108 | a queue gets exactly one response per message |
| ShardOperations.BadHeaderIs400 | db/shard_operations.go:88-92 | a header that fails extraction is answered 400 with the extraction error; the store is untouched |
| ShardOperations.PointOperationsRouted | db/shard_operations.go:95-99 | with valid headers, type 0 is exactly the write handler on the header's file, bucket and overwrite flag, type 1 exactly the read handler on the store unchanged |
| ShardOperations.OtherTypesAre400 | db/shard_operations.go:100-105 | types 2 and 3 are answered 400 "not yet implemented", any other non-0/1 type 400 naming it; the store is untouched |
| ShardOperations.NilBodyIs500 | db/shard_operations.go:140-145 | a write with a nil body is answered 500 with the client's nil-data error, and nothing is written |
| ShardOperations.WriteIfAbsent | db/shard_operations.go:127-137 | with overwrite off an existing file is refused with 400 and kept; with overwrite on it is replaced and answered 200 |
| ShardOperations.ReadReturnsLatest | db/shard_operations.go:166-174 | a read is answered with the object's latest bytes |
| ShardOperations.ProcessMessageKeepsValid | db/shard_operations.go:85-175 | handling a message keeps the store consistent |
| ShardOperations.ProcessAllKeepsValid | db/shard_operations.go:86-108 | handling a queue keeps the store consistent |
| ShardOperations.ProcessAllInOrder | db/shard_operations.go:86-108 | the i-th response answers the i-th message in the store the first i messages left |
| ShardOperations.ProcessAllAppend | db/shard_operations.go:86-108 | handling two queues in turn is handling their concatenation: the responses are concatenated and the second queue starts from the store the first left |
| ShardOperations.ProcessTwo | db/shard_operations.go:86-108 | a two-message queue is handled message by message |
| ShardOperations.WriteThenRead | db/shard_operations.go:120-175 | a successful point write followed by a point read of the same key answers 200, then the bytes written |
| ShardOperations.ShardSubject | db/shard_operations.go:60 | the subject starts with the configured prefix |
| ShardOperations.ShardSubjectInjective | db/shard_operations.go:60 | distinct shards listen on distinct subjects |
| ShardOperations.ShardChannel.constructor | db/shard_operations.go:61 | a new queue is empty with the requested capacity |
| ShardOperations.ShardChannel.Send | db/shard_operations.go:61-62 | a message is queued at the back exactly when there is room |
| ShardOperations.ShardChannel.Receive | db/shard_operations.go:86 | the front message is taken, the rest stays in order, and the queue stays within its capacity |
| ShardOperations.HandleWriteOperation | db/shard_operations.go:120-149 | on the in-memory store the new state and the response are those of `WriteOp` |
| ShardOperations.HandleReadOperation | db/shard_operations.go:159-175 | the response is that of `ReadOp` |
| ShardOperations.HandleMessage | db/shard_operations.go:87-106 | the new state and the response are those of `ProcessMessage` |
| ShardOperations.HandleShardOperation | db/shard_operations.go:85-109 | drains the queue, which stays within its capacity; the new state and the responses are those of `ProcessAll` on the old queue |
| ShardOperations.StartShardHandlers | db/shard_operations.go:40-78 | missing globals or state are errors; no shards means no handlers; otherwise one handler per shard ID in order, on its subject, with a new empty queue of the configured capacity |
| Configurations.FillDefaults | configurations/loader.go:101-127 | the field-by-field filling equals `WithDefaults` |
| Configurations.WithDefaultsFields | configurations/loader.go:101-127 | for each of the nine defaulted fields (health port, both cleanup delays, NATS URL, subject prefix, drain timeout, blob operation timeout, channel buffer size, log level) a set value is kept, negative ones included, and a zero or empty one takes its default; the other fields are untouched |
| Configurations.WithDefaultsIdempotent | configurations/loader.go:101-127 | with non-zero defaults, filling twice is filling once |
| Configurations.FirstInvalid | configurations/loader.go:200-210 | finds the first character outside `[A-Za-z0-9._:-]`, or none |
| Configurations.ValidateNATSConfig | configurations/loader.go:190-213 | accepts exactly a non-empty prefix of subject characters; empty is its own error |
| Configurations.ValidateConfig | configurations/loader.go:150-171 | accepts exactly a port in 1..65535, both delays in 1..365 and a valid NATS section; checks run in source order: a bad port is reported with its value, then a bad delete-marker delay, then a bad non-current delay, each with its message, and with all three in range the result is that of `ValidateNATSConfig` |
| Configurations.Load | configurations/loader.go:101-131 | returns the defaulted configuration exactly when it validates, otherwise no configuration and the validation error |
| Configurations.DefaultsPassValidation | configurations/constants.go:14-20 | the default port and delays pass their range checks |
| Configurations.HealthPortCheckedFirst | configurations/loader.go:152-154 | a port out of range is the reported error |
| Configurations.FullKey | configurations/loader.go:33-44 | the key is the tag, prefixed with the parent path and a dot when there is one |
| Configurations.BuildEnvMapRecursive | configurations/loader.go:27-55 | the in-place filling equals the fold `EnvMapOf` |
| Configurations.EnvMapValuesNonEmpty | configurations/loader.go:27-55 | every entry of the table is either an entry of the starting map left as it was or maps to a non-empty key |
| Configurations.EnvMapFromScratch | configurations/loader.go:18-24 | starting from an empty map, every entry comes from a field |
| Configurations.EnvMapAppend | configurations/loader.go:28-55 | walking two field lists in turn is walking their concatenation |
| Configurations.EnvMapLeaf | configurations/loader.go:46-48 | a tagged plain field maps its env tag to its dotted key |
| Configurations.EnvMapStruct | configurations/loader.go:50-54 | a nested struct is descended into exactly when it has a koanf tag |
| Configurations.EnvMapPlainKeeps | configurations/loader.go:27-55 | entries of other env tags are not disturbed |
| Configurations.EnvMapFirstPlain | configurations/loader.go:27-55 | a plain top-level field's entry survives the rest of the walk |
| Configurations.EnvMapThreeStructs | configurations/loader.go:27-55 | after the top-level fields, the `blob`, `nats` and `db` sections are walked in that order, each under its own key as prefix |
| Configurations.NatsUrlEntry | configurations/loader_test.go:203-222 | `NATS_URL` maps to `nats.url` |
| Configurations.ShardCountEntry | configurations/loader_test.go:203-222 | `SHARD_COUNT` maps to `shardCount` |
| Configurations.ConfigEnvMap | configurations/loader.go:18-24 | the configuration's map sends `SHARD_COUNT` to `shardCount` and `NATS_URL` to `nats.url` |
| Configurations.BuildEnvMap | configurations/loader.go:18-24 | builds the map for the configuration's field tree from an empty map |
| ProgramArguments.IsValidValue | configurations/program_arguments.go:121-129 | true exactly when the trimmed, lower-cased value equals the lower case of some valid value |
| ProgramArguments.GetMode | configurations/program_arguments.go:135-137 | the result is `ToLower(TrimSpace(mode))`: no upper-case letter, no space at either end |
| ProgramArguments.Validate | configurations/program_arguments.go:98-111 | an error exactly when the mode is invalid; its message contains "invalid mode" |
| ProgramArguments.IsValidModes | configurations/program_arguments.go:44-129 | a mode is valid exactly when it normalises to "single" or "distributed" |
| ProgramArguments.GetModeOfValidIsValid | configurations/program_arguments.go:102-136 | after a successful validation the mode reads "single" or "distributed" |
| ProgramArguments.NormalisedModeExact | configurations/program_arguments.go:121-129 | a mode is valid exactly when its normal form is one of the two modes |
| ProgramArguments.PaddedModeValid | configurations/program_arguments.go:121-129 | white space put around any value changes nothing about whether it is a valid mode |
| ProgramArguments.ShortModesInvalid | configurations/program_arguments.go:121-129 | every proper prefix of "single" or "distributed", the empty string included, is not a valid mode |
| ProgramArguments.ValidModesLower | configurations/program_arguments.go:29-44 | the valid modes are already lower case |
| Logger.LevelOf | configurations/logger.go:48-65 | an unknown name selects info |
| Logger.ParseLogLevel | configurations/logger.go:46-66 | trims and lower-cases first; an unknown name selects info |
| Logger.ParseLevelName | configurations/logger.go:48-62 | each level's name selects that level, so the seven levels are distinct |
| Logger.LevelOfName | configurations/logger.go:48-62 | each normalised name maps to its own level |
| Logger.WarningIsWarn | configurations/logger.go:47-56 | every level that normalises to "warn" or "warning" selects warn |
| Logger.EmptySelectsInfo | configurations/logger.go:47-64 | every blank level (empty or only white space) selects info |
| Logger.ParseIgnoresCaseAndSpace | configurations/logger.go:47 | a name and its trimmed lower-case form select the same level |
| Text.LowerTrimmed | configurations/logger.go:47 | the result is `ToLower(TrimSpace(s))`, no longer than the input, with no upper-case letter and no white space at either end |
| Text.LowerTrimmedIdempotent | configurations/program_arguments.go:136 | normalising twice is normalising once |
| Text.TrimSpacePadded | configurations/program_arguments.go:122 | white space put around any string is removed by trimming along with the string's own |
| Text.LowerTrimmedPadded | configurations/logger.go:47 | white space put around any string does not change its normal form |
| Text.TrimSpaceOfTrimmed | configurations/program_arguments.go:122 | trimming a string without white space at its ends changes nothing |
| Decimal.NatToString | blob/operations.go:29 | the decimal form is non-empty digits, one digit exactly below 10 |
| Decimal.IntToString | configurations/loader.go:153 | a leading '-' appears exactly for negative numbers |
| Decimal.Atoi | db/common.go:165 | accepts only an optional sign followed by one or more digits, within int64; a negative result comes only from a leading '-'; the empty string does not parse |
| Decimal.AtoiUnsigned | db/common.go:165 | any unsigned run of digits, leading zeros included, reads as its value exactly when that value fits int64 |
| Decimal.AtoiPlus | db/common.go:165 | a leading '+' does not change the result for any run of digits |
| Decimal.AtoiMinus | db/common.go:165 | a leading '-' negates the value of any run of digits, down to -2^63 |
| Decimal.AtoiRejectsNonDigit | db/common.go:163-168 | a non-digit at any position after the optional sign makes the string unreadable (so "1x", " 1" and "0x10" are refused) |
| Decimal.AtoiRejectsLoneSign | db/common.go:163-168 | a lone '+' or '-' is refused |
| Decimal.AtoiLeadingZeros | db/common.go:165 | any number of leading zeros before a decimal form reads as the number itself ("007" is 7) |
| Decimal.ParseNatToString | db/common.go:165 | parsing a number's decimal form gives the number back |
| Decimal.NatToStringInjective | blob/mock_minio.go:142 | distinct numbers have distinct decimal forms |
| Decimal.AtoiIntToString | db/common.go:165 | `Atoi` of the decimal form of any 64-bit integer gives it back |

## Left out

- `ListBuckets` and `setListBucketsError` (blob/mock_minio.go:57-73, 297-301) are left out. Only the network probe in `NewClient` uses them, and that probe is not part of this model.
- The mock's mutex and atomic counter are left out. All calls are sequential; the counter is a plain field.
- VersionedStore.PutObject: the version counter is an unbounded `nat`. The mock's `atomic.Int64` (blob/mock_minio.go:23, 142) would wrap around after 2^63 - 1 puts; that wrap-around is not modelled.
- ShardOperations.ShardChannel.Send: a queue of capacity 0 refuses every message. A Go unbuffered channel (db/shard_operations.go:61) hands a message over when the handler is waiting to receive; that rendezvous is not modelled.
- Goroutines, `sync.Once` and `atomic.Value` are left out.
  - `InitializeGlobals` is a once-flag on a `Globals` object.
  - The state cell is a field.
  - Each handler is a loop over its own queue; the model does not run handlers concurrently.
- A NATS subscription delivering into a full channel is modelled as a refused `Send`. The delivery itself, blocking and slow-consumer errors are not modelled.
- A failed `ChanSubscribe` in `StartShardHandlers` is not modelled; it is network I/O. The other fatal exits become `Err` results.
- `make(chan, n)` with a negative buffer size panics in Go. In the model it is an `Err` carrying the runtime's message.
- Context timeouts (db/shard_operations.go:123, 162; blob/operations.go:158) are left out. A store call can still fail through the injected-fault tables, which stand for any error.
- `io.ReadAll` failing in `ReadFile` (blob/operations.go:76-79) is left out. The mock's reader never fails.
- The connectivity probe, TLS and credentials of `NewClient` are left out; they are network I/O. Only the three field checks are modelled.
- `ParseArguments` and command-line flag parsing are left out.
- YAML and environment loading through koanf are left out; only steps 4 and 5 of `Load` are modelled. The reflection walk is modelled over an explicit field-descriptor tree.
- The opaque defaults (NATS URL, subject prefix, drain timeout, blob timeout, channel buffer size, log level) are a `Defaults` parameter. They are referenced but not defined in the source.
- `SetupLogger` and all logging side effects are left out.
- JSON encoding of the envelopes is left out. A response is the `DbResponse` value or the raw bytes.
- `strings.ToLower` and `strings.TrimSpace` are modelled on ASCII letters and Go's white-space code points. Unicode case folding is not modelled.
- BlobClient.ValidateBucketName: counts characters, where Go's `len` counts UTF-8 bytes. Acceptance always agrees with Go's: every name holding a non-ASCII character is rejected by both. For such names the model may give a different rejection message. For example, "éa" is 3 bytes, so Go passes the length check and reports the pattern error, while the model counts 2 characters and reports the length error; 62 ASCII letters followed by "é" is the reverse case.
- `DbCommon.HeaderGet` looks up the exact key and returns "" for a key with no values. Go's `nats.Header.Get` is not part of this model.
- `FileExists`, which the write handler calls (db/shard_operations.go:128), is not defined in any file of the source. It is modelled as a query on the latest-object table: a missing bucket is an error.
- `StatObject` is only declared in the store interface; it is not modelled.
- The Go state is modelled as values (`ShardState`), so slice aliasing is not captured. `GetShardIDsUnsafe` returning the stored slice is the only trace of it.
- `NewState` keeps the slice it is given (configurations/state.go:16-20). configurations/state_test.go:49-65 expects a defensive copy there; the model follows the code.
- The mock's injected faults are grouped into one `Faults` record of eight tables. Those for remove-object, remove-bucket and set-lifecycle have no setter in the source and stay empty unless set directly.
- `ShardOperations.HandleShardOperation` takes the blob client as a parameter rather than reading the package global. The shard ID only appears in log lines, so it has no effect in the model.
- Collection reads and writes are left out. The source only answers them with 400.
- Lifecycle expiry itself is done by the backend and is left out; the model records the configured rules.
