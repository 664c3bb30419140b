/** What the mock store promises across calls: its consistency invariant is
    kept by every operation, a put reads back, stored versions stay readable,
    and version identifiers never repeat over any sequence of operations. */
module StoreProperties {
  import opened Wrappers
  import opened VersionedStore

  /** Every mutating call of the mock, for stating properties of call sequences. */
  datatype Op =
    | Put(bucket: string, obj: string, data: Bytes)
    | Make(bucket: string)
    | EnableVersions(bucket: string)
    | RemoveObj(bucket: string, obj: string)
    | RemoveBkt(bucket: string)
    | SetLifecycle(bucket: string, config: LifecycleConfiguration)
    | CreateForTesting(bucket: string)

  datatype Reply = PutReply(info: Result<UploadInfo>) | DoneReply(done: Result<Unit>)

  function Apply(s: Store, op: Op): (Store, Reply) {
    match op
    case Put(b, o, d) => var r := PutObject(s, b, o, d); (r.0, PutReply(r.1))
    case Make(b) => var r := MakeBucket(s, b); (r.0, DoneReply(r.1))
    case EnableVersions(b) => var r := EnableVersioning(s, b); (r.0, DoneReply(r.1))
    case RemoveObj(b, o) => var r := RemoveObject(s, b, o); (r.0, DoneReply(r.1))
    case RemoveBkt(b) => var r := RemoveBucket(s, b); (r.0, DoneReply(r.1))
    case SetLifecycle(b, c) => var r := SetBucketLifecycle(s, b, c); (r.0, DoneReply(r.1))
    case CreateForTesting(b) => (CreateBucketForTesting(s, b), DoneReply(Ok(())))
  }

  /** The version identifier a reply hands out, "" when it hands out none. */
  function IssuedId(r: Reply): string {
    if r.PutReply? && r.info.Ok? then r.info.value.versionID else ""
  }

  /** Where the version tables stand after a successful versioned put: only
      the written object's table gains the new identifier. */
  lemma PutObjectVersionTables(s: Store, bucket: string, obj: string, data: Bytes, b: string, o: string, v: string)
    requires PutObject(s, bucket, obj, data).1.Ok? && bucket in s.versioning
    ensures var (t, r) := PutObject(s, bucket, obj, data);
      StoredVersion(t, b, o, v) <==> StoredVersion(s, b, o, v) || (b == bucket && o == obj && v == r.value.versionID)
  {
  }

  /** The issued-identifiers invariant depends only on the version tables and the counter. */
  lemma IdsIssuedFrame(s: Store, t: Store)
    requires IdsIssued(s)
    requires t.objectVersions == s.objectVersions && t.versionCounter == s.versionCounter
    ensures IdsIssued(t)
  {
    forall b, o, v | StoredVersion(t, b, o, v) ensures IssuedBy(v, t.versionCounter) {
      assert StoredVersion(s, b, o, v);
    }
  }

  lemma PutObjectKeepsIdsIssued(s: Store, bucket: string, obj: string, data: Bytes)
    requires IdsIssued(s)
    ensures IdsIssued(PutObject(s, bucket, obj, data).0)
  {
    var (t, r) := PutObject(s, bucket, obj, data);
    if r.Ok? && bucket in s.versioning {
      var vid := r.value.versionID;
      VersionNumberOfId(s.versionCounter + 1);
      assert IssuedBy(vid, t.versionCounter);
      forall b, o, v | StoredVersion(t, b, o, v) ensures IssuedBy(v, t.versionCounter) {
        PutObjectVersionTables(s, bucket, obj, data, b, o, v);
      }
    } else {
      IdsIssuedFrame(s, t);
    }
  }

  lemma PutObjectKeepsLatestConsistent(s: Store, bucket: string, obj: string, data: Bytes)
    requires TablesAgree(s) && LatestConsistent(s)
    ensures LatestConsistent(PutObject(s, bucket, obj, data).0)
  {
    var (t, r) := PutObject(s, bucket, obj, data);
    if r.Ok? {
      forall b, o | b in t.latestVersions && o in t.latestVersions[b]
        ensures StoredVersion(t, b, o, t.latestVersions[b][o])
        ensures b in t.objects && o in t.objects[b] ==> t.objectVersions[b][o][t.latestVersions[b][o]] == t.objects[b][o]
      {
        if b != bucket || o != obj {
          assert b in s.latestVersions && o in s.latestVersions[b];
        }
      }
    }
  }

  lemma PutObjectKeepsValid(s: Store, bucket: string, obj: string, data: Bytes)
    requires Valid(s)
    ensures Valid(PutObject(s, bucket, obj, data).0)
  {
    PutObjectKeepsIdsIssued(s, bucket, obj, data);
    PutObjectKeepsLatestConsistent(s, bucket, obj, data);
  }

  lemma MakeBucketKeepsValid(s: Store, bucket: string)
    requires Valid(s)
    ensures Valid(MakeBucket(s, bucket).0)
  {
    IdsIssuedFrame(s, MakeBucket(s, bucket).0);
  }

  lemma EnableVersioningKeepsValid(s: Store, bucket: string)
    requires Valid(s)
    ensures Valid(EnableVersioning(s, bucket).0)
  {
    IdsIssuedFrame(s, EnableVersioning(s, bucket).0);
  }

  lemma RemoveObjectKeepsValid(s: Store, bucket: string, obj: string)
    requires Valid(s)
    ensures Valid(RemoveObject(s, bucket, obj).0)
  {
    IdsIssuedFrame(s, RemoveObject(s, bucket, obj).0);
  }

  lemma RemoveBucketKeepsValid(s: Store, bucket: string)
    requires Valid(s)
    ensures Valid(RemoveBucket(s, bucket).0)
  {
    var t := RemoveBucket(s, bucket).0;
    forall b, o, v | StoredVersion(t, b, o, v) ensures IssuedBy(v, t.versionCounter) {
      assert StoredVersion(s, b, o, v);
    }
  }

  lemma SetBucketLifecycleKeepsValid(s: Store, bucket: string, config: LifecycleConfiguration)
    requires Valid(s)
    ensures Valid(SetBucketLifecycle(s, bucket, config).0)
  {
    IdsIssuedFrame(s, SetBucketLifecycle(s, bucket, config).0);
  }

  lemma CreateBucketForTestingKeepsValid(s: Store, bucket: string)
    requires Valid(s)
    ensures Valid(CreateBucketForTesting(s, bucket))
  {
    var t := CreateBucketForTesting(s, bucket);
    assert TablesAgree(t);
    CreateBucketForTestingKeepsIds(s, bucket);
    CreateBucketForTestingKeepsLatest(s, bucket);
  }

  /** The fresh empty version tables hold no identifier. */
  lemma CreateBucketForTestingKeepsIds(s: Store, bucket: string)
    requires IdsIssued(s)
    ensures IdsIssued(CreateBucketForTesting(s, bucket))
  {
    var t := CreateBucketForTesting(s, bucket);
    forall b, o, v | StoredVersion(t, b, o, v) ensures IssuedBy(v, t.versionCounter) {
      assert b != bucket;
      assert StoredVersion(s, b, o, v);
    }
  }

  /** The fresh empty latest table has no entry to check. */
  lemma CreateBucketForTestingKeepsLatest(s: Store, bucket: string)
    requires LatestConsistent(s)
    ensures LatestConsistent(CreateBucketForTesting(s, bucket))
  {
    var t := CreateBucketForTesting(s, bucket);
    forall b, o | b in t.latestVersions && o in t.latestVersions[b]
      ensures StoredVersion(t, b, o, t.latestVersions[b][o])
      ensures b in t.objects && o in t.objects[b] ==>
        t.objectVersions[b][o][t.latestVersions[b][o]] == t.objects[b][o]
    {
      assert b != bucket;
      assert StoredVersion(s, b, o, s.latestVersions[b][o]);
    }
  }

  /** Every mutating operation keeps the store consistent. */
  lemma ApplyKeepsValid(s: Store, op: Op)
    requires Valid(s)
    ensures Valid(Apply(s, op).0)
  {
    match op
    case Put(b, o, d) => PutObjectKeepsValid(s, b, o, d);
    case Make(b) => MakeBucketKeepsValid(s, b);
    case EnableVersions(b) => EnableVersioningKeepsValid(s, b);
    case RemoveObj(b, o) => RemoveObjectKeepsValid(s, b, o);
    case RemoveBkt(b) => RemoveBucketKeepsValid(s, b);
    case SetLifecycle(b, c) => SetBucketLifecycleKeepsValid(s, b, c);
    case CreateForTesting(b) => CreateBucketForTestingKeepsValid(s, b);
  }

  /** A version identifier a put hands out is not stored anywhere yet. */
  lemma PutObjectIssuesFreshId(s: Store, bucket: string, obj: string, data: Bytes, b: string, o: string)
    requires Valid(s)
    requires PutObject(s, bucket, obj, data).1.Ok? && bucket in s.versioning
    ensures !StoredVersion(s, b, o, PutObject(s, bucket, obj, data).1.value.versionID)
  {
    var vid := PutObject(s, bucket, obj, data).1.value.versionID;
    VersionNumberOfId(s.versionCounter + 1);
    assert !IssuedBy(vid, s.versionCounter);
  }

  /** Round trip of one put: the latest read returns the bytes written and, on
      a versioned bucket, so does the read by the identifier handed out. */
  lemma ReadAfterPut(s: Store, bucket: string, obj: string, data: Bytes)
    requires Valid(s)
    requires PutObject(s, bucket, obj, data).1.Ok?
    requires FaultKey(bucket, obj) !in s.faults.getObject
    ensures var (t, r) := PutObject(s, bucket, obj, data);
      && GetObject(t, bucket, obj, "") == Ok(data)
      && (bucket in s.versioning ==> GetObject(t, bucket, obj, r.value.versionID) == Ok(data))
  {
  }

  /** A put leaves every version that was readable before readable, with the
      same bytes. */
  lemma PutObjectKeepsVersions(s: Store, bucket: string, obj: string, data: Bytes, b: string, o: string, v: string)
    requires Valid(s)
    requires PutObject(s, bucket, obj, data).1.Ok?
    requires v != "" && GetObject(s, b, o, v).Ok?
    ensures GetObject(PutObject(s, bucket, obj, data).0, b, o, v) == GetObject(s, b, o, v)
  {
    if bucket in s.versioning && FaultKey(b, o) !in s.faults.getObject {
      PutObjectIssuesFreshId(s, bucket, obj, data, b, o);
    }
  }

  /** A put changes the latest bytes of the written object only: the latest
      read of every other object, in any bucket, answers as before. */
  lemma PutObjectKeepsOtherLatest(s: Store, bucket: string, obj: string, data: Bytes, b: string, o: string)
    requires TablesAgree(s)
    requires (b, o) != (bucket, obj)
    ensures GetObject(PutObject(s, bucket, obj, data).0, b, o, "") == GetObject(s, b, o, "")
  {
  }

  /** Removing an object removes only its latest entry: reads by version
      identifier answer as before, the latest read now fails. */
  lemma RemoveObjectKeepsVersions(s: Store, bucket: string, obj: string, b: string, o: string, v: string)
    requires RemoveObject(s, bucket, obj).1.Ok?
    requires v != ""
    ensures GetObject(RemoveObject(s, bucket, obj).0, b, o, v) == GetObject(s, b, o, v)
    ensures GetObject(RemoveObject(s, bucket, obj).0, bucket, obj, "").Err?
  {
  }

  /** In a consistent store, the latest version identifier reads the same
      bytes as a read without one. */
  lemma LatestVersionReadsLatest(s: Store, bucket: string, obj: string)
    requires Valid(s)
    requires bucket in s.latestVersions && obj in s.latestVersions[bucket]
    requires obj in s.objects[bucket]
    ensures GetObject(s, bucket, obj, s.latestVersions[bucket][obj]) == GetObject(s, bucket, obj, "")
  {
  }

  /** One operation never lowers the counter, and an operation that hands
      out an identifier hands out the one for the next counter value. */
  lemma ApplyCounter(s: Store, op: Op)
    ensures Apply(s, op).0.versionCounter >= s.versionCounter
    ensures IssuedId(Apply(s, op).1) != "" ==>
      && IssuedId(Apply(s, op).1) == VersionId(s.versionCounter + 1)
      && Apply(s, op).0.versionCounter == s.versionCounter + 1
  {
  }

  /** The counter before each call of a run of `ops` from `s`, followed by
      the counter at its end. */
  function Counters(s: Store, ops: seq<Op>): (r: seq<nat>)
    ensures |r| == |ops| + 1 && r[0] == s.versionCounter
    decreases |ops|
  {
    if ops == [] then [s.versionCounter]
    else [s.versionCounter] + Counters(Apply(s, ops[0]).0, ops[1..])
  }

  /** The version identifier each call of a run hands out, "" for none. */
  function Ids(s: Store, ops: seq<Op>): (r: seq<string>)
    ensures |r| == |ops|
    decreases |ops|
  {
    if ops == [] then []
    else [IssuedId(Apply(s, ops[0]).1)] + Ids(Apply(s, ops[0]).0, ops[1..])
  }

  /** How identifiers relate to counters along a run: the counter never goes
      down, and a call that hands out an identifier hands out the one for the
      next counter value and moves the counter to it. */
  ghost predicate Numbered(cs: seq<nat>, ids: seq<string>)
    requires |cs| == |ids| + 1
  {
    forall k :: 0 <= k < |ids| ==> NumberedAt(cs, ids, k)
  }

  /** The numbering condition at call `k`. */
  ghost predicate NumberedAt(cs: seq<nat>, ids: seq<string>, k: nat)
    requires |cs| == |ids| + 1 && k < |ids|
  {
    && cs[k] <= cs[k + 1]
    && (ids[k] != "" ==> ids[k] == VersionId(cs[k] + 1) && cs[k + 1] == cs[k] + 1)
  }

  /** A numbered run stays numbered when a numbered call is put in front. */
  lemma NumberedCons(c: nat, id: string, cs: seq<nat>, ids: seq<string>)
    requires |cs| == |ids| + 1 && Numbered(cs, ids)
    requires c <= cs[0] && (id != "" ==> id == VersionId(c + 1) && cs[0] == c + 1)
    ensures Numbered([c] + cs, [id] + ids)
  {
    var cs2, ids2 := [c] + cs, [id] + ids;
    forall k | 0 <= k < |ids2| ensures NumberedAt(cs2, ids2, k) {
      if k > 0 {
        assert NumberedAt(cs, ids, k - 1);
        assert cs2[k] == cs[k - 1] && cs2[k + 1] == cs[k] && ids2[k] == ids[k - 1];
      }
    }
  }

  /** Every run of store calls numbers its identifiers that way. */
  lemma {:induction false} RunNumbered(s: Store, ops: seq<Op>)
    ensures Numbered(Counters(s, ops), Ids(s, ops))
    decreases |ops|
  {
    if ops != [] {
      var t := Apply(s, ops[0]).0;
      ApplyCounter(s, ops[0]);
      RunNumbered(t, ops[1..]);
      NumberedCons(s.versionCounter, IssuedId(Apply(s, ops[0]).1), Counters(t, ops[1..]), Ids(t, ops[1..]));
    } else {
      assert Numbered([s.versionCounter], []);
    }
  }

  /** Along a numbered run the counter is monotone. */
  lemma {:induction false} NumberedMonotone(cs: seq<nat>, ids: seq<string>, a: nat, b: nat)
    requires |cs| == |ids| + 1 && Numbered(cs, ids)
    requires a <= b < |cs|
    ensures cs[a] <= cs[b]
    decreases b - a
  {
    if a < b {
      NumberedMonotone(cs, ids, a + 1, b);
      assert NumberedAt(cs, ids, a);
    }
  }

  /** Along a numbered run no identifier is handed out twice. */
  lemma NumberedDistinct(cs: seq<nat>, ids: seq<string>, i: nat, j: nat)
    requires |cs| == |ids| + 1 && Numbered(cs, ids)
    requires i < j < |ids| && ids[i] != "" && ids[j] != ""
    ensures ids[i] != ids[j]
  {
    NumberedMonotone(cs, ids, i + 1, j);
    assert NumberedAt(cs, ids, i) && NumberedAt(cs, ids, j);
    VersionNumberOfId(cs[i] + 1);
    VersionNumberOfId(cs[j] + 1);
  }

  /** Along a numbered run each identifier handed out lies after the first
      counter and within the last. */
  lemma NumberedInRange(cs: seq<nat>, ids: seq<string>, i: nat)
    requires |cs| == |ids| + 1 && Numbered(cs, ids)
    requires i < |ids| && ids[i] != ""
    ensures IssuedBy(ids[i], cs[|ids|]) && VersionNumber(ids[i]).value > cs[0]
  {
    NumberedMonotone(cs, ids, 0, i);
    NumberedMonotone(cs, ids, i + 1, |ids|);
    assert NumberedAt(cs, ids, i);
    VersionNumberOfId(cs[i] + 1);
  }

  /** Each identifier a run hands out was issued after the run started and is
      covered by the counter at its end. */
  lemma RunIdsInRange(s: Store, ops: seq<Op>, i: nat)
    requires i < |ops| && Ids(s, ops)[i] != ""
    ensures IssuedBy(Ids(s, ops)[i], Counters(s, ops)[|ops|])
    ensures VersionNumber(Ids(s, ops)[i]).value > s.versionCounter
  {
    RunNumbered(s, ops);
    NumberedInRange(Counters(s, ops), Ids(s, ops), i);
  }

  /** Version identifiers never repeat: two different calls in any sequence
      of store operations never hand out the same identifier. */
  lemma RunIdsDistinct(s: Store, ops: seq<Op>, i: nat, j: nat)
    requires i < j < |ops| && Ids(s, ops)[i] != "" && Ids(s, ops)[j] != ""
    ensures Ids(s, ops)[i] != Ids(s, ops)[j]
  {
    RunNumbered(s, ops);
    NumberedDistinct(Counters(s, ops), Ids(s, ops), i, j);
  }
}
