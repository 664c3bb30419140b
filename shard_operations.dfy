/** The per-shard request pipeline of db/shard_operations.go: one handler per
    owned shard, each draining a bounded FIFO queue of messages and answering
    every message with exactly one response, writing to or reading from the
    blob store. `ProcessMessage` and `ProcessAll` say what one message and a
    whole queue do to the store and what they answer; the methods perform
    the same steps on the in-memory store and are proved to agree. */
module ShardOperations {
  import opened Wrappers
  import opened Decimal
  import opened VersionedStore
  import opened MockMinio
  import opened Configurations
  import opened ShardState
  import opened DbCommon
  import BlobClient
  import StoreProperties

  const PointWrite: int := 0
  const PointRead: int := 1
  const CollectionWrite: int := 2
  const CollectionRead: int := 3

  /** A request: its header and its body (`nil` is `None`). */
  datatype Msg = Msg(header: Header, data: Option<Bytes>)

  /** What a handler sends back: a JSON envelope, or the raw bytes read. */
  datatype Response = Envelope(resp: DbResponse) | Raw(data: Bytes)

  // ---------------------------------------------------------------------------
  // One message, as a function of the store

  /** `handleWriteOperation`: with `overwrite` off, probe first (a probe
      error is 500, an existing file 400, and nothing is written); then write
      the body verbatim (a failure is 500, success the 200 envelope). */
  function WriteOp(s: Store, data: Option<Bytes>, fileName: string, bucketName: string, overwrite: bool): (r: (Store, Response))
    ensures !overwrite && BlobClient.FileExistsOn(s, bucketName, fileName).Err? ==>
      r == (s, Envelope(ErrorEnvelope(ErrorCodeInternalServerError,
        "failed to check if file exists: " + BlobClient.FileExistsOn(s, bucketName, fileName).msg)))
    ensures !overwrite && BlobClient.FileExistsOn(s, bucketName, fileName) == Ok(true) ==>
      r == (s, Envelope(ErrorEnvelope(ErrorCodeBadRequest, "file already exists: " + fileName)))
    ensures overwrite || BlobClient.FileExistsOn(s, bucketName, fileName) == Ok(false) ==>
      var (t, w) := BlobClient.WriteFileOn(s, bucketName, fileName, data);
      && r.0 == t
      && (w.Ok? ==> r.1 == Envelope(SuccessEnvelope()))
      && (w.Err? ==> r.1 == Envelope(ErrorEnvelope(ErrorCodeInternalServerError, "failed to write file: " + w.msg)))
  {
    if !overwrite && BlobClient.FileExistsOn(s, bucketName, fileName).Err? then
      (s, Envelope(ErrorEnvelope(ErrorCodeInternalServerError,
        "failed to check if file exists: " + BlobClient.FileExistsOn(s, bucketName, fileName).msg)))
    else if !overwrite && BlobClient.FileExistsOn(s, bucketName, fileName).value then
      (s, Envelope(ErrorEnvelope(ErrorCodeBadRequest, "file already exists: " + fileName)))
    else
      var (t, w) := BlobClient.WriteFileOn(s, bucketName, fileName, data);
      if w.Err? then (t, Envelope(ErrorEnvelope(ErrorCodeInternalServerError, "failed to write file: " + w.msg)))
      else (t, Envelope(SuccessEnvelope()))
  }

  /** `handleReadOperation`: read the latest version; the bytes go back
      unchanged, any error is 500. */
  function ReadOp(s: Store, fileName: string, bucketName: string): (r: Response)
    ensures BlobClient.ReadFileOn(s, bucketName, fileName, "").Ok? ==>
      r == Raw(BlobClient.ReadFileOn(s, bucketName, fileName, "").value)
    ensures BlobClient.ReadFileOn(s, bucketName, fileName, "").Err? ==>
      r == Envelope(DbResponse("failed to read file: " + BlobClient.ReadFileOn(s, bucketName, fileName, "").msg,
                               ErrorCodeInternalServerError))
  {
    match BlobClient.ReadFileOn(s, bucketName, fileName, "")
    case Err(e) => Envelope(ErrorEnvelope(ErrorCodeInternalServerError, "failed to read file: " + e))
    case Ok(data) => Raw(data)
  }

  /** The routing step of `handleShardOperation` for one message. */
  function ProcessMessage(s: Store, m: Msg): (r: (Store, Response))
    ensures r.0 != s ==> r.1 == Envelope(SuccessEnvelope())
  {
    match ExtractShardOperationHeaders(m.header)
    case Err(e) => (s, Envelope(ErrorEnvelope(ErrorCodeBadRequest, e)))
    case Ok(h) =>
      if h.operationType == PointWrite then WriteOp(s, m.data, h.fileName, h.bucketName, h.overwrite)
      else if h.operationType == PointRead then (s, ReadOp(s, h.fileName, h.bucketName))
      else if h.operationType == CollectionWrite then
        (s, Envelope(ErrorEnvelope(ErrorCodeBadRequest, "collection write operation not yet implemented")))
      else if h.operationType == CollectionRead then
        (s, Envelope(ErrorEnvelope(ErrorCodeBadRequest, "collection read operation not yet implemented")))
      else
        (s, Envelope(ErrorEnvelope(ErrorCodeBadRequest, "unknown operation type: " + IntToString(h.operationType))))
  }

  /** A queue of messages handled in order, one response per message. */
  function ProcessAll(s: Store, msgs: seq<Msg>): (r: (Store, seq<Response>))
    ensures |r.1| == |msgs|
  {
    if msgs == [] then (s, [])
    else
      var prev := ProcessAll(s, msgs[..|msgs| - 1]);
      var step := ProcessMessage(prev.0, msgs[|msgs| - 1]);
      (step.0, prev.1 + [step.1])
  }

  // ---------------------------------------------------------------------------
  // Properties of the pipeline

  /** A header that fails extraction is answered 400 with the extraction
      error, and the store is not touched. */
  lemma BadHeaderIs400(s: Store, m: Msg)
    requires ExtractShardOperationHeaders(m.header).Err?
    ensures ProcessMessage(s, m) == (s, Envelope(DbResponse(ExtractShardOperationHeaders(m.header).msg, 400)))
  {
  }

  /** A well-formed point write is handled by the write path with the
      message body and the extracted names and flag; a well-formed point
      read by the read path, which leaves the store as it was. */
  lemma PointOperationsRouted(s: Store, m: Msg)
    requires ExtractShardOperationHeaders(m.header).Ok?
    ensures var h := ExtractShardOperationHeaders(m.header).value;
      h.operationType == PointWrite ==>
        ProcessMessage(s, m) == WriteOp(s, m.data, h.fileName, h.bucketName, h.overwrite)
    ensures var h := ExtractShardOperationHeaders(m.header).value;
      h.operationType == PointRead ==> ProcessMessage(s, m) == (s, ReadOp(s, h.fileName, h.bucketName))
  {
  }

  /** Types other than point write and point read are answered 400 without
      touching the store: the two collection types as not implemented, any
      other integer naming the type. */
  lemma OtherTypesAre400(s: Store, m: Msg)
    requires ExtractShardOperationHeaders(m.header).Ok?
    requires ExtractShardOperationHeaders(m.header).value.operationType !in {PointWrite, PointRead}
    ensures var op := ExtractShardOperationHeaders(m.header).value.operationType;
      && ProcessMessage(s, m).0 == s
      && ProcessMessage(s, m).1.Envelope? && ProcessMessage(s, m).1.resp.status == 400
      && (op == CollectionWrite ==> ProcessMessage(s, m).1.resp.error == "collection write operation not yet implemented")
      && (op == CollectionRead ==> ProcessMessage(s, m).1.resp.error == "collection read operation not yet implemented")
      && (op !in {CollectionWrite, CollectionRead} ==>
            ProcessMessage(s, m).1.resp.error == "unknown operation type: " + IntToString(op))
  {
  }

  /** A write with `overwrite` on and a nil body reaches the client's nil
      check and is answered 500, not 400; nothing is written. */
  lemma NilBodyIs500(s: Store, fileName: string, bucketName: string)
    requires fileName != "" && bucketName != ""
    ensures WriteOp(s, None, fileName, bucketName, true)
      == (s, Envelope(DbResponse("failed to write file: " + "data cannot be nil", 500)))
  {
    assert BlobClient.WriteFileOn(s, bucketName, fileName, None) == (s, Err("data cannot be nil"));
  }

  /** With `overwrite` off, an existing file is refused with 400 and the
      store keeps its bytes; with it on, the file is replaced. */
  lemma WriteIfAbsent(s: Store, data: Bytes, fileName: string, bucketName: string)
    requires bucketName in s.objects && fileName in s.objects[bucketName]
    requires fileName != "" && bucketName != "" && FaultKey(bucketName, fileName) !in s.faults.putObject
    requires TablesAgree(s)
    ensures WriteOp(s, Some(data), fileName, bucketName, false).0 == s
    ensures WriteOp(s, Some(data), fileName, bucketName, false).1.resp.status == 400
    ensures var t := WriteOp(s, Some(data), fileName, bucketName, true).0;
      && WriteOp(s, Some(data), fileName, bucketName, true).1 == Envelope(SuccessEnvelope())
      && t.objects[bucketName][fileName] == data
  {
    var (t, w) := PutObject(s, bucketName, fileName, data);
    assert w.Ok?;
  }

  /** A read answers with the latest bytes of the object, unchanged. */
  lemma ReadReturnsLatest(s: Store, fileName: string, bucketName: string)
    requires fileName != "" && bucketName != "" && FaultKey(bucketName, fileName) !in s.faults.getObject
    requires bucketName in s.objects && fileName in s.objects[bucketName]
    ensures ReadOp(s, fileName, bucketName) == Raw(s.objects[bucketName][fileName])
  {
  }

  /** Handling a message keeps the store consistent. */
  lemma ProcessMessageKeepsValid(s: Store, m: Msg)
    requires Valid(s)
    ensures Valid(ProcessMessage(s, m).0)
  {
    var e := ExtractShardOperationHeaders(m.header);
    if e.Ok? && e.value.operationType == PointWrite && m.data.Some? {
      StoreProperties.PutObjectKeepsValid(s, e.value.bucketName, e.value.fileName, m.data.value);
    }
  }

  /** Handling a queue keeps the store consistent. */
  lemma {:induction false} ProcessAllKeepsValid(s: Store, msgs: seq<Msg>)
    requires Valid(s)
    ensures Valid(ProcessAll(s, msgs).0)
    decreases |msgs|
  {
    if msgs != [] {
      ProcessAllKeepsValid(s, msgs[..|msgs| - 1]);
      ProcessMessageKeepsValid(ProcessAll(s, msgs[..|msgs| - 1]).0, msgs[|msgs| - 1]);
    }
  }

  /** FIFO: the i-th response is the answer to the i-th message, given the
      store the first i messages left behind. */
  lemma {:induction false} ProcessAllInOrder(s: Store, msgs: seq<Msg>, i: nat)
    requires i < |msgs|
    ensures ProcessAll(s, msgs).1[i] == ProcessMessage(ProcessAll(s, msgs[..i]).0, msgs[i]).1
    decreases |msgs|
  {
    var init := msgs[..|msgs| - 1];
    if i < |msgs| - 1 {
      ProcessAllInOrder(s, init, i);
      assert init[..i] == msgs[..i];
    } else {
      assert init == msgs[..i];
    }
  }

  /** Handling two queues one after the other is handling their
      concatenation. */
  lemma {:induction false} ProcessAllAppend(s: Store, a: seq<Msg>, b: seq<Msg>)
    ensures ProcessAll(s, a + b)
      == (ProcessAll(ProcessAll(s, a).0, b).0, ProcessAll(s, a).1 + ProcessAll(ProcessAll(s, a).0, b).1)
    decreases |b|
  {
    if b == [] {
      assert a + b == a;
      assert ProcessAll(ProcessAll(s, a).0, b) == (ProcessAll(s, a).0, []);
      assert ProcessAll(s, a).1 + [] == ProcessAll(s, a).1;
    } else {
      var b' := b[..|b| - 1];
      ProcessAllAppend(s, a, b');
      assert (a + b)[..|a + b| - 1] == a + b';
      assert (a + b)[|a + b| - 1] == b[|b| - 1];
      var ra := ProcessAll(s, a).1;
      var prev := ProcessAll(ProcessAll(s, a).0, b');
      var step := ProcessMessage(prev.0, b[|b| - 1]);
      assert (ra + prev.1) + [step.1] == ra + (prev.1 + [step.1]);
    }
  }

  /** A queue of two messages is handled one message after the other. */
  lemma ProcessTwo(s: Store, m1: Msg, m2: Msg)
    ensures var first := ProcessMessage(s, m1);
      var second := ProcessMessage(first.0, m2);
      ProcessAll(s, [m1, m2]) == (second.0, [first.1, second.1])
  {
    var first := ProcessMessage(s, m1);
    var one := [m1];
    assert one[..|one| - 1] == [];
    assert one[|one| - 1] == m1;
    assert ProcessAll(s, []) == (s, []);
    assert [] + [first.1] == [first.1];
    assert ProcessAll(s, one) == (first.0, [first.1]);
    var two := [m1, m2];
    assert two[..|two| - 1] == one;
    assert two[|two| - 1] == m2;
    assert [first.1] + [ProcessMessage(first.0, m2).1] == [first.1, ProcessMessage(first.0, m2).1];
  }

  /** A point write followed by a point read of the same key: the write is
      acknowledged with 200 and the read returns the bytes written. */
  lemma WriteThenRead(s: Store, w: Msg, r: Msg, data: Bytes)
    requires Valid(s)
    requires ExtractShardOperationHeaders(w.header).Ok? && ExtractShardOperationHeaders(r.header).Ok?
    requires var hw := ExtractShardOperationHeaders(w.header).value;
      var hr := ExtractShardOperationHeaders(r.header).value;
      && hw.operationType == PointWrite && hw.overwrite && w.data == Some(data)
      && hr.operationType == PointRead && hr.fileName == hw.fileName && hr.bucketName == hw.bucketName
      && FaultKey(hw.bucketName, hw.fileName) !in s.faults.getObject
    requires ProcessMessage(s, w).1 == Envelope(SuccessEnvelope())
    ensures ProcessAll(s, [w, r]).1 == [Envelope(SuccessEnvelope()), Raw(data)]
  {
    var hw := ExtractShardOperationHeaders(w.header).value;
    var (b, f) := (hw.bucketName, hw.fileName);
    ProcessTwo(s, w, r);
    assert ProcessMessage(s, w) == WriteOp(s, Some(data), f, b, true);
    var t := ProcessMessage(s, w).0;
    assert BlobClient.WriteFileOn(s, b, f, Some(data)).1.Ok?;
    BlobClient.ReadAfterWrite(s, b, f, data);
    assert ProcessMessage(t, r).1 == ReadOp(t, f, b);
  }

  /** The subject a shard listens on: `<prefix>.shards.<id>.op`. */
  function ShardSubject(prefix: string, shardID: uint16): (subject: string)
    ensures prefix <= subject
  {
    prefix + ".shards." + NatToString(shardID as nat) + ".op"
  }

  /** Distinct shards listen on distinct subjects. */
  lemma ShardSubjectInjective(prefix: string, a: uint16, b: uint16)
    requires ShardSubject(prefix, a) == ShardSubject(prefix, b)
    ensures a == b
  {
    var sa := NatToString(a as nat);
    var sb := NatToString(b as nat);
    var n := |prefix + ".shards."|;
    assert ShardSubject(prefix, a) == (prefix + ".shards.") + (sa + ".op");
    assert ShardSubject(prefix, b) == (prefix + ".shards.") + (sb + ".op");
    assert sa + ".op" == ShardSubject(prefix, a)[n..];
    assert sb + ".op" == ShardSubject(prefix, b)[n..];
    assert sa == (sa + ".op")[..|sa|];
    assert sb == (sb + ".op")[..|sb|];
    NatToStringInjective(a as nat, b as nat);
  }

  // ---------------------------------------------------------------------------
  // The queue and the handlers

  /** A shard's message queue: the Go channel of fixed capacity, as a FIFO
      sequence. */
  class ShardChannel {
    const capacity: nat
    var queue: seq<Msg>

    ghost predicate Valid()
      reads this
    {
      |queue| <= capacity
    }

    /** `make(chan *nats.Msg, capacity)`. */
    constructor (capacity: nat)
      ensures this.capacity == capacity && queue == [] && Valid()
    {
      this.capacity := capacity;
      queue := [];
    }

    /** Delivery of a message: queued at the back when there is room,
        otherwise refused (the subscriber drops it). */
    method Send(m: Msg) returns (accepted: bool)
      requires Valid()
      modifies this
      ensures Valid()
      ensures accepted <==> |old(queue)| < capacity
      ensures accepted ==> queue == old(queue) + [m]
      ensures !accepted ==> queue == old(queue)
    {
      accepted := |queue| < capacity;
      if accepted {
        queue := queue + [m];
      }
    }

    /** Taking the message at the front. */
    method Receive() returns (m: Msg)
      requires Valid() && queue != []
      modifies this
      ensures Valid()
      ensures m == old(queue)[0] && queue == old(queue)[1..]
    {
      m := queue[0];
      queue := queue[1..];
    }
  }

  /** `handleWriteOperation`. */
  method HandleWriteOperation(c: BlobClient.Client, data: Option<Bytes>, fileName: string, bucketName: string, overwrite: bool)
    returns (resp: Response)
    modifies c.minioClient
    ensures (c.minioClient.Snapshot(), resp) == WriteOp(old(c.minioClient.Snapshot()), data, fileName, bucketName, overwrite)
  {
    if !overwrite {
      var present := BlobClient.FileExists(c, bucketName, fileName);
      if present.Err? {
        return Envelope(ErrorEnvelope(ErrorCodeInternalServerError, "failed to check if file exists: " + present.msg));
      }
      if present.value {
        return Envelope(ErrorEnvelope(ErrorCodeBadRequest, "file already exists: " + fileName));
      }
    }
    var written := BlobClient.WriteFile(c, bucketName, fileName, data);
    if written.Err? {
      return Envelope(ErrorEnvelope(ErrorCodeInternalServerError, "failed to write file: " + written.msg));
    }
    return Envelope(SuccessEnvelope());
  }

  /** `handleReadOperation`. */
  method HandleReadOperation(c: BlobClient.Client, fileName: string, bucketName: string) returns (resp: Response)
    ensures resp == ReadOp(c.minioClient.Snapshot(), fileName, bucketName)
  {
    var data := BlobClient.ReadFile(c, bucketName, fileName, "");
    if data.Err? {
      return Envelope(ErrorEnvelope(ErrorCodeInternalServerError, "failed to read file: " + data.msg));
    }
    return Raw(data.value);
  }

  /** One pass of the routing switch. */
  method HandleMessage(c: BlobClient.Client, msg: Msg) returns (resp: Response)
    modifies c.minioClient
    ensures (c.minioClient.Snapshot(), resp) == ProcessMessage(old(c.minioClient.Snapshot()), msg)
  {
    var headers := ExtractShardOperationHeaders(msg.header);
    if headers.Err? {
      return Envelope(ErrorEnvelope(ErrorCodeBadRequest, headers.msg));
    }
    var h := headers.value;
    if h.operationType == PointWrite {
      resp := HandleWriteOperation(c, msg.data, h.fileName, h.bucketName, h.overwrite);
    } else if h.operationType == PointRead {
      resp := HandleReadOperation(c, h.fileName, h.bucketName);
    } else if h.operationType == CollectionWrite {
      resp := Envelope(ErrorEnvelope(ErrorCodeBadRequest, "collection write operation not yet implemented"));
    } else if h.operationType == CollectionRead {
      resp := Envelope(ErrorEnvelope(ErrorCodeBadRequest, "collection read operation not yet implemented"));
    } else {
      resp := Envelope(ErrorEnvelope(ErrorCodeBadRequest, "unknown operation type: " + IntToString(h.operationType)));
    }
  }

  /** `handleShardOperation`: drains the shard's queue in order, answering
      each message once and carrying on after errors. */
  method HandleShardOperation(shardID: uint16, ch: ShardChannel, c: BlobClient.Client) returns (responses: seq<Response>)
    requires ch.Valid()
    modifies ch, c.minioClient
    ensures ch.Valid() && ch.queue == []
    ensures (c.minioClient.Snapshot(), responses) == ProcessAll(old(c.minioClient.Snapshot()), old(ch.queue))
  {
    ghost var msgs := ch.queue;
    ghost var s0 := c.minioClient.Snapshot();
    ghost var i := 0;
    responses := [];
    while ch.queue != []
      invariant 0 <= i <= |msgs| && ch.queue == msgs[i..] && ch.Valid()
      invariant (c.minioClient.Snapshot(), responses) == ProcessAll(s0, msgs[..i])
      decreases |ch.queue|
    {
      var msg := ch.Receive();
      var resp := HandleMessage(c, msg);
      responses := responses + [resp];
      assert msgs[..i + 1][..i] == msgs[..i];
      i := i + 1;
    }
    assert msgs[..i] == msgs;
  }

  /** What `StartShardHandlers` keeps per shard: the subject subscribed to
      and the shard's queue. */
  datatype ShardHandlerInfo = ShardHandlerInfo(subject: string, channel: ShardChannel)

  const NotInitialized := "InitializeGlobals must be called before StartShardHandlers"
  const NoGlobalState := "Global state must be initialized before StartShardHandlers"
  const NegativeCapacity := "makechan: size out of range"

  /** `StartShardHandlers`: the fatal exits become errors; no shards means
      no handlers; otherwise one handler per shard ID, in state order, on
      that shard's subject, with a new empty queue of the configured
      capacity. */
  method StartShardHandlers<Conn, Ctx>(g: Globals<Conn, Ctx>) returns (r: Result<seq<ShardHandlerInfo>>)
    ensures g.config.None? || g.natsConn.None? || g.blobClient.None? ==> r == Err(NotInitialized)
    ensures g.config.Some? && g.natsConn.Some? && g.blobClient.Some? && g.GetGlobalState().None? ==>
      r == Err(NoGlobalState)
    ensures r.Ok? ==> g.config.Some? && g.GetGlobalState().Some?
    ensures r.Ok? && GetShardIDs(g.GetGlobalState()) == Some([]) ==> r.value == []
    ensures r.Ok? ==>
      var ids := GetShardIDs(g.GetGlobalState()).value;
      && |r.value| == |ids|
      && (forall k :: 0 <= k < |ids| ==>
            && r.value[k].subject == ShardSubject(g.config.value.nats.subjectPrefix, ids[k])
            && fresh(r.value[k].channel) && r.value[k].channel.queue == []
            && r.value[k].channel.capacity == g.config.value.db.channelBufferSize)
      && (forall k, l :: 0 <= k < l < |ids| ==> r.value[k].channel != r.value[l].channel)
    ensures r.Err? && g.config.Some? && g.natsConn.Some? && g.blobClient.Some? && g.GetGlobalState().Some? ==>
      GetShardIDs(g.GetGlobalState()).value != [] && g.config.value.db.channelBufferSize < 0
  {
    if g.config.None? || g.natsConn.None? || g.blobClient.None? {
      return Err(NotInitialized);
    }
    var state := g.GetGlobalState();
    if state.None? {
      return Err(NoGlobalState);
    }
    var shardIDs := GetShardIDs(state).value;
    if |shardIDs| == 0 {
      return Ok([]);
    }
    var bufferSize := g.config.value.db.channelBufferSize;
    if bufferSize < 0 {
      return Err(NegativeCapacity);
    }
    var prefix := g.config.value.nats.subjectPrefix;
    var handlers: seq<ShardHandlerInfo> := [];
    for k := 0 to |shardIDs|
      invariant |handlers| == k
      invariant forall j :: 0 <= j < k ==>
        && handlers[j].subject == ShardSubject(prefix, shardIDs[j])
        && fresh(handlers[j].channel) && handlers[j].channel.queue == []
        && handlers[j].channel.capacity == bufferSize
      invariant forall j, l :: 0 <= j < l < k ==> handlers[j].channel != handlers[l].channel
    {
      var ch := new ShardChannel(bufferSize);
      handlers := handlers + [ShardHandlerInfo(ShardSubject(prefix, shardIDs[k]), ch)];
    }
    return Ok(handlers);
  }
}
