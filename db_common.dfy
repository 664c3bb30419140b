/** The shared pieces of the shard request handlers (db/common.go): status
    codes, the header record of a shard operation and its extraction from a
    message header, the response envelopes, and the process-wide cells that
    hold the configuration, the blob client and the shard-ownership state. */
module DbCommon {
  import opened Wrappers
  import opened Configurations
  import opened Decimal
  import opened ShardState
  import BlobClient

  const ErrorCodeBadRequest: int := 400
  const ErrorCodeInternalServerError: int := 500
  const SuccessCode: int := 200

  /** `ShardOperationHeaders`. */
  datatype ShardOperationHeaders = ShardOperationHeaders(
    operationType: int, fileName: string, bucketName: string, overwrite: bool)

  /** `DbResponse`: the JSON envelope `{"error": ..., "status": ...}`. */
  datatype DbResponse = DbResponse(error: string, status: int)

  /** A message header: each key holds a list of values. */
  type Header = map<string, seq<string>>

  /** `Header.Get`: the first value stored under the exact key, or the empty
      string when there is none. */
  function HeaderGet(h: Header, key: string): (v: string)
    ensures key in h && h[key] != [] ==> v == h[key][0]
    ensures !(key in h && h[key] != []) ==> v == ""
  {
    if key in h && h[key] != [] then h[key][0] else ""
  }

  /** `strconv.ParseBool`: the twelve boolean spellings; anything else is an
      error. */
  function ParseBool(s: string): (r: Option<bool>)
    ensures r == Some(true) <==> s in {"1", "t", "T", "TRUE", "true", "True"}
    ensures r == Some(false) <==> s in {"0", "f", "F", "FALSE", "false", "False"}
  {
    if s == "1" || s == "t" || s == "T" || s == "TRUE" || s == "true" || s == "True" then Some(true)
    else if s == "0" || s == "f" || s == "F" || s == "FALSE" || s == "false" || s == "False" then Some(false)
    else None
  }

  /** `ExtractShardOperationHeaders`: `type` must be present and an integer
      (any integer), then `fileName` and `bucketName` must be non-empty, then
      `overwrite`, when present, must be a boolean and otherwise defaults to
      true. The first failing check names the error. */
  function ExtractShardOperationHeaders(h: Header): (r: Result<ShardOperationHeaders>)
    ensures r.Ok? <==>
      && HeaderGet(h, "type") != "" && Atoi(HeaderGet(h, "type")).Some?
      && HeaderGet(h, "fileName") != "" && HeaderGet(h, "bucketName") != ""
      && (HeaderGet(h, "overwrite") == "" || ParseBool(HeaderGet(h, "overwrite")).Some?)
    ensures HeaderGet(h, "type") == "" ==> r == Err("missing 'type' header")
    ensures HeaderGet(h, "type") != "" && Atoi(HeaderGet(h, "type")).None? ==>
      r == Err("invalid 'type' header: " + HeaderGet(h, "type"))
    ensures Atoi(HeaderGet(h, "type")).Some? && HeaderGet(h, "fileName") == "" ==>
      r == Err("missing 'fileName' header")
    ensures Atoi(HeaderGet(h, "type")).Some? && HeaderGet(h, "fileName") != "" && HeaderGet(h, "bucketName") == "" ==>
      r == Err("missing 'bucketName' header")
    ensures r.Ok? ==>
      && Atoi(HeaderGet(h, "type")) == Some(r.value.operationType)
      && r.value.fileName == HeaderGet(h, "fileName") && r.value.bucketName == HeaderGet(h, "bucketName")
      && (HeaderGet(h, "overwrite") == "" ==> r.value.overwrite)
      && (HeaderGet(h, "overwrite") != "" ==> ParseBool(HeaderGet(h, "overwrite")) == Some(r.value.overwrite))
  {
    var opStr := HeaderGet(h, "type");
    if opStr == "" then Err("missing 'type' header")
    else match Atoi(opStr)
      case None => Err("invalid 'type' header: " + opStr)
      case Some(op) =>
        var fn := HeaderGet(h, "fileName");
        if fn == "" then Err("missing 'fileName' header")
        else
          var bn := HeaderGet(h, "bucketName");
          if bn == "" then Err("missing 'bucketName' header")
          else
            var owStr := HeaderGet(h, "overwrite");
            if owStr == "" then Ok(ShardOperationHeaders(op, fn, bn, true))
            else match ParseBool(owStr)
              case None => Err("invalid 'overwrite' header: " + owStr)
              case Some(ow) => Ok(ShardOperationHeaders(op, fn, bn, ow))
  }

  /** The header a client sends for an operation: one value per key, the
      type in decimal, the flag as `true` or `false`. */
  function EncodeHeaders(hdrs: ShardOperationHeaders): (h: Header)
    ensures HeaderGet(h, "fileName") == hdrs.fileName && HeaderGet(h, "bucketName") == hdrs.bucketName
  {
    map["type" := [IntToString(hdrs.operationType)],
        "fileName" := [hdrs.fileName],
        "bucketName" := [hdrs.bucketName],
        "overwrite" := [if hdrs.overwrite then "true" else "false"]]
  }

  /** Round trip: extracting the headers a client encoded gives back the
      same record, whenever the names are non-empty and the type fits a
      64-bit `int`. */
  lemma ExtractEncoded(hdrs: ShardOperationHeaders)
    requires hdrs.fileName != "" && hdrs.bucketName != ""
    requires MinInt64 <= hdrs.operationType <= MaxInt64
    ensures ExtractShardOperationHeaders(EncodeHeaders(hdrs)) == Ok(hdrs)
  {
    var h := EncodeHeaders(hdrs);
    AtoiIntToString(hdrs.operationType);
    assert HeaderGet(h, "type") == IntToString(hdrs.operationType);
    assert HeaderGet(h, "overwrite") == if hdrs.overwrite then "true" else "false";
  }

  /** Without an `overwrite` value a well-formed header means "overwrite". */
  lemma OverwriteDefaultsToTrue(h: Header)
    requires ExtractShardOperationHeaders(h).Ok?
    requires "overwrite" !in h
    ensures ExtractShardOperationHeaders(h).value.overwrite
  {
  }

  /** `RespondWithNatsError`'s envelope. */
  function ErrorEnvelope(status: int, description: string): (r: DbResponse)
    ensures r.status == status && r.error == description
  {
    DbResponse(description, status)
  }

  /** `RespondWithNatsSuccess`'s envelope. */
  function SuccessEnvelope(): (r: DbResponse)
    ensures r.status == SuccessCode && r.error == ""
  {
    DbResponse("", SuccessCode)
  }

  /** The process-wide cells: the four handles `InitializeGlobals` sets
      once, and the state cell `SetGlobalState` overwrites. The connection
      and the shutdown context are opaque values here. */
  class Globals<Conn, Ctx> {
    var config: Option<Config>
    var natsConn: Option<Conn>
    var blobClient: Option<BlobClient.Client>
    var shutdownCtx: Option<Ctx>
    /** Whether the once-guard has fired. */
    var initialized: bool
    /** The state cell; `None` until a state is stored. */
    var state: Option<State>

    /** The package's zero values: nothing set, nothing stored. */
    constructor ()
      ensures config.None? && natsConn.None? && blobClient.None? && shutdownCtx.None?
      ensures !initialized && GetGlobalState() == None
    {
      config := None;
      natsConn := None;
      blobClient := None;
      shutdownCtx := None;
      initialized := false;
      state := None;
    }

    /** `InitializeGlobals`: only the first call sets the four handles;
      later calls change nothing. The state cell is not touched. */
    method InitializeGlobals(cfg: Option<Config>, nc: Option<Conn>, bc: Option<BlobClient.Client>, ctx: Option<Ctx>)
      modifies this
      ensures old(initialized) ==> unchanged(this)
      ensures !old(initialized) ==>
        && config == cfg && natsConn == nc && blobClient == bc && shutdownCtx == ctx
        && initialized && state == old(state)
    {
      if !initialized {
        config := cfg;
        natsConn := nc;
        blobClient := bc;
        shutdownCtx := ctx;
        initialized := true;
      }
    }

    /** `GetGlobalState`: nil before any store, otherwise the last state
      stored. */
    function GetGlobalState(): (r: Option<State>)
      reads this
      ensures r.None? <==> state.None?
      ensures r.Some? ==> r.value == state.value
    {
      state
    }

    /** `SetGlobalState`: overwrites the cell and nothing else. */
    method SetGlobalState(st: Option<State>)
      modifies this
      ensures GetGlobalState() == st
      ensures config == old(config) && natsConn == old(natsConn) && blobClient == old(blobClient)
      ensures shutdownCtx == old(shutdownCtx) && initialized == old(initialized)
    {
      state := st;
    }

    /** `InitializeSingleModeState`: stores a state owning every shard from
      0 to the configured count minus one. The configuration must be set. */
    method InitializeSingleModeState()
      requires config.Some?
      modifies this
      ensures config == old(config)
      ensures GetGlobalState() == Some(NewState(Some(SingleModeShardIDs(config.value.shardCount))))
      ensures natsConn == old(natsConn) && blobClient == old(blobClient)
      ensures shutdownCtx == old(shutdownCtx) && initialized == old(initialized)
    {
      var shardIds := BuildShardIDs(config.value.shardCount);
      SetGlobalState(Some(NewState(Some(shardIds))));
    }
  }

  /** The IDs a single node owns: `0, 1, ..., shardCount - 1`. */
  function SingleModeShardIDs(shardCount: uint16): (ids: seq<uint16>)
    ensures |ids| == shardCount
  {
    seq(shardCount, i requires 0 <= i < shardCount => i as uint16)
  }

  /** The single-node IDs hold each shard exactly once, in ascending order,
      and none when the count is zero. */
  lemma SingleModeShardIDsExact(shardCount: uint16)
    ensures forall i :: 0 <= i < shardCount ==> SingleModeShardIDs(shardCount)[i] as int == i
    ensures forall i, j :: 0 <= i < j < shardCount ==> SingleModeShardIDs(shardCount)[i] < SingleModeShardIDs(shardCount)[j]
    ensures forall id: uint16 :: id in SingleModeShardIDs(shardCount) <==> id < shardCount
    ensures shardCount == 0 ==> SingleModeShardIDs(shardCount) == []
  {
    var ids := SingleModeShardIDs(shardCount);
    forall id: uint16 | id < shardCount
      ensures id in ids
    {
      assert ids[id] == id;
    }
  }

  /** The append loop of `InitializeSingleModeState`. */
  method BuildShardIDs(shardCount: uint16) returns (shardIds: seq<uint16>)
    ensures shardIds == SingleModeShardIDs(shardCount)
  {
    shardIds := [];
    var shardID: uint16 := 0;
    while shardID < shardCount
      invariant shardID <= shardCount
      invariant shardIds == SingleModeShardIDs(shardCount)[..shardID]
    {
      shardIds := shardIds + [shardID];
      shardID := shardID + 1;
    }
  }
}
