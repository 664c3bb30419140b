/** The service configuration (configurations/config.go and constants.go)
    and how it is completed and checked after it is read
    (configurations/loader.go): zero-valued fields are filled with defaults
    one at a time, then the ranges and the NATS subject prefix are
    validated. The environment-variable-to-key table that `Load` builds
    from the struct tags is modelled over an explicit tree of field
    descriptions. */
module Configurations {
  import opened Wrappers
  import Decimal

  /** Go's `uint16`. */
  type uint16 = x: int | 0 <= x < 0x1_0000

  /** `time.Duration`: a count of nanoseconds. */
  type Duration = int

  datatype NATSConfig = NATSConfig(
    url: string,
    creds: string,
    subjectPrefix: string,
    natsDrainTimeout: Duration,
    shutdownGracePeriod: Duration)

  datatype BlobConfig = BlobConfig(
    endpoint: string,
    accessKeyID: string,
    secretAccessKey: string,
    useSSL: bool,
    deleteMarkerCleanupDelayDays: int,
    nonCurrentVersionCleanupDelayDays: int,
    blobOperationTimeout: Duration)

  datatype DbConfig = DbConfig(channelBufferSize: int)

  datatype Config = Config(
    shardCount: uint16,
    healthPort: int,
    logLevel: string,
    blob: BlobConfig,
    nats: NATSConfig,
    db: DbConfig)

  const DefaultShardCount: uint16 := 16
  const MaxShardCount: uint16 := 256
  const MinShardCount: uint16 := 1
  const DefaultHealthPort: int := 8080
  const DefaultDeleteMarkerCleanupDelayDays: int := 1
  const DefaultNonCurrentVersionCleanupDelayDays: int := 1
  const AppName := "NimbusDb"

  const LogLevelTrace := "trace"
  const LogLevelDebug := "debug"
  const LogLevelInfo := "info"
  const LogLevelWarn := "warn"
  const LogLevelError := "error"
  const LogLevelFatal := "fatal"
  const LogLevelPanic := "panic"

  /** Upper bound of both lifecycle delays. */
  const MaxLifecycleDays := 365

  /** The defaults whose values are not part of this model (the NATS URL and
      subject prefix, the two timeouts, the channel buffer size and the log
      level); `Load` takes them as a parameter. */
  datatype Defaults = Defaults(
    natsURL: string,
    natsSubjectPrefix: string,
    natsDrainTimeout: Duration,
    blobOperationTimeout: Duration,
    dbChannelBufferSize: int,
    logLevel: string)

  /** A configuration as `Load` completes it: every defaulted field that is
      zero (or empty) takes its default, every other field is kept. */
  function WithDefaults(cfg: Config, d: Defaults): Config {
    Config(
      cfg.shardCount,
      if cfg.healthPort == 0 then DefaultHealthPort else cfg.healthPort,
      if cfg.logLevel == "" then d.logLevel else cfg.logLevel,
      cfg.blob.(
        deleteMarkerCleanupDelayDays :=
          if cfg.blob.deleteMarkerCleanupDelayDays == 0 then DefaultDeleteMarkerCleanupDelayDays
          else cfg.blob.deleteMarkerCleanupDelayDays,
        nonCurrentVersionCleanupDelayDays :=
          if cfg.blob.nonCurrentVersionCleanupDelayDays == 0 then DefaultNonCurrentVersionCleanupDelayDays
          else cfg.blob.nonCurrentVersionCleanupDelayDays,
        blobOperationTimeout :=
          if cfg.blob.blobOperationTimeout == 0 then d.blobOperationTimeout else cfg.blob.blobOperationTimeout),
      cfg.nats.(
        url := if cfg.nats.url == "" then d.natsURL else cfg.nats.url,
        subjectPrefix := if cfg.nats.subjectPrefix == "" then d.natsSubjectPrefix else cfg.nats.subjectPrefix,
        natsDrainTimeout := if cfg.nats.natsDrainTimeout == 0 then d.natsDrainTimeout else cfg.nats.natsDrainTimeout),
      DbConfig(if cfg.db.channelBufferSize == 0 then d.dbChannelBufferSize else cfg.db.channelBufferSize))
  }

  /** Step 4 of `Load`: the defaulting, one field at a time. */
  method FillDefaults(cfg: Config, d: Defaults) returns (r: Config)
    ensures r == WithDefaults(cfg, d)
  {
    var healthPort, logLevel := cfg.healthPort, cfg.logLevel;
    var blob, nats, db := cfg.blob, cfg.nats, cfg.db;
    if healthPort == 0 {
      healthPort := DefaultHealthPort;
    }
    if blob.deleteMarkerCleanupDelayDays == 0 {
      blob := blob.(deleteMarkerCleanupDelayDays := DefaultDeleteMarkerCleanupDelayDays);
    }
    if blob.nonCurrentVersionCleanupDelayDays == 0 {
      blob := blob.(nonCurrentVersionCleanupDelayDays := DefaultNonCurrentVersionCleanupDelayDays);
    }
    if nats.url == "" {
      nats := nats.(url := d.natsURL);
    }
    if nats.subjectPrefix == "" {
      nats := nats.(subjectPrefix := d.natsSubjectPrefix);
    }
    if nats.natsDrainTimeout == 0 {
      nats := nats.(natsDrainTimeout := d.natsDrainTimeout);
    }
    if blob.blobOperationTimeout == 0 {
      blob := blob.(blobOperationTimeout := d.blobOperationTimeout);
    }
    if db.channelBufferSize == 0 {
      db := db.(channelBufferSize := d.dbChannelBufferSize);
    }
    if logLevel == "" {
      logLevel := d.logLevel;
    }
    r := Config(cfg.shardCount, healthPort, logLevel, blob, nats, db);
  }

  /** A field that is already set is never overwritten, and one that is
      zero takes its default. Negative numbers count as set. */
  lemma WithDefaultsFields(cfg: Config, d: Defaults)
    ensures var r := WithDefaults(cfg, d);
      && (cfg.healthPort != 0 ==> r.healthPort == cfg.healthPort)
      && (cfg.healthPort == 0 ==> r.healthPort == DefaultHealthPort)
      && (cfg.blob.deleteMarkerCleanupDelayDays != 0 ==>
            r.blob.deleteMarkerCleanupDelayDays == cfg.blob.deleteMarkerCleanupDelayDays)
      && (cfg.blob.deleteMarkerCleanupDelayDays == 0 ==>
            r.blob.deleteMarkerCleanupDelayDays == DefaultDeleteMarkerCleanupDelayDays)
      && (cfg.blob.nonCurrentVersionCleanupDelayDays != 0 ==>
            r.blob.nonCurrentVersionCleanupDelayDays == cfg.blob.nonCurrentVersionCleanupDelayDays)
      && (cfg.blob.nonCurrentVersionCleanupDelayDays == 0 ==>
            r.blob.nonCurrentVersionCleanupDelayDays == DefaultNonCurrentVersionCleanupDelayDays)
      && (cfg.nats.subjectPrefix != "" ==> r.nats.subjectPrefix == cfg.nats.subjectPrefix)
      && (cfg.nats.subjectPrefix == "" ==> r.nats.subjectPrefix == d.natsSubjectPrefix)
      && (cfg.nats.url != "" ==> r.nats.url == cfg.nats.url)
      && (cfg.nats.url == "" ==> r.nats.url == d.natsURL)
      && (cfg.nats.natsDrainTimeout != 0 ==> r.nats.natsDrainTimeout == cfg.nats.natsDrainTimeout)
      && (cfg.nats.natsDrainTimeout == 0 ==> r.nats.natsDrainTimeout == d.natsDrainTimeout)
      && (cfg.blob.blobOperationTimeout != 0 ==> r.blob.blobOperationTimeout == cfg.blob.blobOperationTimeout)
      && (cfg.blob.blobOperationTimeout == 0 ==> r.blob.blobOperationTimeout == d.blobOperationTimeout)
      && (cfg.db.channelBufferSize != 0 ==> r.db.channelBufferSize == cfg.db.channelBufferSize)
      && (cfg.db.channelBufferSize == 0 ==> r.db.channelBufferSize == d.dbChannelBufferSize)
      && (cfg.logLevel != "" ==> r.logLevel == cfg.logLevel)
      && (cfg.logLevel == "" ==> r.logLevel == d.logLevel)
      && r.shardCount == cfg.shardCount
      && r.blob.endpoint == cfg.blob.endpoint && r.blob.accessKeyID == cfg.blob.accessKeyID
      && r.blob.secretAccessKey == cfg.blob.secretAccessKey && r.blob.useSSL == cfg.blob.useSSL
      && r.nats.creds == cfg.nats.creds && r.nats.shutdownGracePeriod == cfg.nats.shutdownGracePeriod
  {
  }

  /** Filling defaults twice is filling them once, whenever the defaults
      themselves are non-zero. */
  lemma WithDefaultsIdempotent(cfg: Config, d: Defaults)
    requires d.natsURL != "" && d.natsSubjectPrefix != "" && d.logLevel != ""
    requires d.natsDrainTimeout != 0 && d.blobOperationTimeout != 0 && d.dbChannelBufferSize != 0
    ensures WithDefaults(WithDefaults(cfg, d), d) == WithDefaults(cfg, d)
  {
  }

  /** A character allowed in a NATS subject prefix: an ASCII letter or digit,
      '.', '_', '-' or ':'. */
  predicate SubjectChar(c: char) {
    ('a' <= c <= 'z') || ('A' <= c <= 'Z') || ('0' <= c <= '9') || c == '.' || c == '_' || c == '-' || c == ':'
  }

  /** The prefix is non-empty and made of subject characters only. */
  predicate ValidSubjectPrefix(p: string) {
    p != "" && forall i :: 0 <= i < |p| ==> SubjectChar(p[i])
  }

  /** The first character of `s`, from index `i` on, that is not a subject
      character. */
  function FirstInvalid(s: string, i: nat): (r: Option<nat>)
    requires i <= |s|
    ensures r.None? <==> forall k :: i <= k < |s| ==> SubjectChar(s[k])
    ensures r.Some? ==>
      && i <= r.value < |s| && !SubjectChar(s[r.value])
      && (forall k :: i <= k < r.value ==> SubjectChar(s[k]))
    decreases |s| - i
  {
    if i == |s| then None
    else if !SubjectChar(s[i]) then Some(i)
    else FirstInvalid(s, i + 1)
  }

  /** `validateNATSConfig`: an empty prefix, or the first offending
      character, is reported. */
  function ValidateNATSConfig(n: NATSConfig): (r: Result<Unit>)
    ensures r.Ok? <==> ValidSubjectPrefix(n.subjectPrefix)
    ensures n.subjectPrefix == "" ==> r == Err("NATS subject prefix cannot be empty")
  {
    if n.subjectPrefix == "" then Err("NATS subject prefix cannot be empty")
    else match FirstInvalid(n.subjectPrefix, 0)
      case Some(i) =>
        Err("NATS subject prefix contains invalid character '" + [n.subjectPrefix[i]]
            + "': only alphanumeric characters, dots, underscores, dashes, and colons are allowed")
      case None => Ok(())
  }

  predicate LifecycleDaysInRange(days: int) { 1 <= days <= MaxLifecycleDays }

  /** `validateConfig`: the health port, then the delete-marker delay, then
      the non-current-version delay, then the NATS settings. */
  function ValidateConfig(cfg: Config): (r: Result<Unit>)
    ensures r.Ok? <==>
      && 1 <= cfg.healthPort <= 65535
      && LifecycleDaysInRange(cfg.blob.deleteMarkerCleanupDelayDays)
      && LifecycleDaysInRange(cfg.blob.nonCurrentVersionCleanupDelayDays)
      && ValidSubjectPrefix(cfg.nats.subjectPrefix)
    ensures !(1 <= cfg.healthPort <= 65535) ==>
      r == Err("health port must be between 1 and 65535, got " + Decimal.IntToString(cfg.healthPort))
    ensures 1 <= cfg.healthPort <= 65535 && !LifecycleDaysInRange(cfg.blob.deleteMarkerCleanupDelayDays) ==>
      r == Err("delete marker cleanup delay days must be between 1 and " + Decimal.IntToString(MaxLifecycleDays)
               + ", got " + Decimal.IntToString(cfg.blob.deleteMarkerCleanupDelayDays))
    ensures (1 <= cfg.healthPort <= 65535 && LifecycleDaysInRange(cfg.blob.deleteMarkerCleanupDelayDays)
             && !LifecycleDaysInRange(cfg.blob.nonCurrentVersionCleanupDelayDays)) ==>
      r == Err("non-current version cleanup delay days must be between 1 and " + Decimal.IntToString(MaxLifecycleDays)
               + ", got " + Decimal.IntToString(cfg.blob.nonCurrentVersionCleanupDelayDays))
    ensures (1 <= cfg.healthPort <= 65535 && LifecycleDaysInRange(cfg.blob.deleteMarkerCleanupDelayDays)
             && LifecycleDaysInRange(cfg.blob.nonCurrentVersionCleanupDelayDays)) ==>
      r == ValidateNATSConfig(cfg.nats)
  {
    if cfg.healthPort < 1 || cfg.healthPort > 65535 then
      Err("health port must be between 1 and 65535, got " + Decimal.IntToString(cfg.healthPort))
    else if !LifecycleDaysInRange(cfg.blob.deleteMarkerCleanupDelayDays) then
      Err("delete marker cleanup delay days must be between 1 and " + Decimal.IntToString(MaxLifecycleDays)
          + ", got " + Decimal.IntToString(cfg.blob.deleteMarkerCleanupDelayDays))
    else if !LifecycleDaysInRange(cfg.blob.nonCurrentVersionCleanupDelayDays) then
      Err("non-current version cleanup delay days must be between 1 and " + Decimal.IntToString(MaxLifecycleDays)
          + ", got " + Decimal.IntToString(cfg.blob.nonCurrentVersionCleanupDelayDays))
    else ValidateNATSConfig(cfg.nats)
  }

  /** Steps 4 and 5 of `Load`, on the configuration the file and the
      environment produced: defaults, then validation; a failed validation
      returns no configuration. */
  method Load(unmarshalled: Config, d: Defaults) returns (r: Result<Config>)
    ensures r.Ok? <==> ValidateConfig(WithDefaults(unmarshalled, d)).Ok?
    ensures r.Ok? ==> r.value == WithDefaults(unmarshalled, d)
    ensures r.Err? ==> r == Err(ValidateConfig(WithDefaults(unmarshalled, d)).msg)
  {
    var cfg := FillDefaults(unmarshalled, d);
    var v := ValidateConfig(cfg);
    if v.Err? {
      return Err(v.msg);
    }
    return Ok(cfg);
  }

  /** A health port and lifecycle delays that were left unset pass their
      range checks once defaulted, so with a valid prefix `Load` succeeds. */
  lemma DefaultsPassValidation(cfg: Config, d: Defaults)
    requires cfg.healthPort == 0
    requires cfg.blob.deleteMarkerCleanupDelayDays == 0 && cfg.blob.nonCurrentVersionCleanupDelayDays == 0
    requires ValidSubjectPrefix(WithDefaults(cfg, d).nats.subjectPrefix)
    ensures ValidateConfig(WithDefaults(cfg, d)) == Ok(())
  {
  }

  /** A health port out of range is reported even when everything else is
      valid, and it is reported first. */
  lemma HealthPortCheckedFirst(cfg: Config, d: Defaults)
    requires cfg.healthPort > 65535 || cfg.healthPort < 0
    ensures ValidateConfig(WithDefaults(cfg, d)).Err?
    ensures ValidateConfig(WithDefaults(cfg, d)).msg
      == "health port must be between 1 and 65535, got " + Decimal.IntToString(cfg.healthPort)
  {
  }

  // ---------------------------------------------------------------------------
  // The environment-variable table built from the struct tags.

  /** One struct field as reflection sees it: its `koanf` and `env` tags
      (empty when absent), whether its type is a struct, and that struct's
      fields. */
  datatype FieldDesc = FieldDesc(koanfTag: string, envTag: string, isStruct: bool, nested: seq<FieldDesc>)

  /** The dotted key of a field under `prefix`. */
  function FullKey(prefix: string, koanfTag: string): (k: string)
    ensures prefix == "" ==> k == koanfTag
    ensures prefix != "" && koanfTag == "" ==> k == prefix
    ensures prefix != "" && koanfTag != "" ==> k == prefix + "." + koanfTag
  {
    if prefix != "" then (if koanfTag != "" then prefix + "." + koanfTag else prefix) else koanfTag
  }

  /** The table after visiting `fields` in order under `prefix`, starting
      from `m`. Each field with an `env` tag maps it to its full key; a
      struct field with a `koanf` tag is then visited recursively. */
  function EnvMapOf(fields: seq<FieldDesc>, prefix: string, m: map<string, string>): map<string, string>
    decreases fields
  {
    if fields == [] then m
    else
      var before := EnvMapOf(fields[..|fields| - 1], prefix, m);
      var f := fields[|fields| - 1];
      var full := FullKey(prefix, f.koanfTag);
      var withField := if f.envTag != "" && full != "" then before[f.envTag := full] else before;
      if f.isStruct && f.koanfTag != "" then EnvMapOf(f.nested, full, withField) else withField
  }

  /** `buildEnvToKoanfMapRecursive`: fills the table while walking the
      fields, recursing into nested structs. */
  method BuildEnvMapRecursive(fields: seq<FieldDesc>, prefix: string, envMap: map<string, string>)
    returns (m: map<string, string>)
    ensures m == EnvMapOf(fields, prefix, envMap)
    decreases fields
  {
    m := envMap;
    var i := 0;
    while i < |fields|
      invariant i <= |fields|
      invariant m == EnvMapOf(fields[..i], prefix, envMap)
    {
      var f := fields[i];
      assert fields[..i + 1][..i] == fields[..i];
      var full := FullKey(prefix, f.koanfTag);
      if f.envTag != "" && full != "" {
        m := m[f.envTag := full];
      }
      if f.isStruct && f.koanfTag != "" {
        m := BuildEnvMapRecursive(f.nested, full, m);
      }
      assert m == EnvMapOf(fields[..i + 1], prefix, envMap);
      i := i + 1;
    }
    assert fields[..|fields|] == fields;
  }

  /** Every entry of the table either is an entry of `m` left as it was or
      maps to a non-empty key. */
  lemma {:induction false} EnvMapValuesNonEmpty(fields: seq<FieldDesc>, prefix: string, m: map<string, string>, e: string)
    requires e in EnvMapOf(fields, prefix, m)
    ensures (e in m && EnvMapOf(fields, prefix, m)[e] == m[e]) || EnvMapOf(fields, prefix, m)[e] != ""
    decreases fields
  {
    if fields != [] {
      var init := fields[..|fields| - 1];
      var before := EnvMapOf(init, prefix, m);
      var f := fields[|fields| - 1];
      var full := FullKey(prefix, f.koanfTag);
      var withField := if f.envTag != "" && full != "" then before[f.envTag := full] else before;
      assert e in withField ==> (e == f.envTag && f.envTag != "" && full != "") || e in before;
      if f.isStruct && f.koanfTag != "" {
        EnvMapValuesNonEmpty(f.nested, full, withField, e);
        if e in withField && !(e == f.envTag && f.envTag != "" && full != "") {
          EnvMapValuesNonEmpty(init, prefix, m, e);
        }
      } else if !(e == f.envTag && f.envTag != "" && full != "") {
        EnvMapValuesNonEmpty(init, prefix, m, e);
      }
    }
  }

  /** Every value of the table built from scratch is a non-empty key. */
  lemma EnvMapFromScratch(fields: seq<FieldDesc>, e: string)
    requires e in EnvMapOf(fields, "", map[])
    ensures EnvMapOf(fields, "", map[])[e] != ""
  {
    EnvMapValuesNonEmpty(fields, "", map[], e);
  }

  function Leaf(koanfTag: string, envTag: string): FieldDesc { FieldDesc(koanfTag, envTag, false, []) }

  /** The tags of `NATSConfig`. */
  const NATSFields: seq<FieldDesc> := [
    Leaf("url", "NATS_URL"),
    Leaf("creds", "NATS_CREDS"),
    Leaf("subjectPrefix", "NATS_SUBJECT_PREFIX"),
    Leaf("natsDrainTimeout", "NATS_DRAIN_TIMEOUT"),
    Leaf("shutdownGracePeriod", "NATS_SHUTDOWN_GRACE_PERIOD")]

  /** The tags of `BlobConfig`. */
  const BlobFields: seq<FieldDesc> := [
    Leaf("endpoint", "BLOB_ENDPOINT"),
    Leaf("accessKeyID", "BLOB_ACCESS_KEY_ID"),
    Leaf("secretAccessKey", "BLOB_SECRET_ACCESS_KEY"),
    Leaf("useSSL", "BLOB_USE_SSL"),
    Leaf("deleteMarkerCleanupDelayDays", "BLOB_DELETE_MARKER_CLEANUP_DELAY_DAYS"),
    Leaf("nonCurrentVersionCleanupDelayDays", "BLOB_NON_CURRENT_VERSION_CLEANUP_DELAY_DAYS"),
    Leaf("blobOperationTimeout", "BLOB_OPERATION_TIMEOUT")]

  /** The tags of `DbConfig`. */
  const DbFields: seq<FieldDesc> := [Leaf("channelBufferSize", "DB_CHANNEL_BUFFER_SIZE")]

  /** The tags of `Config`; the nested structs have a `koanf` tag only. */
  const ConfigFields: seq<FieldDesc> := [
    Leaf("shardCount", "SHARD_COUNT"),
    Leaf("healthPort", "HEALTH_PORT"),
    Leaf("logLevel", "LOG_LEVEL"),
    FieldDesc("blob", "", true, BlobFields),
    FieldDesc("nats", "", true, NATSFields),
    FieldDesc("db", "", true, DbFields)]

  /** Visiting `a` then `b` is visiting `a + b`: the table is threaded
      through the fields in order. */
  lemma {:induction false} EnvMapAppend(a: seq<FieldDesc>, b: seq<FieldDesc>, prefix: string, m: map<string, string>)
    ensures EnvMapOf(a + b, prefix, m) == EnvMapOf(b, prefix, EnvMapOf(a, prefix, m))
    decreases |b|
  {
    if b == [] {
      assert a + b == a;
    } else {
      var init := b[..|b| - 1];
      assert (a + b)[..|a + b| - 1] == a + init;
      assert (a + b)[|a + b| - 1] == b[|b| - 1];
      EnvMapAppend(a, init, prefix, m);
    }
  }

  /** A tagged plain field maps its `env` tag to its dotted key, replacing
      any earlier entry for that tag. */
  lemma EnvMapLeaf(fields: seq<FieldDesc>, prefix: string, m: map<string, string>, koanfTag: string, envTag: string)
    requires envTag != "" && FullKey(prefix, koanfTag) != ""
    ensures EnvMapOf(fields + [Leaf(koanfTag, envTag)], prefix, m)
      == EnvMapOf(fields, prefix, m)[envTag := FullKey(prefix, koanfTag)]
  {
    assert (fields + [Leaf(koanfTag, envTag)])[..|fields|] == fields;
  }

  /** A struct field is descended into, under its dotted key, exactly when it
      has a `koanf` tag; without one its nested fields add nothing. */
  lemma EnvMapStruct(fields: seq<FieldDesc>, prefix: string, m: map<string, string>, koanfTag: string, nested: seq<FieldDesc>)
    ensures koanfTag != "" ==>
      EnvMapOf(fields + [FieldDesc(koanfTag, "", true, nested)], prefix, m)
        == EnvMapOf(nested, FullKey(prefix, koanfTag), EnvMapOf(fields, prefix, m))
    ensures koanfTag == "" ==>
      EnvMapOf(fields + [FieldDesc(koanfTag, "", true, nested)], prefix, m) == EnvMapOf(fields, prefix, m)
  {
    assert (fields + [FieldDesc(koanfTag, "", true, nested)])[..|fields|] == fields;
  }

  /** Plain fields whose tags differ from `e` leave the entry for `e` as it
      was. */
  lemma {:induction false} EnvMapPlainKeeps(fields: seq<FieldDesc>, prefix: string, m: map<string, string>, e: string)
    requires forall i :: 0 <= i < |fields| ==> !fields[i].isStruct && fields[i].envTag != e
    ensures e in EnvMapOf(fields, prefix, m) <==> e in m
    ensures e in m ==> EnvMapOf(fields, prefix, m)[e] == m[e]
    decreases |fields|
  {
    if fields != [] {
      EnvMapPlainKeeps(fields[..|fields| - 1], prefix, m, e);
    }
  }

  /** The entry a plain first field makes survives the other plain fields
      when their tags differ. */
  lemma EnvMapFirstPlain(fields: seq<FieldDesc>, prefix: string, m: map<string, string>)
    requires |fields| > 0 && !fields[0].isStruct
    requires fields[0].envTag != "" && FullKey(prefix, fields[0].koanfTag) != ""
    requires forall i :: 1 <= i < |fields| ==> !fields[i].isStruct && fields[i].envTag != fields[0].envTag
    ensures fields[0].envTag in EnvMapOf(fields, prefix, m)
    ensures EnvMapOf(fields, prefix, m)[fields[0].envTag] == FullKey(prefix, fields[0].koanfTag)
  {
    var f := fields[0];
    assert [f][..0] == [];
    assert EnvMapOf([f], prefix, m) == m[f.envTag := FullKey(prefix, f.koanfTag)];
    EnvMapAppend([f], fields[1..], prefix, m);
    assert [f] + fields[1..] == fields;
    EnvMapPlainKeeps(fields[1..], prefix, m[f.envTag := FullKey(prefix, f.koanfTag)], f.envTag);
  }

  /** Three tagged structs after some leading fields. */
  lemma EnvMapThreeStructs(top: seq<FieldDesc>, b: seq<FieldDesc>, n: seq<FieldDesc>, d: seq<FieldDesc>)
    ensures EnvMapOf(top + [FieldDesc("blob", "", true, b), FieldDesc("nats", "", true, n), FieldDesc("db", "", true, d)], "", map[])
      == EnvMapOf(d, "db", EnvMapOf(n, "nats", EnvMapOf(b, "blob", EnvMapOf(top, "", map[]))))
  {
    var blob := FieldDesc("blob", "", true, b);
    var nats := FieldDesc("nats", "", true, n);
    var db := FieldDesc("db", "", true, d);
    EnvMapStruct(top, "", map[], "blob", b);
    EnvMapStruct(top + [blob], "", map[], "nats", n);
    EnvMapStruct(top + [blob, nats], "", map[], "db", d);
    assert (top + [blob]) + [nats] == top + [blob, nats];
    assert (top + [blob, nats]) + [db] == top + [blob, nats, db];
  }

  /** In a tree shaped like `Config` whose first NATS field is `url`, with
      no later field reusing its tag, `NATS_URL` maps to `nats.url`. */
  lemma NatsUrlEntry(top: seq<FieldDesc>, b: seq<FieldDesc>, n: seq<FieldDesc>, d: seq<FieldDesc>)
    requires |n| > 0 && n[0] == Leaf("url", "NATS_URL")
    requires forall i :: 1 <= i < |n| ==> !n[i].isStruct && n[i].envTag != "NATS_URL"
    requires forall i :: 0 <= i < |d| ==> !d[i].isStruct && d[i].envTag != "NATS_URL"
    ensures var m := EnvMapOf(top + [FieldDesc("blob", "", true, b), FieldDesc("nats", "", true, n), FieldDesc("db", "", true, d)], "", map[]);
      "NATS_URL" in m && m["NATS_URL"] == "nats.url"
  {
    EnvMapThreeStructs(top, b, n, d);
    var m4 := EnvMapOf(b, "blob", EnvMapOf(top, "", map[]));
    assert FullKey("nats", "url") == "nats.url";
    EnvMapFirstPlain(n, "nats", m4);
    EnvMapPlainKeeps(d, "db", EnvMapOf(n, "nats", m4), "NATS_URL");
  }

  /** In a tree shaped like `Config` whose first field is `shardCount`, with
      no other field reusing its tag, `SHARD_COUNT` maps to `shardCount`. */
  lemma ShardCountEntry(top: seq<FieldDesc>, b: seq<FieldDesc>, n: seq<FieldDesc>, d: seq<FieldDesc>)
    requires |top| > 0 && top[0] == Leaf("shardCount", "SHARD_COUNT")
    requires forall i :: 1 <= i < |top| ==> !top[i].isStruct && top[i].envTag != "SHARD_COUNT"
    requires forall i :: 0 <= i < |b| ==> !b[i].isStruct && b[i].envTag != "SHARD_COUNT"
    requires forall i :: 0 <= i < |n| ==> !n[i].isStruct && n[i].envTag != "SHARD_COUNT"
    requires forall i :: 0 <= i < |d| ==> !d[i].isStruct && d[i].envTag != "SHARD_COUNT"
    ensures var m := EnvMapOf(top + [FieldDesc("blob", "", true, b), FieldDesc("nats", "", true, n), FieldDesc("db", "", true, d)], "", map[]);
      "SHARD_COUNT" in m && m["SHARD_COUNT"] == "shardCount"
  {
    EnvMapThreeStructs(top, b, n, d);
    var m3 := EnvMapOf(top, "", map[]);
    var m4 := EnvMapOf(b, "blob", m3);
    EnvMapFirstPlain(top, "", map[]);
    EnvMapPlainKeeps(b, "blob", m3, "SHARD_COUNT");
    EnvMapPlainKeeps(n, "nats", m4, "SHARD_COUNT");
    EnvMapPlainKeeps(d, "db", EnvMapOf(n, "nats", m4), "SHARD_COUNT");
  }

  /** The table built for the fields of `Config`: the top-level tag
      `SHARD_COUNT` maps to its own key and the nested `NATS_URL` to the
      dotted path `nats.url`. */
  lemma ConfigEnvMap(fields: seq<FieldDesc>)
    requires fields == ConfigFields
    ensures var m := EnvMapOf(fields, "", map[]);
      && "SHARD_COUNT" in m && m["SHARD_COUNT"] == "shardCount"
      && "NATS_URL" in m && m["NATS_URL"] == "nats.url"
  {
    var top := fields[..3];
    assert fields == top + [FieldDesc("blob", "", true, BlobFields), FieldDesc("nats", "", true, NATSFields), FieldDesc("db", "", true, DbFields)];
    NatsUrlEntry(top, BlobFields, NATSFields, DbFields);
    ShardCountEntry(top, BlobFields, NATSFields, DbFields);
  }

  /** `buildEnvToKoanfMap`. */
  method BuildEnvMap() returns (m: map<string, string>)
    ensures m == EnvMapOf(ConfigFields, "", map[])
  {
    m := BuildEnvMapRecursive(ConfigFields, "", map[]);
  }
}
