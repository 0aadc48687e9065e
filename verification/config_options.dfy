/**
 * The per-topic configuration record (`TopicHandler\ConfigOptions\Base`).
 *
 * The record is written once, by its constructor, and never again, so it is a
 * datatype: its getters are the datatype's field selectors, and the PHP
 * constructor's optional parameters are the constructor's default values.
 */
module ConfigOptions {
  import opened Wrappers

  /** A PHP value as it can appear in the nested configuration arrays. */
  datatype Value =
    | Null
    | Bool(b: bool)
    | Int(i: int)
    | Str(s: string)
    | List(items: seq<Value>)
    | Dict(entries: map<string, Value>)

  /** librdkafka's RD_KAFKA_PARTITION_UA: "no partition chosen, let the partitioner decide". */
  const PARTITION_UA: int := -1

  datatype Base = Base(
    topicId: string,
    broker: map<string, Value>,
    handler: string,
    partition: Option<int> := None,
    consumerGroup: string := "default",
    avroSchema: map<string, Value> := map[],
    middlewares: seq<string> := [],
    timeout: int := 1000,
    isAsync: bool := true,
    requiredAcknowledgment: bool := false,
    maxPollRecords: int := 500,
    flushAttempts: int := 10,
    autoCommit: bool := true,
    commitASync: bool := true,
    offsetReset: string := "smallest")

  /** A topic configured with only its three mandatory arguments gets the documented defaults. */
  lemma ConstructorDefaults(topicId: string, broker: map<string, Value>, handler: string)
    ensures var c := Base(topicId, broker, handler);
      && c.topicId == topicId && c.broker == broker && c.handler == handler
      && c.partition == None && c.consumerGroup == "default"
      && c.avroSchema == map[] && c.middlewares == []
      && c.timeout == 1000 && c.isAsync && !c.requiredAcknowledgment
      && c.maxPollRecords == 500 && c.flushAttempts == 10
      && c.autoCommit && c.commitASync && c.offsetReset == "smallest"
  {
  }

  /** `getPartition`: the configured partition, or the unassigned sentinel when none was given. */
  function GetPartition(c: Base): (p: int)
    ensures c.partition.Some? ==> p == c.partition.value
    ensures c.partition.None? ==> p == PARTITION_UA
  {
    match c.partition
    case Some(n) => n
    case None => PARTITION_UA
  }

  /** PHP's `$array[$key] ?? null`. */
  function Coalesce(m: map<string, Value>, key: string): (v: Value)
    ensures key in m ==> v == m[key]
    ensures key !in m ==> v == Null
  {
    if key in m then m[key] else Null
  }

  /** The middleware class names as the PHP list of strings. */
  function MiddlewareList(names: seq<string>): (v: Value)
    ensures v.List? && |v.items| == |names|
    ensures forall i :: 0 <= i < |names| ==> v.items[i] == Str(names[i])
  {
    List(seq(|names|, i requires 0 <= i < |names| => Str(names[i])))
  }

  /** The keys of the array `toArray` builds; `KeyName` gives each one's PHP spelling. */
  datatype Key =
    | TopicId | Connections | Auth | Timeout | IsAsync | Handler | Partition
    | ConsumerGroup | RequiredAcknowledgment | MaxPollRecords | FlushAttempts
    | Middlewares | Url | SslVerify | RequestOptions | AutoCommit | CommitAsync
    | OffsetReset

  function KeyName(k: Key): string {
    match k
    case TopicId => "topic_id"
    case Connections => "connections"
    case Auth => "auth"
    case Timeout => "timeout"
    case IsAsync => "is_async"
    case Handler => "handler"
    case Partition => "partition"
    case ConsumerGroup => "consumer_group"
    case RequiredAcknowledgment => "required_acknowledgment"
    case MaxPollRecords => "max_poll_records"
    case FlushAttempts => "flush_attempts"
    case Middlewares => "middlewares"
    case Url => "url"
    case SslVerify => "ssl_verify"
    case RequestOptions => "request_options"
    case AutoCommit => "auto_commit"
    case CommitAsync => "commit_async"
    case OffsetReset => "offset_reset"
  }

  /** The key a PHP array key spells, if it is one of `toArray`'s. */
  function KeyOf(name: string): Option<Key> {
    if name == "topic_id" then Some(TopicId)
    else if name == "connections" then Some(Connections)
    else if name == "auth" then Some(Auth)
    else if name == "timeout" then Some(Timeout)
    else if name == "is_async" then Some(IsAsync)
    else if name == "handler" then Some(Handler)
    else if name == "partition" then Some(Partition)
    else if name == "consumer_group" then Some(ConsumerGroup)
    else if name == "required_acknowledgment" then Some(RequiredAcknowledgment)
    else if name == "max_poll_records" then Some(MaxPollRecords)
    else if name == "flush_attempts" then Some(FlushAttempts)
    else if name == "middlewares" then Some(Middlewares)
    else if name == "url" then Some(Url)
    else if name == "ssl_verify" then Some(SslVerify)
    else if name == "request_options" then Some(RequestOptions)
    else if name == "auto_commit" then Some(AutoCommit)
    else if name == "commit_async" then Some(CommitAsync)
    else if name == "offset_reset" then Some(OffsetReset)
    else None
  }

  /** Reading a key's spelling back gives the key, so no two keys share a spelling. */
  lemma KeyNameInjective(a: Key, b: Key)
    ensures KeyOf(KeyName(a)) == Some(a)
    ensures KeyName(a) == KeyName(b) ==> a == b
  {
  }

  const TO_ARRAY_KEYS: set<Key> := {
    TopicId, Connections, Auth, Timeout, IsAsync, Handler, Partition,
    ConsumerGroup, RequiredAcknowledgment, MaxPollRecords, FlushAttempts,
    Middlewares, Url, SslVerify, RequestOptions, AutoCommit, CommitAsync,
    OffsetReset}

  lemma KeyListed(k: Key)
    ensures k in TO_ARRAY_KEYS
  {
    match k
    case TopicId => case Connections => case Auth => case Timeout => case IsAsync =>
    case Handler => case Partition => case ConsumerGroup => case RequiredAcknowledgment =>
    case MaxPollRecords => case FlushAttempts => case Middlewares => case Url =>
    case SslVerify => case RequestOptions => case AutoCommit => case CommitAsync =>
    case OffsetReset =>
  }

  /** The value `toArray` stores under one key. */
  function Exported(c: Base, k: Key): Value {
    match k
    case TopicId => Str(c.topicId)
    case Connections => Coalesce(c.broker, "connections")
    case Auth => Coalesce(c.broker, "auth")
    case Timeout => Int(c.timeout)
    case IsAsync => Bool(c.isAsync)
    case Handler => Str(c.handler)
    case Partition => Int(GetPartition(c))
    case ConsumerGroup => Str(c.consumerGroup)
    case RequiredAcknowledgment => Bool(c.requiredAcknowledgment)
    case MaxPollRecords => Int(c.maxPollRecords)
    case FlushAttempts => Int(c.flushAttempts)
    case Middlewares => MiddlewareList(c.middlewares)
    case Url => Coalesce(c.avroSchema, "url")
    case SslVerify => Coalesce(c.avroSchema, "ssl_verify")
    case RequestOptions => Coalesce(c.avroSchema, "request_options")
    case AutoCommit => Bool(c.autoCommit)
    case CommitAsync => Bool(c.commitASync)
    case OffsetReset => Str(c.offsetReset)
  }

  /** `toArray`: the flat settings array, every key present, each holding what `Exported` says. */
  function ToArray(c: Base): (r: map<Key, Value>)
    ensures forall k :: k in r && r[k] == Exported(c, k)
  {
    var r := map k | k in TO_ARRAY_KEYS :: Exported(c, k);
    assert forall k :: k in r by {
      forall k ensures k in r { KeyListed(k); }
    }
    r
  }

  /** `connections` and `auth` come from the broker array, and are null when it lacks them. */
  lemma ToArrayBrokerKeys(c: Base)
    ensures var r := ToArray(c);
      && ("connections" in c.broker ==> r[Connections] == c.broker["connections"])
      && ("connections" !in c.broker ==> r[Connections] == Null)
      && ("auth" in c.broker ==> r[Auth] == c.broker["auth"])
      && ("auth" !in c.broker ==> r[Auth] == Null)
  {
    var r := ToArray(c);
    assert r[Connections] == Exported(c, Connections) == Coalesce(c.broker, "connections");
    assert r[Auth] == Exported(c, Auth) == Coalesce(c.broker, "auth");
  }

  /** `url`, `ssl_verify` and `request_options` come from the Avro schema array, and are null when it lacks them. */
  lemma ToArraySchemaRegistryKeys(c: Base)
    ensures var r := ToArray(c);
      && ("url" in c.avroSchema ==> r[Url] == c.avroSchema["url"])
      && ("url" !in c.avroSchema ==> r[Url] == Null)
      && ("ssl_verify" in c.avroSchema ==> r[SslVerify] == c.avroSchema["ssl_verify"])
      && ("ssl_verify" !in c.avroSchema ==> r[SslVerify] == Null)
      && ("request_options" in c.avroSchema ==> r[RequestOptions] == c.avroSchema["request_options"])
      && ("request_options" !in c.avroSchema ==> r[RequestOptions] == Null)
  {
    var r := ToArray(c);
    assert r[Url] == Exported(c, Url) == Coalesce(c.avroSchema, "url");
    assert r[SslVerify] == Exported(c, SslVerify) == Coalesce(c.avroSchema, "ssl_verify");
    assert r[RequestOptions] == Exported(c, RequestOptions) == Coalesce(c.avroSchema, "request_options");
  }

  /** `partition` is `getPartition()`, and every other key holds its getter's value. */
  lemma ToArrayGetters(c: Base)
    ensures var r := ToArray(c);
      && r[TopicId] == Str(c.topicId)
      && r[Timeout] == Int(c.timeout)
      && r[IsAsync] == Bool(c.isAsync)
      && r[Handler] == Str(c.handler)
      && r[Partition] == Int(GetPartition(c))
      && r[ConsumerGroup] == Str(c.consumerGroup)
      && r[RequiredAcknowledgment] == Bool(c.requiredAcknowledgment)
      && r[MaxPollRecords] == Int(c.maxPollRecords)
      && r[FlushAttempts] == Int(c.flushAttempts)
      && r[Middlewares] == MiddlewareList(c.middlewares)
      && r[AutoCommit] == Bool(c.autoCommit)
      && r[CommitAsync] == Bool(c.commitASync)
      && r[OffsetReset] == Str(c.offsetReset)
  {
    var r := ToArray(c);
    assert r[TopicId] == Str(c.topicId);
    assert r[Timeout] == Int(c.timeout);
    assert r[IsAsync] == Bool(c.isAsync);
    assert r[Handler] == Str(c.handler);
    assert r[Partition] == Int(GetPartition(c));
    assert r[ConsumerGroup] == Str(c.consumerGroup);
    assert r[RequiredAcknowledgment] == Bool(c.requiredAcknowledgment);
    assert r[MaxPollRecords] == Int(c.maxPollRecords);
    assert r[FlushAttempts] == Int(c.flushAttempts);
    assert r[Middlewares] == MiddlewareList(c.middlewares);
    assert r[AutoCommit] == Bool(c.autoCommit);
    assert r[CommitAsync] == Bool(c.commitASync);
  }

  /**
   * What `toArray` keeps of a configuration: every scalar setting, the
   * partition as `getPartition` reports it, and only the five nested keys it
   * pulls up from the broker and schema-registry arrays.
   */
  ghost predicate SameExportedSettings(a: Base, b: Base) {
    && a.topicId == b.topicId && a.handler == b.handler
    && Coalesce(a.broker, "connections") == Coalesce(b.broker, "connections")
    && Coalesce(a.broker, "auth") == Coalesce(b.broker, "auth")
    && GetPartition(a) == GetPartition(b)
    && a.consumerGroup == b.consumerGroup && a.middlewares == b.middlewares
    && a.timeout == b.timeout && a.isAsync == b.isAsync
    && a.requiredAcknowledgment == b.requiredAcknowledgment
    && a.maxPollRecords == b.maxPollRecords && a.flushAttempts == b.flushAttempts
    && Coalesce(a.avroSchema, "url") == Coalesce(b.avroSchema, "url")
    && Coalesce(a.avroSchema, "ssl_verify") == Coalesce(b.avroSchema, "ssl_verify")
    && Coalesce(a.avroSchema, "request_options") == Coalesce(b.avroSchema, "request_options")
    && a.autoCommit == b.autoCommit && a.commitASync == b.commitASync
    && a.offsetReset == b.offsetReset
  }

  /** The middleware list is exported without loss. */
  lemma MiddlewareListInjective(a: seq<string>, b: seq<string>)
    ensures MiddlewareList(a) == MiddlewareList(b) <==> a == b
  {
    if MiddlewareList(a) == MiddlewareList(b) {
      assert |a| == |b|;
      forall i | 0 <= i < |a| ensures a[i] == b[i] {
        assert Str(a[i]) == MiddlewareList(a).items[i] == MiddlewareList(b).items[i] == Str(b[i]);
      }
    }
  }

  /** Agreeing on every exported key is agreeing on what `toArray` keeps. */
  lemma ExportedAgree(a: Base, b: Base)
    ensures (forall k :: Exported(a, k) == Exported(b, k)) <==> SameExportedSettings(a, b)
  {
    if forall k :: Exported(a, k) == Exported(b, k) {
      ExportedAgreeAll(a, b);
    }
    if SameExportedSettings(a, b) {
      forall k ensures Exported(a, k) == Exported(b, k) {
        SettingsAgreeOn(a, b, k);
      }
    }
  }

  lemma SettingsAgreeOn(a: Base, b: Base, k: Key)
    requires SameExportedSettings(a, b)
    ensures Exported(a, k) == Exported(b, k)
  {
  }

  lemma ExportedAgreeAll(a: Base, b: Base)
    requires forall k :: Exported(a, k) == Exported(b, k)
    ensures SameExportedSettings(a, b)
  {
    MiddlewareListInjective(a.middlewares, b.middlewares);
    assert Exported(a, TopicId) == Exported(b, TopicId);
    assert Exported(a, Connections) == Exported(b, Connections);
    assert Exported(a, Auth) == Exported(b, Auth);
    assert Exported(a, Timeout) == Exported(b, Timeout);
    assert Exported(a, IsAsync) == Exported(b, IsAsync);
    assert Exported(a, Handler) == Exported(b, Handler);
    assert Exported(a, Partition) == Exported(b, Partition);
    assert Exported(a, ConsumerGroup) == Exported(b, ConsumerGroup);
    assert Exported(a, RequiredAcknowledgment) == Exported(b, RequiredAcknowledgment);
    assert Exported(a, MaxPollRecords) == Exported(b, MaxPollRecords);
    assert Exported(a, FlushAttempts) == Exported(b, FlushAttempts);
    assert Exported(a, Middlewares) == Exported(b, Middlewares);
    assert Exported(a, Url) == Exported(b, Url);
    assert Exported(a, SslVerify) == Exported(b, SslVerify);
    assert Exported(a, RequestOptions) == Exported(b, RequestOptions);
    assert Exported(a, AutoCommit) == Exported(b, AutoCommit);
    assert Exported(a, CommitAsync) == Exported(b, CommitAsync);
    assert Exported(a, OffsetReset) == Exported(b, OffsetReset);
  }

  /** Two configurations export the same array exactly when they agree on what `toArray` keeps. */
  lemma ToArrayExactlyExports(a: Base, b: Base)
    ensures ToArray(a) == ToArray(b) <==> SameExportedSettings(a, b)
  {
    ExportedAgree(a, b);
    var ra, rb := ToArray(a), ToArray(b);
    if ra == rb {
      forall k ensures Exported(a, k) == Exported(b, k) {
        assert Exported(a, k) == ra[k] == rb[k] == Exported(b, k);
      }
    }
  }

  /** An explicit partition equal to the sentinel cannot be told apart from no partition at all. */
  lemma UnassignedIndistinguishable(c: Base)
    ensures ToArray(c.(partition := None)) == ToArray(c.(partition := Some(PARTITION_UA)))
  {
    ExportedAgree(c.(partition := None), c.(partition := Some(PARTITION_UA)));
    ToArrayExactlyExports(c.(partition := None), c.(partition := Some(PARTITION_UA)));
  }
}
