# metamorphosis core, modelled in Dafny

This project models the core of metamorphosis, a PHP client library for producing and consuming Kafka records with optional Avro payloads. It covers four components.

- **Producer delivery guard** (`producer_handler.dfy`, module `ProducerHandler`). This is the terminal producer middleware.
  - Each `process` call hands the record to the broker client once, with message flags 0, and bumps `processMessageCount`.
  - In async mode it then runs the flush routine.
  - Otherwise, on every 500th record, it polls until the outbound queue is empty.
  - The flush routine does nothing unless acknowledgment is required. When it is, it makes up to 10 flush calls, stops at the first `RD_KAFKA_RESP_ERR_NO_ERROR`, and otherwise fails with "messages might be lost".
  - Teardown runs the flush routine once more.
  - The broker client is the `Transport` class. It logs produced messages, answers flush calls from a scripted sequence of result codes, and keeps an outbound-queue length that every poll of a non-empty queue shrinks.
  - Two ghost counters, `pollRoutineRuns` and `flushRoutineRuns`, record how often each routine ran. A routine can run without making any transport call, and the counters make that visible.
- **Subject+version Avro framing** (`avro_encoder.dfy`, module `AvroEncoders`; `pack.dfy`, module `Pack`). `Encode` makes one registry lookup. It then writes into a growing buffer, in order:
  - the magic byte;
  - `pack('N', strlen(subject))`;
  - the subject, byte by byte;
  - `pack('N', version)`;
  - the Avro body.

  Its result is tied to the pure `Frame`. The decoder `Unframe` is proved to be its inverse in both directions.
- **Consumer loop** (`consumer.dfy`, module `ConsumerLoop`).
  - The constructor appends the consumer terminal handler to the configured middlewares.
  - `Step` is one pass of `run`'s endless loop, and `Run` makes passes over a given list of iterations. A `ResponseWarningException` goes to `warning` and any other `Exception` goes to `failed`.
  - No exception raised inside the `try` block stops the loop. An exception from `consume`, which sits outside the `try`, or from the `warning`/`failed` callback, which runs in a `catch` clause, leaves `run`. `Run` stops at the first pass that throws such an exception.
  - `SetTimeout` and `SetOffset` each change only their own field.
- **Topic configuration** (`config_options.dfy`, module `ConfigOptions`). `Base` is a datatype whose constructor has the PHP constructor's defaults. Each getter of the PHP class is the datatype field of the same name, so it returns exactly the value given to the constructor, and no later write is possible. `GetPartition` falls back to librdkafka's `RD_KAFKA_PARTITION_UA` (-1). `ToArray` builds the flat settings array and null-coalesces the broker and schema-registry keys.

The producer reads `isAsync`, `requiredAcknowledgment` and `timeout` from a `ConfigOptions.Base` value. In the source these come from the global `Manager::get(…)` lookup.

The producer's poll interval and flush attempt count are the class constants `MAX_POLL_RECORDS = 500` and `FLUSH_ATTEMPTS = 10` (src/Middlewares/Handler/Producer.php:13,15). It never reads the configured `maxPollRecords` or `flushAttempts`. The teardown flush is gated by `requiredAcknowledgment` like every other flush.

## Model

| member | source | states |
|---|---|---|
| `ProducerHandler.Producer.constructor` | src/Middlewares/Handler/Producer.php:35-44 | a new guard starts with a zero message count and neither routine run |
| `ProducerHandler.Producer.Process` | src/Middlewares/Handler/Producer.php:46-50 | exactly one produce call, with the record's partition, flags 0, payload and key; the count grows by one; async: one flush routine run meeting the flush contract and no poll, and the outbound queue is one longer than before when acknowledgment is off, empty after a successful required flush, and never longer than before plus one; sync: no flush call, and the poll routine runs (draining the queue to 0) exactly when the new count is a multiple of 500, making at most as many polls as the queue then held |
| `ProducerHandler.Producer.HandleResponse` | src/Middlewares/Handler/Producer.php:57-70 | increments the count, then flush routine if async (the queue unchanged when acknowledgment is off, emptied by a successful required flush, never longer), else poll routine exactly on multiples of 500 with at most as many polls as the queue held; keeps the invariant that the poll routine has run PollsAfter(count) times |
| `ProducerHandler.Producer.FlushMessage` | src/Middlewares/Handler/Producer.php:72-86 | no acknowledgment required: zero flush calls and a normal return; otherwise 1 to 10 flush calls, all but the last failing, a normal return exactly when the last returned NO_ERROR, and a failure only after all 10; the outbound queue is unchanged when acknowledgment is off, empty after a successful required flush, and never longer than before |
| `ProducerHandler.Producer.PollResponse` | src/Middlewares/Handler/Producer.php:88-93 | returns only with an empty outbound queue, terminates because each poll shrinks it, and makes at most as many polls as the queue held |
| `ProducerHandler.Producer.Close` | src/Middlewares/Handler/Producer.php:52-55 | teardown runs the flush routine once, with the same gating and the same 10-attempt bound, and produces nothing; the outbound queue is unchanged when acknowledgment is off, empty after a successful required flush, and never longer than before |
| `ProducerHandler.PollsAfterIsQuotient` | src/Middlewares/Handler/Producer.php:67-69 | after n records in sync mode the poll routine has run ⌊n/500⌋ times |
| `ProducerHandler.FlushContractDeterministic` | src/Middlewares/Handler/Producer.php:78-85 | the flush contract fixes the number of flush calls and the outcome from the broker's results alone |
| `ProducerHandler.AllErrorsExhaustAttempts` | src/Middlewares/Handler/Producer.php:78-85 | when all 10 flush results are errors, exactly 10 calls are made and the routine fails |
| `Pack.PackN` | src/Avro/Serializer/Encoders/SchemaSubjectAndVersion.php:38 | `pack('N', x)` is four bytes |
| `Pack.UnpackN` | src/Avro/Serializer/Encoders/SchemaSubjectAndVersion.php:46 | four big-endian bytes read as a value below 2^32 |
| `Pack.UnpackPackN` | src/Avro/Serializer/Encoders/SchemaSubjectAndVersion.php:38 | reading back `pack('N', x)` recovers x for 0 <= x < 2^32 |
| `Pack.PackUnpackN` | src/Avro/Serializer/Encoders/SchemaSubjectAndVersion.php:46 | every 4-byte string is `pack('N')` of its value |
| `Pack.PackNTruncates` | src/Avro/Serializer/Encoders/SchemaSubjectAndVersion.php:38 | `pack('N')` ignores everything above bit 31 |
| `AvroEncoders.Frame` | src/Avro/Serializer/Encoders/SchemaSubjectAndVersion.php:35-55 | byte 0 is the magic byte; bytes 1..4 are the big-endian subject length; then the subject bytes in order; then 4 big-endian version bytes; then exactly the Avro body; total length 9 + \|subject\| + \|body\| |
| `AvroEncoders.Unframe` | src/Avro/Serializer/Encoders/SchemaSubjectAndVersion.php:35-46 | a decoded header has a 32-bit version and a subject shorter than 2^32 bytes |
| `AvroEncoders.UnframeFrame` | src/Avro/Serializer/Encoders/SchemaSubjectAndVersion.php:38-46 | header round trip: for a subject shorter than 2^32 bytes and a 32-bit version, decoding the frame gives back subject, version and body |
| `AvroEncoders.FrameUnframe` | src/Avro/Serializer/Encoders/SchemaSubjectAndVersion.php:38-46 | any byte string that decodes is exactly the frame of what it decodes to |
| `AvroEncoders.SchemaRegistry.GetSchemaVersion` | src/Avro/Serializer/Encoders/SchemaSubjectAndVersion.php:27 | one logged lookup with (subject, schema), answered by the registry |
| `AvroEncoders.SchemaSubjectAndVersion.constructor` | src/Avro/Serializer/Encoders/SchemaSubjectAndVersion.php:20-23 | the encoder keeps the registry it is given |
| `AvroEncoders.SchemaSubjectAndVersion.Encode` | src/Avro/Serializer/Encoders/SchemaSubjectAndVersion.php:25-56 | exactly one registry lookup with (subject, schema); on success the output is Frame(subject, that version, Avro body of the message); on a failed lookup no output |
| `AvroEncoders.OrdersValueExample` | src/Avro/Serializer/Encoders/SchemaSubjectAndVersion.php:35-55 | subject "orders-value", version 7, body 01 02 frame to magic, 00 00 00 0C, the 12 subject bytes, 00 00 00 07, 01 02 |
| `ConsumerLoop.Chain` | src/Consumer.php:54-56 | the configured middlewares in their order, then exactly one consumer terminal handler, last |
| `ConsumerLoop.Consumer.constructor` | src/Consumer.php:37-57 | the settings come from the config; the timeout is 2000000; the dispatcher gets Chain(configured middlewares, handler) |
| `ConsumerLoop.Escaping` | src/Consumer.php:66-68 | an exception from `new Message` escapes the `try` before dispatch; otherwise dispatch's does |
| `ConsumerLoop.Classify` | src/Consumer.php:69-73 | a ResponseWarningException leads to `warning` only; any other Exception leads to `failed` only; no exception leads to neither; the callback receives the exception, which the model represents by its message |
| `ConsumerLoop.Consumer.Step` | src/Consumer.php:63-74 | one consume with the current timeout; a throwing consume makes no handler call; otherwise the handler call of that iteration; the loop goes on exactly when neither consume nor the callback threw |
| `ConsumerLoop.Consumer.Run` | src/Consumer.php:59-75 | every pass before the last returned to the loop; it stops early exactly when the last pass threw outside the `try`, and otherwise runs every iteration; one consume with the timeout per pass, and the handler calls of the passes made, in order |
| `ConsumerLoop.CallbacksOfAppend` | src/Consumer.php:63-74 | handler calls of consecutive stretches of iterations concatenate |
| `ConsumerLoop.CallbacksOfCount` | src/Consumer.php:66-73 | there is exactly one handler call for each iteration whose consume returned and whose `try` block raised |
| `ConsumerLoop.Consumer.SetTimeout` | src/Consumer.php:77-80 | sets the timeout and nothing else |
| `ConsumerLoop.Consumer.SetOffset` | src/Consumer.php:82-85 | sets the offset and nothing else |
| `ConfigOptions.ConstructorDefaults` | src/TopicHandler/ConfigOptions/Base.php:108-140 | the defaults are consumer group "default", timeout 1000, async on, acknowledgment off, maxPollRecords 500, flushAttempts 10, autoCommit and commitASync on, offset reset "smallest", and no partition, Avro schema or middlewares |
| `ConfigOptions.GetPartition` | src/TopicHandler/ConfigOptions/Base.php:177-180 | the configured partition, or RD_KAFKA_PARTITION_UA (-1) when none was given |
| `ConfigOptions.Coalesce` | src/TopicHandler/ConfigOptions/Base.php:224-225 | `$a[$k] ?? null` is the stored value when the key is present and null otherwise |
| `ConfigOptions.MiddlewareList` | src/TopicHandler/ConfigOptions/Base.php:234 | the middlewares exported as a list of the same length holding the same names |
| `ConfigOptions.KeyNameInjective` | src/TopicHandler/ConfigOptions/Base.php:223-240 | reading a key's PHP spelling back gives the key, so the 18 spellings are distinct |
| `ConfigOptions.ToArray` | src/TopicHandler/ConfigOptions/Base.php:217-242 | exactly the 18 documented keys are present, each holding its exported value |
| `ConfigOptions.ToArrayBrokerKeys` | src/TopicHandler/ConfigOptions/Base.php:224-225 | connections and auth equal broker['connections'] and broker['auth'] when present, and are null otherwise |
| `ConfigOptions.ToArraySchemaRegistryKeys` | src/TopicHandler/ConfigOptions/Base.php:235-237 | url, ssl_verify and request_options come from the Avro schema array when present, and are null otherwise |
| `ConfigOptions.ToArrayGetters` | src/TopicHandler/ConfigOptions/Base.php:222-241 | partition equals getPartition(), and every other key equals its getter |
| `ConfigOptions.ToArrayExactlyExports` | src/TopicHandler/ConfigOptions/Base.php:217-242 | two configurations give the same array if and only if they agree on every getter except the broker and Avro arrays, on getPartition(), and on the five nested keys pulled up |
| `ConfigOptions.UnassignedIndistinguishable` | src/TopicHandler/ConfigOptions/Base.php:177-180 | no partition and an explicit partition -1 export the same array |

## Left out

- The librdkafka client (`produce`, `flush`, `poll`, `getOutQLen`, `consume`, `KafkaConsumer`, `subscribe`) is foreign code. It is the `Transport` class: a log of produced messages, scripted flush results, and a queue length that polls shrink. A flush that reports `NO_ERROR` empties the queue; one that reports an error may have delivered any part of it, so the model only promises that the queue did not grow. A flush call past the end of the script reports `RD_KAFKA_RESP_ERR__TIMED_OUT`. The producer's topic handle and producer handle are merged into this one object.
- `Consumer::getConsumer` and `Connector::setup` only configure librdkafka, so they are not modelled. src/Connectors/Consumer/LowLevel.php is not part of this model for the same reason.
- The Avro binary writer (`AvroIODatumWriter`, `AvroIOBinaryEncoder`, `AvroStringIO`) is a function parameter that returns opaque body bytes. Errors it could raise are not modelled.
- `CachedSchemaRegistryClient` and its HTTP transport are not part of this model. The registry is an object that answers from a resolving function and logs each lookup, so caching is not modelled. A failed lookup is an absent version.
- SchemaFormats.php is not part of this model. `MAGIC_BYTE_SUBJECT_VERSION` is declared without a value, and every property holds for any byte.
- AvroEncoders.SchemaSubjectAndVersion.Encode: requires a non-empty subject. On PHP releases before 8.2, `str_split('')` returns `['']`, so an empty or null subject would add a stray 0x00 byte after a zero length. That case is not modelled.
- `pack('N')` truncation is written out (`x mod 2^32`). The header round trip therefore needs a subject shorter than 2^32 bytes and a version in [0, 2^32).
- The Message constructor, the middleware dispatcher and the consumer terminal handler are not part of this model. What each iteration raises is an `Iteration` value, and the handler's `warning`/`failed` calls are a log on the consumer.
- PHP `Error`s (non-`Exception` throwables) escaping `run` are outside the modelled exception taxonomy.
- The endless `while (true)` loop is `Step` plus `Run` over a finite list of iterations. Non-termination itself is not stated.
- The global `Manager` lookup is replaced by the producer's `config` field. Timeouts are passed through as numbers, with no time semantics.
- `Manager` is not part of this model. The model assumes that the camelCase lookups `Manager::get('isAsync')` and `Manager::get('requiredAcknowledgment')` (src/Middlewares/Handler/Producer.php:61,74) return the configured flags, although `toArray` exports them as `is_async` and `required_acknowledgment` (src/TopicHandler/ConfigOptions/Base.php:227,231) and the producer reads `topic_id` in snake case (src/Middlewares/Handler/Producer.php:43).
- PHP destructor timing is replaced by an explicit `Close`. Nothing stops a caller from calling `Process` after it.
- PHP arrays in the configuration are modelled as `map<string, Value>` (string keys, no insertion order) or as sequences for lists. The keys of `toArray`'s result are the datatype `Key`, and `KeyName` gives each key's PHP spelling.
