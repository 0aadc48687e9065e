/**
 * The terminal produce-side middleware (`Middlewares\Handler\Producer`): it
 * hands each record to the broker client, counts it, and then either runs the
 * flush routine (async mode) or, every `MAX_POLL_RECORDS`-th record, drains the
 * outbound queue by polling. Teardown runs the flush routine once more.
 *
 * The broker client is the `Transport` class: it logs what it was asked to
 * produce, answers flush calls from a scripted sequence of result codes, and
 * keeps an outbound-queue length that every poll of a non-empty queue shrinks.
 */
module ProducerHandler {
  import opened Pack
  import ConfigOptions

  /** Poll the outbound queue every this many records (a class constant, not the configured `maxPollRecords`). */
  const MAX_POLL_RECORDS: nat := 500
  /** Flush calls before giving up (a class constant, not the configured `flushAttempts`). */
  const FLUSH_ATTEMPTS: nat := 10

  /** librdkafka's RD_KAFKA_RESP_ERR_NO_ERROR. */
  const RD_KAFKA_RESP_ERR_NO_ERROR: int := 0
  /** librdkafka's RD_KAFKA_RESP_ERR__TIMED_OUT, what a flush reports once the script has run out. */
  const RD_KAFKA_RESP_ERR__TIMED_OUT: int := -185

  /** The outbound record, as the middleware reads it. */
  datatype Record = Record(partition: int, payload: seq<uint8>, key: seq<uint8>)

  /** One `produce(partition, msgflags, payload, key)` call on the topic handle. */
  datatype Produced = Produced(partition: int, msgFlags: int, payload: seq<uint8>, key: seq<uint8>)

  /** What a `process` or teardown call does: return normally, or throw "messages might be lost". */
  datatype Outcome = Delivered | FlushFailed

  class Transport {
    /** The result codes the broker will report to successive flush calls. */
    const flushScript: seq<int>
    var produced: seq<Produced>
    var outQLen: nat
    var flushCalls: nat
    var pollCalls: nat

    constructor (flushScript: seq<int>)
      ensures this.flushScript == flushScript
      ensures produced == [] && outQLen == 0 && flushCalls == 0 && pollCalls == 0
    {
      this.flushScript := flushScript;
      produced, outQLen, flushCalls, pollCalls := [], 0, 0, 0;
    }

    /** The result code of the `i`-th flush call (counting from 0). */
    function FlushResultAt(i: nat): int {
      if i < |flushScript| then flushScript[i] else RD_KAFKA_RESP_ERR__TIMED_OUT
    }

    /** Buffers one message: it joins the outbound queue. */
    method Produce(partition: int, msgFlags: int, payload: seq<uint8>, key: seq<uint8>)
      modifies this
      ensures produced == old(produced) + [Produced(partition, msgFlags, payload, key)]
      ensures outQLen == old(outQLen) + 1
      ensures flushCalls == old(flushCalls) && pollCalls == old(pollCalls)
    {
      produced := produced + [Produced(partition, msgFlags, payload, key)];
      outQLen := outQLen + 1;
    }

    /**
     * Waits for outstanding deliveries; the next scripted code says how that
     * went. A flush that reports an error may still have delivered some.
     */
    method Flush(timeout: int) returns (result: int)
      modifies this
      ensures result == FlushResultAt(old(flushCalls))
      ensures flushCalls == old(flushCalls) + 1
      ensures result == RD_KAFKA_RESP_ERR_NO_ERROR ==> outQLen == 0
      ensures outQLen <= old(outQLen)
      ensures produced == old(produced) && pollCalls == old(pollCalls)
    {
      result := FlushResultAt(flushCalls);
      flushCalls := flushCalls + 1;
      if result == RD_KAFKA_RESP_ERR_NO_ERROR {
        outQLen := 0;
      }
    }

    /** Serves delivery reports; a non-empty outbound queue strictly shrinks. */
    method Poll(timeout: int)
      modifies this
      ensures old(outQLen) > 0 ==> outQLen < old(outQLen)
      ensures old(outQLen) == 0 ==> outQLen == 0
      ensures pollCalls == old(pollCalls) + 1
      ensures produced == old(produced) && flushCalls == old(flushCalls)
    {
      if outQLen > 0 {
        outQLen := outQLen - 1;
      }
      pollCalls := pollCalls + 1;
    }
  }

  /** How many of the first `n` records were followed by the poll routine: the multiples of `MAX_POLL_RECORDS`. */
  function PollsAfter(n: nat): nat {
    if n == 0 then 0
    else PollsAfter(n - 1) + (if n % MAX_POLL_RECORDS == 0 then 1 else 0)
  }

  /** After `n` records in sync mode, the poll routine has run ⌊n / 500⌋ times. */
  lemma {:induction false} PollsAfterIsQuotient(n: nat)
    ensures PollsAfter(n) == n / MAX_POLL_RECORDS
  {
    if n > 0 {
      PollsAfterIsQuotient(n - 1);
      assert (n - 1) / MAX_POLL_RECORDS + (if n % MAX_POLL_RECORDS == 0 then 1 else 0) == n / MAX_POLL_RECORDS;
    }
  }

  /**
   * What one run of the flush routine may do, given the number of flush calls
   * the transport had served before (`before`) and after (`after`) it.
   */
  ghost predicate FlushedPerContract(t: Transport, requiredAcknowledgment: bool, before: nat, after: nat, outcome: Outcome) {
    if !requiredAcknowledgment then
      after == before && outcome == Delivered
    else
      && before < after <= before + FLUSH_ATTEMPTS
      && (forall i :: before <= i < after - 1 ==> t.FlushResultAt(i) != RD_KAFKA_RESP_ERR_NO_ERROR)
      && (outcome == Delivered <==> t.FlushResultAt(after - 1) == RD_KAFKA_RESP_ERR_NO_ERROR)
      && (outcome == FlushFailed ==> after == before + FLUSH_ATTEMPTS)
  }

  /** The flush contract leaves no choice: the number of calls and the outcome are determined by the script. */
  lemma FlushContractDeterministic(t: Transport, ack: bool, before: nat, after1: nat, out1: Outcome, after2: nat, out2: Outcome)
    requires FlushedPerContract(t, ack, before, after1, out1)
    requires FlushedPerContract(t, ack, before, after2, out2)
    ensures after1 == after2 && out1 == out2
  {
  }

  /** If every flush in reach reports an error, exactly `FLUSH_ATTEMPTS` calls are made and the routine fails. */
  lemma AllErrorsExhaustAttempts(t: Transport, before: nat, after: nat, outcome: Outcome)
    requires FlushedPerContract(t, true, before, after, outcome)
    requires forall i :: before <= i < before + FLUSH_ATTEMPTS ==> t.FlushResultAt(i) != RD_KAFKA_RESP_ERR_NO_ERROR
    ensures after == before + FLUSH_ATTEMPTS && outcome == FlushFailed
  {
    assert t.FlushResultAt(after - 1) != RD_KAFKA_RESP_ERR_NO_ERROR;
  }

  class Producer {
    const transport: Transport
    /** The topic configuration; stands for the global `Manager::get(…)` lookups. */
    const config: ConfigOptions.Base
    var processMessageCount: nat
    /** How often the poll routine and the flush routine have run. */
    ghost var pollRoutineRuns: nat
    ghost var flushRoutineRuns: nat

    ghost predicate Valid()
      reads this
    {
      pollRoutineRuns == if config.isAsync then 0 else PollsAfter(processMessageCount)
    }

    constructor (transport: Transport, config: ConfigOptions.Base)
      ensures this.transport == transport && this.config == config
      ensures processMessageCount == 0 && pollRoutineRuns == 0 && flushRoutineRuns == 0
      ensures Valid()
    {
      this.transport := transport;
      this.config := config;
      processMessageCount := 0;
      pollRoutineRuns, flushRoutineRuns := 0, 0;
    }

    /** `process`: produce the record once, then `handleResponse`. */
    method Process(record: Record) returns (outcome: Outcome)
      requires Valid()
      modifies this, transport
      ensures Valid()
      ensures transport.produced == old(transport.produced) + [Produced(record.partition, 0, record.payload, record.key)]
      ensures processMessageCount == old(processMessageCount) + 1
      ensures config.isAsync ==>
        && flushRoutineRuns == old(flushRoutineRuns) + 1
        && pollRoutineRuns == old(pollRoutineRuns)
        && transport.pollCalls == old(transport.pollCalls)
        && FlushedPerContract(transport, config.requiredAcknowledgment, old(transport.flushCalls), transport.flushCalls, outcome)
        && (!config.requiredAcknowledgment ==> transport.outQLen == old(transport.outQLen) + 1)
        && (config.requiredAcknowledgment && outcome == Delivered ==> transport.outQLen == 0)
        && transport.outQLen <= old(transport.outQLen) + 1
      ensures !config.isAsync ==>
        && outcome == Delivered
        && flushRoutineRuns == old(flushRoutineRuns)
        && transport.flushCalls == old(transport.flushCalls)
        && pollRoutineRuns == old(pollRoutineRuns) + (if processMessageCount % MAX_POLL_RECORDS == 0 then 1 else 0)
      ensures !config.isAsync && processMessageCount % MAX_POLL_RECORDS == 0 ==> transport.outQLen == 0
      ensures !config.isAsync && processMessageCount % MAX_POLL_RECORDS != 0 ==>
        transport.pollCalls == old(transport.pollCalls) && transport.outQLen == old(transport.outQLen) + 1
      ensures !config.isAsync ==> transport.pollCalls <= old(transport.pollCalls) + old(transport.outQLen) + 1
    {
      transport.Produce(record.partition, 0, record.payload, record.key);
      outcome := HandleResponse();
    }

    /** Teardown (the destructor): the flush routine once more. */
    method Close() returns (outcome: Outcome)
      requires Valid()
      modifies this, transport
      ensures Valid()
      ensures processMessageCount == old(processMessageCount) && pollRoutineRuns == old(pollRoutineRuns)
      ensures flushRoutineRuns == old(flushRoutineRuns) + 1
      ensures transport.produced == old(transport.produced) && transport.pollCalls == old(transport.pollCalls)
      ensures FlushedPerContract(transport, config.requiredAcknowledgment, old(transport.flushCalls), transport.flushCalls, outcome)
      ensures !config.requiredAcknowledgment ==> transport.outQLen == old(transport.outQLen)
      ensures config.requiredAcknowledgment && outcome == Delivered ==> transport.outQLen == 0
      ensures transport.outQLen <= old(transport.outQLen)
    {
      outcome := FlushMessage();
    }

    method HandleResponse() returns (outcome: Outcome)
      requires Valid()
      modifies this, transport
      ensures Valid()
      ensures processMessageCount == old(processMessageCount) + 1
      ensures transport.produced == old(transport.produced)
      ensures config.isAsync ==>
        && flushRoutineRuns == old(flushRoutineRuns) + 1
        && pollRoutineRuns == old(pollRoutineRuns)
        && transport.pollCalls == old(transport.pollCalls)
        && FlushedPerContract(transport, config.requiredAcknowledgment, old(transport.flushCalls), transport.flushCalls, outcome)
        && (!config.requiredAcknowledgment ==> transport.outQLen == old(transport.outQLen))
        && (config.requiredAcknowledgment && outcome == Delivered ==> transport.outQLen == 0)
        && transport.outQLen <= old(transport.outQLen)
      ensures !config.isAsync ==>
        && outcome == Delivered
        && flushRoutineRuns == old(flushRoutineRuns)
        && transport.flushCalls == old(transport.flushCalls)
        && pollRoutineRuns == old(pollRoutineRuns) + (if processMessageCount % MAX_POLL_RECORDS == 0 then 1 else 0)
      ensures !config.isAsync && processMessageCount % MAX_POLL_RECORDS == 0 ==> transport.outQLen == 0
      ensures !config.isAsync && processMessageCount % MAX_POLL_RECORDS != 0 ==>
        transport.pollCalls == old(transport.pollCalls) && transport.outQLen == old(transport.outQLen)
      ensures !config.isAsync ==> transport.pollCalls <= old(transport.pollCalls) + old(transport.outQLen)
    {
      processMessageCount := processMessageCount + 1;
      if config.isAsync {
        outcome := FlushMessage();
        return;
      }
      outcome := Delivered;
      if processMessageCount % MAX_POLL_RECORDS == 0 {
        PollResponse();
      }
    }

    /** `flushMessage`: nothing unless acknowledgment is required; otherwise up to `FLUSH_ATTEMPTS` flush calls. */
    method FlushMessage() returns (outcome: Outcome)
      modifies this, transport
      ensures processMessageCount == old(processMessageCount) && pollRoutineRuns == old(pollRoutineRuns)
      ensures flushRoutineRuns == old(flushRoutineRuns) + 1
      ensures transport.produced == old(transport.produced) && transport.pollCalls == old(transport.pollCalls)
      ensures FlushedPerContract(transport, config.requiredAcknowledgment, old(transport.flushCalls), transport.flushCalls, outcome)
      ensures !config.requiredAcknowledgment ==> transport.outQLen == old(transport.outQLen)
      ensures config.requiredAcknowledgment && outcome == Delivered ==> transport.outQLen == 0
      ensures transport.outQLen <= old(transport.outQLen)
    {
      flushRoutineRuns := flushRoutineRuns + 1;
      if !config.requiredAcknowledgment {
        return Delivered;
      }
      for flushAttempts := 0 to FLUSH_ATTEMPTS
        invariant transport.flushCalls == old(transport.flushCalls) + flushAttempts
        invariant forall i :: old(transport.flushCalls) <= i < transport.flushCalls ==>
          transport.FlushResultAt(i) != RD_KAFKA_RESP_ERR_NO_ERROR
        invariant transport.produced == old(transport.produced) && transport.pollCalls == old(transport.pollCalls)
        invariant transport.outQLen <= old(transport.outQLen)
        invariant processMessageCount == old(processMessageCount) && pollRoutineRuns == old(pollRoutineRuns)
        invariant flushRoutineRuns == old(flushRoutineRuns) + 1
      {
        var result := transport.Flush(config.timeout);
        if result == RD_KAFKA_RESP_ERR_NO_ERROR {
          return Delivered;
        }
      }
      return FlushFailed;
    }

    /** `pollResponse`: poll until the outbound queue is empty. */
    method PollResponse()
      modifies this, transport
      ensures processMessageCount == old(processMessageCount) && flushRoutineRuns == old(flushRoutineRuns)
      ensures pollRoutineRuns == old(pollRoutineRuns) + 1
      ensures transport.outQLen == 0
      ensures transport.pollCalls <= old(transport.pollCalls) + old(transport.outQLen)
      ensures transport.produced == old(transport.produced) && transport.flushCalls == old(transport.flushCalls)
    {
      pollRoutineRuns := pollRoutineRuns + 1;
      while transport.outQLen > 0
        invariant transport.pollCalls - old(transport.pollCalls) + transport.outQLen <= old(transport.outQLen)
        invariant transport.pollCalls >= old(transport.pollCalls)
        invariant transport.produced == old(transport.produced) && transport.flushCalls == old(transport.flushCalls)
        invariant processMessageCount == old(processMessageCount) && flushRoutineRuns == old(flushRoutineRuns)
        invariant pollRoutineRuns == old(pollRoutineRuns) + 1
        decreases transport.outQLen
      {
        transport.Poll(config.timeout);
      }
    }
  }
}
