/**
 * The consumer loop (`Consumer`): the dispatcher's middleware list is the
 * configured middlewares with the consumer terminal handler appended, and each
 * iteration consumes a response, builds a Message from it and dispatches it;
 * a warning exception goes to the handler's `warning`, any other exception to
 * its `failed`, and the loop carries on either way. Only an exception outside
 * the `try` block leaves `run`: one thrown by `consume` itself, or one thrown
 * by the `warning`/`failed` callback a `catch` clause makes.
 *
 * The broker, the Message constructor, the dispatcher and the handler are
 * foreign code: what one iteration raises is supplied as an `Iteration` value.
 */
module ConsumerLoop {
  import opened Wrappers

  /** The consume timeout a new consumer starts with. */
  const DEFAULT_TIMEOUT: int := 2000000

  /** What a step of the `try` block raised. */
  datatype Raised =
    | Nothing
    | ResponseWarning(message: string)  // a ResponseWarningException
    | Failure(message: string)          // any other Exception

  /**
   * One loop iteration: whether `consume` threw; what `new Message($response)`
   * raised and, if it raised nothing, what dispatching raised; and whether the
   * handler callback made in a `catch` clause threw in turn.
   */
  datatype Iteration = Iteration(consumeThrows: bool, construction: Raised, dispatch: Raised, callbackThrows: bool)

  /** A call the loop makes on the handler; the exception it receives is represented by its message. */
  datatype Callback = Warning(message: string) | Failed(message: string)

  /** An entry of the dispatcher's list. */
  datatype Middleware = Configured(name: string) | ConsumerTerminal(handler: string)

  /** The consumer's configuration, as the getters of its `Config` read it. */
  datatype ConsumerConfig = ConsumerConfig(
    consumerGroupId: string,
    consumerGroupOffset: string,
    handler: string,
    topic: string,
    middlewares: seq<string>)

  /** The dispatcher's list: the configured middlewares in order, then exactly one terminal handler. */
  function Chain(configured: seq<string>, handler: string): (chain: seq<Middleware>)
    ensures |chain| == |configured| + 1
    ensures forall i :: 0 <= i < |configured| ==> chain[i] == Configured(configured[i])
    ensures chain[|configured|] == ConsumerTerminal(handler)
    ensures forall i :: 0 <= i < |chain| && chain[i].ConsumerTerminal? ==> i == |configured|
  {
    seq(|configured|, i requires 0 <= i < |configured| => Configured(configured[i])) + [ConsumerTerminal(handler)]
  }

  /** The exception that leaves the `try` block: construction's, or else dispatch's. */
  function Escaping(it: Iteration): (r: Raised)
    ensures it.construction != Nothing ==> r == it.construction
    ensures it.construction == Nothing ==> r == it.dispatch
  {
    if it.construction != Nothing then it.construction else it.dispatch
  }

  /** The `catch` clauses: warnings to `warning`, every other exception to `failed`, nothing otherwise. */
  function Classify(r: Raised): (cb: Option<Callback>)
    ensures r.Nothing? <==> cb.None?
    ensures r.ResponseWarning? <==> cb.Some? && cb.value.Warning?
    ensures r.Failure? <==> cb.Some? && cb.value.Failed?
    ensures cb.Some? ==> cb.value.message == r.message
  {
    match r
    case Nothing => None
    case ResponseWarning(m) => Some(Warning(m))
    case Failure(m) => Some(Failed(m))
  }

  /** Whether an iteration reaches a handler callback: `consume` returned and the `try` block raised. */
  predicate CallsHandler(it: Iteration) {
    !it.consumeThrows && Escaping(it) != Nothing
  }

  /** Whether the loop goes on after an iteration: nothing thrown outside the `try` block. */
  predicate Continues(it: Iteration) {
    !it.consumeThrows && (CallsHandler(it) ==> !it.callbackThrows)
  }

  /** The handler calls made by one iteration (a callback that throws has still been called). */
  function CallbacksOfOne(it: Iteration): seq<Callback> {
    if it.consumeThrows then []
    else
      match Classify(Escaping(it))
      case None => []
      case Some(cb) => [cb]
  }

  /** The handler calls made by a run of iterations, in order. */
  function CallbacksOf(its: seq<Iteration>): seq<Callback> {
    if its == [] then [] else CallbacksOf(its[..|its| - 1]) + CallbacksOfOne(its[|its| - 1])
  }

  /** Running two stretches one after the other makes the calls of both, in order. */
  lemma {:induction false} CallbacksOfAppend(a: seq<Iteration>, b: seq<Iteration>)
    ensures CallbacksOf(a + b) == CallbacksOf(a) + CallbacksOf(b)
    decreases |b|
  {
    if b == [] {
      assert a + b == a;
    } else {
      var b' := b[..|b| - 1];
      assert (a + b)[..|a + b| - 1] == a + b';
      assert (a + b)[|a + b| - 1] == b[|b| - 1];
      CallbacksOfAppend(a, b');
      calc {
        CallbacksOf(a + b);
        CallbacksOf(a + b') + CallbacksOfOne(b[|b| - 1]);
        CallbacksOf(a) + CallbacksOf(b') + CallbacksOfOne(b[|b| - 1]);
        CallbacksOf(a) + CallbacksOf(b);
      }
    }
  }

  /** Running one more iteration appends that iteration's calls. */
  lemma CallbacksOfNext(its: seq<Iteration>, n: nat)
    requires n < |its|
    ensures CallbacksOf(its[..n + 1]) == CallbacksOf(its[..n]) + CallbacksOfOne(its[n])
  {
    assert its[..n + 1][..n] == its[..n];
  }

  /** One handler call per iteration whose `try` block raised, and none for the others. */
  lemma {:induction false} CallbacksOfCount(its: seq<Iteration>)
    ensures |CallbacksOf(its)| == |set i | 0 <= i < |its| && CallsHandler(its[i])|
  {
    if its != [] {
      var n := |its| - 1;
      CallbacksOfCount(its[..n]);
      var before := set i | 0 <= i < n && CallsHandler(its[..n][i]);
      var now := set i | 0 <= i < |its| && CallsHandler(its[i]);
      assert before == set i | 0 <= i < n && CallsHandler(its[i]);
      if CallsHandler(its[n]) {
        assert now == before + {n};
        assert n !in before;
        assert |now| == |before| + 1;
        assert CallbacksOf(its) == CallbacksOf(its[..n]) + [Classify(Escaping(its[n])).value];
      } else {
        assert now == before;
        assert CallbacksOf(its) == CallbacksOf(its[..n]);
      }
    }
  }

  class Consumer {
    var consumerGroup: string
    var offset: string
    var topic: string
    var timeout: int
    const handler: string
    /** The middleware list the dispatcher was built with. */
    const middlewares: seq<Middleware>
    /** The `warning`/`failed` calls made on the handler so far. */
    var callbacks: seq<Callback>
    /** The timeout passed to each `consume` call so far. */
    var consumeTimeouts: seq<int>

    constructor (config: ConsumerConfig)
      ensures consumerGroup == config.consumerGroupId && offset == config.consumerGroupOffset
      ensures handler == config.handler && topic == config.topic
      ensures timeout == DEFAULT_TIMEOUT
      ensures middlewares == Chain(config.middlewares, config.handler)
      ensures callbacks == [] && consumeTimeouts == []
    {
      consumerGroup := config.consumerGroupId;
      offset := config.consumerGroupOffset;
      handler := config.handler;
      topic := config.topic;
      timeout := DEFAULT_TIMEOUT;
      var list := config.middlewares;
      var chain := seq(|list|, i requires 0 <= i < |list| => Configured(list[i]));
      chain := chain + [ConsumerTerminal(config.handler)];
      middlewares := chain;
      callbacks, consumeTimeouts := [], [];
    }

    /**
     * One pass of the `while (true)` body. It returns to the loop whatever the
     * `try` block raised; only a throwing `consume` or a throwing callback
     * leaves `run` (`continues` false).
     */
    method Step(it: Iteration) returns (continues: bool)
      modifies this`callbacks, this`consumeTimeouts
      ensures consumeTimeouts == old(consumeTimeouts) + [timeout]
      ensures callbacks == old(callbacks) + CallbacksOfOne(it)
      ensures continues <==> Continues(it)
      ensures !it.consumeThrows && !it.callbackThrows ==> continues
    {
      consumeTimeouts := consumeTimeouts + [timeout];
      if it.consumeThrows {
        return false;
      }
      var raised := it.construction;
      if raised == Nothing {
        raised := it.dispatch;
      }
      match raised {
        case ResponseWarning(m) =>
          callbacks := callbacks + [Warning(m)];
          continues := !it.callbackThrows;
        case Failure(m) =>
          callbacks := callbacks + [Failed(m)];
          continues := !it.callbackThrows;
        case Nothing =>
          continues := true;
      }
    }

    /**
     * `run`, over the iterations `its` describes: it makes passes until one
     * throws outside the `try` block (`stopped`) or `its` runs out.
     */
    method Run(its: seq<Iteration>) returns (passes: nat, stopped: bool)
      modifies this`callbacks, this`consumeTimeouts
      ensures passes <= |its|
      ensures forall j :: 0 <= j < passes - 1 ==> Continues(its[j])
      ensures stopped <==> 0 < passes && !Continues(its[passes - 1])
      ensures !stopped ==> passes == |its|
      ensures |consumeTimeouts| == |old(consumeTimeouts)| + passes
      ensures consumeTimeouts[..|old(consumeTimeouts)|] == old(consumeTimeouts)
      ensures forall k :: |old(consumeTimeouts)| <= k < |consumeTimeouts| ==> consumeTimeouts[k] == timeout
      ensures callbacks == old(callbacks) + CallbacksOf(its[..passes])
    {
      passes, stopped := 0, false;
      while passes < |its|
        invariant passes <= |its|
        invariant forall j :: 0 <= j < passes ==> Continues(its[j])
        invariant |consumeTimeouts| == |old(consumeTimeouts)| + passes
        invariant consumeTimeouts[..|old(consumeTimeouts)|] == old(consumeTimeouts)
        invariant forall k :: |old(consumeTimeouts)| <= k < |consumeTimeouts| ==> consumeTimeouts[k] == timeout
        invariant callbacks == old(callbacks) + CallbacksOf(its[..passes])
      {
        var continues := Step(its[passes]);
        CallbacksOfNext(its, passes);
        passes := passes + 1;
        if !continues {
          stopped := true;
          break;
        }
      }
    }

    /** `setTimeout`: only the timeout changes. */
    method SetTimeout(timeout: int)
      modifies this`timeout
      ensures this.timeout == timeout
    {
      this.timeout := timeout;
    }

    /** `setOffset`: only the offset changes. */
    method SetOffset(offset: string)
      modifies this`offset
      ensures this.offset == offset
    {
      this.offset := offset;
    }
  }
}
