/** What the publisher and subscriber facades share: the container of
    brokers, keyed by the (scope type, message type) pair, and the loggers.

    The brokers themselves (`MessageBroker<TScope, TMessage>`) are not part
    of this model: a broker is an identity, and every call a facade makes on
    one is appended to the container's `journal`, in order. Messages and
    scope values are opaque keys; C# null is `None`. */
module Brokers {
  import opened Common
  import opened Handlers
  import ArrayPool

  /** The name of a C# type, standing for a generic type argument. */
  type TypeName = string

  /** The key under which the container stores `MessageBroker<TScope, TMessage>`. */
  datatype TypePair = TypePair(scopeType: TypeName, messageType: TypeName)

  /** A broker instance: the n-th one created. */
  type BrokerId = nat

  /** A scope value handed to a broker. */
  type ScopeKey = int

  /** A message: a freshly `new()`-constructed one, or some other value. */
  datatype Message = DefaultMessage | MessageValue(key: int)

  /** An `ILogger`: the process-wide default one or one passed by the caller. */
  datatype Logger = DefaultLogger | CustomLogger(id: nat)

  /** `logger ?? DefaultLogger.Default`. */
  function Resolve(logger: Option<Logger>): (l: Logger)
    ensures logger.Some? ==> l == logger.value
    ensures logger.None? ==> l == DefaultLogger
  {
    match logger
    case Some(given) => given
    case None => DefaultLogger
  }

  /** The texts the facades log, by what they say. */
  datatype LogText =
    | MustBeRetrievedVia(api: string)
    | FoundNoSubscription(messageType: TypeName, scope: Option<ScopeKey>)
    | RegistrationFailed(pair: TypePair)

  datatype LogEntry =
    | LogError(logger: Logger, text: LogText)
    | LogWarning(logger: Logger, text: LogText)
    | LogException(logger: Logger, exception: Exception)

  /** What `broker.Subscribe` hands back: `Subscription<T>.None`, or the
      subscription made by the journal entry with index `ticket`. */
  datatype Subscription = NoSubscription | SubscriptionOf(broker: BrokerId, ticket: nat)

  /** What `Cache` hands back: `default(CachedPublisher<T>)`, or the pinned
      broker made by the journal entry with index `pin`. */
  datatype CachedPublisher = DefaultCachedPublisher | CachedPublisherOf(broker: BrokerId, pin: nat)

  /** One journal entry: a broker's creation or disposal, a call made on a
      broker, or a registration on a cancellation token. */
  datatype Event =
    | Created(broker: BrokerId)
    | Disposed(broker: BrokerId)
    | Subscribed(broker: BrokerId, scope: Option<ScopeKey>, handler: Handler<Message>, order: int,
                 pool: ArrayPool.CappedArrayPool<Task<Message>>)
    | Compressed(broker: BrokerId, scope: Option<ScopeKey>)
    | Cached(broker: BrokerId, scope: Option<ScopeKey>, pool: ArrayPool.CappedArrayPool<Task<Message>>)
    | DisposeOnCancel(subscription: Subscription, token: CancelToken)

  /** Every registered broker is one already created, and no broker is
      registered under two pairs. */
  ghost predicate WellKeyed(registry: map<TypePair, BrokerId>, created: nat) {
    && (forall p :: p in registry ==> registry[p] < created)
    && (forall p, q :: p in registry && q in registry && registry[p] == registry[q] ==> p == q)
  }

  /** The result of the get-or-create block both facades run under the
      container's lock: the broker obtained (None if registering a new one
      failed), the new registry and broker count, and the events. */
  datatype Acquisition = Acquisition(
    broker: Option<BrokerId>,
    registry: map<TypePair, BrokerId>,
    created: nat,
    events: seq<Event>)

  /** Get-or-create on the registry. A registered broker is reused and
      nothing changes. Otherwise one new broker is made and offered to the
      container; `accepted` is the container's verdict on `TryAdd`. If it is
      refused, the new broker is disposed and nothing is registered. */
  function Acquire(registry: map<TypePair, BrokerId>, created: nat, pair: TypePair, accepted: bool): (a: Acquisition)
    ensures pair in registry ==> a == Acquisition(Some(registry[pair]), registry, created, [])
    ensures pair !in registry ==> a.created == created + 1 && (a.broker.Some? <==> accepted)
    ensures pair !in registry && accepted ==>
              a.broker == Some(created) && a.registry == registry[pair := created] && a.events == [Created(created)]
    ensures pair !in registry && !accepted ==>
              a.registry == registry && a.events == [Created(created), Disposed(created)]
    ensures a.broker.Some? ==> pair in a.registry && a.registry[pair] == a.broker.value
    ensures forall q :: q != pair ==> (q in a.registry <==> q in registry)
  {
    if pair in registry then Acquisition(Some(registry[pair]), registry, created, [])
    else if accepted then Acquisition(Some(created), registry[pair := created], created + 1, [Created(created)])
    else Acquisition(None, registry, created + 1, [Created(created), Disposed(created)])
  }

  /** Acquiring keeps the registry well keyed. */
  lemma AcquireKeepsKeys(registry: map<TypePair, BrokerId>, created: nat, pair: TypePair, accepted: bool)
    requires WellKeyed(registry, created)
    ensures var a := Acquire(registry, created, pair, accepted);
            WellKeyed(a.registry, a.created)
  {
  }

  /** Get-or-create is idempotent: once a broker has been obtained for a
      pair, acquiring again yields the same broker and changes nothing, so
      there is exactly one broker per pair. */
  lemma AcquireTwiceYieldsOneBroker(registry: map<TypePair, BrokerId>, created: nat, pair: TypePair,
                                    first: bool, second: bool)
    requires Acquire(registry, created, pair, first).broker.Some?
    ensures var a := Acquire(registry, created, pair, first);
            var b := Acquire(a.registry, a.created, pair, second);
            b.broker == a.broker && b.registry == a.registry && b.created == a.created && b.events == []
  {
  }

  /** The container's state as a value: registry, broker count and journal. */
  datatype Snapshot = Snapshot(registry: map<TypePair, BrokerId>, created: nat, journal: seq<Event>)

  /** `_brokers`, the `SingletonContainer<MessageBroker>` shared by one
      messenger's facades, with the task-array pool they hand to brokers. */
  class BrokerContainer {
    var registry: map<TypePair, BrokerId>
    var created: nat
    var journal: seq<Event>
    const taskArrayPool: ArrayPool.CappedArrayPool<Task<Message>>

    ghost predicate Valid()
      reads this
    {
      WellKeyed(registry, created)
    }

    constructor (pool: ArrayPool.CappedArrayPool<Task<Message>>)
      ensures Valid() && registry == map[] && created == 0 && journal == [] && taskArrayPool == pool
    {
      registry := map[];
      created := 0;
      journal := [];
      taskArrayPool := pool;
    }

    function Snap(): Snapshot
      reads this
    {
      Snapshot(registry, created, journal)
    }

    /** `TryGet<MessageBroker<TScope, TMessage>>`. */
    function TryGet(pair: TypePair): (r: Option<BrokerId>)
      reads this
      ensures r.Some? <==> pair in registry
      ensures r.Some? ==> r.value == registry[pair]
    {
      if pair in registry then Some(registry[pair]) else None
    }

    /** The get-or-create block, on the container's state. */
    method GetOrAdd(pair: TypePair, accepted: bool) returns (broker: Option<BrokerId>)
      requires Valid()
      modifies this
      ensures Valid()
      ensures var a := Acquire(old(registry), old(created), pair, accepted);
              broker == a.broker && registry == a.registry && created == a.created
              && journal == old(journal) + a.events
    {
      AcquireKeepsKeys(registry, created, pair, accepted);
      if pair in registry {
        return Some(registry[pair]);
      }
      var newest := created;
      created := created + 1;
      journal := journal + [Created(newest)];
      if accepted {
        registry := registry[pair := newest];
        broker := Some(newest);
      } else {
        journal := journal + [Disposed(newest)];
        broker := None;
      }
    }

    /** Appends one call to the journal. */
    method Record(e: Event)
      modifies this`journal
      ensures journal == old(journal) + [e]
    {
      journal := journal + [e];
    }
  }

  /** The validation step both facades share (`Validate(logger)`): a facade
      not obtained from its factory logs one error naming the factory API. */
  function Validate(isValid: bool, api: string, logger: Option<Logger>): (r: seq<LogEntry>)
    ensures isValid <==> r == []
    ensures !isValid ==> r == [LogError(Resolve(logger), MustBeRetrievedVia(api))]
  {
    if isValid then [] else [LogError(Resolve(logger), MustBeRetrievedVia(api))]
  }
}
