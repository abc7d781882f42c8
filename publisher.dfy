/** `MessagePublisher.Publisher<TScope>`: the facade through which messages
    of any type are published in one scope.

    Publishing only looks a broker up, so `Publish` and `PublishAsync` are
    functions of the container's state: what they log, the one dispatch to
    the broker they make (if any), the exception they throw (if any), and
    the task `PublishAsync` returns. `Cache` may create a broker and is a
    method. */
module Publishers {
  import opened Common
  import opened Handlers
  import opened Brokers
  import Subscribers

  /** The API name an invalid publisher's error message points to. */
  const PublisherApi: string := "MessagePublisher.Scope"

  datatype Publisher = Publisher(owner: Option<BrokerContainer>, scopeType: TypeName, scope: Option<ScopeKey>)
  {
    /** `IsValid`: the facade holds the `MessagePublisher` that handed it out, so
        it has a container to work on. */
    function IsValid(): (b: bool)
      ensures b <==> owner.Some?
      ensures b <==> Owners() != {}
    {
      owner.Some?
    }

    function Owners(): set<object> {
      if owner.Some? then {owner.value} else {}
    }

    function Before(): Snapshot
      reads Owners()
    {
      if owner.Some? then owner.value.Snap() else Snapshot(map[], 0, [])
    }

    function Pair(messageType: TypeName): TypePair {
      TypePair(scopeType, messageType)
    }

    /** The broker registered for (TScope, messageType), looked up without
        ever adding one. */
    function Broker(messageType: TypeName): (b: Option<BrokerId>)
      reads Owners()
      ensures b.Some? <==> owner.Some? && Pair(messageType) in owner.value.registry
      ensures b.Some? ==> b.value == owner.value.registry[Pair(messageType)]
    {
      if owner.None? then None else owner.value.TryGet(Pair(messageType))
    }
  }

  /** One call of `broker.PublishAsync(Scope, message, cancelToken, logger)`.
      Scope and message may be null only in builds without validation. */
  datatype Dispatch = Dispatch(broker: BrokerId, scope: Option<ScopeKey>, message: Option<Message>,
                               token: CancelToken, logger: Logger)

  /** What one publication does besides returning a task. */
  datatype Effect = Effect(logs: seq<LogEntry>, dispatch: Option<Dispatch>, thrown: Option<Exception>)

  /** The `UniTask` `PublishAsync` returns: `UniTask.CompletedTask`, or the
      task of the broker's own `PublishAsync`. */
  datatype PublishTask = CompletedTask | BrokerTask(dispatch: Dispatch)

  /** Whether every check of a validation build passes. */
  predicate Checked(p: Publisher, message: Option<Message>) {
    p.IsValid() && p.scope.Some? && message.Some?
  }

  /** `Publish(message, cancelToken, logger)`. In validation builds the
      checks run in the order validity, scope, message, each failure logging
      exactly one entry and stopping; a publication that passes them goes to
      the registered broker with the caller's logger or the default one, and
      one with no broker logs a single warning. Without validation there are
      no checks and no logs, and an invalid facade throws. */
  function Publish(p: Publisher, messageType: TypeName, message: Option<Message>, token: CancelToken,
                   logger: Option<Logger>, validation: bool): (e: Effect)
    reads p.Owners()
    ensures e.thrown.Some? <==> !validation && !p.IsValid()
    ensures e.thrown.Some? ==> e.thrown.value == NullReference("_publisher")
    ensures e.dispatch.Some? <==> p.IsValid() && (validation ==> Checked(p, message)) && p.Broker(messageType).Some?
    ensures e.dispatch.Some? ==>
              e.dispatch.value == Dispatch(p.Broker(messageType).value, p.scope, message, token, Resolve(logger))
    ensures !validation ==> e.logs == []
    ensures validation ==> |e.logs| == (if e.dispatch.Some? then 0 else 1)
    ensures validation && !p.IsValid() ==> e.logs == Validate(false, PublisherApi, logger)
    ensures validation && p.IsValid() && p.scope.None? ==>
              e.logs == [LogException(Resolve(logger), NullReference("Scope"))]
    ensures validation && p.IsValid() && p.scope.Some? && message.None? ==>
              e.logs == [LogException(Resolve(logger), ArgumentNull("message"))]
    ensures validation && Checked(p, message) && p.Broker(messageType).None? ==>
              e.logs == [LogWarning(Resolve(logger), FoundNoSubscription(messageType, p.scope))]
  {
    var log := Resolve(logger);
    if validation && !p.IsValid() then
      Effect(Validate(p.IsValid(), PublisherApi, logger), None, None)
    else if validation && p.scope.None? then
      Effect([LogException(log, NullReference("Scope"))], None, None)
    else if validation && message.None? then
      Effect([LogException(log, ArgumentNull("message"))], None, None)
    else if !p.IsValid() then
      Effect([], None, Some(NullReference("_publisher")))
    else match p.Broker(messageType)
      case Some(b) => Effect([], Some(Dispatch(b, p.scope, message, token, log)), None)
      case None =>
        if validation then Effect([LogWarning(log, FoundNoSubscription(messageType, p.scope))], None, None)
        else Effect([], None, None)
  }

  /** `PublishAsync(message, cancelToken, logger)`: the same checks, logs and
      dispatch as `Publish`, returning the broker's task when a broker was
      called and the completed task otherwise. */
  function PublishAsync(p: Publisher, messageType: TypeName, message: Option<Message>, token: CancelToken,
                        logger: Option<Logger>, validation: bool): (r: (Effect, PublishTask))
    reads p.Owners()
    ensures r.0 == Publish(p, messageType, message, token, logger, validation)
    ensures r.0.dispatch.Some? ==> r.1 == BrokerTask(r.0.dispatch.value)
    ensures r.0.dispatch.None? ==> r.1 == CompletedTask
    ensures r.0.dispatch.Some? <==> p.IsValid() && (validation ==> Checked(p, message)) && p.Broker(messageType).Some?
    ensures r.0.thrown.Some? <==> !validation && !p.IsValid()
  {
    var e := Publish(p, messageType, message, token, logger, validation);
    (e, if e.dispatch.Some? then BrokerTask(e.dispatch.value) else CompletedTask)
  }

  /** The message-less `Publish(cancelToken, logger)`: a freshly constructed
      message, which can never be the null one. */
  function PublishNew(p: Publisher, messageType: TypeName, token: CancelToken,
                      logger: Option<Logger>, validation: bool): (e: Effect)
    reads p.Owners()
    ensures e == Publish(p, messageType, Some(DefaultMessage), token, logger, validation)
    ensures LogException(Resolve(logger), ArgumentNull("message")) !in e.logs
    ensures e.dispatch.Some? ==> e.dispatch.value.message == Some(DefaultMessage)
    ensures e.dispatch.Some? <==> p.IsValid() && (validation ==> p.scope.Some?) && p.Broker(messageType).Some?
  {
    Publish(p, messageType, Some(DefaultMessage), token, logger, validation)
  }

  /** The message-less `PublishAsync(cancelToken, logger)`. */
  function PublishNewAsync(p: Publisher, messageType: TypeName, token: CancelToken,
                           logger: Option<Logger>, validation: bool): (r: (Effect, PublishTask))
    reads p.Owners()
    ensures r == PublishAsync(p, messageType, Some(DefaultMessage), token, logger, validation)
    ensures r.0 == PublishNew(p, messageType, token, logger, validation)
    ensures r.1.BrokerTask? ==> r.1.dispatch.message == Some(DefaultMessage)
  {
    PublishAsync(p, messageType, Some(DefaultMessage), token, logger, validation)
  }

  /** `Cache<TMessage>(logger)`: after the validation checks (validity, then
      scope), gets or creates the broker for the pair under the container's
      lock and pins it for this scope and the shared pool. If registering a
      new broker fails, that is logged as an error (validation builds), the
      new broker is disposed and a default `CachedPublisher` is returned. */
  method Cache(p: Publisher, messageType: TypeName, logger: Option<Logger>, validation: bool, accepted: bool)
    returns (cached: CachedPublisher, logs: seq<LogEntry>, thrown: Option<Exception>)
    requires p.owner.Some? ==> p.owner.value.Valid()
    modifies p.Owners()
    ensures p.owner.Some? ==> p.owner.value.Valid()
    ensures !p.IsValid() ==> cached == DefaultCachedPublisher
    ensures !p.IsValid() && validation ==> logs == Validate(false, PublisherApi, logger) && thrown == None
    ensures !p.IsValid() && !validation ==> logs == [] && thrown == Some(NullReference("_publisher"))
    ensures p.IsValid() && validation && p.scope.None? ==>
              && cached == DefaultCachedPublisher && thrown == None
              && logs == [LogException(Resolve(logger), NullReference("Scope"))]
              && p.Before() == old(p.Before())
    ensures p.IsValid() && (validation ==> p.scope.Some?) ==>
              var before := old(p.Before());
              var c := p.owner.value;
              var a := Acquire(before.registry, before.created, p.Pair(messageType), accepted);
              && thrown == None && c.registry == a.registry && c.created == a.created
              && (a.broker.Some? ==>
                    && logs == []
                    && c.journal == before.journal + a.events + [Cached(a.broker.value, p.scope, c.taskArrayPool)]
                    && cached == CachedPublisherOf(a.broker.value, |before.journal| + |a.events|))
              && (a.broker.None? ==>
                    && logs == (if validation then [LogError(Resolve(logger), RegistrationFailed(p.Pair(messageType)))] else [])
                    && c.journal == before.journal + a.events
                    && cached == DefaultCachedPublisher)
  {
    if !p.IsValid() {
      if validation {
        return DefaultCachedPublisher, Validate(false, PublisherApi, logger), None;
      }
      return DefaultCachedPublisher, [], Some(NullReference("_publisher"));
    }
    if validation && p.scope.None? {
      return DefaultCachedPublisher, [LogException(Resolve(logger), NullReference("Scope"))], None;
    }
    var brokers := p.owner.value;
    var broker := brokers.GetOrAdd(p.Pair(messageType), accepted);
    if broker.None? {
      logs := if validation then [LogError(Resolve(logger), RegistrationFailed(p.Pair(messageType)))] else [];
      return DefaultCachedPublisher, logs, None;
    }
    cached := CachedPublisherOf(broker.value, |brokers.journal|);
    brokers.Record(Cached(broker.value, p.scope, brokers.taskArrayPool));
    logs, thrown := [], None;
  }

  /** Publishing never changes who is subscribed: the effect depends only on
      the registry, and two containers with the same registry give the same
      effect. */
  lemma PublishDependsOnlyOnRegistry(p: Publisher, q: Publisher, messageType: TypeName, message: Option<Message>,
                                     token: CancelToken, logger: Option<Logger>, validation: bool)
    requires p.scopeType == q.scopeType && p.scope == q.scope && p.IsValid() == q.IsValid()
    requires p.IsValid() ==> p.owner.value.registry == q.owner.value.registry
    ensures Publish(p, messageType, message, token, logger, validation)
         == Publish(q, messageType, message, token, logger, validation)
  {
  }

  /** A publisher that shares its `MessageSubscriber`'s container and scope
      type reaches the broker a successful `TrySubscribe` acquired: once it
      has reported true, a checked publication of that message type is
      dispatched to exactly that broker and logs nothing. */
  lemma SubscriptionIsReachedByPublish(
    s: Subscribers.Subscriber, messageType: TypeName, handler: Handler<Message>, order: int,
    subscribeLogger: Option<Logger>, validation: bool, accepted: bool, added: bool,
    before: Snapshot, ok: bool, subscription: Subscription, subscribeLogs: seq<LogEntry>, thrown: Option<Exception>,
    p: Publisher, message: Option<Message>, token: CancelToken, logger: Option<Logger>)
    requires p.owner == s.owner && p.scopeType == s.scopeType
    requires Subscribers.SubscribeOutcome(s, messageType, handler, order, subscribeLogger, validation, accepted, added,
                                          before, p.Before(), ok, subscription, subscribeLogs, thrown)
    requires ok && (validation ==> p.scope.Some? && message.Some?)
    ensures var acquired := Acquire(before.registry, before.created, s.Pair(messageType), accepted).broker;
            && acquired.Some?
            && Publish(p, messageType, message, token, logger, validation)
               == Effect([], Some(Dispatch(acquired.value, p.scope, message, token, Resolve(logger))), None)
  {
    assert s.Pair(messageType) == p.Pair(messageType);
  }

  /** At most one entry is logged per publication, and none when the
      message was dispatched. */
  lemma PublishLogsAtMostOnce(p: Publisher, messageType: TypeName, message: Option<Message>, token: CancelToken,
                              logger: Option<Logger>, validation: bool)
    ensures var e := Publish(p, messageType, message, token, logger, validation);
            |e.logs| <= 1 && (e.dispatch.Some? ==> e.logs == [])
  {
  }
}
