/** `MessageSubscriber.Subscriber<TScope>`: the facade through which handlers
    are attached to the broker for (TScope, TMessage) in one scope.

    The facade holds its `MessageSubscriber` (here: that subscriber's broker
    container, None for a `default` struct) and its `Scope`. Whether the
    build validates is the parameter `validation`; without validation an
    invalid facade dereferences null and throws. */
module Subscribers {
  import opened Common
  import opened HandlerIds
  import opened Handlers
  import opened Brokers

  /** The API name an invalid subscriber's error message points to. */
  const SubscriberApi: string := "MessageSubscriber.Scope"

  datatype Subscriber = Subscriber(owner: Option<BrokerContainer>, scopeType: TypeName, scope: Option<ScopeKey>)
  {
    /** `IsValid`: the facade holds the `MessageSubscriber` that handed it out, so
        it has a container to work on. */
    function IsValid(): (b: bool)
      ensures b <==> owner.Some?
      ensures b <==> Owners() != {}
    {
      owner.Some?
    }

    function Owners(): set<object> {
      if owner.Some? then {owner.value} else {}
    }

    /** The owner's container state; the empty one when there is no owner. */
    function Before(): Snapshot
      reads Owners()
    {
      if owner.Some? then owner.value.Snap() else Snapshot(map[], 0, [])
    }

    function Pair(messageType: TypeName): TypePair {
      TypePair(scopeType, messageType)
    }
  }

  /** The whole outcome of `TrySubscribe` on a container that went from
      `before` to `after`. An invalid facade logs one error (validation
      builds) or throws (other builds), and subscribes nothing. A valid one
      gets or creates the broker for its pair; if that fails it reports
      false and `Subscription.None`, otherwise it subscribes the handler with
      its own scope, the order and the shared pool, and reports true with
      whatever the broker answered. `added` is the broker's verdict on adding
      the handler to that order group: false when a handler with the same
      `HandlerId` is already there, in which case the broker answers
      `Subscription.None` and `TrySubscribe` still reports true. */
  ghost predicate SubscribeOutcome(
    s: Subscriber, messageType: TypeName, handler: Handler<Message>, order: int,
    logger: Option<Logger>, validation: bool, accepted: bool, added: bool,
    before: Snapshot, after: Snapshot,
    ok: bool, subscription: Subscription, logs: seq<LogEntry>, thrown: Option<Exception>)
  {
    if !s.IsValid() then
      && !ok && subscription == NoSubscription && after == before
      && (validation ==> logs == Validate(false, SubscriberApi, logger) && thrown == None)
      && (!validation ==> logs == [] && thrown == Some(NullReference("_subscriber")))
    else
      var a := Acquire(before.registry, before.created, s.Pair(messageType), accepted);
      && logs == [] && thrown == None
      && ok == a.broker.Some?
      && after.registry == a.registry && after.created == a.created
      && (ok ==> after.journal == before.journal + a.events
                   + [Subscribed(a.broker.value, s.scope, handler, order, s.owner.value.taskArrayPool)]
                 && subscription == if added then SubscriptionOf(a.broker.value, |before.journal| + |a.events|)
                                    else NoSubscription)
      && (!ok ==> after.journal == before.journal + a.events && subscription == NoSubscription)
  }

  /** `TrySubscribe(handler, order, out subscription, logger)`. */
  method TrySubscribe(s: Subscriber, messageType: TypeName, handler: Handler<Message>, order: int,
                      logger: Option<Logger>, validation: bool, accepted: bool, added: bool)
    returns (ok: bool, subscription: Subscription, logs: seq<LogEntry>, thrown: Option<Exception>)
    requires s.owner.Some? ==> s.owner.value.Valid()
    modifies s.Owners()
    ensures s.owner.Some? ==> s.owner.value.Valid()
    ensures SubscribeOutcome(s, messageType, handler, order, logger, validation, accepted, added,
                             old(s.Before()), s.Before(), ok, subscription, logs, thrown)
  {
    if !s.IsValid() {
      ok, subscription := false, NoSubscription;
      if validation {
        logs, thrown := Validate(false, SubscriberApi, logger), None;
      } else {
        logs, thrown := [], Some(NullReference("_subscriber"));
      }
      return;
    }
    logs, thrown := [], None;
    var brokers := s.owner.value;
    var broker := brokers.GetOrAdd(s.Pair(messageType), accepted);
    if broker.None? {
      return false, NoSubscription, logs, thrown;
    }
    subscription := if added then SubscriptionOf(broker.value, |brokers.journal|) else NoSubscription;
    brokers.Record(Subscribed(broker.value, s.scope, handler, order, brokers.taskArrayPool));
    ok := true;
  }

  /** The six `Subscribe(handler, order, logger)` overloads, one per handler
      shape: a null delegate throws `ArgumentNullException` before anything
      else happens; otherwise it is wrapped in a new handler of that shape
      (`wrapped`) and subscribed, and the subscription, or
      `Subscription.None`, is returned. */
  method Subscribe(s: Subscriber, messageType: TypeName, shape: Shape, handler: Option<Delegate>,
                   order: int, logger: Option<Logger>, validation: bool, accepted: bool, added: bool)
    returns (subscription: Subscription, logs: seq<LogEntry>, thrown: Option<Exception>,
             ghost wrapped: Option<Handler<Message>>, ghost ok: bool)
    requires s.owner.Some? ==> s.owner.value.Valid()
    modifies s.Owners()
    ensures s.owner.Some? ==> s.owner.value.Valid()
    ensures handler.None? ==> && thrown == Some(ArgumentNull("handler")) && logs == []
                              && subscription == NoSubscription && s.Before() == old(s.Before())
    ensures handler.Some? ==> && wrapped.Some? && fresh(wrapped.value)
                              && wrapped.value.shape == shape && wrapped.value.target == handler
                              && SubscribeOutcome(s, messageType, wrapped.value, order, logger, validation, accepted, added,
                                                  old(s.Before()), s.Before(), ok, subscription, logs, thrown)
  {
    if handler.None? {
      return NoSubscription, [], Some(ArgumentNull("handler")), None, false;
    }
    var h := new Handler(shape, handler.value);
    wrapped := Some(h);
    ok, subscription, logs, thrown := TrySubscribe(s, messageType, h, order, logger, validation, accepted, added);
  }

  /** `RegisterUnsubscription`: the subscription is disposed when the token
      is cancelled. The registration is recorded in the journal. */
  method RegisterUnsubscription(brokers: BrokerContainer, subscription: Subscription, unsubscribeToken: CancelToken)
    modifies brokers`journal
    ensures brokers.journal == old(brokers.journal) + [DisposeOnCancel(subscription, unsubscribeToken)]
  {
    brokers.Record(DisposeOnCancel(subscription, unsubscribeToken));
  }

  /** The six `Subscribe(handler, unsubscribeToken, order, logger)` overloads:
      as `Subscribe`, and when `TrySubscribe` reported true (and only then)
      the subscription it returned, `Subscription.None` included, is tied to
      the token for disposal. `middle` is the container state between the
      two steps. */
  method SubscribeUntil(s: Subscriber, messageType: TypeName, shape: Shape, handler: Option<Delegate>,
                        unsubscribeToken: CancelToken, order: int, logger: Option<Logger>,
                        validation: bool, accepted: bool, added: bool)
    returns (logs: seq<LogEntry>, thrown: Option<Exception>,
             ghost wrapped: Option<Handler<Message>>, ghost ok: bool, ghost subscription: Subscription,
             ghost middle: Snapshot)
    requires s.owner.Some? ==> s.owner.value.Valid()
    modifies s.Owners()
    ensures s.owner.Some? ==> s.owner.value.Valid()
    ensures handler.None? ==> && thrown == Some(ArgumentNull("handler")) && logs == []
                              && s.Before() == old(s.Before())
    ensures handler.Some? ==> && wrapped.Some? && fresh(wrapped.value)
                              && wrapped.value.shape == shape && wrapped.value.target == handler
                              && SubscribeOutcome(s, messageType, wrapped.value, order, logger, validation, accepted, added,
                                                  old(s.Before()), middle, ok, subscription, logs, thrown)
                              && s.Before() == if ok then middle.(journal := middle.journal + [DisposeOnCancel(subscription, unsubscribeToken)])
                                               else middle
  {
    if handler.None? {
      return [], Some(ArgumentNull("handler")), None, false, NoSubscription, s.Before();
    }
    var h := new Handler(shape, handler.value);
    wrapped := Some(h);
    var made, sub;
    made, sub, logs, thrown := TrySubscribe(s, messageType, h, order, logger, validation, accepted, added);
    ok, subscription := made, sub;
    middle := s.Before();
    if made {
      RegisterUnsubscription(s.owner.value, sub, unsubscribeToken);
    }
  }

  /** `Compress<TMessage>(logger)`: forwards to the broker's `Compress` with
      the facade's scope when a broker exists; never creates one. */
  method Compress(s: Subscriber, messageType: TypeName, logger: Option<Logger>, validation: bool)
    returns (logs: seq<LogEntry>, thrown: Option<Exception>)
    modifies s.Owners()
    ensures !s.IsValid() && validation ==> logs == Validate(false, SubscriberApi, logger) && thrown == None
    ensures !s.IsValid() && !validation ==> logs == [] && thrown == Some(NullReference("_subscriber"))
    ensures s.IsValid() ==>
              var before := old(s.Before());
              var c := s.owner.value;
              && logs == [] && thrown == None
              && c.registry == before.registry && c.created == before.created
              && c.journal == before.journal + if s.Pair(messageType) in before.registry
                                               then [Compressed(before.registry[s.Pair(messageType)], s.scope)]
                                               else []
  {
    if !s.IsValid() {
      if validation {
        return Validate(false, SubscriberApi, logger), None;
      }
      return [], Some(NullReference("_subscriber"));
    }
    logs, thrown := [], None;
    var brokers := s.owner.value;
    var broker := brokers.TryGet(s.Pair(messageType));
    if broker.Some? {
      brokers.Record(Compressed(broker.value, s.scope));
    }
  }

  /** When `TrySubscribe` reports true, exactly one broker is registered for
      the pair and the handler was subscribed to it; the registry stays well
      keyed. A real subscription comes back only when the broker also added
      the handler; a false report always comes with `Subscription.None`. */
  lemma SubscribedBrokerIsRegistered(
    s: Subscriber, messageType: TypeName, handler: Handler<Message>, order: int,
    logger: Option<Logger>, validation: bool, accepted: bool, added: bool,
    before: Snapshot, after: Snapshot,
    ok: bool, subscription: Subscription, logs: seq<LogEntry>, thrown: Option<Exception>)
    requires WellKeyed(before.registry, before.created)
    requires SubscribeOutcome(s, messageType, handler, order, logger, validation, accepted, added,
                              before, after, ok, subscription, logs, thrown)
    ensures WellKeyed(after.registry, after.created)
    ensures !ok ==> subscription == NoSubscription
    ensures subscription.SubscriptionOf? <==> ok && added
    ensures ok ==> && s.Pair(messageType) in after.registry && |after.journal| > 0
                   && after.journal[|after.journal| - 1] ==
                        Subscribed(after.registry[s.Pair(messageType)], s.scope, handler, order, s.owner.value.taskArrayPool)
    ensures subscription.SubscriptionOf? ==>
              && subscription.broker == after.registry[s.Pair(messageType)]
              && subscription.ticket == |after.journal| - 1
  {
    if s.IsValid() {
      AcquireKeepsKeys(before.registry, before.created, s.Pair(messageType), accepted);
    }
  }

  /** A refused registration subscribes nothing and leaves the registry as it
      was; only the short-lived broker's creation and disposal are recorded. */
  lemma RefusedSubscriptionChangesNoRegistry(
    s: Subscriber, messageType: TypeName, handler: Handler<Message>, order: int,
    logger: Option<Logger>, validation: bool, added: bool,
    before: Snapshot, after: Snapshot,
    ok: bool, subscription: Subscription, logs: seq<LogEntry>, thrown: Option<Exception>)
    requires s.IsValid() && s.Pair(messageType) !in before.registry
    requires SubscribeOutcome(s, messageType, handler, order, logger, validation, false, added,
                              before, after, ok, subscription, logs, thrown)
    ensures !ok && subscription == NoSubscription && after.registry == before.registry
    ensures after.journal == before.journal + [Created(before.created), Disposed(before.created)]
  {
  }
}
