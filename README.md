# ZBase.Foundation.PubSub: a Dafny model of the core

ZBase.Foundation.PubSub is an in-process publish/subscribe messenger for
Unity. Handlers subscribe to a message type in a *scope*: the global scope,
an id, a name or a Unity object. Publishers send messages of that type to
that scope. One broker exists per (scope type, message type) pair. It is
kept in a container shared by the messenger's publisher and subscriber
facades.

This project models four parts of that library and proves properties of each:

- **The task-array pool** (`capped_array_pool.dfy`, module `ArrayPool`).
  `CappedArrayPool<T>` is a class over the same arrays the C# code mutates:
  an array of buckets and an array of cursors ("tails"). Bucket `i` serves
  arrays of length `i + 1`. `Rent` and `Return` are proved against the pure
  single-bucket steps `RentStep` and `ReturnStep`. The class invariant
  `Valid` says that in each bucket the first four slots hold arrays of the
  bucket's length and every later slot is empty. This is why a rented array
  always has the requested length. That the pooled arrays stay the ones the
  constructor made is not part of `Valid`: it follows from the `ensures` of
  `Rent` and `Return`, which never write a slot except to grow the bucket
  with empty ones. A client model (`Step`, `Replay`) then shows that
  the pool never hands the same pooled array to two holders at once, as long
  as every return gives back an array that is still out.
- **Handler slots** (`handlers.dfy`, `stateful_handlers.dfy`). One class
  stands for each family of six handler classes, with a `shape` constant
  naming the delegate type.
  - Delegates are opaque values. Every call `Handle` makes is appended to a
    ghost `calls` trace.
  - The guards (cancellation requested, handler disposed, weakly-held state
    collected) are in the pure functions `HandleOutcome` and
    `StatefulHandleOutcome`.
- **Identity and equality.** `HandlerId` is in `handler_id.dfy`.
  `GlobalScope` is in `global_scope.dfy`. The sample scope keys `IdScope`,
  `NameScope` and `UnityObjectScope` are in `scopes.dfy`.
- **The facades.** The broker container is in `brokers.dfy`,
  `Subscriber<TScope>` in `subscriber.dfy` and `Publisher<TScope>` in
  `publisher.dfy`.
  - The container is a class. It holds the registry map from type pairs to
    brokers, the number of brokers created so far, and a journal, in order,
    of the brokers' creation and disposal, every call a facade makes on a
    broker, and every registration of a subscription's disposal on a
    cancellation token.
  - The get-or-create block both facades run under the container's lock is
    the pure function `Acquire`.
  - `Publish` and `PublishAsync` only look brokers up, so they are functions
    of the container's state.
  - `TrySubscribe`, `Subscribe`, `Compress` and `Cache` are module-level
    methods that modify the container their facade holds.

How the model stands in for C#:

- C# null is `None` of `Option`.
- A thrown exception is a `thrown` result. When `thrown` is set, the C#
  method returns nothing, so the model's other outputs (a `CompletedTask`,
  a `NoSubscription`, an empty `logs`) carry no meaning in that case.
- A logged entry is an element of a `logs` result.
- Whether a call validates is the parameter `validation`. The publisher's
  checks are compiled in under `__ZBASE_FOUNDATION_PUBSUB_VALIDATION__`, and
  the subscriber's unless `__ZBASE_FOUNDATION_PUBSUB_NO_VALIDATION__` is
  defined. Each facade's operations take the parameter separately, so both
  settings can be stated for either facade.
- The container's `TryAdd` verdict is the parameter `accepted`, because the
  container's code is not part of this model.
- The broker's verdict on adding a handler to its order group (its
  `handlers.TryAdd(handler.Id, handler)`) is the parameter `added`, because
  the broker's code is not part of this model. When it is false, the broker
  returns `Subscription.None`.
- The runtime's `HashCode.Combine` and string hash are function parameters.
- A weak reference that has been cleared is the `stateAlive` flag being
  false.

Some behaviours of the code are easy to mistake, and the model follows the
code in each of them:

- **Invalid facades.** Builds that validate log one error and return; see
  `Packages/ZBase.Foundation.PubSub/ZBase.Foundation.PubSub/Publishers/MessagePublisher+Publisher.cs:103-107` and
  `Packages/ZBase.Foundation.PubSub/ZBase.Foundation.PubSub/Subscribers/MessageSubscriber+Subscriber.cs:292-297`. Other builds skip
  the check, dereference the null owner and throw `NullReferenceException`.
- **Failed registration.** When the container refuses a new broker, the
  broker is disposed. `TrySubscribe` then returns false and
  `Subscription.None` and logs nothing
  (`Packages/ZBase.Foundation.PubSub/ZBase.Foundation.PubSub/Subscribers/MessageSubscriber+Subscriber.cs:309-314`). `Cache` logs
  one error in validation builds and returns a default `CachedPublisher`
  (`Packages/ZBase.Foundation.PubSub/ZBase.Foundation.PubSub/Publishers/MessagePublisher+Publisher.cs:59-68`).
- **Duplicate handler.** `TrySubscribe` returns true with whatever the
  broker's `Subscribe` gives back
  (`Packages/ZBase.Foundation.PubSub/ZBase.Foundation.PubSub/Subscribers/MessageSubscriber+Subscriber.cs:317-318`). That is
  `Subscription.None` when a handler with the same `HandlerId` is already in
  that order group (`Packages/ZBase.Foundation.PubSub/ZBase.Foundation.PubSub/Internals/MessageBroker{TMessage}.cs:133-138`).
- **Null message.** Validation builds log an `ArgumentNullException` and
  return (`Packages/ZBase.Foundation.PubSub/ZBase.Foundation.PubSub/Publishers/MessagePublisher+Publisher.cs:115-119`). Other builds
  pass the null on to the broker (`Packages/ZBase.Foundation.PubSub/ZBase.Foundation.PubSub/Publishers/MessagePublisher+Publisher.cs:122-125`).
- **The pool** is modelled from its own code
  (`Packages/ZBase.Foundation.PubSub/ZBase.Foundation.PubSub/Internals/CappedArrayPool.cs`).

## Model

| member | source | states |
|---|---|---|
| ArrayPool.Grow | Packages/ZBase.Foundation.PubSub/ZBase.Foundation.PubSub/Internals/CappedArrayPool.cs:51-55 | a full bucket (cursor at or past its end) doubles in length; existing slots keep their positions and the new slots are empty; otherwise the bucket is unchanged |
| ArrayPool.RentStep | Packages/ZBase.Foundation.PubSub/ZBase.Foundation.PubSub/Internals/CappedArrayPool.cs:49-58 | after growing, the cursor is inside the bucket, so the slot read is in bounds; the cursor moves up by one; the array comes from that slot when it is non-null and is freshly allocated otherwise; the cursor stays in range |
| ArrayPool.ReturnStep | Packages/ZBase.Foundation.PubSub/ZBase.Foundation.PubSub/Internals/CappedArrayPool.cs:71-72 | the cursor moves down by one but never below zero; the slots are untouched, so a returned array is never stored |
| ArrayPool.StepsKeepStock | Packages/ZBase.Foundation.PubSub/ZBase.Foundation.PubSub/Internals/CappedArrayPool.cs:49-72 | renting and returning keep the bucket invariant: the first four slots hold arrays of exactly the bucket's length, every later slot is empty, 0 ≤ tail ≤ length and length ≥ 4 |
| ArrayPool.CappedArrayPool.constructor | Packages/ZBase.Foundation.PubSub/ZBase.Foundation.PubSub/Internals/CappedArrayPool.cs:18-35 | makes `maxLength` buckets; bucket i holds four arrays of length i+1 and its cursor starts at 3; the invariant holds |
| ArrayPool.CappedArrayPool.Resize | Packages/ZBase.Foundation.PubSub/ZBase.Foundation.PubSub/Internals/CappedArrayPool.cs:53 | `Array.Resize` to a larger length gives a new array with the old elements first and empty slots after |
| ArrayPool.CappedArrayPool.Rent | Packages/ZBase.Foundation.PubSub/ZBase.Foundation.PubSub/Internals/CappedArrayPool.cs:37-61 | length ≤ 0 gives the shared empty array; a length above the largest bucket gives a new array of exactly that length; neither touches buckets or tails. An in-range length gives an array of exactly `length` elements, takes one `RentStep` on bucket length-1 and leaves every other bucket and tail unchanged; the invariant is kept |
| ArrayPool.CappedArrayPool.RentFrom | Packages/ZBase.Foundation.PubSub/ZBase.Foundation.PubSub/Internals/CappedArrayPool.cs:45-60 | the locked part of an in-range rent on bucket i: the result has length i+1, the bucket becomes `RentStep` of the old one, and no other bucket changes |
| ArrayPool.CappedArrayPool.Return | Packages/ZBase.Foundation.PubSub/ZBase.Foundation.PubSub/Internals/CappedArrayPool.cs:63-74 | arrays of length 0 or above the largest bucket are ignored; otherwise only the matching cursor takes one `ReturnStep`; no bucket slot changes; the invariant is kept |
| ArrayPool.Step | Packages/ZBase.Foundation.PubSub/ZBase.Foundation.PubSub/Internals/CappedArrayPool.cs:45-72 | one rent or return by a client of one bucket; it fails exactly when a return gives back an array that is not out |
| ArrayPool.ConstructedIsBalanced | Packages/ZBase.Foundation.PubSub/ZBase.Foundation.PubSub/Internals/CappedArrayPool.cs:25-33 | a bucket as the constructor leaves it, with nothing rented, is balanced |
| ArrayPool.TakeLease | Packages/ZBase.Foundation.PubSub/ZBase.Foundation.PubSub/Internals/CappedArrayPool.cs:51-58 | under matched use, a rent hands out the pooled array in slot 3 exactly when nothing is out, and a new array otherwise; slots 0-2 are never handed out |
| ArrayPool.StepKeepsBalance | Packages/ZBase.Foundation.PubSub/ZBase.Foundation.PubSub/Internals/CappedArrayPool.cs:45-72 | one matched rent or return keeps the bucket balanced: cursor = 3 + arrays out, and only the oldest lease can be pooled |
| ArrayPool.MatchedUseNeverShares | Packages/ZBase.Foundation.PubSub/ZBase.Foundation.PubSub/Internals/CappedArrayPool.cs:57-72 | by induction over any sequence of matched rents and returns: the bucket stays balanced, and no two arrays out at the same time are both pooled, so one pooled array never has two holders |
| HandlerIds.FromDelegate | Packages/ZBase.Foundation.PubSub/ZBase.Foundation.PubSub/Internals/HandlerId.cs:13-25 | a null delegate gives method 0 and hash 0; otherwise the id holds the delegate's method handle and hash code |
| HandlerIds.Equals | Packages/ZBase.Foundation.PubSub/ZBase.Foundation.PubSub/Internals/HandlerId.cs:31-32 | true iff both the delegate hash and the method handle are equal |
| HandlerIds.EqualsObject | Packages/ZBase.Foundation.PubSub/ZBase.Foundation.PubSub/Internals/HandlerId.cs:35-36 | true iff the object is a boxed `HandlerId` with equal fields; it agrees with the typed `Equals` |
| HandlerIds.Eq | Packages/ZBase.Foundation.PubSub/ZBase.Foundation.PubSub/Internals/HandlerId.cs:41-42 | `==` agrees with `Equals` |
| HandlerIds.Neq | Packages/ZBase.Foundation.PubSub/ZBase.Foundation.PubSub/Internals/HandlerId.cs:44-45 | `!=` is the exact negation of `==` |
| HandlerIds.Hash | Packages/ZBase.Foundation.PubSub/ZBase.Foundation.PubSub/Internals/HandlerId.cs:38-39 | `HashCode.Combine(_delegate, _method)`: the ensures only fixes the argument order, delegate hash first and method handle second, with the runtime's combining function as a parameter; what callers rely on, equal ids hashing alike, is `EqualIdsHashAlike` |
| HandlerIds.EqualIdsHashAlike | Packages/ZBase.Foundation.PubSub/ZBase.Foundation.PubSub/Internals/HandlerId.cs:38-39 | equal ids have equal hash codes, whatever the combining function |
| HandlerIds.EqualsIsEquivalence | Packages/ZBase.Foundation.PubSub/ZBase.Foundation.PubSub/Internals/HandlerId.cs:31-32 | `Equals` is reflexive, symmetric and transitive |
| HandlerIds.NullDelegateIsNullId | Packages/ZBase.Foundation.PubSub/ZBase.Foundation.PubSub/Internals/HandlerId.cs:8-19 | the id of a null delegate equals `HandlerId.Null` |
| Handlers.Call | Packages/ZBase.Foundation.PubSub/ZBase.Foundation.PubSub/Internals/Handlers.cs:25-180 | once the guards pass, the delegate is called once; the message and the token are passed unchanged exactly when the shape takes them; an `Action` yields the completed task and a `Func` yields its own task |
| Handlers.HandleOutcome | Packages/ZBase.Foundation.PubSub/ZBase.Foundation.PubSub/Internals/Handlers.cs:25-180 | the delegate is called iff cancellation was not requested and the handler is not disposed; with no call the task is the completed one; Action shapes always give the completed task |
| Handlers.Handler.constructor | Packages/ZBase.Foundation.PubSub/ZBase.Foundation.PubSub/Internals/Handlers.cs:12-16 | holds the delegate; the id is fixed from it; no calls yet |
| Handlers.Handler.New | Packages/ZBase.Foundation.PubSub/ZBase.Foundation.PubSub/Internals/Handlers.cs:12-16 | a null delegate is rejected with `ArgumentNullException("handler")`; otherwise a new handler of that shape holding the delegate, with the id of that delegate |
| Handlers.Handler.Dispose | Packages/ZBase.Foundation.PubSub/ZBase.Foundation.PubSub/Internals/Handlers.cs:20-23 | drops the delegate and changes nothing else, so the id stays and a second call leaves the same state |
| Handlers.Handler.Handle | Packages/ZBase.Foundation.PubSub/ZBase.Foundation.PubSub/Internals/Handlers.cs:25-33 | returns the task `HandleOutcome` gives for the current delegate, and appends exactly the call it describes to the trace |
| Handlers.DisposedNeverCalls | Packages/ZBase.Foundation.PubSub/ZBase.Foundation.PubSub/Internals/Handlers.cs:20-33 | after `Dispose`, `Handle` calls nothing and returns the completed task |
| Handlers.CancelledNeverCalls | Packages/ZBase.Foundation.PubSub/ZBase.Foundation.PubSub/Internals/Handlers.cs:25-30 | with cancellation already requested, `Handle` calls nothing and returns the completed task, whatever the shape |
| StatefulHandlers.StatefulHandleOutcome | Packages/ZBase.Foundation.PubSub/ZBase.Foundation.PubSub/Internals/StatefulHandlers.cs:27-35 | the delegate is called iff the call is not cancelled, the state is alive and the handler is not disposed; the live state is passed first, and the message and token when the shape takes them; with no call the task is the completed one; Action shapes always give the completed task, and a called `Func` shape gives the delegate's own task |
| StatefulHandlers.StatefulHandler.constructor | Packages/ZBase.Foundation.PubSub/ZBase.Foundation.PubSub/Internals/StatefulHandlers.cs:13-18 | holds the state weakly (alive) and the delegate; the id pairs the delegate's id with the state's hash code |
| StatefulHandlers.StatefulHandler.New | Packages/ZBase.Foundation.PubSub/ZBase.Foundation.PubSub/Internals/StatefulHandlers.cs:13-18 | a null state throws `ArgumentNullException("state")` before the delegate is looked at; then a null delegate throws `ArgumentNullException("handler")`; otherwise a new handler |
| StatefulHandlers.StatefulHandler.LoseState | Packages/ZBase.Foundation.PubSub/ZBase.Foundation.PubSub/Internals/StatefulHandlers.cs:29 | once the collector has reclaimed the state, `TryGetTarget` fails for good |
| StatefulHandlers.StatefulHandler.Dispose | Packages/ZBase.Foundation.PubSub/ZBase.Foundation.PubSub/Internals/StatefulHandlers.cs:22-25 | drops the delegate and changes nothing else |
| StatefulHandlers.StatefulHandler.Handle | Packages/ZBase.Foundation.PubSub/ZBase.Foundation.PubSub/Internals/StatefulHandlers.cs:27-35 | returns the task `StatefulHandleOutcome` gives and appends exactly the call it describes to the trace |
| StatefulHandlers.StatefulAgreesWithStateless | Packages/ZBase.Foundation.PubSub/ZBase.Foundation.PubSub/Internals/StatefulHandlers.cs:27-35 | a dead state silences the handler; with a live state it calls exactly when the stateless handler with the same delegate would, with the same arguments plus the state, and returns the matching task: the delegate's own task for a `Func` call, the completed task otherwise |
| GlobalScopes.Equals | Packages/ZBase.Foundation.PubSub/ZBase.Foundation.PubSub/Common/GlobalScope.cs:9-10 | any two global scopes are equal |
| GlobalScopes.EqualsObject | Packages/ZBase.Foundation.PubSub/ZBase.Foundation.PubSub/Common/GlobalScope.cs:13-14 | true exactly when the object is a `GlobalScope` |
| GlobalScopes.Eq | Packages/ZBase.Foundation.PubSub/ZBase.Foundation.PubSub/Common/GlobalScope.cs:25-26 | `==` agrees with `Equals` |
| GlobalScopes.Neq | Packages/ZBase.Foundation.PubSub/ZBase.Foundation.PubSub/Common/GlobalScope.cs:29-30 | `!=` is always false |
| GlobalScopes.Hash | Packages/ZBase.Foundation.PubSub/ZBase.Foundation.PubSub/Common/GlobalScope.cs:17-18 | the hash code is the constant 0 |
| GlobalScopes.ToString | Packages/ZBase.Foundation.PubSub/ZBase.Foundation.PubSub/Common/GlobalScope.cs:21-22 | always "GlobalScope" |
| GlobalScopes.HashAgreesWithEquals | Packages/ZBase.Foundation.PubSub/ZBase.Foundation.PubSub/Common/GlobalScope.cs:9-30 | every pair of global scopes is equal under `Equals`, `==` and boxed `Equals`, not unequal under `!=`, and hashes alike |
| SampleScopes.IdEquals | Assets/Samples/Scripts/Scopes.cs:14-15 | two `IdScope`s are equal iff their ids are |
| SampleScopes.IdEqualsObject | Assets/Samples/Scripts/Scopes.cs:11-12 | true iff the object is a boxed `IdScope` with the same id; agrees with the typed `Equals` |
| SampleScopes.NameEquals | Assets/Samples/Scripts/Scopes.cs:30-31 | two `NameScope`s are equal iff their names are equal strings (two nulls are equal) |
| SampleScopes.NameEqualsObject | Assets/Samples/Scripts/Scopes.cs:27-28 | true iff the object is a boxed `NameScope` with the same name; agrees with the typed `Equals` |
| SampleScopes.NameHash | Assets/Samples/Scripts/Scopes.cs:33-34 | a null name throws `NullReferenceException`; otherwise the string's hash |
| SampleScopes.UnityObjectScopeOf | Assets/Samples/Scripts/Scopes.cs:41-44 | a null or destroyed object gives instance id 0; a live one gives its own instance id |
| SampleScopes.UnityEquals | Assets/Samples/Scripts/Scopes.cs:49-50 | two `UnityObjectScope`s are equal iff their instance ids are |
| SampleScopes.UnityEqualsObject | Assets/Samples/Scripts/Scopes.cs:46-47 | true iff the object is a boxed `UnityObjectScope` with the same instance id; agrees with the typed `Equals` |
| SampleScopes.EqualScopesHashAlike | Assets/Samples/Scripts/Scopes.cs:17-53 | equal scopes of each kind hash alike; for `NameScope` both hash calls throw, or both give the same value |
| SampleScopes.DeadObjectsShareOneScope | Assets/Samples/Scripts/Scopes.cs:43 | all scopes made from null or destroyed objects are equal |
| SampleScopes.ForeignObjectsAreNeverEqual | Assets/Samples/Scripts/Scopes.cs:11-47 | `Equals(object)` is false for null and for objects of another type |
| Brokers.Resolve | Packages/ZBase.Foundation.PubSub/ZBase.Foundation.PubSub/Publishers/MessagePublisher+Publisher.cs:124 | `logger ?? DefaultLogger.Default`: the caller's logger when given, the default one otherwise |
| Brokers.Acquire | Packages/ZBase.Foundation.PubSub/ZBase.Foundation.PubSub/Subscribers/MessageSubscriber+Subscriber.cs:303-315 | a registered broker is reused and nothing changes; otherwise exactly one broker is created; if the container accepts it, it is registered for the pair; if not, it is disposed and nothing is registered; no other pair's entry changes |
| Brokers.AcquireKeepsKeys | Packages/ZBase.Foundation.PubSub/ZBase.Foundation.PubSub/Subscribers/MessageSubscriber+Subscriber.cs:305-315 | get-or-create keeps the registry well keyed: every registered broker was created, and no broker is registered under two pairs |
| Brokers.AcquireTwiceYieldsOneBroker | Packages/ZBase.Foundation.PubSub/ZBase.Foundation.PubSub/Subscribers/MessageSubscriber+Subscriber.cs:305-315 | once a broker has been obtained for a pair, a second get-or-create yields the same broker and changes nothing, so there is one broker per pair |
| Brokers.BrokerContainer.TryGet | Packages/ZBase.Foundation.PubSub/ZBase.Foundation.PubSub/Publishers/MessagePublisher+Publisher.cs:122 | finds a broker iff one is registered for the pair, and that broker |
| Brokers.BrokerContainer.GetOrAdd | Packages/ZBase.Foundation.PubSub/ZBase.Foundation.PubSub/Subscribers/MessageSubscriber+Subscriber.cs:303-315 | the container's new registry, broker count and journal are those `Acquire` gives; the registry stays well keyed |
| Brokers.Validate | Packages/ZBase.Foundation.PubSub/ZBase.Foundation.PubSub/Subscribers/MessageSubscriber+Subscriber.cs:323-335 | a valid facade logs nothing; an invalid one logs exactly one error naming the factory API |
| Subscribers.Subscriber.IsValid | Packages/ZBase.Foundation.PubSub/ZBase.Foundation.PubSub/Subscribers/MessageSubscriber+Subscriber.cs:22 | true iff the facade holds its `MessageSubscriber`, that is, it has a container to subscribe through |
| Subscribers.TrySubscribe | Packages/ZBase.Foundation.PubSub/ZBase.Foundation.PubSub/Subscribers/MessageSubscriber+Subscriber.cs:285-320 | an invalid facade logs one error in validation builds, throws `NullReferenceException` otherwise, and subscribes nothing. A valid one gets or creates the pair's broker. If registration is refused it returns false and `Subscription.None`. Otherwise it subscribes the handler with the facade's scope, the order and the shared pool and returns true, together with the broker's answer: a subscription naming that call when the broker added the handler, `Subscription.None` when it did not (a duplicate `HandlerId`) |
| Subscribers.Subscribe | Packages/ZBase.Foundation.PubSub/ZBase.Foundation.PubSub/Subscribers/MessageSubscriber+Subscriber.cs:52-151 | a null delegate throws `ArgumentNullException("handler")` with no log and no change to the container; otherwise a new handler of the overload's shape wrapping the delegate goes through `TrySubscribe`, and its subscription, or `Subscription.None`, is returned |
| Subscribers.RegisterUnsubscription | Packages/ZBase.Foundation.PubSub/ZBase.Foundation.PubSub/Subscribers/MessageSubscriber+Subscriber.cs:274-283 | ties disposal of exactly that subscription to that token |
| Subscribers.SubscribeUntil | Packages/ZBase.Foundation.PubSub/ZBase.Foundation.PubSub/Subscribers/MessageSubscriber+Subscriber.cs:153-271 | as `Subscribe`; the auto-dispose registration on the token is made iff `TrySubscribe` returned true, for the subscription it returned, `Subscription.None` included |
| Subscribers.Compress | Packages/ZBase.Foundation.PubSub/ZBase.Foundation.PubSub/Subscribers/MessageSubscriber+Subscriber.cs:34-50 | never creates or registers a broker; it forwards `Compress(Scope)` to the pair's broker iff one exists; an invalid facade logs (validation builds) or throws (other builds) |
| Subscribers.SubscribedBrokerIsRegistered | Packages/ZBase.Foundation.PubSub/ZBase.Foundation.PubSub/Subscribers/MessageSubscriber+Subscriber.cs:303-318 | false always comes with `Subscription.None`; a real subscription comes back exactly when `TrySubscribe` returned true and the broker added the handler. After a true result, a broker is registered for the pair and the last journal entry subscribes the handler to it; a real subscription names that broker and that entry. The registry stays well keyed |
| Subscribers.RefusedSubscriptionChangesNoRegistry | Packages/ZBase.Foundation.PubSub/ZBase.Foundation.PubSub/Subscribers/MessageSubscriber+Subscriber.cs:305-314 | a refused registration returns false and `Subscription.None`, leaves the registry as it was, and only creates and disposes the short-lived broker |
| Publishers.Publisher.IsValid | Packages/ZBase.Foundation.PubSub/ZBase.Foundation.PubSub/Publishers/MessagePublisher+Publisher.cs:21 | true iff the facade holds its `MessagePublisher`, that is, it has a container to publish through |
| Publishers.Publisher.Broker | Packages/ZBase.Foundation.PubSub/ZBase.Foundation.PubSub/Publishers/MessagePublisher+Publisher.cs:179 | the broker registered for the pair, if any, found without adding one |
| Publishers.Publish | Packages/ZBase.Foundation.PubSub/ZBase.Foundation.PubSub/Publishers/MessagePublisher+Publisher.cs:94-132 | validation builds check validity, then the scope, then the message. Each failure logs exactly one entry (the factory-API error, a `NullReferenceException("Scope")`, an `ArgumentNullException("message")`) and nothing is dispatched. Otherwise the message goes exactly once to the registered broker with the facade's scope and the resolved logger; with no broker, one "found no subscription" warning is logged. Without validation nothing is logged and an invalid facade throws |
| Publishers.PublishAsync | Packages/ZBase.Foundation.PubSub/ZBase.Foundation.PubSub/Publishers/MessagePublisher+Publisher.cs:151-192 | has exactly the logs, dispatch and exception of `Publish` with the same arguments; the task is the broker's task for that dispatch when the broker was called, and the completed task otherwise |
| Publishers.PublishNew | Packages/ZBase.Foundation.PubSub/ZBase.Foundation.PubSub/Publishers/MessagePublisher+Publisher.cs:78-89 | is `Publish` with a default-constructed message, so the null-message error can never be logged, any dispatch carries that message, and it dispatches iff the facade is valid, has a scope (validation builds) and finds a broker |
| Publishers.PublishNewAsync | Packages/ZBase.Foundation.PubSub/ZBase.Foundation.PubSub/Publishers/MessagePublisher+Publisher.cs:135-146 | is `PublishAsync` with a default-constructed message: its effects are those of the message-less `Publish`, and the task it returns, if a broker's, carries that message |
| Publishers.Cache | Packages/ZBase.Foundation.PubSub/ZBase.Foundation.PubSub/Publishers/MessagePublisher+Publisher.cs:31-75 | checks validity then scope, as `Publish` does; otherwise gets or creates the pair's broker and pins it for the facade's scope and the shared pool; if registration fails, it logs one error (validation builds), disposes the new broker and returns a default `CachedPublisher` |
| Publishers.PublishDependsOnlyOnRegistry | Packages/ZBase.Foundation.PubSub/ZBase.Foundation.PubSub/Publishers/MessagePublisher+Publisher.cs:122 | a publication depends on the container only through its registry |
| Publishers.SubscriptionIsReachedByPublish | Packages/ZBase.Foundation.PubSub/ZBase.Foundation.PubSub/Publishers/MessagePublisher+Publisher.cs:179-182 | once a subscriber's `TrySubscribe` returned true, a publisher that shares its container and scope type and passes the checks dispatches exactly to the broker `TrySubscribe` acquired, and logs nothing, whether or not the broker added the handler |
| Publishers.PublishLogsAtMostOnce | Packages/ZBase.Foundation.PubSub/ZBase.Foundation.PubSub/Publishers/MessagePublisher+Publisher.cs:103-131 | a publication logs at most one entry, and none when it dispatched |

## Left out

- The broker engine is not part of this model: `MessageBroker<TScope, TMessage>`, with its order groups, dispatch order and pin counts, and also `Subscription<T>`, `CachedPublisher<T>` and `SingletonContainer`. A broker is an identity, and each call on it is one journal entry. The container's `TryAdd` verdict is the `accepted` parameter.
- Locks (`lock (_syncRoot)`, `lock (brokers)`): each call is modelled as one atomic step.
- `UniTask` and asynchrony: a task is either the completed one or the delegate's or broker's own task, identified by the call that produced it; awaiting and `Forget` are not modelled.
- Integer widths are unbounded: `IntPtr` method handles and `int` hashes and ids.
- ArrayPool.Grow: doubles a full bucket without limit. In C#, `Rent`'s `bucket.Length * 2` (`Internals/CappedArrayPool.cs:53`) wraps to a negative `int` once a bucket holds 2^30 slots, so `Array.Resize` throws and `Rent` fails after about 2^30 unmatched rents in one bucket. The model does not capture that failure.
- ArrayPool.CappedArrayPool.Rent: for the same reason, the model never fails where the C# `Rent` throws on a bucket of 2^30 slots. This matters in practice: builds that define `__ZBASE_FOUNDATION_PUBSUB_NO_VALIDATION__` never return a broker's task array, because the `Return` is inside the validation-only `finally` (`Internals/MessageBroker{TMessage}.cs:85-106`). In those builds every dispatch is an unmatched rent, and the bucket keeps growing.
- ArrayPool.CappedArrayPool.constructor: a negative `maxLength`, which throws in C#, is excluded by the type `nat`.
- ArrayPool.CappedArrayPool.Return: a null array, which throws `NullReferenceException` in C#, is excluded by the type `array<T>`.
- `EmptyArray` and `Shared8Limit` are static in C#. Here the empty array is one per pool, and the shared 8-bucket instance is just `new CappedArrayPool(8)`.
- The `_syncRoot` object exists only to lock on.
- Handlers.Call: an exception thrown by the user's delegate is not modelled; in C# it propagates out of `Handle` (`Internals/Handlers.cs:32`, 61, 90, 119, 148, 178), while here every call returns normally.
- Handlers.HandleOutcome: likewise, a delegate that throws is not modelled; the outcome always ends in a task.
- StatefulHandlers.StatefulHandleOutcome: likewise, a delegate that throws out of `Handle` (`Internals/StatefulHandlers.cs:34`, 65, 96, 127, 158, 190) is not modelled.
- `HandlerId.ToString`, a debugging aid whose text is not relied on by the library.
- `IdScope.GetHashCode` and `UnityObjectScope.GetHashCode` have no contract of their own. Each is the id itself, and `EqualScopesHashAlike` states what they promise.
- What a subscription's `Dispose` does when the token is cancelled is not followed beyond its registration, as `Subscription<T>` is not part of this model.
- The stateful, Unity, anonymous and global facade variants are left out because they only forward to `Subscriber<TScope>` or `Publisher<TScope>` with a fixed scope or message type. That covers `MessageSubscriber+Subscriber{TScope,TState}.cs`, the `UnitySubscriber`/`UnityPublisher` files, the `Anon*` files and `MessagePublisherGlobal.cs`.
- `Subscribers/MessageSubscriber.cs` and `Publishers/MessagePublisher.cs` are an older revision of the same facade structs that conflicts with the one modelled, and are left out.
- Logged texts are modelled by what they say (`MustBeRetrievedVia`, `FoundNoSubscription`, `RegistrationFailed`), not by their exact formatting with type names.
- In `Subscribe` and `SubscribeUntil`, the ghost outputs `wrapped`, `ok` and `subscription` name the handler created, whether the subscription was made and which subscription it was. The C# void overloads do not return them.
