/** The six stateless handler classes (`HandlerMessage`, `HandlerFuncCancelToken`,
    `HandlerFuncMessage`, `HandlerFunc`, `HandlerActionMessage`, `HandlerAction`).
    They differ only in the shape of the delegate they wrap, so one class with
    a `shape` constant stands for all six. A delegate is an opaque value; a call
    of it is recorded, and the task it returns is known only by that call. */
module Handlers {
  import opened Common
  import opened HandlerIds

  /** The delegate shapes, one per C# class. */
  datatype Shape =
    | MessageAndToken   // MessageHandler<TMessage>: (message, token) -> UniTask
    | TokenOnly         // Func<CancellationToken, UniTask>
    | MessageOnly       // Func<TMessage, UniTask>
    | NoArguments       // Func<UniTask>
    | ActionMessage     // Action<TMessage>
    | ActionOnly        // Action
  {
    /** The delegate is a `Func`/`MessageHandler` whose task is handed back. */
    predicate ReturnsTask() {
      !ActionMessage? && !ActionOnly?
    }

    predicate TakesMessage() {
      MessageAndToken? || MessageOnly? || ActionMessage?
    }

    predicate TakesToken() {
      MessageAndToken? || TokenOnly?
    }
  }

  /** The weakly-held state object of a stateful handler: its identity and
      the hash code the runtime gives it. */
  datatype StateRef = StateRef(identity: nat, hashCode: int)

  /** One call of a delegate, with the arguments it received (absent where
      the delegate's shape has no such parameter). */
  datatype Invocation<M> = Invocation(
    target: Delegate,
    state: Option<StateRef>,
    message: Option<M>,
    token: Option<CancelToken>)

  /** A `UniTask`: the already-completed one, or the task a delegate returned. */
  datatype Task<M> = Completed | DelegateTask(call: Invocation<M>)

  /** What `Handle` does: the task it returns and the call it makes, if any. */
  datatype Handled<M> = Handled(task: Task<M>, call: Option<Invocation<M>>)

  /** The call of a delegate of the given shape once every guard has passed:
      the arguments its shape takes are passed unchanged, an `Action` runs
      synchronously and yields the completed task, a `Func` yields its own task. */
  function Call<M>(shape: Shape, target: Delegate, state: Option<StateRef>, message: M, token: CancelToken): (h: Handled<M>)
    ensures h.call.Some? && h.call.value.target == target && h.call.value.state == state
    ensures h.call.value.message == (if shape.TakesMessage() then Some(message) else None)
    ensures h.call.value.token == (if shape.TakesToken() then Some(token) else None)
    ensures h.task == (if shape.ReturnsTask() then DelegateTask(h.call.value) else Completed)
  {
    var call := Invocation(
      target, state,
      if shape.TakesMessage() then Some(message) else None,
      if shape.TakesToken() then Some(token) else None);
    Handled(if shape.ReturnsTask() then DelegateTask(call) else Completed, Some(call))
  }

  /** The no-op answer: the completed task and no call. */
  function Skipped<M>(): Handled<M> {
    Handled(Completed, None)
  }

  /** `Handle` of a stateless handler whose `_handler` field holds `handler`
      (None once disposed): a token already cancelled, or a disposed handler,
      gives the completed task without calling anything. */
  function HandleOutcome<M>(shape: Shape, handler: Option<Delegate>, message: M, token: CancelToken): (h: Handled<M>)
    ensures h.call.Some? <==> !token.requested && handler.Some?
    ensures h.call.None? ==> h.task == Completed
    ensures h.call.Some? ==> h.call.value.target == handler.value && h.call.value.state == None
    ensures h.call.Some? && shape.TakesMessage() ==> h.call.value.message == Some(message)
    ensures h.call.Some? && shape.TakesToken() ==> h.call.value.token == Some(token)
    ensures !shape.ReturnsTask() ==> h.task == Completed
    ensures shape.ReturnsTask() && h.call.Some? ==> h.task == DelegateTask(h.call.value)
  {
    if token.requested then Skipped()
    else match handler
      case None => Skipped()
      case Some(d) => Call(shape, d, None, message, token)
  }

  /** One registered stateless callback. */
  class Handler<M> {
    const shape: Shape
    /** `_id`, fixed at construction. */
    const id: HandlerId
    /** `_handler`; None once disposed. */
    var target: Option<Delegate>
    /** Every call of the delegate made by `Handle`, oldest first. */
    ghost var calls: seq<Invocation<M>>

    constructor (shape: Shape, target: Delegate)
      ensures this.shape == shape && this.target == Some(target)
      ensures id == FromDelegate(Some(target))
      ensures calls == []
    {
      this.shape := shape;
      this.target := Some(target);
      this.id := FromDelegate(Some(target));
      this.calls := [];
    }

    /** The six constructors as called with a possibly null delegate: null is
        rejected with `ArgumentNullException("handler")`. */
    static method New(shape: Shape, handler: Option<Delegate>) returns (r: Result<Handler<M>, Exception>)
      ensures handler.None? <==> r.Failure?
      ensures r.Failure? ==> r.error == ArgumentNull("handler")
      ensures r.Success? ==> fresh(r.value) && r.value.shape == shape && r.value.target == handler
                             && r.value.id == FromDelegate(handler) && r.value.calls == []
    {
      match handler {
        case None =>
          r := Failure(ArgumentNull("handler"));
        case Some(d) =>
          var h := new Handler(shape, d);
          r := Success(h);
      }
    }

    /** `Dispose`: drops the delegate; the id stays. Whatever the old state,
        the new one is the same, so a second call changes nothing. */
    method Dispose()
      modifies this`target
      ensures target == None
    {
      target := None;
    }

    /** `Handle(message, cancelToken)`. */
    method Handle(message: M, token: CancelToken) returns (t: Task<M>)
      modifies this`calls
      ensures var h := HandleOutcome(shape, target, message, token);
              t == h.task && calls == old(calls) + (if h.call.Some? then [h.call.value] else [])
    {
      if token.requested {
        return Completed;
      }
      match target {
        case None =>
          t := Completed;
        case Some(d) =>
          var h := Call(shape, d, None, message, token);
          calls := calls + [h.call.value];
          t := h.task;
      }
    }
  }

  /** Once disposed, a handler never calls its delegate again, and `Handle`
      answers with the completed task. */
  lemma DisposedNeverCalls<M>(shape: Shape, message: M, token: CancelToken)
    ensures HandleOutcome(shape, None, message, token) == Skipped()
  {
  }

  /** With cancellation already requested nothing is called, whatever the
      shape and whether or not the handler was disposed. */
  lemma CancelledNeverCalls<M>(shape: Shape, handler: Option<Delegate>, message: M, token: CancelToken)
    requires token.requested
    ensures HandleOutcome(shape, handler, message, token) == Skipped()
  {
  }
}
