/** The six stateful handler classes (`StatefulHandlerMessage` ... `StatefulHandlerAction`):
    the delegate additionally receives a caller-owned state object, which the
    handler holds only weakly. Whether the weak reference still resolves is
    the `stateAlive` flag; the collector clearing it is `LoseState`. */
module StatefulHandlers {
  import opened Common
  import opened HandlerIds
  import opened Handlers

  /** The id of a stateful handler: the id of its delegate together with the
      hash code of its state object. */
  datatype StatefulId = StatefulId(handler: HandlerId, stateHash: int)

  /** `Handle` of a stateful handler: the completed task and no call when
      cancellation was requested, when the weakly-held state is gone, or when
      the handler was disposed; otherwise the delegate gets the live state as
      its first argument. */
  function StatefulHandleOutcome<M>(
    shape: Shape, handler: Option<Delegate>, state: StateRef, stateAlive: bool,
    message: M, token: CancelToken): (h: Handled<M>)
    ensures h.call.Some? <==> !token.requested && stateAlive && handler.Some?
    ensures h.call.None? ==> h.task == Completed
    ensures h.call.Some? ==> h.call.value.target == handler.value && h.call.value.state == Some(state)
    ensures h.call.Some? && shape.TakesMessage() ==> h.call.value.message == Some(message)
    ensures h.call.Some? && shape.TakesToken() ==> h.call.value.token == Some(token)
    ensures !shape.ReturnsTask() ==> h.task == Completed
    ensures shape.ReturnsTask() && h.call.Some? ==> h.task == DelegateTask(h.call.value)
  {
    if token.requested || !stateAlive then Skipped()
    else match handler
      case None => Skipped()
      case Some(d) => Call(shape, d, Some(state), message, token)
  }

  /** One registered callback bound to a weakly-held state object. */
  class StatefulHandler<M> {
    const shape: Shape
    const id: StatefulId
    /** The object `_state` refers to. */
    const state: StateRef
    /** Whether `_state.TryGetTarget` still succeeds. */
    var stateAlive: bool
    /** `_handler`; None once disposed. */
    var target: Option<Delegate>
    ghost var calls: seq<Invocation<M>>

    constructor (shape: Shape, state: StateRef, target: Delegate)
      ensures this.shape == shape && this.state == state && stateAlive && this.target == Some(target)
      ensures id == StatefulId(FromDelegate(Some(target)), state.hashCode)
      ensures calls == []
    {
      this.shape := shape;
      this.state := state;
      this.stateAlive := true;
      this.target := Some(target);
      this.id := StatefulId(FromDelegate(Some(target)), state.hashCode);
      this.calls := [];
    }

    /** The six constructors as called with possibly null arguments: a null
        state is rejected first, then a null delegate. */
    static method New(shape: Shape, state: Option<StateRef>, handler: Option<Delegate>)
      returns (r: Result<StatefulHandler<M>, Exception>)
      ensures state.None? ==> r == Failure(ArgumentNull("state"))
      ensures state.Some? && handler.None? ==> r == Failure(ArgumentNull("handler"))
      ensures r.Success? <==> state.Some? && handler.Some?
      ensures r.Success? ==> fresh(r.value) && r.value.shape == shape && r.value.state == state.value
                             && r.value.stateAlive && r.value.target == handler && r.value.calls == []
                             && r.value.id == StatefulId(FromDelegate(handler), state.value.hashCode)
    {
      if state.None? {
        return Failure(ArgumentNull("state"));
      }
      if handler.None? {
        return Failure(ArgumentNull("handler"));
      }
      var h := new StatefulHandler(shape, state.value, handler.value);
      r := Success(h);
    }

    /** The garbage collector reclaims the state object: the weak reference
        stops resolving, for good. */
    method LoseState()
      modifies this`stateAlive
      ensures !stateAlive
    {
      stateAlive := false;
    }

    /** `Dispose`: drops the delegate; id and state stay. */
    method Dispose()
      modifies this`target
      ensures target == None
    {
      target := None;
    }

    /** `Handle(message, cancelToken)`. */
    method Handle(message: M, token: CancelToken) returns (t: Task<M>)
      modifies this`calls
      ensures var h := StatefulHandleOutcome(shape, target, state, stateAlive, message, token);
              t == h.task && calls == old(calls) + (if h.call.Some? then [h.call.value] else [])
    {
      if token.requested || !stateAlive {
        return Completed;
      }
      match target {
        case None =>
          t := Completed;
        case Some(d) =>
          var h := Call(shape, d, Some(state), message, token);
          calls := calls + [h.call.value];
          t := h.task;
      }
    }
  }

  /** A stateful handler behaves as the stateless one with the same delegate,
      except that a dead state silences it and a live one is passed first. */
  lemma StatefulAgreesWithStateless<M>(
    shape: Shape, handler: Option<Delegate>, state: StateRef, message: M, token: CancelToken)
    ensures StatefulHandleOutcome(shape, handler, state, false, message, token) == Skipped()
    ensures var s := StatefulHandleOutcome(shape, handler, state, true, message, token);
            var p := HandleOutcome(shape, handler, message, token);
            s.call.Some? == p.call.Some?
            && (s.call.Some? ==> s.call.value == p.call.value.(state := Some(state)))
            && s.task == if p.task.DelegateTask? then DelegateTask(p.task.call.(state := Some(state))) else Completed
  {
  }
}
