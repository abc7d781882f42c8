/** Values shared by every part of the model: optional values (C# null),
    results of operations that may throw, the exceptions the library raises,
    and the cancellation token as the library observes it. */
module Common {

  /** A C# reference that may be null: `None` is null. */
  datatype Option<+T> = None | Some(value: T)

  /** The outcome of an operation that either returns a value or throws. */
  datatype Result<+T, +E> = Success(value: T) | Failure(error: E)

  /** The exceptions raised or logged by the library; the string is the
      name handed to the exception's constructor (`nameof(...)`). */
  datatype Exception =
    | ArgumentNull(paramName: string)
    | NullReference(name: string)

  /** A `CancellationToken`: which source it belongs to, and whether
      cancellation had been requested when the library looked at it. */
  datatype CancelToken = CancelToken(source: nat, requested: bool)
}
