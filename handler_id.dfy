/** `HandlerId`: the identity of a registered callback, used by the brokers
    to reject a duplicate registration and to find a handler again when its
    subscription is disposed. */
module HandlerIds {
  import opened Common

  /** A non-null delegate as the runtime identifies it: the value of its
      method handle and the hash code the runtime gives the delegate object.
      Both are foreign to the library and stay opaque integers here. */
  datatype Delegate = Delegate(methodHandle: int, hashCode: int)

  /** The two fields of the readonly struct: `_method` and `_delegate`. */
  datatype HandlerId = HandlerId(methodPtr: int, delegateHash: int)

  /** `HandlerId.Null`, the default value of the struct. */
  const Null: HandlerId := HandlerId(0, 0)

  /** The constructor `HandlerId(Delegate)`: a null delegate gives both
      fields zero, otherwise the fields are copied from the delegate. */
  function FromDelegate(d: Option<Delegate>): (id: HandlerId)
    ensures d.None? ==> id == Null
    ensures d.Some? ==> id.methodPtr == d.value.methodHandle && id.delegateHash == d.value.hashCode
  {
    match d
    case None => HandlerId(0, 0)
    case Some(dl) => HandlerId(dl.methodHandle, dl.hashCode)
  }

  /** The typed `Equals(HandlerId)`: field-wise comparison. */
  function Equals(a: HandlerId, b: HandlerId): (r: bool)
    ensures r <==> a == b
  {
    a.delegateHash == b.delegateHash && a.methodPtr == b.methodPtr
  }

  /** What `Equals(object)` can be handed: null, a boxed `HandlerId`, or an
      object of some other type. */
  datatype Object = NullObject | Boxed(id: HandlerId) | OtherObject(typeName: string)

  /** `Equals(object)`: a type test followed by the field-wise comparison. */
  function EqualsObject(a: HandlerId, obj: Object): (r: bool)
    ensures r <==> obj == Boxed(a)
    ensures obj.Boxed? ==> r == Equals(a, obj.id)
  {
    obj.Boxed? && a.delegateHash == obj.id.delegateHash && a.methodPtr == obj.id.methodPtr
  }

  /** `operator ==`. */
  function Eq(a: HandlerId, b: HandlerId): (r: bool)
    ensures r <==> Equals(a, b)
  {
    a.delegateHash == b.delegateHash && a.methodPtr == b.methodPtr
  }

  /** `operator !=`, written out field by field as the source does. */
  function Neq(a: HandlerId, b: HandlerId): (r: bool)
    ensures r <==> !Eq(a, b)
  {
    a.delegateHash != b.delegateHash || a.methodPtr != b.methodPtr
  }

  /** `GetHashCode`: `HashCode.Combine(_delegate, _method)`; the runtime's
      combining function is passed in, since it is not part of the library. */
  function Hash(a: HandlerId, combine: (int, int) -> int): (h: int)
    ensures h == combine(a.delegateHash, a.methodPtr)
  {
    combine(a.delegateHash, a.methodPtr)
  }

  /** Equal ids hash alike, whatever the combining function. */
  lemma EqualIdsHashAlike(a: HandlerId, b: HandlerId, combine: (int, int) -> int)
    requires Equals(a, b)
    ensures Hash(a, combine) == Hash(b, combine)
  {
  }

  /** `Equals` is an equivalence relation. */
  lemma EqualsIsEquivalence(a: HandlerId, b: HandlerId, c: HandlerId)
    ensures Equals(a, a)
    ensures Equals(a, b) <==> Equals(b, a)
    ensures Equals(a, b) && Equals(b, c) ==> Equals(a, c)
  {
  }

  /** A null delegate and `HandlerId.Null` are the same id, so a registry keyed
      by id cannot tell them apart. */
  lemma NullDelegateIsNullId()
    ensures Equals(FromDelegate(None), Null)
  {
  }
}
