/** The sample scope keys `IdScope`, `NameScope` and `UnityObjectScope`:
    readonly structs compared by their single field. */
module SampleScopes {
  import opened Common

  datatype IdScope = IdScope(id: int)

  /** `Name` is a C# string and may be null. */
  datatype NameScope = NameScope(name: Option<string>)

  datatype UnityObjectScope = UnityObjectScope(instanceId: int)

  /** What `Equals(object)` can be handed. */
  datatype Object =
    | NullObject
    | BoxedId(id: IdScope)
    | BoxedName(name: NameScope)
    | BoxedUnityObject(unity: UnityObjectScope)
    | OtherObject(typeName: string)

  /** A reference to a Unity object: its instance id and whether it has been
      destroyed. Unity's `obj == false` holds for null and for a destroyed object. */
  datatype UnityObject = UnityObject(instanceId: int, destroyed: bool)

  /** Unity's implicit conversion of an object reference to bool. */
  predicate IsAlive(obj: Option<UnityObject>) {
    obj.Some? && !obj.value.destroyed
  }

  // IdScope

  function IdEquals(a: IdScope, b: IdScope): (r: bool)
    ensures r <==> a == b
  {
    a.id == b.id
  }

  function IdEqualsObject(a: IdScope, obj: Object): (r: bool)
    ensures r <==> obj == BoxedId(a)
    ensures obj.BoxedId? ==> r == IdEquals(a, obj.id)
  {
    obj.BoxedId? && obj.id.id == a.id
  }

  /** `Id.GetHashCode()`: an `int` hashes to itself. */
  function IdHash(a: IdScope): int
  {
    a.id
  }

  // NameScope

  /** Compares with C#'s string `==`: by value, and two nulls are equal. */
  function NameEquals(a: NameScope, b: NameScope): (r: bool)
    ensures r <==> a == b
  {
    a.name == b.name
  }

  function NameEqualsObject(a: NameScope, obj: Object): (r: bool)
    ensures r <==> obj == BoxedName(a)
    ensures obj.BoxedName? ==> r == NameEquals(a, obj.name)
  {
    obj.BoxedName? && obj.name.name == a.name
  }

  /** `Name.GetHashCode()`, with the runtime's string hash passed in: a null
      name throws `NullReferenceException` instead of hashing. */
  function NameHash(a: NameScope, stringHash: string -> int): (r: Result<int, Exception>)
    ensures r.Failure? <==> a.name.None?
    ensures r.Success? ==> r.value == stringHash(a.name.value)
  {
    match a.name
    case None => Failure(NullReference("Name"))
    case Some(s) => Success(stringHash(s))
  }

  // UnityObjectScope

  /** The constructor `UnityObjectScope(UnityEngine.Object)`. */
  function UnityObjectScopeOf(obj: Option<UnityObject>): (s: UnityObjectScope)
    ensures !IsAlive(obj) ==> s.instanceId == 0
    ensures IsAlive(obj) ==> s.instanceId == obj.value.instanceId
  {
    if !IsAlive(obj) then UnityObjectScope(0) else UnityObjectScope(obj.value.instanceId)
  }

  function UnityEquals(a: UnityObjectScope, b: UnityObjectScope): (r: bool)
    ensures r <==> a == b
  {
    a.instanceId == b.instanceId
  }

  function UnityEqualsObject(a: UnityObjectScope, obj: Object): (r: bool)
    ensures r <==> obj == BoxedUnityObject(a)
    ensures obj.BoxedUnityObject? ==> r == UnityEquals(a, obj.unity)
  {
    obj.BoxedUnityObject? && obj.unity.instanceId == a.instanceId
  }

  function UnityHash(a: UnityObjectScope): int
  {
    a.instanceId
  }

  // Properties the brokers rely on

  /** Equal scopes hash alike; for `NameScope` only when the name is not null,
      since a null name cannot be hashed at all. */
  lemma EqualScopesHashAlike(a: IdScope, b: IdScope, m: NameScope, n: NameScope,
                             u: UnityObjectScope, v: UnityObjectScope, stringHash: string -> int)
    ensures IdEquals(a, b) ==> IdHash(a) == IdHash(b)
    ensures NameEquals(m, n) ==> NameHash(m, stringHash) == NameHash(n, stringHash)
    ensures UnityEquals(u, v) ==> UnityHash(u) == UnityHash(v)
  {
  }

  /** Every scope made from a null or destroyed object is the same scope. */
  lemma DeadObjectsShareOneScope(x: Option<UnityObject>, y: Option<UnityObject>)
    requires !IsAlive(x) && !IsAlive(y)
    ensures UnityEquals(UnityObjectScopeOf(x), UnityObjectScopeOf(y))
  {
  }

  /** `Equals(object)` is false for any object that is not of the scope's own
      type, including null. */
  lemma ForeignObjectsAreNeverEqual(a: IdScope, m: NameScope, u: UnityObjectScope, obj: Object)
    requires obj.NullObject? || obj.OtherObject?
    ensures !IdEqualsObject(a, obj) && !NameEqualsObject(m, obj) && !UnityEqualsObject(u, obj)
  {
  }
}
