/** `GlobalScope`: the field-less scope every global subscription and
    publication shares. All its values are one and the same scope. */
module GlobalScopes {

  datatype GlobalScope = GlobalScope

  /** What `Equals(object)` can be handed: null, a boxed `GlobalScope`, or an
      object of another type. */
  datatype Object = NullObject | BoxedGlobal(scope: GlobalScope) | OtherObject(typeName: string)

  /** The typed `Equals(GlobalScope)`. */
  function Equals(a: GlobalScope, b: GlobalScope): (r: bool)
    ensures r
  {
    true
  }

  /** `Equals(object)`: a pure type test. */
  function EqualsObject(a: GlobalScope, obj: Object): (r: bool)
    ensures r <==> obj.BoxedGlobal?
  {
    obj.BoxedGlobal?
  }

  /** `operator ==`. */
  function Eq(a: GlobalScope, b: GlobalScope): (r: bool)
    ensures r == Equals(a, b)
  {
    true
  }

  /** `operator !=`. */
  function Neq(a: GlobalScope, b: GlobalScope): (r: bool)
    ensures !r
  {
    false
  }

  /** `GetHashCode`: the hash of `default(int)`, which is 0. */
  function Hash(a: GlobalScope): (h: int)
    ensures h == 0
  {
    0
  }

  /** `ToString`: the name of the type. */
  function ToString(a: GlobalScope): (s: string)
    ensures s == "GlobalScope"
  {
    "GlobalScope"
  }

  /** Equality and hashing agree: equal scopes (and so any two) hash alike. */
  lemma HashAgreesWithEquals(a: GlobalScope, b: GlobalScope)
    ensures Equals(a, b) && Eq(a, b) && !Neq(a, b) && Hash(a) == Hash(b)
    ensures EqualsObject(a, BoxedGlobal(b))
  {
  }
}
