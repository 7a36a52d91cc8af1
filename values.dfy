/**
 * Dynamically typed argument values of the solver's factory calls, and the
 * two-state memo used by every entity, constraint and parameter.
 */
module Values {

  import opened Wrappers

  /**
   * A Python value as the factory sees it: a number (ints, floats and booleans
   * compare numerically in Python, so one real covers all three) or a reference
   * to an object (an entity, a constraint or a parameter), compared by identity.
   */
  datatype Value = Num(r: real) | Ref(obj: object)

  /** Python truthiness: a number is false exactly when it is zero; objects are true. */
  predicate Truthy(v: Value)
  {
    match v
    case Num(r) => r != 0.0
    case Ref(_) => true
  }

  /** `sp.Float(v)`: numbers convert, an object does not. */
  function ToReal(v: Value): (r: Option<real>)
    ensures r.Some? <==> v.Num?
    ensures r.Some? ==> r.value == v.r
  {
    if v.Num? then Some(v.r) else None
  }

  /** The memoised symbolic object `_symobj`: cleared by `reset`, filled on first use. */
  datatype Cache<T> = Unset | Computed(value: T)

  /**
   * One access to a memoised symbolic object: the first access stores what the
   * computation produced, later ones return what is stored.
   */
  function Access<T>(c: Cache<T>, computed: T): (r: (Cache<T>, T))
    ensures r.0 == Computed(r.1)
    ensures c.Computed? ==> r.1 == c.value && r.0 == c
    ensures c.Unset? ==> r.1 == computed
  {
    match c
    case Unset => (Computed(computed), computed)
    case Computed(v) => (c, v)
  }

  /** Once computed, every later access returns the same value, whatever it would compute. */
  lemma AccessIsStable<T>(c: Cache<T>, first: T, later: T)
    ensures Access(Access(c, first).0, later) == Access(c, first)
  {
  }
}
