/**
 * The slice of JavaScript's value domain that the license table uses: the
 * primitive values an object property can hold, property lookup that yields
 * `undefined` for a missing key, and the nullish-coalescing operator `??`.
 */
module JsValues {

  /** A present value (`Some`) or JavaScript's `undefined` (`None`). */
  datatype Option<+T> = None | Some(value: T)

  /**
   * A primitive property value. JavaScript numbers are modelled as integers:
   * every number the table and its callers use is a whole number.
   */
  datatype Value = Bool(b: bool) | Num(n: int) | Str(s: string)

  /** `obj[key]` on a plain object: the own property's value, or `undefined` when it is missing. */
  function Lookup(obj: map<string, Value>, key: string): (r: Option<Value>)
    ensures r.Some? <==> key in obj
    ensures r.Some? ==> r.value == obj[key]
  {
    if key in obj then Some(obj[key]) else None
  }

  /**
   * `left ?? fallback`: the fallback replaces only `undefined` (the table holds
   * no `null`); every present value, including `0`, `false` and `""`, is kept.
   */
  function Coalesce(left: Option<Value>, fallback: Value): (r: Value)
    ensures left.Some? ==> r == left.value
    ensures left.None? ==> r == fallback
  {
    match left
    case Some(v) => v
    case None => fallback
  }

  /** `??` keeps falsy present values, unlike `||`. */
  lemma CoalesceKeepsFalsyValues(fallback: Value)
    ensures Coalesce(Some(Num(0)), fallback) == Num(0)
    ensures Coalesce(Some(Bool(false)), fallback) == Bool(false)
    ensures Coalesce(Some(Str("")), fallback) == Str("")
  {
  }
}
