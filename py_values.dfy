/** The few pieces of Python value semantics the backend relies on:
    truthiness of an optional string, the `or` operator on such values,
    and `dict.get(key)` with its default of None. */
module PyValues {
  import opened Wrappers

  /** Python truthiness of `Optional[str]`: None and "" are falsy. */
  predicate Truthy(o: Option<string>) {
    o.Some? && o.value != ""
  }

  /** Python's `a or b`: the left operand when it is truthy, else the right one. */
  function Or(a: Option<string>, b: Option<string>): (r: Option<string>)
    ensures Truthy(r) <==> Truthy(a) || Truthy(b)
    ensures Truthy(a) ==> r == a
    ensures !Truthy(a) ==> r == b
  {
    if Truthy(a) then a else b
  }

  /** `d.get(key)`: the stored value, or None when the key is absent. */
  function Get(d: map<string, Option<string>>, key: string): (r: Option<string>)
    ensures key in d ==> r == d[key]
    ensures key !in d ==> r == None
  {
    if key in d then d[key] else None
  }
}
