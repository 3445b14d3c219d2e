/** Python's `None`-or-value, used wherever the Python code may see `None`. */
module Wrappers {

  datatype Option<+T> = None | Some(value: T)

  /** Python truthiness of an optional string: `None` and `""` are falsy. */
  predicate Truthy(s: Option<string>)
  {
    s.Some? && s.value != ""
  }

  /** `d.get(key)` on a dictionary of strings. */
  function Get(d: map<string, string>, key: string): (r: Option<string>)
    ensures r.Some? <==> key in d
    ensures key in d ==> r.value == d[key]
  {
    if key in d then Some(d[key]) else None
  }
}
