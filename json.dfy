/**
 * Parsed JSON values, as the HTTP responses of the knowledge-base service and of the
 * news service arrive after `response.json()`, together with the few Python operations
 * on them that the pipeline uses: `d.get(k, default)`, `d[k]` and iteration.
 */
module Json {
  import opened Wrappers

  /** A decoded JSON value. Numbers are integers here: no part of the model inspects them. */
  datatype Value =
    | Null
    | Bool(b: bool)
    | Num(n: int)
    | Str(s: string)
    | Arr(items: seq<Value>)
    | Obj(fields: map<string, Value>)

  /** The object with no members, `{}`. */
  const EmptyObject: Value := Obj(map[])

  /**
   * `for x in v` in Python. A list yields its items and an empty string or dict yields
   * nothing. Iterating a non-empty string or dict yields strings, which every consumer in
   * this model then fails to index; null, numbers and booleans are not iterable at all.
   * Both of those end in an exception, so both are reported as `None`.
   */
  function Elements(v: Value): (r: Option<seq<Value>>)
    ensures v.Arr? ==> r == Some(v.items)
    ensures r.Some? && r.value != [] ==> v.Arr?
    ensures (v.Null? || v.Bool? || v.Num?) ==> r.None?
  {
    match v
    case Arr(items) => Some(items)
    case Str(s) => if s == "" then Some([]) else None
    case Obj(m) => if m == map[] then Some([]) else None
    case _ => None
  }
}
