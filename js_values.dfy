/**
 * The JavaScript values the callback handler inspects: what `JSON.parse`
 * yields, what `URLSearchParams.get` yields, and `undefined`. Truthiness and
 * property access follow JavaScript.
 */
module JsValues {
  import opened Wrappers

  datatype Val =
    | Undefined
    | Null
    | Bool(b: bool)
    | Num(n: real)
    | Str(s: string)
    | Arr(items: seq<Val>)
    | Obj(fields: map<string, Val>)

  /** JavaScript truthiness: `undefined`, `null`, `false`, `0` and `""` are falsy. */
  predicate Truthy(v: Val) {
    match v
    case Undefined => false
    case Null => false
    case Bool(b) => b
    case Num(n) => n != 0.0
    case Str(s) => s != ""
    case Arr(_) => true
    case Obj(_) => true
  }

  /** Truthiness of a value that is a string or `null` (query parameters, configuration). */
  predicate Present(o: Option<string>) {
    o.Some? && o.value != ""
  }

  /** `v.name` throws a TypeError exactly when `v` is `null` or `undefined`. */
  predicate Coercible(v: Val) {
    !v.Undefined? && !v.Null?
  }

  /**
   * `v.name` for a value that does not throw. Only own fields of objects are
   * read: the names the core looks up are not properties of any prototype.
   */
  function Field(v: Val, name: string): (r: Val)
    requires Coercible(v)
    ensures !v.Obj? ==> r == Undefined
    ensures v.Obj? && name !in v.fields ==> r == Undefined
  {
    match v
    case Obj(m) => if name in m then m[name] else Undefined
    case _ => Undefined
  }

  /** `v.name`, with `None` standing for the TypeError it throws on `null` and `undefined`. */
  function Prop(v: Val, name: string): (r: Option<Val>)
    ensures r.None? <==> !Coercible(v)
  {
    if Coercible(v) then Some(Field(v, name)) else None
  }

  /** `a || b`. */
  function Or(a: Val, b: Val): (r: Val)
    ensures Truthy(a) ==> r == a
    ensures !Truthy(a) ==> r == b
    ensures Truthy(r) <==> Truthy(a) || Truthy(b)
  {
    if Truthy(a) then a else b
  }

  /** A string-or-null result of `URLSearchParams.get` as a JavaScript value. */
  function FromOptional(o: Option<string>): (r: Val)
    ensures r == Null || r.Str?
    ensures Truthy(r) <==> Present(o)
  {
    match o
    case None => Null
    case Some(s) => Str(s)
  }
}
