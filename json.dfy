/**
 * Values produced by `JSON.parse` (configuration files, `package.json`,
 * front-matter) and the two JavaScript rules the scripts apply to them:
 * truthiness, and property access, which throws on `undefined` and `null`.
 */
module Json {
  import opened Wrappers

  datatype Value =
    | Null
    | Bool(b: bool)
    | Num(n: real)
    | Str(s: string)
    | Arr(items: seq<Value>)
    | Obj(fields: map<string, Value>)

  /** JavaScript truthiness of a value that may be `undefined` (`None`). */
  predicate Truthy(v: Option<Value>) {
    match v
    case None => false
    case Some(Null) => false
    case Some(Bool(b)) => b
    case Some(Num(n)) => n != 0.0
    case Some(Str(s)) => s != ""
    case Some(_) => true
  }

  /** Strict equality with a string literal (`v === lit`). */
  predicate IsString(v: Option<Value>, lit: string) {
    v == Some(Str(lit))
  }

  /** `v.key` can be evaluated without a TypeError: `v` is neither `undefined` nor `null`. */
  predicate Dereferenceable(v: Option<Value>) {
    v.Some? && !v.value.Null?
  }

  /**
   * Property access `v.key` on a dereferenceable value: an object yields its
   * field (or `undefined`), any other value yields `undefined` for the keys the
   * scripts read.
   */
  function Get(v: Option<Value>, key: string): (r: Option<Value>)
    requires Dereferenceable(v)
    ensures r.Some? <==> v.value.Obj? && key in v.value.fields
    ensures r.Some? ==> r.value == v.value.fields[key]
  {
    match v.value
    case Obj(fields) => if key in fields then Some(fields[key]) else None
    case _ => None
  }
}
