/** The JavaScript values the dashboard reads out of API responses, and the
    three JavaScript rules its normalisations depend on: truthiness, property
    access, and the `x ? x : null` idiom. */
module Json {
  import opened Wrappers

  /** A decoded JSON value, plus `undefined` for a property that is absent.
      Numbers are integers here. */
  datatype Raw =
    | Undefined
    | Null
    | Bool(b: bool)
    | Num(n: int)
    | Str(s: string)
    | Arr(items: seq<Raw>)
    | Obj(props: map<string, Raw>)

  /** JavaScript truthiness: `undefined`, `null`, `false`, `0` and `""` are
      falsy; every array and object is truthy, even an empty one. */
  predicate Truthy(v: Raw)
  {
    match v
    case Undefined => false
    case Null => false
    case Bool(b) => b
    case Num(n) => n != 0
    case Str(s) => s != ""
    case Arr(_) => true
    case Obj(_) => true
  }

  /** Reading any property of `null` or `undefined` throws a `TypeError`. */
  predicate Nullish(v: Raw)
  {
    v == Undefined || v == Null
  }

  /** `v.key` on a value that is not nullish: the property of an object, and
      `undefined` for a property the value does not have. */
  function Get(v: Raw, key: string): Raw
  {
    if v.Obj? && key in v.props then v.props[key] else Undefined
  }

  /** `v ? v : null`: a truthy value is kept, anything else becomes `null`
      (here `None`). */
  function OrNull(v: Raw): (r: Option<Raw>)
    ensures r == None <==> !Truthy(v)
    ensures r.Some? ==> r.value == v && Truthy(r.value)
  {
    if Truthy(v) then Some(v) else None
  }

  /** A nullable field as the page stores it: `null`, or a truthy value. So an
      absent field is never stored as `""`, `0` or `false`. */
  predicate Normal(f: Option<Raw>)
  {
    f.Some? ==> Truthy(f.value)
  }

  /** The value a nullable field stands for when it is written back out as
      JSON. */
  function ToRaw(f: Option<Raw>): Raw
  {
    match f
    case None => Null
    case Some(v) => v
  }

  /** Storing a field and reading it back gives the stored field: `OrNull`
      undoes `ToRaw` on normal fields. */
  lemma OrNullToRaw(f: Option<Raw>)
    requires Normal(f)
    ensures OrNull(ToRaw(f)) == f
  {
  }

  /** The result of evaluating a JavaScript expression that may throw. */
  datatype Eval<+T> = Threw | Returned(value: T)
}
