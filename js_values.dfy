/** JavaScript values as the upload handler reads them out of the parsed
    metadata and the multipart body, with the three coercions it applies to
    them: truthiness (`x || null`), nullishness (`x ?? null`) and template
    interpolation (`${x}`). */
module JsValues {

  datatype Option<T> = None | Some(value: T)

  /** A decoded JSON value. `Num` carries the text that JavaScript's
      `String(value)` prints for it, so that interpolating a number into a
      path needs no floating-point formatting here. `Obj` is a non-array
      object that converts to a primitive in the ordinary way: `${x}` gives
      `[object Object]` and `Number(x)` gives `NaN`. An object whose own
      `toString` or `valueOf` key hides the inherited one makes both
      conversions throw; such an object is not a `Val`. */
  datatype Val =
    | Undefined
    | Null
    | Bool(b: bool)
    | Num(value: real, text: string)
    | Str(s: string)
    | Obj

  /** JavaScript truthiness: `undefined`, `null`, `false`, `0` and `""` are
      falsy (a JSON document cannot produce `NaN`). */
  predicate Truthy(v: Val)
    ensures v.Null? || v.Undefined? ==> !Truthy(v)
    ensures v.Obj? ==> Truthy(v)
  {
    match v
    case Undefined => false
    case Null => false
    case Bool(b) => b
    case Num(x, _) => x != 0.0
    case Str(s) => s != ""
    case Obj => true
  }

  /** `v || null`: a falsy value becomes `null`, a truthy one is kept. */
  function OrNull(v: Val): (r: Val)
    ensures r == Null <==> !Truthy(v)
    ensures r != Null ==> r == v && Truthy(r)
  {
    if Truthy(v) then v else Null
  }

  /** `x || null` and `x ?? null` part ways on falsy values that are not
      nullish: a label of `0` becomes `null`, a latitude of `0` stays `0`. */
  lemma FalsyButNotNullish()
    ensures var zero := Num(0.0, "0");
      OrNull(zero) == Null && Coalesce(zero) == zero
    ensures OrNull(Str("")) == Null && Coalesce(Str("")) == Str("")
  {
  }

  /** `v ?? null`: only `undefined` and `null` become `null`; every other
      value, falsy or not, is kept. */
  function Coalesce(v: Val): (r: Val)
    ensures r == Null <==> v == Null || v == Undefined
    ensures r != Null ==> r == v
  {
    if v.Undefined? then Null else v
  }

  /** The text `${v}` produces for a value that is not an array and not an
      object with its own `toString` or `valueOf`. Only a
      string or a number brings text of the sender's choosing; any other
      value gives a fixed, non-empty word without a slash. */
  function TemplateText(v: Val): (t: string)
    ensures v.Str? ==> t == v.s
    ensures v.Num? ==> t == v.text
    ensures !v.Str? && !v.Num? ==> t != "" && '/' !in t
  {
    match v
    case Undefined => "undefined"
    case Null => "null"
    case Bool(b) => if b then "true" else "false"
    case Num(_, text) => text
    case Str(s) => s
    case Obj => "[object Object]"
  }
}
