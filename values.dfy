/** The dictionaries the scrapers, the processor and the summarizer pass
    around, as maps from key to a tagged value. */
module Values {
  import opened Text

  datatype Option<+T> = None | Some(value: T)

  /** The kinds of value the curator's dictionaries hold: text, `None`,
      integers (Reddit scores), lists of text (Dev.to tags) and nested
      dictionaries (the `original` record). */
  datatype Value =
    | Str(s: string)
    | Null
    | Int(i: int)
    | Strs(items: seq<string>)
    | Dict(entries: map<string, Value>)

  type Record = map<string, Value>

  /** `d.get(key, default)`. */
  function Get(d: Record, key: string, default: Value): (v: Value)
    ensures key in d ==> v == d[key]
    ensures key !in d ==> v == default
  {
    if key in d then d[key] else default
  }

  /** Python truthiness. */
  predicate Truthy(v: Value) {
    match v
    case Str(s) => s != ""
    case Null => false
    case Int(i) => i != 0
    case Strs(items) => items != []
    case Dict(entries) => entries != map[]
  }

  /** Values whose `str()` rendering the model spells out. */
  predicate Displayable(v: Value) {
    v.Str? || v.Null? || v.Int?
  }

  /** `str(v)`, as an f-string renders it. */
  function Show(v: Value): string
    requires Displayable(v)
  {
    match v
    case Str(s) => s
    case Null => "None"
    case Int(i) => IntToString(i)
  }

  /** `key` maps to a text value. */
  predicate HasText(d: Record, key: string) {
    key in d && d[key].Str?
  }

  /** `key` is absent or maps to a value `Show` can render. */
  predicate ShowsField(d: Record, key: string) {
    key in d ==> Displayable(d[key])
  }

  /** Text value of an optional string: `x if x else None` style fields. */
  function OptStr(o: Option<string>): (v: Value)
    ensures o.None? ==> v == Null
    ensures o.Some? ==> v == Str(o.value)
  {
    if o.Some? then Str(o.value) else Null
  }
}
