/**
 * Parsed JSON values. `Undefined` is what reading an absent field gives, and a number is an exact
 * real. Text is limited to the Basic Multilingual Plane, where one `char` is one UTF-16 code unit.
 */
module JsonValues {
  import opened Common

  datatype Json =
    | Undefined
    | Null
    | Bool(b: bool)
    | Num(n: real)
    | Str(s: string)
    | Arr(items: seq<Json>)
    | Obj(fields: map<string, Json>)

  function Get(v: Json, key: string): Json {
    if v.Obj? && key in v.fields then v.fields[key] else Undefined
  }

  predicate IsInt(v: Json) {
    v.Num? && v.n == v.n.Floor as real
  }

  /** `{...v}`: only the fields of an object matter here. */
  function Spread(v: Json): map<string, Json> {
    if v.Obj? then v.fields else map[]
  }

  /**
   * The text a value is converted to when it is used as a key or matched with a pattern: a string
   * stands for itself and a one-element array for its element. Other values are left out; what they
   * are converted to (a number, a list with commas, `null`, `[object Object]`) names nothing here.
   */
  function Spelling(v: Json): Option<string> {
    match v
    case Str(s) => Some(s)
    case Arr(items) => if |items| == 1 then Spelling(items[0]) else None
    case _ => None
  }

  /** A string that is one of the listed names (`names.includes(v)`). */
  predicate Among(v: Json, names: seq<string>) {
    v.Str? && v.s in names
  }
}
