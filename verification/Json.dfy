/** JSON values as the sources inspect them after an uninterpreted `JSON.parse`. */
module Json {
  import opened Text

  datatype Json =
    | Null
    | Bool(b: bool)
    | Num(text: string)
    | Str(s: string)
    | Arr(items: seq<Json>)
    | Obj(fields: map<string, Json>)

  /** `typeof v === "object" && v !== null`: arrays pass too. */
  predicate IsObject(v: Json) {
    v.Arr? || v.Obj?
  }

  /** `v[key]`, None for `undefined`. */
  function Field(v: Json, key: string): (f: Option<Json>) {
    if v.Obj? && key in v.fields then Some(v.fields[key]) else None
  }

  predicate Is(v: Json, key: string, literal: string) {
    Field(v, key) == Some(Str(literal))
  }

  /** `typeof v[key] === "string" ? v[key] : ""`. */
  function StringField(v: Json, key: string): (s: string) {
    match Field(v, key)
    case Some(Str(s)) => s
    case _ => ""
  }

  /** `String(v)`. */
  function ToText(v: Json): (s: string) {
    match v
    case Null => "null"
    case Bool(b) => if b then "true" else "false"
    case Num(text) => text
    case Str(s) => s
    case Arr(items) => ItemsText(items)
    case Obj(_) => "[object Object]"
  }

  /** `items.join(",")`, where `null` items print as nothing. */
  function ItemsText(items: seq<Json>): (s: string) {
    if items == [] then ""
    else
      var head := if items[0].Null? then "" else ToText(items[0]);
      if |items| == 1 then head else head + "," + ItemsText(items[1..])
  }

  /** `String(v[key] ?? "")`. */
  function TextOrEmpty(v: Json, key: string): (s: string) {
    match Field(v, key)
    case None => ""
    case Some(Null) => ""
    case Some(f) => ToText(f)
  }
}
