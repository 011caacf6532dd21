/** JSON values as trees. */
module Json {
  import opened Prelude

  datatype Json =
    | Null
    | Bool(value: bool)
    | Number(number: real)
    | Text(text: string)
    | Array(items: seq<Json>)
    | Object(fields: map<string, Json>)

  /** A field of an object; nothing for any other value. */
  function Get(v: Json, name: string): Option<Json> {
    if v.Object? && name in v.fields then Some(v.fields[name]) else None
  }

  function GetText(v: Json, name: string): Option<string> {
    var f := Get(v, name);
    if f.Some? && f.value.Text? then Some(f.value.text) else None
  }

  /** An absent field and a null one are the same. */
  function Present(v: Option<Json>): Option<Json> {
    if v == Some(Null) then None else v
  }
}
