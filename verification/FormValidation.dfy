/** Validation of elicitation requests and responses.

    The regular-expression engine, the URL parser and the named formats are parameters. Results say
    whether a value is accepted; the error texts are not kept. */
module FormValidation {
  import opened Prelude
  import opened Json
  import RegexScanner

  /** `compiles` and `matches` are the regular-expression engine, `hasFormat` the named formats and
      `httpUrl` the URL parser followed by the scheme test. */
  datatype Engine = Engine(
    compiles: string -> bool,
    matches: (string, string) -> bool,
    hasFormat: (string, string) -> bool,
    httpUrl: string -> bool)

  datatype Parsed<T> = Valid(value: T) | Malformed

  const MAX_SAFE_INTEGER: real := 9007199254740991.0

  // ---- Reading parts of a schema ---------------------------------------------------------------

  predicate IsInteger(x: real) {
    x.Floor as real == x
  }

  function OptionalNumber(v: Option<Json>): Parsed<Option<real>> {
    match Present(v)
    case None => Valid(None)
    case Some(j) => if j.Number? then Valid(Some(j.number)) else Malformed
  }

  function OptionalLength(v: Option<Json>): Parsed<Option<nat>> {
    match Present(v)
    case None => Valid(None)
    case Some(j) =>
      if j.Number? && j.number >= 0.0 && IsInteger(j.number) && j.number <= MAX_SAFE_INTEGER
      then Valid(Some(j.number.Floor)) else Malformed
  }

  function TextOf(v: Json): Option<string> {
    if v.Text? then Some(v.text) else None
  }

  function Texts(items: seq<Json>, read: Json -> Option<string>): Parsed<seq<string>> {
    if items == [] then Valid([])
    else
      match (read(items[0]), Texts(items[1..], read))
      case (Some(first), Valid(rest)) => Valid([first] + rest)
      case _ => Malformed
  }

  function StringArray(v: Option<Json>): Parsed<seq<string>> {
    match Present(v)
    case None => Valid([])
    case Some(j) => if j.Array? then Texts(j.items, TextOf) else Malformed
  }

  /** An empty array of choices is no choices at all. */
  function Choices(v: Option<Json>, read: Json -> Option<string>): Parsed<Option<seq<string>>> {
    match Present(v)
    case None => Valid(None)
    case Some(j) =>
      if !j.Array? then Malformed
      else if j.items == [] then Valid(None)
      else
        match Texts(j.items, read)
        case Valid(texts) => Valid(Some(texts))
        case Malformed => Malformed
  }

  function StringChoices(v: Option<Json>): Parsed<Option<seq<string>>> {
    Choices(v, TextOf)
  }

  function ObjectChoices(v: Option<Json>): Parsed<Option<seq<string>>> {
    Choices(v, item => GetText(item, "const"))
  }

  function Members(s: seq<string>): set<string> {
    set x | x in s
  }

  /** The set of the strings has as many members as there are strings. */
  predicate NoDuplicates(s: seq<string>) {
    |Members(s)| == |s|
  }

  /** Length in UTF-16 code units. */
  function JsLength(s: string): nat {
    if s == "" then 0 else (if s[0] > '\U{FFFF}' then 2 else 1) + JsLength(s[1..])
  }

  predicate HasBackReference(pattern: string) {
    exists i :: 0 <= i < |pattern| - 1 && pattern[i] == '\\' && '1' <= pattern[i + 1] <= '9'
  }

  predicate SafePattern(e: Engine, pattern: string) {
    && e.compiles(pattern) && !HasBackReference(pattern)
    && RegexScanner.Scan(pattern, 0, |pattern|, RegexScanner.START).Reached?
  }

  // ---- The schema validator --------------------------------------------------------------------

  predicate LengthBounds(minimum: Option<Json>, maximum: Option<Json>) {
    var low := OptionalLength(minimum);
    var high := OptionalLength(maximum);
    && low.Valid? && high.Valid?
    && (low.value.Some? && high.value.Some? ==> low.value.value <= high.value.value)
  }

  /** At most one of the two ways of offering choices, without duplicates. */
  predicate ChoicesAccepted(strings: Option<Json>, objects: Option<Json>) {
    var a := StringChoices(strings);
    var b := ObjectChoices(objects);
    && a.Valid? && b.Valid?
    && !(a.value.Some? && b.value.Some?)
    && (a.value.Some? ==> NoDuplicates(a.value.value))
    && (b.value.Some? ==> NoDuplicates(b.value.value))
  }

  predicate ShapeAccepted(e: Engine, schema: Json) {
    match GetText(schema, "type")
    case None => true
    case Some(kind) =>
      if kind == "string" then
        && LengthBounds(Get(schema, "minLength"), Get(schema, "maxLength"))
        && (GetText(schema, "pattern").Some? ==> SafePattern(e, GetText(schema, "pattern").value))
        && ChoicesAccepted(Get(schema, "enum"), Get(schema, "oneOf"))
      else if kind == "number" || kind == "integer" then
        var low := OptionalNumber(Get(schema, "minimum"));
        var high := OptionalNumber(Get(schema, "maximum"));
        && low.Valid? && high.Valid?
        && (low.value.Some? && high.value.Some? ==> low.value.value <= high.value.value)
      else if kind == "array" then
        && LengthBounds(Get(schema, "minItems"), Get(schema, "maxItems"))
        && Get(schema, "items").Some?
        && ChoicesAccepted(Get(Get(schema, "items").value, "enum"), Get(Get(schema, "items").value, "anyOf"))
      else true
  }

  predicate KnownType(schema: Json) {
    var kind := GetText(schema, "type");
    kind.Some? && kind.value in {"string", "number", "integer", "boolean", "array"}
  }

  /** A property of an unknown type passes whatever else it says. */
  predicate PropertyAccepted(e: Engine, schema: Json) {
    !KnownType(schema) ||
    (ShapeAccepted(e, schema)
     && (Present(Get(schema, "default")).Some? ==> FieldAccepted(e, Get(schema, "default").value, schema)))
  }

  // ---- The response validator ------------------------------------------------------------------

  predicate LengthAccepted(n: nat, minimum: Option<Json>, maximum: Option<Json>) {
    var low := OptionalLength(minimum);
    var high := OptionalLength(maximum);
    && low.Valid? && (low.value.Some? ==> low.value.value <= n)
    && high.Valid? && (high.value.Some? ==> n <= high.value.value)
  }

  /** Every text is one of the choices offered, taking the first of the two ways that offers any. */
  predicate ChoiceAccepted(texts: seq<string>, strings: Option<Json>, objects: Option<Json>) {
    var a := StringChoices(strings);
    var b := ObjectChoices(objects);
    && a.Valid? && b.Valid?
    && var allowed := if a.value.Some? then a.value else b.value;
       allowed.Some? ==> forall k :: 0 <= k < |texts| ==> texts[k] in allowed.value
  }

  predicate FieldAccepted(e: Engine, value: Json, schema: Json) {
    match GetText(schema, "type")
    case None => false
    case Some(kind) =>
      if kind == "string" then
        && value.Text?
        && LengthAccepted(|value.text|, Get(schema, "minLength"), Get(schema, "maxLength"))
        && (GetText(schema, "pattern").Some? ==>
              && JsLength(value.text) <= 10000
              && e.compiles(GetText(schema, "pattern").value)
              && e.matches(GetText(schema, "pattern").value, value.text))
        && (GetText(schema, "format").Some? ==> e.hasFormat(GetText(schema, "format").value, value.text))
        && ChoiceAccepted([value.text], Get(schema, "enum"), Get(schema, "oneOf"))
      else if kind == "number" || kind == "integer" then
        && value.Number? && (kind == "integer" ==> IsInteger(value.number))
        && var low := OptionalNumber(Get(schema, "minimum"));
           var high := OptionalNumber(Get(schema, "maximum"));
        && low.Valid? && (low.value.Some? ==> low.value.value <= value.number)
        && high.Valid? && (high.value.Some? ==> value.number <= high.value.value)
      else if kind == "boolean" then value.Bool?
      else if kind == "array" then
        && value.Array? && Texts(value.items, TextOf).Valid?
        && var texts := Texts(value.items, TextOf).value;
        && NoDuplicates(texts)
        && LengthAccepted(|texts|, Get(schema, "minItems"), Get(schema, "maxItems"))
        && Get(schema, "items").Some?
        && ChoiceAccepted(texts, Get(Get(schema, "items").value, "enum"), Get(Get(schema, "items").value, "anyOf"))
      else false
  }

  function Properties(schema: Json): Parsed<map<string, Json>> {
    match Present(Get(schema, "properties"))
    case None => Valid(map[])
    case Some(j) => if j.Object? then Valid(j.fields) else Malformed
  }

  predicate SchemaAccepted(e: Engine, schema: Json) {
    var properties := Properties(schema);
    var required := StringArray(Get(schema, "required"));
    && properties.Valid? && required.Valid?
    && NoDuplicates(required.value)
    && (forall name | name in required.value :: name in properties.value)
    && (forall name | name in properties.value :: name != "" && PropertyAccepted(e, properties.value[name]))
  }

  predicate ContentAccepted(e: Engine, schema: Json, content: map<string, Json>) {
    var properties := Properties(schema);
    var required := StringArray(Get(schema, "required"));
    && properties.Valid? && required.Valid?
    && (forall name | name in required.value :: name in content)
    && (forall name | name in content ::
          name in properties.value && FieldAccepted(e, content[name], properties.value[name]))
  }

  predicate ScopeAccepted(request: Json) {
    var session := Present(Get(request, "sessionId"));
    var id := Get(request, "requestId");
    && session.Some? != id.Some?
    && (session.Some? ==> session.value.Text? && session.value.text != "" && JsLength(session.value.text) <= 1024)
    && (id.Some? && session.None? ==>
          || id.value.Null?
          || (id.value.Text? && JsLength(id.value.text) <= 1024)
          || (id.value.Number? && IsInteger(id.value.number)
              && -MAX_SAFE_INTEGER <= id.value.number <= MAX_SAFE_INTEGER))
  }

  predicate RequestAccepted(e: Engine, request: Json) {
    && GetText(request, "message").Some? && GetText(request, "message").value != ""
    && ScopeAccepted(request)
    && match GetText(request, "mode")
       case None => false
       case Some(mode) =>
         if mode == "url" then GetText(request, "url").Some? && e.httpUrl(GetText(request, "url").value)
         else mode == "form" && Get(request, "requestedSchema").Some?
              && SchemaAccepted(e, Get(request, "requestedSchema").value)
  }

  predicate ResponseAccepted(e: Engine, request: Json, response: Json) {
    var content := Present(Get(response, "content"));
    match GetText(response, "action")
    case None => false
    case Some(action) =>
      if action == "decline" || action == "cancel" then content.None?
      else if action != "accept" then false
      else if GetText(request, "mode") == Some("url") then content.None?
      else
        && Get(request, "requestedSchema").Some?
        && (content.Some? ==> content.value.Object?)
        && ContentAccepted(e, Get(request, "requestedSchema").value,
                           if content.Some? then content.value.fields else map[])
  }
}
