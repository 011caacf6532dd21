/** What the form validators accept of requests, schemas and answers, read off the JSON values directly. */
module FormSchemas {
  import opened Prelude
  import opened Json
  import opened FormValidation
  import opened FormAgreement
  import RegexScanner

  // ---- Well-formed properties --------------------------------------------------------------------

  predicate Missing(v: Option<Json>) {
    v.None? || v.value.Null?
  }

  /** Absent, null, or a whole number from zero to 2^53 - 1. */
  predicate LengthOrMissing(v: Option<Json>) {
    Missing(v)
    || (v.value.Number? && v.value.number.Floor as real == v.value.number
        && 0.0 <= v.value.number <= 9007199254740991.0)
  }

  predicate NumberOrMissing(v: Option<Json>) {
    Missing(v) || v.value.Number?
  }

  predicate InOrder(low: Option<Json>, high: Option<Json>) {
    low.Some? && low.value.Number? && high.Some? && high.value.Number? ==> low.value.number <= high.value.number
  }

  /** Absent, null, or a list of texts. */
  predicate TextsOrMissing(v: Option<Json>) {
    Missing(v) || (v.value.Array? && forall k | 0 <= k < |v.value.items| :: v.value.items[k].Text?)
  }

  predicate IsConst(v: Json) {
    v.Object? && "const" in v.fields && v.fields["const"].Text?
  }

  /** Absent, null, or a list of objects with a constant text. */
  predicate ConstsOrMissing(v: Option<Json>) {
    Missing(v) || (v.value.Array? && forall k | 0 <= k < |v.value.items| :: IsConst(v.value.items[k]))
  }

  predicate Offers(v: Option<Json>) {
    v.Some? && v.value.Array? && v.value.items != []
  }

  predicate DistinctTexts(v: Option<Json>)
    requires TextsOrMissing(v)
  {
    v.Some? && v.value.Array? ==>
      forall j, k | 0 <= j < k < |v.value.items| :: v.value.items[j] != v.value.items[k]
  }

  predicate DistinctConsts(v: Option<Json>)
    requires ConstsOrMissing(v)
  {
    v.Some? && v.value.Array? ==>
      forall j, k | 0 <= j < k < |v.value.items| ::
        v.value.items[j].fields["const"] != v.value.items[k].fields["const"]
  }

  /** At most one of the two lists offers anything, and it offers nothing twice. */
  predicate ChoicesSound(strings: Option<Json>, objects: Option<Json>) {
    && TextsOrMissing(strings) && ConstsOrMissing(objects)
    && !(Offers(strings) && Offers(objects))
    && DistinctTexts(strings) && DistinctConsts(objects)
  }

  predicate NamesGroup(pattern: string) {
    exists i :: 0 <= i && i + 1 < |pattern| && pattern[i] == '\\' && pattern[i + 1] in "123456789"
  }

  predicate PatternSound(e: Engine, schema: Json) {
    Get(schema, "pattern").Some? && Get(schema, "pattern").value.Text? ==>
      var pattern := Get(schema, "pattern").value.text;
      && e.compiles(pattern) && !NamesGroup(pattern)
      && RegexScanner.Scan(pattern, 0, |pattern|, RegexScanner.START) != RegexScanner.Flagged
  }

  predicate Typed(schema: Json, kind: string) {
    Get(schema, "type") == Some(Text(kind))
  }

  predicate TextSound(e: Engine, schema: Json) {
    && LengthOrMissing(Get(schema, "minLength")) && LengthOrMissing(Get(schema, "maxLength"))
    && InOrder(Get(schema, "minLength"), Get(schema, "maxLength"))
    && PatternSound(e, schema) && ChoicesSound(Get(schema, "enum"), Get(schema, "oneOf"))
  }

  predicate NumberSound(schema: Json) {
    && NumberOrMissing(Get(schema, "minimum")) && NumberOrMissing(Get(schema, "maximum"))
    && InOrder(Get(schema, "minimum"), Get(schema, "maximum"))
  }

  predicate ListSound(schema: Json) {
    && LengthOrMissing(Get(schema, "minItems")) && LengthOrMissing(Get(schema, "maxItems"))
    && InOrder(Get(schema, "minItems"), Get(schema, "maxItems"))
    && Get(schema, "items").Some?
    && ChoicesSound(Get(Get(schema, "items").value, "enum"), Get(Get(schema, "items").value, "anyOf"))
  }

  /** A property of a known type that holds together; its default, if any, conforms to it. */
  ghost predicate Sound(e: Engine, schema: Json) {
    && (|| (Typed(schema, "string") && TextSound(e, schema))
        || (Typed(schema, "number") && NumberSound(schema))
        || (Typed(schema, "integer") && NumberSound(schema))
        || (Typed(schema, "array") && ListSound(schema))
        || Typed(schema, "boolean"))
    && (!Missing(Get(schema, "default")) ==> Conforms(e, Get(schema, "default").value, schema))
  }

  /** The type is none that the validators know. */
  predicate Unknown(schema: Json) {
    && !Typed(schema, "string") && !Typed(schema, "number") && !Typed(schema, "integer")
    && !Typed(schema, "boolean") && !Typed(schema, "array")
  }

  lemma {:induction false} LengthsRead(low: Option<Json>, high: Option<Json>)
    ensures LengthBounds(low, high) <==> LengthOrMissing(low) && LengthOrMissing(high) && InOrder(low, high)
  {
  }

  lemma {:induction false} TextChoicesRead(v: Option<Json>)
    ensures StringChoices(v).Valid? <==> TextsOrMissing(v)
    ensures StringChoices(v).Valid? ==>
              && (StringChoices(v).value.Some? <==> Offers(v))
              && ((StringChoices(v).value.Some? ==> NoDuplicates(StringChoices(v).value.value)) <==> DistinctTexts(v))
  {
    if !Missing(v) && v.value.Array? {
      TextsRead(v.value.items, TextOf);
      if Texts(v.value.items, TextOf).Valid? {
        SelectionsDistinct(v.value.items);
      }
    }
  }

  lemma {:induction false} ConstRead(v: Json)
    ensures GetText(v, "const").Some? <==> IsConst(v)
    ensures IsConst(v) ==> v.fields["const"] == Text(GetText(v, "const").value)
  {
  }

  lemma {:induction false} ConstChoicesRead(v: Option<Json>)
    ensures ObjectChoices(v).Valid? <==> ConstsOrMissing(v)
    ensures ObjectChoices(v).Valid? ==>
              && (ObjectChoices(v).value.Some? <==> Offers(v))
              && ((ObjectChoices(v).value.Some? ==> NoDuplicates(ObjectChoices(v).value.value)) <==> DistinctConsts(v))
  {
    if !Missing(v) && v.value.Array? {
      var items, read := v.value.items, item => GetText(item, "const");
      TextsRead(items, read);
      forall k | 0 <= k < |items| ensures read(items[k]).Some? <==> IsConst(items[k]) {
        ConstRead(items[k]);
      }
      if Texts(items, read).Valid? {
        var texts := Texts(items, read).value;
        NoDuplicatesMeans(texts);
        forall k | 0 <= k < |items| ensures items[k].fields["const"] == Text(texts[k]) {
          ConstRead(items[k]);
          assert read(items[k]) == Some(texts[k]);
        }
      }
    }
  }

  lemma {:induction false} ChoicesIffSound(strings: Option<Json>, objects: Option<Json>)
    ensures ChoicesAccepted(strings, objects) <==> ChoicesSound(strings, objects)
  {
    TextChoicesRead(strings);
    ConstChoicesRead(objects);
  }

  lemma {:induction false} ReferencesGroup(pattern: string)
    ensures HasBackReference(pattern) <==> NamesGroup(pattern)
  {
  }

  lemma {:induction false} PatternIffSound(e: Engine, schema: Json)
    ensures (GetText(schema, "pattern").Some? ==> SafePattern(e, GetText(schema, "pattern").value))
            <==> PatternSound(e, schema)
  {
    if GetText(schema, "pattern").Some? {
      ReferencesGroup(GetText(schema, "pattern").value);
    }
  }

  lemma {:induction false} TextIffSound(e: Engine, schema: Json)
    requires Typed(schema, "string")
    ensures ShapeAccepted(e, schema) <==> TextSound(e, schema)
  {
    hide LengthBounds, ChoicesAccepted, SafePattern, LengthOrMissing, InOrder, ChoicesSound, PatternSound;
    LengthsRead(Get(schema, "minLength"), Get(schema, "maxLength"));
    ChoicesIffSound(Get(schema, "enum"), Get(schema, "oneOf"));
    PatternIffSound(e, schema);
  }

  lemma {:induction false} NumberIffSound(e: Engine, schema: Json)
    requires Typed(schema, "number") || Typed(schema, "integer")
    ensures ShapeAccepted(e, schema) <==> NumberSound(schema)
  {
  }

  lemma {:induction false} ListIffSound(e: Engine, schema: Json)
    requires Typed(schema, "array")
    ensures ShapeAccepted(e, schema) <==> ListSound(schema)
  {
    hide LengthBounds, ChoicesAccepted, LengthOrMissing, InOrder, ChoicesSound;
    LengthsRead(Get(schema, "minItems"), Get(schema, "maxItems"));
    if Get(schema, "items").Some? {
      ChoicesIffSound(Get(Get(schema, "items").value, "enum"), Get(Get(schema, "items").value, "anyOf"));
    }
  }

  lemma {:induction false} BooleanIffSound(e: Engine, schema: Json, v: Json)
    requires Typed(schema, "boolean")
    ensures ShapeAccepted(e, schema) && (FieldAccepted(e, v, schema) <==> Conforms(e, v, schema))
  {
  }

  lemma {:induction false} DefaultIffConforms(e: Engine, schema: Json)
    requires KnownType(schema) && ShapeAccepted(e, schema) && Get(schema, "default").Some?
    ensures FieldAccepted(e, Get(schema, "default").value, schema)
            <==> Conforms(e, Get(schema, "default").value, schema)
  {
    hide FieldAccepted, Conforms, ShapeAccepted;
    var v := Get(schema, "default").value;
    if Typed(schema, "string") {
      StringIffConforms(e, v, schema);
    } else if Typed(schema, "array") {
      ArrayIffConforms(e, v, schema);
    } else if Typed(schema, "boolean") {
      BooleanIffSound(e, schema, v);
    } else {
      NumberIffConforms(e, v, schema);
    }
  }

  lemma {:induction false} KnownIsTyped(schema: Json)
    ensures KnownType(schema) <==> !Unknown(schema)
  {
  }

  /** The schema validator accepts a property exactly when its type is unknown or it is sound. */
  lemma {:induction false} PropertyIffSound(e: Engine, schema: Json)
    ensures PropertyAccepted(e, schema) <==> Unknown(schema) || Sound(e, schema)
  {
    hide FieldAccepted, Conforms, ShapeAccepted, TextSound, NumberSound, ListSound, KnownType;
    KnownIsTyped(schema);
    if Typed(schema, "string") {
      TextIffSound(e, schema);
    } else if Typed(schema, "array") {
      ListIffSound(e, schema);
    } else if Typed(schema, "number") || Typed(schema, "integer") {
      NumberIffSound(e, schema);
    } else if Typed(schema, "boolean") {
      BooleanIffSound(e, schema, schema);
    }
    if KnownType(schema) && ShapeAccepted(e, schema) && Get(schema, "default").Some? {
      DefaultIffConforms(e, schema);
    }
  }

  // ---- Patterns ----------------------------------------------------------------------------------

  function PatternProperty(pattern: string): Json {
    Object(map["type" := Text("string"), "pattern" := Text(pattern)])
  }

  lemma {:induction false} PatternDecides(e: Engine, pattern: string)
    ensures PropertyAccepted(e, PatternProperty(pattern)) <==>
            && e.compiles(pattern) && !NamesGroup(pattern)
            && RegexScanner.Scan(pattern, 0, |pattern|, RegexScanner.START) != RegexScanner.Flagged
  {
    var schema := PatternProperty(pattern);
    assert Get(schema, "pattern") == Some(Text(pattern)) && Get(schema, "type") == Some(Text("string"));
    assert Get(schema, "enum").None? && Get(schema, "oneOf").None? && Get(schema, "default").None?;
    assert Get(schema, "minLength").None? && Get(schema, "maxLength").None?;
    PropertyIffSound(e, schema);
  }

  /** Of the patterns that compile and refer to no group, a text property takes exactly those whose tree is
      safe and has no quantified gap. */
  lemma {:induction false} TreeDecides(e: Engine, r: RegexScanner.Regex)
    requires RegexScanner.WellFormed(r)
    requires e.compiles(RegexScanner.Print(r)) && !NamesGroup(RegexScanner.Print(r))
    ensures PropertyAccepted(e, PatternProperty(RegexScanner.Print(r))) <==>
            !RegexScanner.Unsafe(r) && !RegexScanner.QuantifiedGap(r, None)
    ensures RegexScanner.SpaceFree(r) ==>
              (PropertyAccepted(e, PatternProperty(RegexScanner.Print(r))) <==> !RegexScanner.Unsafe(r))
  {
    PatternDecides(e, RegexScanner.Print(r));
    RegexScanner.ScannerVerdict(r);
    if RegexScanner.SpaceFree(r) {
      RegexScanner.NoSpaceNoGap(r, None);
    }
  }

  /** A group under a plus, under a plus again: refused by every engine. */
  lemma {:induction false} NestedPlusIsRefused(e: Engine)
    ensures !PropertyAccepted(e, PatternProperty("(a+)+"))
  {
    var inner := RegexScanner.Repeat(RegexScanner.Literal('a'), RegexScanner.Plus);
    var group := RegexScanner.Group(RegexScanner.Capturing, inner);
    var r := RegexScanner.Repeat(group, RegexScanner.Plus);
    assert RegexScanner.Print(inner) == "a+";
    assert RegexScanner.Print(group) == "(a+)";
    assert RegexScanner.Print(r) == "(a+)+";
    RegexScanner.ScannerVerdict(r);
    PatternDecides(e, "(a+)+");
  }

  /** A text property whose pattern refers back to a group is refused, whatever else it says. */
  lemma {:induction false} BackReferencesAreRefused(e: Engine, schema: Json, pattern: string, i: nat)
    requires Get(schema, "type") == Some(Text("string")) && Get(schema, "pattern") == Some(Text(pattern))
    requires i + 1 < |pattern| && pattern[i] == '\\' && pattern[i + 1] in "123456789"
    ensures !PropertyAccepted(e, schema)
  {
    PropertyIffSound(e, schema);
  }

  /** Every pattern of an accepted form compiles, refers back to no group, and is not the text of an unsafe
      tree. */
  lemma {:induction false} AcceptedPatternsAreSafe(e: Engine, request: Json, name: string, pattern: string)
    requires AcceptedForm(e, request) && name in Declared(request)
    requires Get(Declared(request)[name], "type") == Some(Text("string"))
    requires Get(Declared(request)[name], "pattern") == Some(Text(pattern))
    ensures e.compiles(pattern)
    ensures forall i | 0 <= i < |pattern| - 1 && pattern[i] == '\\' :: pattern[i + 1] !in "123456789"
    ensures forall r: RegexScanner.Regex | RegexScanner.WellFormed(r) && RegexScanner.Print(r) == pattern ::
              !RegexScanner.Unsafe(r)
  {
    PropertyIffSound(e, Declared(request)[name]);
    forall r: RegexScanner.Regex | RegexScanner.WellFormed(r) && RegexScanner.Print(r) == pattern
      ensures !RegexScanner.Unsafe(r)
    {
      RegexScanner.ScannerVerdict(r);
    }
  }

  // ---- Whole requests ----------------------------------------------------------------------------

  /** Distinct declared names are required, no name is empty, and every property is sound or of an unknown
      type. */
  ghost predicate SchemaSound(e: Engine, schema: Json) {
    var properties, required := Get(schema, "properties"), Get(schema, "required");
    && (Missing(properties) || properties.value.Object?)
    && TextsOrMissing(required) && DistinctTexts(required)
    && (!Missing(required) ==>
          forall k | 0 <= k < |required.value.items| ::
            !Missing(properties) && required.value.items[k].text in properties.value.fields)
    && (!Missing(properties) ==>
          forall name | name in properties.value.fields ::
            name != "" && (Unknown(properties.value.fields[name]) || Sound(e, properties.value.fields[name])))
  }

  lemma {:induction false} NamesRead(v: Option<Json>)
    ensures StringArray(v).Valid? <==> TextsOrMissing(v)
    ensures StringArray(v).Valid? ==>
              && (NoDuplicates(StringArray(v).value) <==> DistinctTexts(v))
              && forall name :: name in StringArray(v).value <==>
                   !Missing(v) && exists k :: 0 <= k < |v.value.items| && v.value.items[k] == Text(name)
  {
    if !Missing(v) && v.value.Array? {
      TextsRead(v.value.items, TextOf);
      if Texts(v.value.items, TextOf).Valid? {
        SelectionsDistinct(v.value.items);
        var texts := Texts(v.value.items, TextOf).value;
        forall k | 0 <= k < |texts| ensures v.value.items[k] == Text(texts[k]) {
          assert TextOf(v.value.items[k]) == Some(texts[k]);
        }
      }
    } else {
      NoDuplicatesMeans([]);
    }
  }

  lemma {:induction false} SchemaIffSound(e: Engine, schema: Json)
    ensures SchemaAccepted(e, schema) <==> SchemaSound(e, schema)
  {
    hide PropertyAccepted, Sound, Unknown, NoDuplicates;
    var properties, required := Get(schema, "properties"), Get(schema, "required");
    NamesRead(required);
    if !Missing(properties) && properties.value.Object? {
      forall name | name in properties.value.fields
        ensures PropertyAccepted(e, properties.value.fields[name]) <==>
                Unknown(properties.value.fields[name]) || Sound(e, properties.value.fields[name])
      {
        PropertyIffSound(e, properties.value.fields[name]);
      }
    }
    if StringArray(required).Valid? && !Missing(required) {
      forall k | 0 <= k < |required.value.items| ensures required.value.items[k].text in StringArray(required).value {
        assert required.value.items[k] == Text(required.value.items[k].text);
      }
    }
  }

  /** Exactly one of a session, named by a text of 1 to 1024 units, and a request, named by null, a text of at
      most 1024 units or a safe whole number. */
  predicate ScopeSound(request: Json) {
    var session, id := Get(request, "sessionId"), Get(request, "requestId");
    || (!Missing(session) && id.None?
        && session.value.Text? && session.value.text != "" && JsLength(session.value.text) <= 1024)
    || (Missing(session) && id.Some?
        && (match id.value
            case Null => true
            case Text(text) => JsLength(text) <= 1024
            case Number(x) => IsInteger(x) && -9007199254740991.0 <= x <= 9007199254740991.0
            case _ => false))
  }

  /** A request is accepted exactly when it has a message, one scope, and either an address of the web or a
      sound form. */
  lemma {:induction false} RequestsExactly(e: Engine, request: Json)
    ensures RequestAccepted(e, request) <==>
            && (exists message :: Get(request, "message") == Some(Text(message)) && message != "")
            && ScopeSound(request)
            && (|| (&& Get(request, "mode") == Some(Text("url"))
                    && exists url :: Get(request, "url") == Some(Text(url)) && e.httpUrl(url))
                || (&& Get(request, "mode") == Some(Text("form"))
                    && Get(request, "requestedSchema").Some?
                    && SchemaSound(e, Get(request, "requestedSchema").value)))
  {
    hide SchemaAccepted, SchemaSound;
    if Get(request, "requestedSchema").Some? {
      SchemaIffSound(e, Get(request, "requestedSchema").value);
    }
    assert ScopeAccepted(request) <==> ScopeSound(request);
  }

  /** Length in UTF-16 code units, a character beyond the basic plane counting twice. */
  lemma {:induction false} JsLengthAdds(s: string, t: string)
    ensures JsLength(s + t) == JsLength(s) + JsLength(t)
    ensures forall c: char :: JsLength([c]) == if c as int > 0xFFFF then 2 else 1
  {
    if s == "" {
      assert s + t == t;
    } else {
      assert (s + t)[1..] == s[1..] + t;
      JsLengthAdds(s[1..], t);
    }
    forall c: char ensures JsLength([c]) == if c as int > 0xFFFF then 2 else 1 {
      assert [c][1..] == "";
    }
  }

  // ---- Answers other than a filled form ----------------------------------------------------------

  /** Declining, cancelling and answering an address carry no content; nothing but these and an accepted form
      is an answer. */
  lemma {:induction false} OtherAnswers(e: Engine, request: Json, response: Json)
    ensures Get(response, "action") in {Some(Text("decline")), Some(Text("cancel"))} ==>
              (ResponseAccepted(e, request, response) <==> Missing(Get(response, "content")))
    ensures Get(response, "action") == Some(Text("accept")) && Get(request, "mode") == Some(Text("url")) ==>
              (ResponseAccepted(e, request, response) <==> Missing(Get(response, "content")))
    ensures Get(response, "action") !in {Some(Text("accept")), Some(Text("decline")), Some(Text("cancel"))} ==>
              !ResponseAccepted(e, request, response)
  {
  }
}
