/** The two form validators agree: what an accepted request makes of a response, stated without either
    validator's way of reading the schema. */
module FormAgreement {
  import opened Prelude
  import opened Json
  import opened FormValidation

  // ---- What conforms ----------------------------------------------------------------------------

  predicate AtLeast(bound: Option<Json>, n: real) {
    bound.Some? && bound.value.Number? ==> bound.value.number <= n
  }

  predicate AtMost(bound: Option<Json>, n: real) {
    bound.Some? && bound.value.Number? ==> n <= bound.value.number
  }

  predicate OffersNone(choices: Option<Json>) {
    Present(choices).None? || choices == Some(Array([]))
  }

  predicate OffersText(choices: Option<Json>, text: string) {
    choices.Some? && choices.value.Array? && Text(text) in choices.value.items
  }

  predicate OffersConst(choices: Option<Json>, text: string) {
    && choices.Some? && choices.value.Array?
    && exists k :: 0 <= k < |choices.value.items| && Get(choices.value.items[k], "const") == Some(Text(text))
  }

  predicate Offered(strings: Option<Json>, objects: Option<Json>, text: string) {
    (OffersNone(strings) && OffersNone(objects)) || OffersText(strings, text) || OffersConst(objects, text)
  }

  ghost predicate Conforms(e: Engine, value: Json, schema: Json) {
    match value
    case Text(text) =>
      && Get(schema, "type") == Some(Text("string"))
      && AtLeast(Get(schema, "minLength"), |text| as real) && AtMost(Get(schema, "maxLength"), |text| as real)
      && (GetText(schema, "pattern").Some? ==>
            JsLength(text) <= 10000 && e.matches(GetText(schema, "pattern").value, text))
      && (GetText(schema, "format").Some? ==> e.hasFormat(GetText(schema, "format").value, text))
      && Offered(Get(schema, "enum"), Get(schema, "oneOf"), text)
    case Number(x) =>
      && (Get(schema, "type") == Some(Text("number"))
          || (Get(schema, "type") == Some(Text("integer")) && IsInteger(x)))
      && AtLeast(Get(schema, "minimum"), x) && AtMost(Get(schema, "maximum"), x)
    case Bool(_) => Get(schema, "type") == Some(Text("boolean"))
    case Array(items) =>
      && Get(schema, "type") == Some(Text("array"))
      && (forall k | 0 <= k < |items| :: items[k].Text?)
      && (forall j, k | 0 <= j < k < |items| :: items[j] != items[k])
      && AtLeast(Get(schema, "minItems"), |items| as real) && AtMost(Get(schema, "maxItems"), |items| as real)
      && Get(schema, "items").Some?
      && forall k | 0 <= k < |items| ::
           Offered(Get(Get(schema, "items").value, "enum"), Get(Get(schema, "items").value, "anyOf"), items[k].text)
    case _ => false
  }

  // ---- Reading lists ----------------------------------------------------------------------------

  lemma {:induction false} TextsRead(items: seq<Json>, read: Json -> Option<string>)
    ensures Texts(items, read).Valid? <==> forall k | 0 <= k < |items| :: read(items[k]).Some?
    ensures Texts(items, read).Valid? ==>
              var texts := Texts(items, read).value;
              |texts| == |items| && forall k | 0 <= k < |items| :: read(items[k]) == Some(texts[k])
  {
    if items != [] {
      TextsRead(items[1..], read);
      assert forall k | 0 <= k < |items| - 1 :: items[1..][k] == items[k + 1];
      if Texts(items, read).Valid? {
        var texts := Texts(items, read).value;
        assert texts[1..] == Texts(items[1..], read).value;
        forall k | 0 <= k < |items| ensures read(items[k]) == Some(texts[k]) {
          assert k > 0 ==> read(items[1..][k - 1]) == Some(texts[1..][k - 1]);
        }
      }
    }
  }

  lemma {:induction false} MembersStep(s: seq<string>)
    requires s != []
    ensures Members(s) == Members(s[1..]) + {s[0]}
    ensures |Members(s)| == |Members(s[1..])| + (if s[0] in s[1..] then 0 else 1)
  {
    assert s == [s[0]] + s[1..];
    assert Members(s) == Members(s[1..]) + {s[0]};
    if s[0] in s[1..] {
      assert Members(s) == Members(s[1..]);
    }
  }

  lemma {:induction false} MembersBound(s: seq<string>)
    ensures |Members(s)| <= |s|
  {
    if s != [] {
      MembersStep(s);
      MembersBound(s[1..]);
    }
  }

  ghost predicate Distinct(s: seq<string>) {
    forall j, k | 0 <= j < k < |s| :: s[j] != s[k]
  }

  lemma {:induction false} DistinctStep(s: seq<string>)
    requires s != []
    ensures Distinct(s) <==> Distinct(s[1..]) && s[0] !in s[1..]
  {
    var rest := s[1..];
    assert forall k | 0 <= k < |rest| :: rest[k] == s[k + 1];
    if Distinct(rest) && s[0] !in rest {
      assert forall k | 0 < k < |s| :: s[k] == rest[k - 1];
    }
    if Distinct(s) {
      assert forall k | 0 <= k < |rest| :: rest[k] != s[0];
    }
  }

  lemma {:induction false} NoDuplicatesMeans(s: seq<string>)
    ensures NoDuplicates(s) <==> Distinct(s)
  {
    if s != [] {
      MembersStep(s);
      MembersBound(s[1..]);
      DistinctStep(s);
      NoDuplicatesMeans(s[1..]);
    }
  }

  /** The choices read from a list are the texts it holds. */
  lemma {:induction false} ChoicesRead(v: Option<Json>, read: Json -> Option<string>, text: string)
    requires Choices(v, read).Valid?
    ensures Choices(v, read).value.None? <==> OffersNone(v)
    ensures Choices(v, read).value.Some? ==>
              && v.Some? && v.value.Array?
              && (text in Choices(v, read).value.value
                  <==> exists k :: 0 <= k < |v.value.items| && read(v.value.items[k]) == Some(text))
  {
    if Choices(v, read).value.Some? {
      TextsRead(v.value.items, read);
    }
  }

  lemma {:induction false} StringChoicesRead(v: Option<Json>, text: string)
    requires StringChoices(v).Valid?
    ensures StringChoices(v).value.None? <==> OffersNone(v)
    ensures StringChoices(v).value.Some? ==> (text in StringChoices(v).value.value <==> OffersText(v, text))
    ensures StringChoices(v).value.None? ==> !OffersText(v, text)
  {
    ChoicesRead(v, TextOf, text);
    if StringChoices(v).value.Some? && OffersText(v, text) {
      var k :| 0 <= k < |v.value.items| && v.value.items[k] == Text(text);
      assert TextOf(v.value.items[k]) == Some(text);
    }
  }

  lemma {:induction false} ObjectChoicesRead(v: Option<Json>, text: string)
    requires ObjectChoices(v).Valid?
    ensures ObjectChoices(v).value.None? <==> OffersNone(v)
    ensures ObjectChoices(v).value.Some? ==> (text in ObjectChoices(v).value.value <==> OffersConst(v, text))
    ensures ObjectChoices(v).value.None? ==> !OffersConst(v, text)
  {
    ChoicesRead(v, item => GetText(item, "const"), text);
    if v.Some? && v.value.Array? {
      assert forall k | 0 <= k < |v.value.items| ::
          GetText(v.value.items[k], "const") == Some(text) <==> Get(v.value.items[k], "const") == Some(Text(text));
    }
  }

  lemma {:induction false} ChoiceIffOffered(texts: seq<string>, strings: Option<Json>, objects: Option<Json>)
    requires ChoicesAccepted(strings, objects)
    ensures ChoiceAccepted(texts, strings, objects)
            <==> forall k | 0 <= k < |texts| :: Offered(strings, objects, texts[k])
  {
    forall text: string
      ensures
        var allowed := if StringChoices(strings).value.Some? then StringChoices(strings).value
                       else ObjectChoices(objects).value;
        Offered(strings, objects, text) <==> (allowed.Some? ==> text in allowed.value)
    {
      StringChoicesRead(strings, text);
      ObjectChoicesRead(objects, text);
    }
  }

  lemma {:induction false} LengthIffBounds(n: nat, minimum: Option<Json>, maximum: Option<Json>)
    requires LengthBounds(minimum, maximum)
    ensures LengthAccepted(n, minimum, maximum) <==> AtLeast(minimum, n as real) && AtMost(maximum, n as real)
  {
  }

  // ---- One field --------------------------------------------------------------------------------

  lemma {:induction false} StringIffConforms(e: Engine, value: Json, schema: Json)
    requires GetText(schema, "type") == Some("string") && ShapeAccepted(e, schema)
    ensures FieldAccepted(e, value, schema) <==> Conforms(e, value, schema)
  {
    if value.Text? {
      LengthIffBounds(|value.text|, Get(schema, "minLength"), Get(schema, "maxLength"));
      ChoiceIffOffered([value.text], Get(schema, "enum"), Get(schema, "oneOf"));
      assert [value.text][0] == value.text;
    }
  }

  lemma {:induction false} NumberIffConforms(e: Engine, value: Json, schema: Json)
    requires GetText(schema, "type") == Some("number") || GetText(schema, "type") == Some("integer")
    requires ShapeAccepted(e, schema)
    ensures FieldAccepted(e, value, schema) <==> Conforms(e, value, schema)
  {
  }

  lemma {:induction false} SelectionsDistinct(items: seq<Json>)
    requires Texts(items, TextOf).Valid?
    ensures NoDuplicates(Texts(items, TextOf).value) <==> forall j, k | 0 <= j < k < |items| :: items[j] != items[k]
  {
    var texts := Texts(items, TextOf).value;
    TextsRead(items, TextOf);
    NoDuplicatesMeans(texts);
    assert forall k | 0 <= k < |items| :: TextOf(items[k]) == Some(texts[k]) && items[k] == Text(texts[k]);
  }

  lemma {:induction false} ArrayIffConforms(e: Engine, value: Json, schema: Json)
    requires GetText(schema, "type") == Some("array") && ShapeAccepted(e, schema)
    ensures FieldAccepted(e, value, schema) <==> Conforms(e, value, schema)
  {
    if value.Array? {
      TextsRead(value.items, TextOf);
      if Texts(value.items, TextOf).Valid? {
        var texts := Texts(value.items, TextOf).value;
        var items := Get(schema, "items").value;
        LengthIffBounds(|texts|, Get(schema, "minItems"), Get(schema, "maxItems"));
        SelectionsDistinct(value.items);
        ChoiceIffOffered(texts, Get(items, "enum"), Get(items, "anyOf"));
        assert forall k | 0 <= k < |texts| ::
            TextOf(value.items[k]) == Some(texts[k]) && value.items[k].text == texts[k];
      }
    }
  }

  /** For a property that the schema validator accepts, the response validator accepts exactly the values
      that conform. */
  lemma {:induction false} FieldIffConforms(e: Engine, value: Json, schema: Json)
    requires PropertyAccepted(e, schema)
    ensures FieldAccepted(e, value, schema) <==> Conforms(e, value, schema)
  {
    match GetText(schema, "type")
    case None =>
    case Some(kind) =>
      if kind == "string" {
        StringIffConforms(e, value, schema);
      } else if kind == "number" || kind == "integer" {
        NumberIffConforms(e, value, schema);
      } else if kind == "array" {
        ArrayIffConforms(e, value, schema);
      }
  }

  // ---- Whole forms ------------------------------------------------------------------------------

  ghost predicate AcceptedForm(e: Engine, request: Json) {
    RequestAccepted(e, request) && GetText(request, "mode") == Some("form")
  }

  /** The declared properties of an accepted form. */
  ghost function Declared(request: Json): map<string, Json> {
    var schema := Get(request, "requestedSchema");
    if schema.Some? && Properties(schema.value).Valid? then Properties(schema.value).value else map[]
  }

  /** The name is listed as required. */
  ghost predicate Required(request: Json, name: string) {
    var schema := Get(request, "requestedSchema");
    && schema.Some?
    && OffersText(Get(schema.value, "required"), name)
  }

  lemma {:induction false} RequiredRead(schema: Json, name: string)
    requires StringArray(Get(schema, "required")).Valid?
    ensures name in StringArray(Get(schema, "required")).value <==> OffersText(Get(schema, "required"), name)
  {
    var v := Get(schema, "required");
    if Present(v).Some? {
      TextsRead(v.value.items, TextOf);
      if OffersText(v, name) {
        var k :| 0 <= k < |v.value.items| && v.value.items[k] == Text(name);
        assert TextOf(v.value.items[k]) == Some(name);
      }
    }
  }

  ghost function Content(response: Json): map<string, Json> {
    var content := Present(Get(response, "content"));
    if content.Some? && content.value.Object? then content.value.fields else map[]
  }

  ghost predicate ContentConforms(e: Engine, request: Json, content: map<string, Json>) {
    && (forall name | Required(request, name) :: name in content)
    && (forall name | name in content ::
          name in Declared(request) && Conforms(e, content[name], Declared(request)[name]))
  }

  lemma {:induction false} ContentIffConforms(e: Engine, request: Json, content: map<string, Json>)
    requires AcceptedForm(e, request)
    ensures ContentAccepted(e, Get(request, "requestedSchema").value, content) <==> ContentConforms(e, request, content)
  {
    var schema := Get(request, "requestedSchema").value;
    var required := StringArray(Get(schema, "required")).value;
    forall name: string ensures name in required <==> Required(request, name) {
      RequiredRead(schema, name);
    }
    forall name | name in content && name in Declared(request)
      ensures FieldAccepted(e, content[name], Declared(request)[name])
              <==> Conforms(e, content[name], Declared(request)[name])
    {
      FieldIffConforms(e, content[name], Declared(request)[name]);
    }
  }

  /** An answer to an accepted form is accepted exactly when its content is absent or an object that has
      every required field and only declared ones, each with a value of its declared type, within its
      bounds and among its choices. */
  lemma {:induction false} AcceptedExactlyWhenConforming(e: Engine, request: Json, response: Json)
    requires AcceptedForm(e, request) && GetText(response, "action") == Some("accept")
    ensures ResponseAccepted(e, request, response) <==>
            && (Present(Get(response, "content")).Some? ==> Get(response, "content").value.Object?)
            && ContentConforms(e, request, Content(response))
  {
    ContentIffConforms(e, request, Content(response));
  }

  function Accepting(content: map<string, Json>): Json {
    Object(map["action" := Text("accept"), "content" := Object(content)])
  }

  /** Any part of the defaults that covers the required names is an accepted answer. */
  lemma {:induction false} DefaultsAreAccepted(e: Engine, request: Json, content: map<string, Json>)
    requires AcceptedForm(e, request)
    requires forall name | name in content ::
               && name in Declared(request) && KnownType(Declared(request)[name])
               && Present(Get(Declared(request)[name], "default")) == Some(content[name])
    requires forall name | Required(request, name) :: name in content
    ensures ResponseAccepted(e, request, Accepting(content))
  {
    hide FieldAccepted, PropertyAccepted;
    var schema := Get(request, "requestedSchema").value;
    forall name | name in StringArray(Get(schema, "required")).value ensures name in content {
      RequiredRead(schema, name);
    }
    assert Content(Accepting(content)) == content;
    forall name | name in content ensures FieldAccepted(e, content[name], Declared(request)[name]) {
      DefaultFits(e, Declared(request)[name], content[name]);
    }
  }

  lemma {:induction false} DefaultFits(e: Engine, schema: Json, v: Json)
    requires PropertyAccepted(e, schema) && KnownType(schema) && Present(Get(schema, "default")) == Some(v)
    ensures FieldAccepted(e, v, schema)
  {
  }

  ghost predicate Answerable(e: Engine, request: Json) {
    exists content :: ResponseAccepted(e, request, Accepting(content))
  }

  ghost predicate HasValue(e: Engine, schema: Json) {
    exists v :: Conforms(e, v, schema)
  }

  ghost function SomeValue(e: Engine, schema: Json): (v: Json)
    ensures HasValue(e, schema) ==> Conforms(e, v, schema)
  {
    if HasValue(e, schema) then var v :| Conforms(e, v, schema); v else Null
  }

  lemma {:induction false} AnswerNeedsValues(e: Engine, request: Json, content: map<string, Json>, name: string)
    requires AcceptedForm(e, request) && ResponseAccepted(e, request, Accepting(content)) && Required(request, name)
    ensures name in Declared(request) && HasValue(e, Declared(request)[name])
  {
    AcceptedExactlyWhenConforming(e, request, Accepting(content));
    assert Content(Accepting(content)) == content;
    assert Conforms(e, content[name], Declared(request)[name]);
  }

  lemma {:induction false} ValuesAnswer(e: Engine, request: Json)
    requires AcceptedForm(e, request)
    requires forall name | Required(request, name) :: name in Declared(request) && HasValue(e, Declared(request)[name])
    ensures Answerable(e, request)
  {
    hide Conforms, RequestAccepted, Declared, Required;
    var content := map name | name in Declared(request) && Required(request, name) ::
        SomeValue(e, Declared(request)[name]);
    AcceptedExactlyWhenConforming(e, request, Accepting(content));
    assert Content(Accepting(content)) == content;
    assert ResponseAccepted(e, request, Accepting(content));
  }

  /** A form can be answered exactly when every required property has a value that conforms. */
  lemma {:induction false} AnswerableExactlyWhenRequiredAre(e: Engine, request: Json)
    requires AcceptedForm(e, request)
    ensures Answerable(e, request) <==>
            forall name | Required(request, name) :: name in Declared(request) && HasValue(e, Declared(request)[name])
  {
    if Answerable(e, request) {
      var content :| ResponseAccepted(e, request, Accepting(content));
      forall name | Required(request, name)
        ensures name in Declared(request) && HasValue(e, Declared(request)[name])
      {
        AnswerNeedsValues(e, request, content, name);
      }
    } else if forall name | Required(request, name) ::
      name in Declared(request) && HasValue(e, Declared(request)[name]) {
      ValuesAnswer(e, request);
    }
  }

  /** Nothing conforms to a property of an unknown type, so requiring one makes a form unanswerable even
      though the schema validator accepts it. */
  lemma {:induction false} UnknownTypesAreUnanswerable(e: Engine, request: Json, response: Json, name: string)
    requires AcceptedForm(e, request) && GetText(response, "action") == Some("accept")
    requires Required(request, name) && name in Declared(request) && !KnownType(Declared(request)[name])
    ensures !ResponseAccepted(e, request, response)
  {
    RequiredRead(Get(request, "requestedSchema").value, name);
  }

  /** A form that requires the field `day` of a type that neither validator knows. */
  function DayForm(): Json {
    Object(map["message" := Text("When?"), "sessionId" := Text("s"), "mode" := Text("form"),
               "requestedSchema" := Object(map["required" := Array([Text("day")]),
                                               "properties" := Object(map["day" := DayProperty()])])])
  }

  function DayProperty(): Json {
    Object(map["type" := Text("date")])
  }

  lemma {:induction false} DayRequired()
    ensures StringArray(Some(Array([Text("day")]))) == Valid(["day"]) && NoDuplicates(["day"])
  {
    var items := [Text("day")];
    TextsRead(items, TextOf);
    NoDuplicatesMeans(["day"]);
    var texts := Texts(items, TextOf).value;
    assert TextOf(items[0]) == Some(texts[0]);
    assert texts == ["day"];
  }

  lemma {:induction false} DayFormIsAccepted(e: Engine)
    ensures AcceptedForm(e, DayForm()) && Required(DayForm(), "day")
    ensures Declared(DayForm()) == map["day" := DayProperty()] && !KnownType(DayProperty())
  {
    DayRequired();
    var schema := Get(DayForm(), "requestedSchema").value;
    assert Get(schema, "required") == Some(Array([Text("day")]));
    assert Get(schema, "properties") == Some(Object(map["day" := DayProperty()]));
    assert JsLength("s") == 1 + JsLength("s"[1..]);
    assert Text("day") in [Text("day")];
  }

  /** An accepted form that cannot be answered. */
  lemma {:induction false} AcceptedButUnanswerable(e: Engine)
    ensures exists request :: AcceptedForm(e, request) && !Answerable(e, request)
  {
    DayFormIsAccepted(e);
    if Answerable(e, DayForm()) {
      var content :| ResponseAccepted(e, DayForm(), Accepting(content));
      UnknownTypesAreUnanswerable(e, DayForm(), Accepting(content), "day");
    }
  }

  /** The least integer that is not below the bound. */
  function Ceiling(x: real): int {
    -((-x).Floor)
  }

  lemma {:induction false} CeilingIsLeast(x: real, low: real)
    ensures low <= Ceiling(low) as real
    ensures IsInteger(x) && low <= x ==> Ceiling(low) <= x.Floor
  {
  }

  function NumericBound(bound: Option<Json>): Option<real> {
    if bound.Some? && bound.value.Number? then Some(bound.value.number) else None
  }

  predicate Within(x: real, low: Option<real>, high: Option<real>) {
    (low.Some? ==> low.value <= x) && (high.Some? ==> x <= high.value)
  }

  lemma {:induction false} NumericConforms(e: Engine, v: Json, schema: Json, kind: string)
    requires kind in {"number", "integer"} && Get(schema, "type") == Some(Text(kind))
    ensures Conforms(e, v, schema) <==>
            && v.Number? && (kind == "integer" ==> IsInteger(v.number))
            && Within(v.number, NumericBound(Get(schema, "minimum")), NumericBound(Get(schema, "maximum")))
  {
  }

  /** The least integer within the bounds if there is one. */
  function LeastWithin(low: Option<real>, high: Option<real>): int {
    if low.Some? then Ceiling(low.value) else if high.Some? then high.value.Floor else 0
  }

  /** An accepted integer property has a conforming value exactly when it has not both bounds or an integer
      lies between them: the schema validator compares the bounds as numbers only. */
  lemma {:induction false} IntegerAnswerable(e: Engine, schema: Json)
    requires PropertyAccepted(e, schema) && GetText(schema, "type") == Some("integer")
    ensures
      var low, high := NumericBound(Get(schema, "minimum")), NumericBound(Get(schema, "maximum"));
      HasValue(e, schema) <==> (low.Some? && high.Some? ==> Ceiling(low.value) <= high.value.Floor)
  {
    var low, high := NumericBound(Get(schema, "minimum")), NumericBound(Get(schema, "maximum"));
    if HasValue(e, schema) {
      var v :| Conforms(e, v, schema);
      NumericConforms(e, v, schema, "integer");
      if low.Some? {
        CeilingIsLeast(v.number, low.value);
      }
    }
    var least := Number(LeastWithin(low, high) as real);
    if low.Some? {
      CeilingIsLeast(least.number, low.value);
    }
    NumericConforms(e, least, schema, "integer");
  }

  /** An accepted number property always has a conforming value. */
  lemma {:induction false} NumberAnswerable(e: Engine, schema: Json)
    requires PropertyAccepted(e, schema) && GetText(schema, "type") == Some("number")
    ensures HasValue(e, schema)
  {
    var low, high := NumericBound(Get(schema, "minimum")), NumericBound(Get(schema, "maximum"));
    var x := if low.Some? then low.value else if high.Some? then high.value else 0.0;
    NumericConforms(e, Number(x), schema, "number");
    assert Conforms(e, Number(x), schema);
  }

  /** Such a form exists: bounds between two integers pass the schema validator. */
  lemma {:induction false} BoundsWithoutIntegers(e: Engine)
    ensures
      var schema := Object(map["type" := Text("integer"), "minimum" := Number(0.25), "maximum" := Number(0.75)]);
      PropertyAccepted(e, schema) && !HasValue(e, schema)
  {
    var schema := Object(map["type" := Text("integer"), "minimum" := Number(0.25), "maximum" := Number(0.75)]);
    assert PropertyAccepted(e, schema);
    IntegerAnswerable(e, schema);
  }
}
