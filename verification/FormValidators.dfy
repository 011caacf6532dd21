/** The validators' loops, against the predicates they decide. */
module FormValidators {
  import opened Json
  import opened FormValidation
  import opened FormAgreement
  import FormSchemas

  lemma {:induction false} DuplicateStays(required: seq<string>, i: nat)
    requires i < |required| && required[i] in required[..i]
    ensures !NoDuplicates(required)
  {
    NoDuplicatesMeans(required);
    var j :| 0 <= j < i && required[..i][j] == required[i];
    assert required[j] == required[i];
  }

  lemma {:induction false} OneMore(required: seq<string>, i: nat)
    requires i < |required| && required[i] !in Members(required[..i]) && NoDuplicates(required[..i])
    ensures Members(required[..i + 1]) == Members(required[..i]) + {required[i]} && NoDuplicates(required[..i + 1])
  {
    assert required[..i + 1] == required[..i] + [required[i]];
    assert Members(required[..i + 1]) == Members(required[..i]) + {required[i]};
  }

  /** Whether the required names are distinct properties, by filling a set. */
  method CheckRequired(required: seq<string>, properties: map<string, Json>) returns (ok: bool)
    ensures ok <==> NoDuplicates(required) && forall name | name in required :: name in properties
  {
    var unique: set<string> := {};
    var i := 0;
    while i < |required|
      invariant 0 <= i <= |required|
      invariant unique == Members(required[..i]) && NoDuplicates(required[..i])
      invariant forall k | 0 <= k < i :: required[k] in properties
    {
      if required[i] in unique {
        DuplicateStays(required, i);
        return false;
      }
      if required[i] !in properties {
        return false;
      }
      OneMore(required, i);
      unique := unique + {required[i]};
      i := i + 1;
    }
    assert required[..i] == required;
    ok := true;
  }

  predicate NamedPropertyAccepted(e: Engine, properties: map<string, Json>, name: string)
    requires name in properties
  {
    name != "" && PropertyAccepted(e, properties[name])
  }

  method CheckProperties(e: Engine, properties: map<string, Json>) returns (ok: bool)
    ensures ok <==> forall name | name in properties :: NamedPropertyAccepted(e, properties, name)
  {
    var rest := properties.Keys;
    while rest != {}
      invariant rest <= properties.Keys
      invariant forall name | name in properties && name !in rest :: NamedPropertyAccepted(e, properties, name)
      decreases |rest|
    {
      var name :| name in rest;
      if !NamedPropertyAccepted(e, properties, name) {
        return false;
      }
      rest := rest - {name};
    }
    ok := true;
  }

  predicate NamedFieldAccepted(e: Engine, properties: map<string, Json>, content: map<string, Json>, name: string)
    requires name in content
  {
    name in properties && FieldAccepted(e, content[name], properties[name])
  }

  method CheckFields(e: Engine, properties: map<string, Json>, content: map<string, Json>) returns (ok: bool)
    ensures ok <==> forall name | name in content :: NamedFieldAccepted(e, properties, content, name)
  {
    var rest := content.Keys;
    while rest != {}
      invariant rest <= content.Keys
      invariant forall name | name in content && name !in rest :: NamedFieldAccepted(e, properties, content, name)
      decreases |rest|
    {
      var name :| name in rest;
      if !NamedFieldAccepted(e, properties, content, name) {
        return false;
      }
      rest := rest - {name};
    }
    ok := true;
  }

  method ValidateSchema(e: Engine, schema: Json) returns (ok: bool)
    ensures ok <==> SchemaAccepted(e, schema)
    ensures ok <==> FormSchemas.SchemaSound(e, schema)
  {
    FormSchemas.SchemaIffSound(e, schema);
    hide FormSchemas.SchemaSound;
    var properties := Properties(schema);
    var required := StringArray(Get(schema, "required"));
    if properties.Malformed? || required.Malformed? {
      return false;
    }
    var listed := CheckRequired(required.value, properties.value);
    if !listed {
      return false;
    }
    ok := CheckProperties(e, properties.value);
    assert forall name | name in properties.value ::
        NamedPropertyAccepted(e, properties.value, name)
        <==> (name != "" && PropertyAccepted(e, properties.value[name]));
  }

  method ValidateContent(e: Engine, schema: Json, content: map<string, Json>) returns (ok: bool)
    ensures ok <==> ContentAccepted(e, schema, content)
  {
    var properties := Properties(schema);
    var required := StringArray(Get(schema, "required"));
    if properties.Malformed? || required.Malformed? {
      return false;
    }
    var i := 0;
    while i < |required.value|
      invariant 0 <= i <= |required.value|
      invariant forall k | 0 <= k < i :: required.value[k] in content
    {
      if required.value[i] !in content {
        return false;
      }
      i := i + 1;
    }
    ok := CheckFields(e, properties.value, content);
  }
}
