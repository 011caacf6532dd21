/** The traversal position by position is one pass over the tree. */
module AttachmentPass {
  import opened Json
  import opened Attachments

  // ---- One part at a time ----------------------------------------------------------------------

  lemma {:induction false} ContentIsRewrite(v: Json, f: Json -> Json)
    ensures VisitContent(v, f) == Rewrite(Content, v, f)
  {
  }

  lemma {:induction false} ContentsAreRewrite(v: Json, f: Json -> Json)
    requires v.Array?
    ensures Array(seq(|v.items|, k requires 0 <= k < |v.items| => VisitContent(v.items[k], f)))
            == Rewrite(Contents, v, f)
  {
    forall k | 0 <= k < |v.items| ensures VisitContent(v.items[k], f) == Rewrite(Content, v.items[k], f) {
      ContentIsRewrite(v.items[k], f);
    }
  }

  /** One unfolding of the pass over an object. */
  lemma {:induction false} RewriteObject(role: Role, v: Json, f: Json -> Json)
    requires role != Block && role != Opaque && v.Object?
    ensures Rewrite(role, v, f).Object? && Rewrite(role, v, f).fields.Keys == v.fields.Keys
    ensures forall key | key in v.fields ::
              Rewrite(role, v, f).fields[key] == Rewrite(Child(role, v, key), v.fields[key], f)
  {
  }

  lemma {:induction false} RewriteArray(role: Role, v: Json, f: Json -> Json)
    requires role != Block && role != Opaque && v.Array?
    ensures Rewrite(role, v, f).Array? && |Rewrite(role, v, f).items| == |v.items|
    ensures forall k | 0 <= k < |v.items| :: Rewrite(role, v, f).items[k] == Rewrite(Element(role), v.items[k], f)
  {
  }

  lemma {:induction false} SameFields(a: map<string, Json>, b: map<string, Json>)
    requires a.Keys == b.Keys && forall key | key in a :: a[key] == b[key]
    ensures a == b
  {
  }

  lemma {:induction false} SameItems(a: seq<Json>, b: seq<Json>)
    requires |a| == |b| && forall k | 0 <= k < |a| :: a[k] == b[k]
    ensures a == b
  {
  }

  /** Nothing below the node plays a part. */
  ghost predicate Barren(role: Role, v: Json) {
    && (v.Object? ==> forall key | key in v.fields :: Child(role, v, key) == Opaque)
    && (v.Array? ==> Element(role) == Opaque)
  }

  lemma {:induction false} BarrenIsKept(role: Role, v: Json, f: Json -> Json)
    requires role != Block && Barren(role, v)
    ensures Rewrite(role, v, f) == v
  {
    if role != Opaque {
      match v
      case Object(fields) =>
        RewriteObject(role, v, f);
        SameFields(Rewrite(role, v, f).fields, fields);
      case Array(items) =>
        RewriteArray(role, v, f);
        SameItems(Rewrite(role, v, f).items, items);
      case _ =>
    }
  }

  /** Only one field of the object plays a part. */
  lemma {:induction false} OneFieldIsRewrite(role: Role, v: Json, key: string, w: Json, f: Json -> Json)
    requires role != Block && role != Opaque && v.Object? && key in v.fields
    requires forall k | k in v.fields && k != key :: Child(role, v, k) == Opaque
    requires w == Rewrite(Child(role, v, key), v.fields[key], f)
    ensures Object(v.fields[key := w]) == Rewrite(role, v, f)
  {
    RewriteObject(role, v, f);
    SameFields(v.fields[key := w], Rewrite(role, v, f).fields);
  }

  lemma {:induction false} ToolCallIsRewrite(v: Json, f: Json -> Json)
    ensures VisitToolCall(v, f) == Rewrite(ToolCall, v, f)
  {
    if v.Object? && "content" in v.fields {
      var contents := v.fields["content"];
      if contents.Array? {
        ContentsAreRewrite(contents, f);
      } else {
        BarrenIsKept(Contents, contents, f);
        assert v.fields["content" := contents] == v.fields;
      }
      OneFieldIsRewrite(ToolCall, v, "content", Rewrite(Contents, contents, f), f);
    } else {
      BarrenIsKept(ToolCall, v, f);
    }
  }

  lemma {:induction false} KindsDiffer(v: Json)
    ensures !(IsToolUpdate(v) && IsChunk(v))
  {
  }

  /** A tool update's contents play the part of a tool call's. */
  lemma {:induction false} ToolUpdateChildren(v: Json, key: string)
    requires IsToolUpdate(v)
    ensures Child(Update, v, key) == Child(ToolCall, v, key)
  {
    KindsDiffer(v);
  }

  lemma {:induction false} ToolUpdateIsRewrite(v: Json, f: Json -> Json)
    requires IsToolUpdate(v)
    ensures VisitToolCall(v, f) == Rewrite(Update, v, f)
  {
    ToolCallIsRewrite(v, f);
    RewriteObject(Update, v, f);
    RewriteObject(ToolCall, v, f);
    forall key | key in v.fields ensures Child(Update, v, key) == Child(ToolCall, v, key) {
      ToolUpdateChildren(v, key);
    }
    SameFields(Rewrite(Update, v, f).fields, Rewrite(ToolCall, v, f).fields);
  }

  lemma {:induction false} UpdateIsRewrite(v: Json, f: Json -> Json)
    ensures Visit(OneUpdate, v, f) == Rewrite(Update, v, f)
  {
    if IsChunk(v) && "content" in v.fields {
      OneFieldIsRewrite(Update, v, "content", f(v.fields["content"]), f);
    } else if IsToolUpdate(v) {
      KindsDiffer(v);
      ToolUpdateIsRewrite(v, f);
    } else {
      BarrenIsKept(Update, v, f);
    }
  }

  /** A pointer step to the one field that plays a part. */
  lemma {:induction false} UnderIsRewrite(role: Role, key: string, part: Part, v: Json, f: Json -> Json)
    requires role != Block && role != Opaque && Element(role) == Opaque
    requires v.Object? ==> forall k | k in v.fields && k != key :: Child(role, v, k) == Opaque
    requires v.Object? && key in v.fields ==>
               Visit(part, v.fields[key], f) == Rewrite(Child(role, v, key), v.fields[key], f)
    ensures Visit(Under(key, part), v, f) == Rewrite(role, v, f)
  {
    if v.Object? && key in v.fields {
      OneFieldIsRewrite(role, v, key, Visit(part, v.fields[key], f), f);
    } else {
      BarrenIsKept(role, v, f);
    }
  }

  lemma {:induction false} EachIsRewrite(role: Role, part: Part, v: Json, f: Json -> Json)
    requires role in {Updates, Lists, Prompt}
    requires v.Array? ==> forall k | 0 <= k < |v.items| ::
               Visit(part, v.items[k], f) == Rewrite(Element(role), v.items[k], f)
    ensures Visit(Each(part), v, f) == Rewrite(role, v, f)
  {
    if v.Array? {
      RewriteArray(role, v, f);
      SameItems(Visit(Each(part), v, f).items, Rewrite(role, v, f).items);
    } else {
      BarrenIsKept(role, v, f);
    }
  }

  lemma {:induction false} UpdatesAreRewrite(v: Json, f: Json -> Json)
    ensures Visit(Each(OneUpdate), v, f) == Rewrite(Updates, v, f)
  {
    if v.Array? {
      forall k | 0 <= k < |v.items| ensures Visit(OneUpdate, v.items[k], f) == Rewrite(Update, v.items[k], f) {
        UpdateIsRewrite(v.items[k], f);
      }
    }
    EachIsRewrite(Updates, OneUpdate, v, f);
  }

  lemma {:induction false} ListsAreRewrite(v: Json, f: Json -> Json)
    ensures Visit(Each(Each(OneUpdate)), v, f) == Rewrite(Lists, v, f)
  {
    if v.Array? {
      forall k | 0 <= k < |v.items| ensures Visit(Each(OneUpdate), v.items[k], f) == Rewrite(Updates, v.items[k], f) {
        UpdatesAreRewrite(v.items[k], f);
      }
    }
    EachIsRewrite(Lists, Each(OneUpdate), v, f);
  }

  lemma {:induction false} PromptIsRewrite(v: Json, f: Json -> Json)
    ensures Visit(Each(OneBlock), v, f) == Rewrite(Prompt, v, f)
  {
    EachIsRewrite(Prompt, OneBlock, v, f);
  }

  const REQUEST := Under("toolCall", OneToolCall)

  lemma {:induction false} InteractionIsRewrite(v: Json, f: Json -> Json)
    ensures Visit(Under("request", REQUEST), v, f) == Rewrite(Interaction, v, f)
  {
    if v.Object? && "request" in v.fields {
      var request := v.fields["request"];
      if request.Object? && "toolCall" in request.fields {
        ToolCallIsRewrite(request.fields["toolCall"], f);
      }
      UnderIsRewrite(Request, "toolCall", OneToolCall, request, f);
    }
    UnderIsRewrite(Interaction, "request", REQUEST, v, f);
  }

  lemma {:induction false} PermissionsAreRewrite(v: Json, f: Json -> Json)
    ensures Visit(EachValue(Under("request", REQUEST)), v, f) == Rewrite(Permissions, v, f)
  {
    if v.Object? {
      PermissionFieldsAreRewrite(v, f);
    } else {
      BarrenIsKept(Permissions, v, f);
    }
  }

  lemma {:induction false} PermissionFieldsAreRewrite(v: Json, f: Json -> Json)
    requires v.Object?
    ensures Visit(EachValue(Under("request", REQUEST)), v, f) == Rewrite(Permissions, v, f)
  {
    hide Rewrite;
    forall key | key in v.fields
      ensures Visit(Under("request", REQUEST), v.fields[key], f) == Rewrite(Interaction, v.fields[key], f)
    {
      InteractionIsRewrite(v.fields[key], f);
    }
    RewriteObject(Permissions, v, f);
    SameFields(Visit(EachValue(Under("request", REQUEST)), v, f).fields, Rewrite(Permissions, v, f).fields);
  }

  lemma {:induction false} PendingIsRewrite(v: Json, f: Json -> Json)
    ensures Visit(Under("permissions", EachValue(Under("request", REQUEST))), v, f) == Rewrite(Pending, v, f)
  {
    if v.Object? && "permissions" in v.fields {
      PermissionsAreRewrite(v.fields["permissions"], f);
    }
    UnderIsRewrite(Pending, "permissions", EachValue(Under("request", REQUEST)), v, f);
  }

  lemma {:induction false} BaselineIsRewrite(v: Json, f: Json -> Json)
    ensures Visit(Under("updates", Each(OneUpdate)), v, f) == Rewrite(Baseline, v, f)
  {
    if v.Object? && "updates" in v.fields {
      UpdatesAreRewrite(v.fields["updates"], f);
    }
    UnderIsRewrite(Baseline, "updates", Each(OneUpdate), v, f);
  }

  /** Two fields play a part, visited one after the other. */
  lemma {:induction false} TwoFieldsAreRewrite(role: Role, a: string, p: Part, b: string, q: Part, v: Json,
                                               f: Json -> Json)
    requires a != b && role != Block && role != Opaque && Element(role) == Opaque
    requires v.Object? ==> forall k | k in v.fields && k != a && k != b :: Child(role, v, k) == Opaque
    requires v.Object? && a in v.fields ==> Visit(p, v.fields[a], f) == Rewrite(Child(role, v, a), v.fields[a], f)
    requires v.Object? && b in v.fields ==> Visit(q, v.fields[b], f) == Rewrite(Child(role, v, b), v.fields[b], f)
    ensures Visit(Under(b, q), Visit(Under(a, p), v, f), f) == Rewrite(role, v, f)
  {
    if v.Object? {
      TwoFieldsOfObject(role, a, p, b, q, v, f);
    } else {
      BarrenIsKept(role, v, f);
    }
  }

  lemma {:induction false} TwoFieldsOfObject(role: Role, a: string, p: Part, b: string, q: Part, v: Json,
                                             f: Json -> Json)
    requires a != b && role != Block && role != Opaque && v.Object?
    requires forall k | k in v.fields && k != a && k != b :: Child(role, v, k) == Opaque
    requires a in v.fields ==> Visit(p, v.fields[a], f) == Rewrite(Child(role, v, a), v.fields[a], f)
    requires b in v.fields ==> Visit(q, v.fields[b], f) == Rewrite(Child(role, v, b), v.fields[b], f)
    ensures Visit(Under(b, q), Visit(Under(a, p), v, f), f) == Rewrite(role, v, f)
  {
    hide Child;
    var w := Visit(Under(a, p), v, f);
    var u := Visit(Under(b, q), w, f);
    RewriteObject(role, v, f);
    forall k | k in v.fields ensures k in u.fields && u.fields[k] == Rewrite(Child(role, v, k), v.fields[k], f) {
      assert k != a ==> w.fields[k] == v.fields[k];
      assert k != b ==> u.fields[k] == w.fields[k];
    }
    SameFields(u.fields, Rewrite(role, v, f).fields);
  }

  lemma {:induction false} TurnIsRewrite(v: Json, f: Json -> Json)
    ensures Visit(Under("prompt", Each(OneBlock)), Visit(Under("updates", Each(OneUpdate)), v, f), f)
            == Rewrite(Turn, v, f)
  {
    if v.Object? && "updates" in v.fields {
      UpdatesAreRewrite(v.fields["updates"], f);
    }
    if v.Object? && "prompt" in v.fields {
      PromptIsRewrite(v.fields["prompt"], f);
    }
    TwoFieldsAreRewrite(Turn, "updates", Each(OneUpdate), "prompt", Each(OneBlock), v, f);
  }

  lemma {:induction false} ChangeIsRewrite(v: Json, f: Json -> Json)
    ensures Visit(Under("interaction", Under("request", REQUEST)), Visit(Under("update", OneUpdate), v, f), f)
         == Rewrite(Change, v, f)
  {
    if v.Object? && "update" in v.fields {
      UpdateIsRewrite(v.fields["update"], f);
    }
    if v.Object? && "interaction" in v.fields {
      InteractionIsRewrite(v.fields["interaction"], f);
    }
    TwoFieldsAreRewrite(Change, "update", OneUpdate, "interaction", Under("request", REQUEST), v, f);
  }

  lemma {:induction false} TwiceUnder(key: string, p: Part, q: Part, v: Json, f: Json -> Json)
    requires v.Object? && key in v.fields
    ensures Visit(Under(key, q), Visit(Under(key, p), v, f), f)
         == Object(v.fields[key := Visit(q, Visit(p, v.fields[key], f), f)])
  {
  }

  lemma {:induction false} SessionIsRewrite(v: Json, f: Json -> Json)
    ensures Visit(Under("activeTurn", Under("prompt", Each(OneBlock))),
                  Visit(Under("activeTurn", Under("updates", Each(OneUpdate))), v, f), f) == Rewrite(Session, v, f)
  {
    if v.Object? && "activeTurn" in v.fields {
      TwiceUnder("activeTurn", Under("updates", Each(OneUpdate)), Under("prompt", Each(OneBlock)), v, f);
      TurnIsRewrite(v.fields["activeTurn"], f);
      OneFieldIsRewrite(Session, v, "activeTurn", Rewrite(Turn, v.fields["activeTurn"], f), f);
    } else {
      BarrenIsKept(Session, v, f);
    }
  }

  // ---- The whole view --------------------------------------------------------------------------

  /** What the first `n` positions make of the view's field. */
  function FieldVisited(key: string, x: Json, n: nat, f: Json -> Json): Json
    requires n <= |POSITIONS|
  {
    if n == 0 then x
    else
      var y := FieldVisited(key, x, n - 1, f);
      if POSITIONS[n - 1].key == key then Visit(POSITIONS[n - 1].part, y, f) else y
  }

  lemma {:induction false} VisitedFields(v: Json, n: nat, f: Json -> Json)
    requires n <= |POSITIONS|
    ensures !v.Object? ==> Visited(v, n, f) == v
    ensures v.Object? ==>
              && Visited(v, n, f).Object? && Visited(v, n, f).fields.Keys == v.fields.Keys
              && forall key | key in v.fields :: Visited(v, n, f).fields[key] == FieldVisited(key, v.fields[key], n, f)
  {
    if n > 0 {
      VisitedFields(v, n - 1, f);
      assert POSITIONS[n - 1].Under?;
    }
  }

  lemma {:induction false} Skips(key: string, x: Json, m: nat, n: nat, f: Json -> Json)
    requires m <= n <= |POSITIONS|
    requires forall i | m <= i < n :: POSITIONS[i].key != key
    ensures FieldVisited(key, x, n, f) == FieldVisited(key, x, m, f)
    decreases n
  {
    if m < n {
      Skips(key, x, m, n - 1, f);
    }
  }

  /** A field with one position. */
  lemma {:induction false} VisitedOnce(key: string, x: Json, i: nat, f: Json -> Json)
    requires i < |POSITIONS| && POSITIONS[i].key == key
    requires forall j | 0 <= j < |POSITIONS| && j != i :: POSITIONS[j].key != key
    ensures FieldVisited(key, x, |POSITIONS|, f) == Visit(POSITIONS[i].part, x, f)
  {
    Skips(key, x, 0, i, f);
    Skips(key, x, i + 1, |POSITIONS|, f);
  }

  /** A field with two positions. */
  lemma {:induction false} VisitedTwice(key: string, x: Json, i: nat, j: nat, f: Json -> Json)
    requires i < j < |POSITIONS| && POSITIONS[i].key == POSITIONS[j].key == key
    requires forall k | 0 <= k < |POSITIONS| && k != i && k != j :: POSITIONS[k].key != key
    ensures FieldVisited(key, x, |POSITIONS|, f) == Visit(POSITIONS[j].part, Visit(POSITIONS[i].part, x, f), f)
  {
    Skips(key, x, 0, i, f);
    Skips(key, x, i + 1, j, f);
    Skips(key, x, j + 1, |POSITIONS|, f);
  }

  lemma {:induction false} SharedFieldIsRewrite(v: Json, key: string, f: Json -> Json)
    requires v.Object? && key in v.fields && key in {"activeTurn", "session", "change"}
    ensures FieldVisited(key, v.fields[key], |POSITIONS|, f) == Rewrite(Child(View, v, key), v.fields[key], f)
  {
    var x := v.fields[key];
    match key
    case "activeTurn" => VisitedTwice(key, x, 1, 5, f); TurnIsRewrite(x, f);
    case "session" => VisitedTwice(key, x, 3, 6, f); SessionIsRewrite(x, f);
    case "change" => VisitedTwice(key, x, 8, 11, f); ChangeIsRewrite(x, f);
  }

  lemma {:induction false} SingleFieldIsRewrite(v: Json, key: string, f: Json -> Json)
    requires v.Object? && key in v.fields
    requires key in {"timeline", "baseline", "prompt", "items", "interactions", "live"}
    ensures FieldVisited(key, v.fields[key], |POSITIONS|, f) == Rewrite(Child(View, v, key), v.fields[key], f)
  {
    var x := v.fields[key];
    match key
    case "timeline" => VisitedOnce(key, x, 0, f); UpdatesAreRewrite(x, f);
    case "baseline" => VisitedOnce(key, x, 2, f); BaselineIsRewrite(x, f);
    case "prompt" => VisitedOnce(key, x, 4, f); PromptIsRewrite(x, f);
    case "items" => VisitedOnce(key, x, 7, f); ListsAreRewrite(x, f);
    case "interactions" => VisitedOnce(key, x, 9, f); PendingIsRewrite(x, f);
    case "live" => VisitedOnce(key, x, 10, f); PendingIsRewrite(x, f);
  }

  lemma {:induction false} FieldIsRewrite(v: Json, key: string, f: Json -> Json)
    requires v.Object? && key in v.fields
    ensures FieldVisited(key, v.fields[key], |POSITIONS|, f) == Rewrite(Child(View, v, key), v.fields[key], f)
  {
    if key in {"activeTurn", "session", "change"} {
      SharedFieldIsRewrite(v, key, f);
    } else if key in {"timeline", "baseline", "prompt", "items", "interactions", "live"} {
      SingleFieldIsRewrite(v, key, f);
    } else {
      Skips(key, v.fields[key], 0, |POSITIONS|, f);
    }
  }

  /** The twelve visits, one after another, are one pass that rewrites each block where it stands. */
  lemma {:induction false} BlocksIsOnePass(v: Json, f: Json -> Json)
    ensures Blocks(v, f) == Rewrite(View, v, f)
  {
    VisitedFields(v, |POSITIONS|, f);
    if v.Object? {
      forall key | key in v.fields
        ensures Blocks(v, f).fields[key] == Rewrite(Child(View, v, key), v.fields[key], f)
      {
        FieldIsRewrite(v, key, f);
      }
      assert Blocks(v, f).fields == Rewrite(View, v, f).fields;
    } else {
      BarrenIsKept(View, v, f);
    }
  }
}
