/** Resolving a link from the original view gives back the block that the link replaced. */
module AttachmentResolution {
  import opened Prelude
  import opened Json
  import opened Attachments
  import opened AttachmentPass
  import opened AttachmentLinks
  import Base64

  // ---- The blocks that are collected are those at block positions --------------------------------

  /** The block stands somewhere below a node playing the part. */
  ghost predicate HasBlock(role: Role, v: Json, b: Json)
    decreases v
  {
    if role == Block then v == b
    else if role == Opaque then false
    else
      match v
      case Object(fields) => exists key :: key in fields && HasBlock(Child(role, v, key), fields[key], b)
      case Array(items) => exists k :: 0 <= k < |items| && HasBlock(Element(role), items[k], b)
      case _ => false
  }

  lemma {:induction false} NothingBelow(role: Role, v: Json, b: Json)
    requires role != Block && Barren(role, v)
    ensures !HasBlock(role, v, b)
  {
  }

  lemma {:induction false} OneFieldHas(role: Role, v: Json, key: string, b: Json)
    requires role != Block && role != Opaque && v.Object? && key in v.fields
    requires forall k | k in v.fields && k != key :: Child(role, v, k) == Opaque
    ensures HasBlock(role, v, b) <==> HasBlock(Child(role, v, key), v.fields[key], b)
  {
  }

  lemma {:induction false} ContentHas(v: Json, b: Json)
    ensures b in CollectContent(v) <==> HasBlock(Content, v, b)
  {
    if IsContent(v) && "content" in v.fields {
      OneFieldHas(Content, v, "content", b);
    } else {
      NothingBelow(Content, v, b);
    }
  }

  lemma {:induction false} CollectedContents(items: seq<Json>, b: Json)
    ensures b in CollectContents(items) <==> exists k :: 0 <= k < |items| && HasBlock(Content, items[k], b)
  {
    if items != [] {
      ContentHas(items[0], b);
      CollectedContents(items[1..], b);
      if k :| 0 <= k < |items| && HasBlock(Content, items[k], b) {
        assert k > 0 ==> items[1..][k - 1] == items[k];
      }
      if k :| 0 <= k < |items[1..]| && HasBlock(Content, items[1..][k], b) {
        assert items[k + 1] == items[1..][k];
      }
    }
  }

  lemma {:induction false} HasItem(role: Role, v: Json, b: Json)
    requires role != Block && role != Opaque && v.Array?
    ensures HasBlock(role, v, b) <==> exists k :: 0 <= k < |v.items| && HasBlock(Element(role), v.items[k], b)
  {
  }

  lemma {:induction false} ContentsHave(v: Json, b: Json)
    ensures v.Array? ==> (b in CollectContents(v.items) <==> HasBlock(Contents, v, b))
    ensures !v.Array? ==> !HasBlock(Contents, v, b)
  {
    if v.Array? {
      CollectedContents(v.items, b);
      HasItem(Contents, v, b);
    } else {
      NothingBelow(Contents, v, b);
    }
  }

  lemma {:induction false} ToolCallHas(v: Json, b: Json)
    ensures b in CollectToolCall(v) <==> HasBlock(ToolCall, v, b)
  {
    if v.Object? && "content" in v.fields {
      OneFieldHas(ToolCall, v, "content", b);
      ContentsHave(v.fields["content"], b);
    } else {
      NothingBelow(ToolCall, v, b);
    }
  }

  lemma {:induction false} ToolUpdateHas(v: Json, b: Json)
    requires IsToolUpdate(v)
    ensures HasBlock(Update, v, b) <==> HasBlock(ToolCall, v, b)
  {
    forall key | key in v.fields ensures Child(Update, v, key) == Child(ToolCall, v, key) {
      ToolUpdateChildren(v, key);
    }
  }

  lemma {:induction false} UpdateHas(v: Json, b: Json)
    ensures b in CollectUpdate(v) <==> HasBlock(Update, v, b)
  {
    if IsToolUpdate(v) {
      KindsDiffer(v);
      ToolCallHas(v, b);
      ToolUpdateHas(v, b);
    } else if IsChunk(v) && "content" in v.fields {
      OneFieldHas(Update, v, "content", b);
    } else {
      NothingBelow(Update, v, b);
    }
  }

  /** The order in which an object's values are visited lists each key. */
  ghost predicate ListsKeys(c: Codec) {
    forall s: set<string>, key: string {:trigger key in c.order(s)} :: key in c.order(s) <==> key in s
  }

  lemma {:induction false} UnderHas(c: Codec, role: Role, key: string, part: Part, v: Json, b: Json)
    requires role != Block && role != Opaque && Element(role) == Opaque
    requires v.Object? ==> forall k | k in v.fields && k != key :: Child(role, v, k) == Opaque
    requires v.Object? && key in v.fields ==>
               (b in Collect(c, part, v.fields[key]) <==> HasBlock(Child(role, v, key), v.fields[key], b))
    ensures b in Collect(c, Under(key, part), v) <==> HasBlock(role, v, b)
  {
    if v.Object? && key in v.fields {
      OneFieldHas(role, v, key, b);
    } else {
      NothingBelow(role, v, b);
    }
  }

  lemma {:induction false} CollectedItems(c: Codec, part: Part, items: seq<Json>, b: Json)
    ensures b in CollectEach(c, part, items) <==> exists k :: 0 <= k < |items| && b in Collect(c, part, items[k])
  {
    if items != [] {
      CollectedItems(c, part, items[1..], b);
      if k :| 0 <= k < |items| && b in Collect(c, part, items[k]) {
        assert k > 0 ==> items[1..][k - 1] == items[k];
      }
      if k :| 0 <= k < |items[1..]| && b in Collect(c, part, items[1..][k]) {
        assert items[k + 1] == items[1..][k];
      }
    }
  }

  lemma {:induction false} CollectedValues(c: Codec, part: Part, fields: map<string, Json>, keys: seq<string>, b: Json)
    ensures b in CollectValues(c, part, fields, keys)
            <==> exists key :: key in keys && key in fields && b in Collect(c, part, fields[key])
  {
    if keys != [] {
      CollectedValues(c, part, fields, keys[1..], b);
      assert forall key :: key in keys <==> key == keys[0] || key in keys[1..];
    }
  }

  lemma {:induction false} EachHas(c: Codec, role: Role, part: Part, v: Json, b: Json)
    requires role in {Updates, Lists, Prompt}
    requires v.Array? ==> forall k | 0 <= k < |v.items| ::
               b in Collect(c, part, v.items[k]) <==> HasBlock(Element(role), v.items[k], b)
    ensures b in Collect(c, Each(part), v) <==> HasBlock(role, v, b)
  {
    if v.Array? {
      CollectedItems(c, part, v.items, b);
    } else {
      NothingBelow(role, v, b);
    }
  }

  lemma {:induction false} UpdatesHave(c: Codec, v: Json, b: Json)
    ensures b in Collect(c, Each(OneUpdate), v) <==> HasBlock(Updates, v, b)
  {
    if v.Array? {
      forall k | 0 <= k < |v.items|
        ensures b in Collect(c, OneUpdate, v.items[k]) <==> HasBlock(Update, v.items[k], b)
      {
        UpdateHas(v.items[k], b);
      }
    }
    EachHas(c, Updates, OneUpdate, v, b);
  }

  lemma {:induction false} ListsHave(c: Codec, v: Json, b: Json)
    ensures b in Collect(c, Each(Each(OneUpdate)), v) <==> HasBlock(Lists, v, b)
  {
    if v.Array? {
      forall k | 0 <= k < |v.items|
        ensures b in Collect(c, Each(OneUpdate), v.items[k]) <==> HasBlock(Updates, v.items[k], b)
      {
        UpdatesHave(c, v.items[k], b);
      }
    }
    EachHas(c, Lists, Each(OneUpdate), v, b);
  }

  lemma {:induction false} PromptHas(c: Codec, v: Json, b: Json)
    ensures b in Collect(c, Each(OneBlock), v) <==> HasBlock(Prompt, v, b)
  {
    EachHas(c, Prompt, OneBlock, v, b);
  }

  lemma {:induction false} RequestHas(c: Codec, v: Json, b: Json)
    ensures b in Collect(c, REQUEST, v) <==> HasBlock(Request, v, b)
  {
    hide HasBlock, CollectToolCall;
    if v.Object? && "toolCall" in v.fields {
      ToolCallHas(v.fields["toolCall"], b);
    }
    UnderHas(c, Request, "toolCall", OneToolCall, v, b);
  }

  lemma {:induction false} InteractionHas(c: Codec, v: Json, b: Json)
    ensures b in Collect(c, Under("request", REQUEST), v) <==> HasBlock(Interaction, v, b)
  {
    if v.Object? && "request" in v.fields {
      RequestHas(c, v.fields["request"], b);
    }
    UnderHas(c, Interaction, "request", REQUEST, v, b);
  }

  lemma {:induction false} CollectedFields(c: Codec, part: Part, v: Json, b: Json)
    requires ListsKeys(c) && v.Object?
    ensures b in Collect(c, EachValue(part), v)
            <==> exists key :: key in v.fields && b in Collect(c, part, v.fields[key])
  {
    hide CollectValues, CollectEach;
    CollectedValues(c, part, v.fields, c.order(v.fields.Keys), b);
    assert forall key :: key in c.order(v.fields.Keys) <==> key in v.fields;
  }

  lemma {:induction false} HasPermission(v: Json, b: Json)
    requires v.Object?
    ensures HasBlock(Permissions, v, b) <==> exists key :: key in v.fields && HasBlock(Interaction, v.fields[key], b)
  {
  }

  lemma {:induction false} PermissionsHave(c: Codec, v: Json, b: Json)
    requires ListsKeys(c)
    ensures b in Collect(c, EachValue(Under("request", REQUEST)), v) <==> HasBlock(Permissions, v, b)
  {
    if v.Object? {
      CollectedFields(c, Under("request", REQUEST), v, b);
      HasPermission(v, b);
      forall key | key in v.fields
        ensures b in Collect(c, Under("request", REQUEST), v.fields[key]) <==> HasBlock(Interaction, v.fields[key], b)
      {
        InteractionHas(c, v.fields[key], b);
      }
    } else {
      NothingBelow(Permissions, v, b);
    }
  }

  lemma {:induction false} PendingHas(c: Codec, v: Json, b: Json)
    requires ListsKeys(c)
    ensures b in Collect(c, Under("permissions", EachValue(Under("request", REQUEST))), v) <==> HasBlock(Pending, v, b)
  {
    if v.Object? && "permissions" in v.fields {
      PermissionsHave(c, v.fields["permissions"], b);
    }
    UnderHas(c, Pending, "permissions", EachValue(Under("request", REQUEST)), v, b);
  }

  lemma {:induction false} BaselineHas(c: Codec, v: Json, b: Json)
    ensures b in Collect(c, Under("updates", Each(OneUpdate)), v) <==> HasBlock(Baseline, v, b)
  {
    if v.Object? && "updates" in v.fields {
      UpdatesHave(c, v.fields["updates"], b);
    }
    UnderHas(c, Baseline, "updates", Each(OneUpdate), v, b);
  }

  lemma {:induction false} TwoFieldsHave(c: Codec, role: Role, k: string, p: Part, l: string, q: Part, v: Json, b: Json)
    requires k != l && role != Block && role != Opaque && Element(role) == Opaque
    requires v.Object? ==> forall m | m in v.fields && m != k && m != l :: Child(role, v, m) == Opaque
    requires v.Object? && k in v.fields ==>
               (b in Collect(c, p, v.fields[k]) <==> HasBlock(Child(role, v, k), v.fields[k], b))
    requires v.Object? && l in v.fields ==>
               (b in Collect(c, q, v.fields[l]) <==> HasBlock(Child(role, v, l), v.fields[l], b))
    ensures b in Collect(c, Under(k, p), v) || b in Collect(c, Under(l, q), v) <==> HasBlock(role, v, b)
  {
    if !v.Object? {
      NothingBelow(role, v, b);
    }
  }

  lemma {:induction false} TurnHas(c: Codec, v: Json, b: Json)
    ensures b in Collect(c, Under("updates", Each(OneUpdate)), v) || b in Collect(c, Under("prompt", Each(OneBlock)), v)
            <==> HasBlock(Turn, v, b)
  {
    if v.Object? && "updates" in v.fields {
      UpdatesHave(c, v.fields["updates"], b);
    }
    if v.Object? && "prompt" in v.fields {
      PromptHas(c, v.fields["prompt"], b);
    }
    TwoFieldsHave(c, Turn, "updates", Each(OneUpdate), "prompt", Each(OneBlock), v, b);
  }

  lemma {:induction false} ChangeHas(c: Codec, v: Json, b: Json)
    ensures || b in Collect(c, Under("update", OneUpdate), v)
            || b in Collect(c, Under("interaction", Under("request", REQUEST)), v)
            <==> HasBlock(Change, v, b)
  {
    if v.Object? && "update" in v.fields {
      UpdateHas(v.fields["update"], b);
    }
    if v.Object? && "interaction" in v.fields {
      InteractionHas(c, v.fields["interaction"], b);
    }
    TwoFieldsHave(c, Change, "update", OneUpdate, "interaction", Under("request", REQUEST), v, b);
  }

  lemma {:induction false} SessionHas(c: Codec, v: Json, b: Json)
    ensures b in Collect(c, Under("activeTurn", Under("updates", Each(OneUpdate))), v)
            || b in Collect(c, Under("activeTurn", Under("prompt", Each(OneBlock))), v)
            <==> HasBlock(Session, v, b)
  {
    if v.Object? && "activeTurn" in v.fields {
      TurnHas(c, v.fields["activeTurn"], b);
      OneFieldHas(Session, v, "activeTurn", b);
    } else {
      NothingBelow(Session, v, b);
    }
  }

  // ---- The whole view --------------------------------------------------------------------------

  predicate FromPosition(c: Codec, v: Json, i: nat, b: Json) {
    i < |POSITIONS| && b in Collect(c, POSITIONS[i], v)
  }

  lemma {:induction false} CollectedNext(c: Codec, v: Json, n: nat, b: Json)
    requires n < |POSITIONS|
    ensures b in Collected(c, v, n + 1) <==> b in Collected(c, v, n) || FromPosition(c, v, n, b)
  {
  }

  lemma {:induction false} CollectedSomewhere(c: Codec, v: Json, n: nat, b: Json)
    requires n <= |POSITIONS|
    ensures b in Collected(c, v, n) <==> exists i :: 0 <= i < n && FromPosition(c, v, i, b)
  {
    hide FromPosition, Collect;
    if n > 0 {
      CollectedSomewhere(c, v, n - 1, b);
      CollectedNext(c, v, n - 1, b);
    }
  }

  /** Below the field `key`, some position of that field collects the block exactly when it is there. */
  ghost predicate Covered(c: Codec, v: Json, key: string, b: Json)
    requires v.Object? && key in v.fields
  {
    HasBlock(Child(View, v, key), v.fields[key], b)
    <==> exists i :: && 0 <= i < |POSITIONS| && POSITIONS[i].key == key
                     && b in Collect(c, POSITIONS[i].part, v.fields[key])
  }

  lemma {:induction false} OnePosition(c: Codec, v: Json, key: string, b: Json, i: nat)
    requires v.Object? && key in v.fields && i < |POSITIONS| && POSITIONS[i].key == key
    requires forall k | 0 <= k < |POSITIONS| && k != i :: POSITIONS[k].key != key
    requires HasBlock(Child(View, v, key), v.fields[key], b) <==> b in Collect(c, POSITIONS[i].part, v.fields[key])
    ensures Covered(c, v, key, b)
  {
  }

  lemma {:induction false} TwoPositions(c: Codec, v: Json, key: string, b: Json, i: nat, j: nat)
    requires v.Object? && key in v.fields && i < j < |POSITIONS| && POSITIONS[i].key == POSITIONS[j].key == key
    requires forall k | 0 <= k < |POSITIONS| && k != i && k != j :: POSITIONS[k].key != key
    requires HasBlock(Child(View, v, key), v.fields[key], b)
             <==> b in Collect(c, POSITIONS[i].part, v.fields[key]) || b in Collect(c, POSITIONS[j].part, v.fields[key])
    ensures Covered(c, v, key, b)
  {
  }

  lemma {:induction false} LonePositions(key: string, i: nat)
    requires (key, i) in [("timeline", 0), ("baseline", 2), ("prompt", 4), ("items", 7), ("interactions", 9),
                          ("live", 10)]
    ensures POSITIONS[i].key == key && forall k | 0 <= k < |POSITIONS| && k != i :: POSITIONS[k].key != key
  {
  }

  lemma {:induction false} PairedPositions(key: string, i: nat, j: nat)
    requires (key, i, j) in [("activeTurn", 1, 5), ("session", 3, 6), ("change", 8, 11)]
    ensures POSITIONS[i].key == POSITIONS[j].key == key
    ensures forall k | 0 <= k < |POSITIONS| && k != i && k != j :: POSITIONS[k].key != key
  {
  }

  lemma {:induction false} SharedFieldCovered(c: Codec, v: Json, key: string, b: Json)
    requires v.Object? && key in v.fields && key in {"activeTurn", "session", "change"}
    ensures Covered(c, v, key, b)
  {
    hide Collect, HasBlock, Covered;
    var x := v.fields[key];
    if key == "activeTurn" {
      TurnHas(c, x, b);
      PairedPositions(key, 1, 5);
      TwoPositions(c, v, key, b, 1, 5);
    } else if key == "session" {
      SessionHas(c, x, b);
      PairedPositions(key, 3, 6);
      TwoPositions(c, v, key, b, 3, 6);
    } else {
      ChangeHas(c, x, b);
      PairedPositions(key, 8, 11);
      TwoPositions(c, v, key, b, 8, 11);
    }
  }

  lemma {:induction false} PendingFieldCovered(c: Codec, v: Json, key: string, b: Json)
    requires ListsKeys(c) && v.Object? && key in v.fields && key in {"interactions", "live"}
    ensures Covered(c, v, key, b)
  {
    var i := if key == "interactions" then 9 else 10;
    PendingHas(c, v.fields[key], b);
    LonePositions(key, i);
    OnePosition(c, v, key, b, i);
  }

  lemma {:induction false} SingleFieldCovered(c: Codec, v: Json, key: string, b: Json)
    requires v.Object? && key in v.fields && key in {"timeline", "baseline", "prompt", "items"}
    ensures Covered(c, v, key, b)
  {
    hide Collect, HasBlock, Covered;
    var x := v.fields[key];
    if key == "timeline" {
      UpdatesHave(c, x, b);
      LonePositions(key, 0);
      OnePosition(c, v, key, b, 0);
    } else if key == "baseline" {
      BaselineHas(c, x, b);
      LonePositions(key, 2);
      OnePosition(c, v, key, b, 2);
    } else if key == "prompt" {
      PromptHas(c, x, b);
      LonePositions(key, 4);
      OnePosition(c, v, key, b, 4);
    } else {
      ListsHave(c, x, b);
      LonePositions(key, 7);
      OnePosition(c, v, key, b, 7);
    }
  }

  lemma {:induction false} OtherFieldCovered(c: Codec, v: Json, key: string, b: Json)
    requires v.Object? && key in v.fields && Child(View, v, key) == Opaque
    ensures Covered(c, v, key, b)
  {
    assert forall i | 0 <= i < |POSITIONS| :: POSITIONS[i].key != key;
  }

  lemma {:induction false} FieldCovered(c: Codec, v: Json, key: string, b: Json)
    requires ListsKeys(c) && v.Object? && key in v.fields
    ensures Covered(c, v, key, b)
  {
    if key in {"activeTurn", "session", "change"} {
      SharedFieldCovered(c, v, key, b);
    } else if key in {"timeline", "baseline", "prompt", "items"} {
      SingleFieldCovered(c, v, key, b);
    } else if key in {"interactions", "live"} {
      PendingFieldCovered(c, v, key, b);
    } else {
      OtherFieldCovered(c, v, key, b);
    }
  }

  lemma {:induction false} PositionIsUnder(c: Codec, v: Json, i: nat)
    requires i < |POSITIONS|
    ensures Collect(c, POSITIONS[i], v)
         == if v.Object? && POSITIONS[i].key in v.fields
            then Collect(c, POSITIONS[i].part, v.fields[POSITIONS[i].key]) else []
  {
    assert POSITIONS[i].Under?;
  }

  lemma {:induction false} HasField(v: Json, b: Json)
    requires v.Object?
    ensures HasBlock(View, v, b) <==> exists key :: key in v.fields && HasBlock(Child(View, v, key), v.fields[key], b)
  {
  }

  lemma {:induction false} CollectedIsThere(c: Codec, v: Json, i: nat, b: Json)
    requires ListsKeys(c) && i < |POSITIONS| && b in Collect(c, POSITIONS[i], v)
    ensures HasBlock(View, v, b)
  {
    PositionIsUnder(c, v, i);
    FieldCovered(c, v, POSITIONS[i].key, b);
    HasField(v, b);
  }

  lemma {:induction false} ThereIsCollected(c: Codec, v: Json, b: Json) returns (i: nat)
    requires ListsKeys(c) && HasBlock(View, v, b)
    ensures i < |POSITIONS| && b in Collect(c, POSITIONS[i], v)
  {
    hide Collect, HasBlock;
    if !v.Object? {
      NothingBelow(View, v, b);
    }
    HasField(v, b);
    var key :| key in v.fields && HasBlock(Child(View, v, key), v.fields[key], b);
    FieldCovered(c, v, key, b);
    i :| 0 <= i < |POSITIONS| && POSITIONS[i].key == key && b in Collect(c, POSITIONS[i].part, v.fields[key]);
    PositionIsUnder(c, v, i);
  }

  /** The traversal visits exactly the blocks that the view has. */
  lemma {:induction false} CollectsAllBlocks(c: Codec, v: Json, b: Json)
    requires ListsKeys(c)
    ensures b in Collected(c, v, |POSITIONS|) <==> HasBlock(View, v, b)
  {
    CollectedSomewhere(c, v, |POSITIONS|, b);
    if HasBlock(View, v, b) {
      var i := ThereIsCollected(c, v, b);
      assert FromPosition(c, v, i, b);
    }
    if b in Collected(c, v, |POSITIONS|) {
      var i :| 0 <= i < |POSITIONS| && FromPosition(c, v, i, b);
      CollectedIsThere(c, v, i, b);
    }
  }

  // ---- Blocks and their positions ----------------------------------------------------------------

  ghost predicate StandsAt(role: Role, v: Json, path: seq<PathStep>, b: Json) {
    RoleAt(role, v, path) == Some((Block, b))
  }

  lemma {:induction false} StandingIsThere(role: Role, v: Json, path: seq<PathStep>, b: Json)
    requires StandsAt(role, v, path, b)
    ensures HasBlock(role, v, b)
    decreases |path|
  {
    if path != [] {
      match (v, path[0])
      case (Object(fields), Field(key)) => StandingIsThere(Child(role, v, key), fields[key], path[1..], b);
      case (Array(items), Item(k)) => StandingIsThere(Element(role), items[k], path[1..], b);
    }
  }

  lemma {:induction false} ThereIsStanding(role: Role, v: Json, b: Json) returns (path: seq<PathStep>)
    requires HasBlock(role, v, b)
    ensures StandsAt(role, v, path, b)
    decreases v
  {
    if role == Block {
      path := [];
    } else {
      match v
      case Object(fields) =>
        var key :| key in fields && HasBlock(Child(role, v, key), fields[key], b);
        var rest := ThereIsStanding(Child(role, v, key), fields[key], b);
        path := [Field(key)] + rest;
        assert path[1..] == rest;
      case Array(items) =>
        var k: nat :| 0 <= k < |items| && HasBlock(Element(role), items[k], b);
        var rest := ThereIsStanding(Element(role), items[k], b);
        path := [Item(k)] + rest;
        assert path[1..] == rest;
    }
  }

  // ---- Resolution ------------------------------------------------------------------------------

  lemma {:induction false} FirstWithIs(c: Codec, blocks: seq<Json>, id: string)
    ensures FirstWith(c, blocks, id).None? <==> forall b | b in blocks && Resource(b).Some? :: c.id(b) != id
    ensures FirstWith(c, blocks, id).Some? ==>
              var b := FirstWith(c, blocks, id).value;
              b in blocks && Resource(b).Some? && c.id(b) == id
  {
    if blocks != [] {
      FirstWithIs(c, blocks[1..], id);
      assert forall b :: b in blocks <==> b == blocks[0] || b in blocks[1..];
    }
  }

  /** The hash tells the attached blocks of the view apart. */
  ghost predicate CollisionFree(c: Codec, v: Json) {
    forall p, q, a, b {:trigger StandsAt(View, v, p, a), StandsAt(View, v, q, b)} ::
      StandsAt(View, v, p, a) && StandsAt(View, v, q, b) && Resource(a).Some? && Resource(b).Some? && c.id(a) == c.id(b)
      ==> a == b
  }

  /** Every attached block of the original view is found by its hash. */
  ghost predicate Resolves(c: Codec, v: Json) {
    forall p, b {:trigger StandsAt(View, v, p, b)} ::
      StandsAt(View, v, p, b) && Resource(b).Some? ==> Find(c, v, c.id(b)) == Some(b)
  }

  lemma {:induction false} FindIsThere(c: Codec, v: Json, id: string) returns (path: seq<PathStep>)
    requires ListsKeys(c) && Find(c, v, id).Some?
    ensures
      var b := Find(c, v, id).value;
      StandsAt(View, v, path, b) && Resource(b).Some? && c.id(b) == id
  {
    FirstWithIs(c, Collected(c, v, |POSITIONS|), id);
    CollectsAllBlocks(c, v, Find(c, v, id).value);
    path := ThereIsStanding(View, v, Find(c, v, id).value);
  }

  lemma {:induction false} StandingIsFound(c: Codec, v: Json, path: seq<PathStep>, b: Json)
    requires ListsKeys(c) && StandsAt(View, v, path, b) && Resource(b).Some?
    ensures Find(c, v, c.id(b)).Some?
  {
    StandingIsThere(View, v, path, b);
    CollectsAllBlocks(c, v, b);
    FirstWithIs(c, Collected(c, v, |POSITIONS|), c.id(b));
  }

  /** Links resolve to exactly the blocks they replaced when and only when no two different attached blocks
      of the view have the same hash. */
  lemma {:induction false} ResolvesExactlyWithoutCollisions(c: Codec, v: Json)
    requires ListsKeys(c)
    ensures Resolves(c, v) <==> CollisionFree(c, v)
  {
    if CollisionFree(c, v) {
      forall p, b | StandsAt(View, v, p, b) && Resource(b).Some? ensures Find(c, v, c.id(b)) == Some(b) {
        StandingIsFound(c, v, p, b);
        var q := FindIsThere(c, v, c.id(b));
      }
    }
  }

  /** A block that projection turned into a link is found on the original view under the link's identifier,
      exactly as it stood there. */
  lemma {:induction false} LinkResolvesToOriginal(c: Codec, v: Json, path: seq<PathStep>, block: Json)
    requires ListsKeys(c) && CollisionFree(c, v) && ViewOwner(v).Some?
    requires StandsAt(View, v, path, block) && Resource(block).Some?
    ensures
      var owner := ViewOwner(v).value;
      && BlockAt(Project(c, v), path).Some?
      && LinkReference(BlockAt(Project(c, v), path).value) == Some(Reference(c.id(block), owner))
      && Find(c, v, c.id(block)) == Some(block)
  {
    ProjectionAt(c, v, path);
    LinkNamesBlock(c, ViewOwner(v).value, block);
    ResolvesExactlyWithoutCollisions(c, v);
  }

  /** A projected view holds no attached block of its own: nothing is found in it. */
  lemma {:induction false} NothingLeftToFind(c: Codec, v: Json, id: string)
    requires ListsKeys(c) && ViewOwner(v).Some?
    ensures Find(c, Project(c, v), id).None?
  {
    if Find(c, Project(c, v), id).Some? {
      var path := FindIsThere(c, Project(c, v), id);
      ProjectionAt(c, v, path);
      LinkHasNoResource(c, ViewOwner(v).value, RoleAt(View, v, path).value.1);
    }
  }

  // ---- Sizes -----------------------------------------------------------------------------------

  /** The size advertised in a link is the number of bytes served for the block, whenever it is served. */
  lemma {:induction false} AdvertisedSizeIsServed(c: Codec, owner: Owner, mime: string -> bool, block: Json)
    requires File(c, mime, block).Some?
    ensures Get(ProjectBlock(c, owner, block), "size") == Some(Number(|File(c, mime, block).value| as real))
  {
    var resource := Resource(block).value;
    if GetText(resource, "text").None? {
      Base64.SizeIsDecodedLength(Payload(resource).value);
    }
  }
}
