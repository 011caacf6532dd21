/** Where blocks stand in a view, which of them are attachments, and what their links say, read off the JSON
    values directly. */
module AttachmentMeaning {
  import opened Prelude
  import opened Json
  import opened Attachments
  import opened AttachmentLinks
  import opened AttachmentResolution
  import Base64

  // ---- Where blocks stand ------------------------------------------------------------------------

  predicate Says(v: Json, key: string, text: string) {
    Get(v, key) == Some(Text(text))
  }

  /** Item `k` of the list. */
  predicate ItemIs(v: Json, k: nat, item: Json) {
    v.Array? && k < |v.items| && v.items[k] == item
  }

  /** The content of a tool call's entry of type content. */
  predicate InToolCall(v: Json, path: seq<PathStep>, b: Json) {
    && |path| == 3 && path[0] == Field("content") && path[1].Item? && path[2] == Field("content")
    && Get(v, "content").Some? && Get(v, "content").value.Array?
    && path[1].index < |Get(v, "content").value.items|
    && var entry := Get(v, "content").value.items[path[1].index];
       Says(entry, "type", "content") && Get(entry, "content") == Some(b)
  }

  /** The content of a message chunk, or a block of a tool call. */
  predicate InUpdate(v: Json, path: seq<PathStep>, b: Json) {
    || (&& (|| Says(v, "sessionUpdate", "user_message_chunk") || Says(v, "sessionUpdate", "agent_message_chunk")
            || Says(v, "sessionUpdate", "agent_thought_chunk")
            || Says(v, "sessionUpdate", "compaction_summary_chunk"))
        && path == [Field("content")] && Get(v, "content") == Some(b))
    || (&& (Says(v, "sessionUpdate", "tool_call") || Says(v, "sessionUpdate", "tool_call_update"))
        && InToolCall(v, path, b))
  }

  predicate InUpdates(v: Json, path: seq<PathStep>, b: Json) {
    && path != [] && path[0].Item? && v.Array? && path[0].index < |v.items|
    && InUpdate(v.items[path[0].index], path[1..], b)
  }

  predicate InPrompt(v: Json, path: seq<PathStep>, b: Json) {
    |path| == 1 && path[0].Item? && ItemIs(v, path[0].index, b)
  }

  /** Below a field of the value. */
  predicate Below(v: Json, path: seq<PathStep>, key: string) {
    path != [] && path[0] == Field(key) && v.Object? && key in v.fields
  }

  predicate InTurn(v: Json, path: seq<PathStep>, b: Json) {
    || (Below(v, path, "updates") && InUpdates(v.fields["updates"], path[1..], b))
    || (Below(v, path, "prompt") && InPrompt(v.fields["prompt"], path[1..], b))
  }

  predicate InInteraction(v: Json, path: seq<PathStep>, b: Json) {
    && Below(v, path, "request") && Below(v.fields["request"], path[1..], "toolCall")
    && InToolCall(v.fields["request"].fields["toolCall"], path[2..], b)
  }

  predicate InPending(v: Json, path: seq<PathStep>, b: Json) {
    && Below(v, path, "permissions") && |path| > 1 && path[1].Field?
    && v.fields["permissions"].Object? && path[1].key in v.fields["permissions"].fields
    && InInteraction(v.fields["permissions"].fields[path[1].key], path[2..], b)
  }

  predicate InChange(v: Json, path: seq<PathStep>, b: Json) {
    || (Below(v, path, "update") && InUpdate(v.fields["update"], path[1..], b))
    || (Below(v, path, "interaction") && InInteraction(v.fields["interaction"], path[1..], b))
  }

  predicate InLists(v: Json, path: seq<PathStep>, b: Json) {
    && path != [] && path[0].Item? && v.Array? && path[0].index < |v.items|
    && InUpdates(v.items[path[0].index], path[1..], b)
  }

  /** The block stands at the path of the view: in the timeline, in the active turn of the view or of its
      session, in the baseline, in the prompt, in the items, in the change, or in the tool call of a pending
      permission. */
  predicate InView(v: Json, path: seq<PathStep>, b: Json) {
    || (Below(v, path, "timeline") && InUpdates(v.fields["timeline"], path[1..], b))
    || (Below(v, path, "activeTurn") && InTurn(v.fields["activeTurn"], path[1..], b))
    || (Below(v, path, "baseline") && Below(v.fields["baseline"], path[1..], "updates")
        && InUpdates(v.fields["baseline"].fields["updates"], path[2..], b))
    || (Below(v, path, "session") && Below(v.fields["session"], path[1..], "activeTurn")
        && InTurn(v.fields["session"].fields["activeTurn"], path[2..], b))
    || (Below(v, path, "prompt") && InPrompt(v.fields["prompt"], path[1..], b))
    || (Below(v, path, "items") && InLists(v.fields["items"], path[1..], b))
    || (Below(v, path, "change") && InChange(v.fields["change"], path[1..], b))
    || (Below(v, path, "interactions") && InPending(v.fields["interactions"], path[1..], b))
    || (Below(v, path, "live") && InPending(v.fields["live"], path[1..], b))
  }

  lemma {:induction false} OpaqueHasNone(v: Json, path: seq<PathStep>, b: Json)
    ensures !StandsAt(Opaque, v, path, b)
    decreases |path|
  {
    if path != [] {
      match (v, path[0])
      case (Object(fields), Field(key)) =>
        if key in fields {
          OpaqueHasNone(fields[key], path[1..], b);
        }
      case (Array(items), Item(k)) =>
        if k < |items| {
          OpaqueHasNone(items[k], path[1..], b);
        }
      case _ =>
    }
  }

  /** One step down. */
  lemma {:induction false} FieldDown(role: Role, v: Json, path: seq<PathStep>, b: Json)
    requires role != Block && path != []
    ensures StandsAt(role, v, path, b) <==>
            || (&& path[0].Field? && v.Object? && path[0].key in v.fields
                && StandsAt(Child(role, v, path[0].key), v.fields[path[0].key], path[1..], b))
            || (&& path[0].Item? && v.Array? && path[0].index < |v.items|
                && StandsAt(Element(role), v.items[path[0].index], path[1..], b))
  {
  }

  lemma {:induction false} BlockHere(v: Json, path: seq<PathStep>, b: Json)
    ensures StandsAt(Block, v, path, b) <==> path == [] && v == b
  {
  }

  /** No node of another kind ends a path. */
  lemma {:induction false} NotHere(role: Role, v: Json, b: Json)
    requires role != Block
    ensures !StandsAt(role, v, [], b)
  {
  }

  lemma {:induction false} ByField(role: Role, v: Json, path: seq<PathStep>, b: Json)
    requires role != Block && Element(role) == Opaque
    ensures StandsAt(role, v, path, b) <==>
            && path != [] && path[0].Field? && v.Object? && path[0].key in v.fields
            && StandsAt(Child(role, v, path[0].key), v.fields[path[0].key], path[1..], b)
  {
    if path == [] {
      NotHere(role, v, b);
    } else {
      FieldDown(role, v, path, b);
      if path[0].Item? && v.Array? && path[0].index < |v.items| {
        OpaqueHasNone(v.items[path[0].index], path[1..], b);
      }
    }
  }

  lemma {:induction false} ByItem(role: Role, v: Json, path: seq<PathStep>, b: Json)
    requires role != Block && forall key :: Child(role, v, key) == Opaque
    ensures StandsAt(role, v, path, b) <==>
            && path != [] && path[0].Item? && v.Array? && path[0].index < |v.items|
            && StandsAt(Element(role), v.items[path[0].index], path[1..], b)
  {
    if path == [] {
      NotHere(role, v, b);
    } else {
      FieldDown(role, v, path, b);
      if path[0].Field? && v.Object? && path[0].key in v.fields {
        OpaqueHasNone(v.fields[path[0].key], path[1..], b);
      }
    }
  }

  /** The block of a field that holds one. */
  lemma {:induction false} FieldBlock(v: Json, path: seq<PathStep>, key: string, b: Json)
    requires v.Object? && path != [] && path[0] == Field(key) && key in v.fields
    ensures StandsAt(Block, v.fields[key], path[1..], b) <==> path == [Field(key)] && Get(v, key) == Some(b)
  {
    BlockHere(v.fields[key], path[1..], b);
    assert path == [path[0]] + path[1..];
  }

  lemma {:induction false} ContentExactly(v: Json, path: seq<PathStep>, b: Json)
    ensures StandsAt(Content, v, path, b) <==>
            path == [Field("content")] && Says(v, "type", "content") && Get(v, "content") == Some(b)
  {
    ByField(Content, v, path, b);
    if path != [] && path[0].Field? && v.Object? && path[0].key in v.fields {
      OpaqueHasNone(v.fields[path[0].key], path[1..], b);
      FieldBlock(v, path, path[0].key, b);
    }
  }

  lemma {:induction false} ContentsExactly(v: Json, path: seq<PathStep>, b: Json)
    ensures StandsAt(Contents, v, path, b) <==>
            && |path| == 2 && path[0].Item? && path[1] == Field("content") && v.Array? && path[0].index < |v.items|
            && Says(v.items[path[0].index], "type", "content") && Get(v.items[path[0].index], "content") == Some(b)
  {
    ByItem(Contents, v, path, b);
    if path != [] && path[0].Item? && v.Array? && path[0].index < |v.items| {
      ContentExactly(v.items[path[0].index], path[1..], b);
      assert path[1..] == [Field("content")] <==> |path| == 2 && path[1] == Field("content");
    }
  }

  lemma {:induction false} ToolCallBelow(v: Json, path: seq<PathStep>, b: Json)
    ensures InToolCall(v, path, b) ==> Below(v, path, "content")
  {
  }

  lemma {:induction false} ContentsBelow(v: Json, path: seq<PathStep>, b: Json)
    requires v.Object? && path != [] && path[0] == Field("content") && "content" in v.fields
    ensures StandsAt(Contents, v.fields["content"], path[1..], b) <==> InToolCall(v, path, b)
  {
    ContentsExactly(v.fields["content"], path[1..], b);
  }

  lemma {:induction false} ToolCallExactly(v: Json, path: seq<PathStep>, b: Json)
    ensures StandsAt(ToolCall, v, path, b) <==> InToolCall(v, path, b)
  {
    ByField(ToolCall, v, path, b);
    if path != [] && path[0].Field? && v.Object? && path[0].key in v.fields {
      if path[0].key == "content" {
        ContentsBelow(v, path, b);
      } else {
        OpaqueHasNone(v.fields[path[0].key], path[1..], b);
      }
    }
  }

  lemma {:induction false} UpdateExactly(v: Json, path: seq<PathStep>, b: Json)
    ensures StandsAt(Update, v, path, b) <==> InUpdate(v, path, b)
  {
    hide InToolCall;
    ToolCallBelow(v, path, b);
    ByField(Update, v, path, b);
    if path != [] && path[0].Field? && v.Object? && path[0].key in v.fields {
      OpaqueHasNone(v.fields[path[0].key], path[1..], b);
      if path[0].key == "content" {
        ContentsBelow(v, path, b);
        FieldBlock(v, path, "content", b);
      }
    }
  }

  lemma {:induction false} UpdatesExactly(v: Json, path: seq<PathStep>, b: Json)
    ensures StandsAt(Updates, v, path, b) <==> InUpdates(v, path, b)
  {
    ByItem(Updates, v, path, b);
    if path != [] && path[0].Item? && v.Array? && path[0].index < |v.items| {
      UpdateExactly(v.items[path[0].index], path[1..], b);
    }
  }

  lemma {:induction false} ListsExactly(v: Json, path: seq<PathStep>, b: Json)
    ensures StandsAt(Lists, v, path, b) <==> InLists(v, path, b)
  {
    ByItem(Lists, v, path, b);
    if path != [] && path[0].Item? && v.Array? && path[0].index < |v.items| {
      UpdatesExactly(v.items[path[0].index], path[1..], b);
    }
  }

  lemma {:induction false} PromptExactly(v: Json, path: seq<PathStep>, b: Json)
    ensures StandsAt(Prompt, v, path, b) <==> InPrompt(v, path, b)
  {
    ByItem(Prompt, v, path, b);
    if path != [] && path[0].Item? && v.Array? && path[0].index < |v.items| {
      BlockHere(v.items[path[0].index], path[1..], b);
    }
  }

  lemma {:induction false} TurnExactly(v: Json, path: seq<PathStep>, b: Json)
    ensures StandsAt(Turn, v, path, b) <==> InTurn(v, path, b)
  {
    ByField(Turn, v, path, b);
    if path != [] && path[0].Field? && v.Object? && path[0].key in v.fields {
      var x, rest := v.fields[path[0].key], path[1..];
      UpdatesExactly(x, rest, b);
      PromptExactly(x, rest, b);
      OpaqueHasNone(x, rest, b);
    }
  }

  lemma {:induction false} OneFieldExactly(role: Role, v: Json, path: seq<PathStep>, key: string, below: Role, b: Json)
    requires role != Block && Element(role) == Opaque && Child(role, v, key) == below
    requires forall k | k != key :: Child(role, v, k) == Opaque
    ensures StandsAt(role, v, path, b) <==> Below(v, path, key) && StandsAt(below, v.fields[key], path[1..], b)
  {
    ByField(role, v, path, b);
    if path != [] && path[0].Field? && v.Object? && path[0].key in v.fields && path[0].key != key {
      OpaqueHasNone(v.fields[path[0].key], path[1..], b);
    }
  }

  lemma {:induction false} BaselineExactly(v: Json, path: seq<PathStep>, b: Json)
    ensures StandsAt(Baseline, v, path, b) <==>
            Below(v, path, "updates") && InUpdates(v.fields["updates"], path[1..], b)
  {
    OneFieldExactly(Baseline, v, path, "updates", Updates, b);
    if Below(v, path, "updates") {
      UpdatesExactly(v.fields["updates"], path[1..], b);
    }
  }

  lemma {:induction false} SessionExactly(v: Json, path: seq<PathStep>, b: Json)
    ensures StandsAt(Session, v, path, b) <==>
            Below(v, path, "activeTurn") && InTurn(v.fields["activeTurn"], path[1..], b)
  {
    OneFieldExactly(Session, v, path, "activeTurn", Turn, b);
    if Below(v, path, "activeTurn") {
      TurnExactly(v.fields["activeTurn"], path[1..], b);
    }
  }

  lemma {:induction false} InteractionExactly(v: Json, path: seq<PathStep>, b: Json)
    ensures StandsAt(Interaction, v, path, b) <==> InInteraction(v, path, b)
  {
    OneFieldExactly(Interaction, v, path, "request", Request, b);
    if Below(v, path, "request") {
      var request := v.fields["request"];
      OneFieldExactly(Request, request, path[1..], "toolCall", ToolCall, b);
      if Below(request, path[1..], "toolCall") {
        ToolCallExactly(request.fields["toolCall"], path[1..][1..], b);
        assert path[1..][1..] == path[2..];
      }
    }
  }

  lemma {:induction false} PendingExactly(v: Json, path: seq<PathStep>, b: Json)
    ensures StandsAt(Pending, v, path, b) <==> InPending(v, path, b)
  {
    hide InInteraction, StandsAt;
    OneFieldExactly(Pending, v, path, "permissions", Permissions, b);
    if Below(v, path, "permissions") {
      var permissions, rest := v.fields["permissions"], path[1..];
      ByField(Permissions, permissions, rest, b);
      if rest != [] && rest[0].Field? && permissions.Object? && rest[0].key in permissions.fields {
        InteractionExactly(permissions.fields[rest[0].key], rest[1..], b);
        assert rest[1..] == path[2..];
      }
    }
  }

  lemma {:induction false} ChangeExactly(v: Json, path: seq<PathStep>, b: Json)
    ensures StandsAt(Change, v, path, b) <==> InChange(v, path, b)
  {
    ByField(Change, v, path, b);
    if path != [] && path[0].Field? && v.Object? && path[0].key in v.fields {
      var x, rest := v.fields[path[0].key], path[1..];
      UpdateExactly(x, rest, b);
      InteractionExactly(x, rest, b);
      OpaqueHasNone(x, rest, b);
    }
  }

  /** A view has a block at a path exactly when the path is one of these. */
  lemma {:induction false} BlocksExactly(v: Json, path: seq<PathStep>, b: Json)
    ensures BlockAt(v, path) == Some(b) <==> InView(v, path, b)
  {
    assert BlockAt(v, path) == Some(b) <==> StandsAt(View, v, path, b);
    ByField(View, v, path, b);
    if path != [] && path[0].Field? && v.Object? && path[0].key in v.fields {
      FieldExactly(v, path, path[0].key, b);
    }
  }

  lemma {:induction false} FieldExactly(v: Json, path: seq<PathStep>, key: string, b: Json)
    requires Below(v, path, key)
    ensures StandsAt(Child(View, v, key), v.fields[key], path[1..], b) <==> InView(v, path, b)
  {
    hide InUpdates, InTurn, InPrompt, InLists, InChange, InPending, StandsAt;
    var x, rest := v.fields[key], path[1..];
    assert rest != [] ==> rest[1..] == path[2..];
    match Child(View, v, key)
    case Updates => UpdatesExactly(x, rest, b);
    case Turn => TurnExactly(x, rest, b);
    case Baseline => BaselineExactly(x, rest, b);
    case Session => SessionExactly(x, rest, b);
    case Prompt => PromptExactly(x, rest, b);
    case Lists => ListsExactly(x, rest, b);
    case Change => ChangeExactly(x, rest, b);
    case Pending => PendingExactly(x, rest, b);
    case _ => OpaqueHasNone(x, rest, b);
  }

  // ---- Which blocks are attachments, and what becomes of them --------------------------------------

  /** An image, a sound, or a resource that is there. */
  predicate IsAttachment(b: Json) {
    Says(b, "type", "image") || Says(b, "type", "audio") || (Says(b, "type", "resource") && Get(b, "resource").Some?)
  }

  lemma {:induction false} ResourceExactly(b: Json)
    ensures Resource(b).Some? <==> IsAttachment(b)
    ensures Resource(b).Some? ==>
              Resource(b) == if Says(b, "type", "resource") then Get(b, "resource") else Some(b)
  {
  }

  /** A block of a view with an owner is replaced exactly if it is an attachment, and then by a link. */
  lemma {:induction false} ReplacedExactly(c: Codec, v: Json, path: seq<PathStep>, b: Json)
    requires ViewOwner(v).Some? && InView(v, path, b)
    ensures BlockAt(Project(c, v), path).Some?
    ensures BlockAt(Project(c, v), path) == Some(b) <==> !IsAttachment(b)
    ensures IsAttachment(b) ==> Says(BlockAt(Project(c, v), path).value, "type", "resource_link")
  {
    BlocksExactly(v, path, b);
    ProjectionAt(c, v, path);
    ResourceExactly(b);
    if IsAttachment(b) {
      LinkSays(c, ViewOwner(v).value, b);
    }
  }

  function TextOr(v: Json, key: string, default: string): string {
    if Get(v, key).Some? && Get(v, key).value.Text? then Get(v, key).value.text else default
  }

  /** Every field of a link, and no other: the annotations are the block's own. */
  lemma {:induction false} LinkSays(c: Codec, owner: Owner, b: Json)
    requires IsAttachment(b)
    ensures
      var link := ProjectBlock(c, owner, b);
      var resource := if Says(b, "type", "resource") then b.fields["resource"] else b;
      var hasText := Get(resource, "text").Some? && Get(resource, "text").value.Text?;
      && link.Object?
      && link.fields.Keys == {"type", "name", "size", "uri", "mimeType", "_meta"}
                             + (if Get(b, "annotations").Some? then {"annotations"} else {})
      && Says(link, "type", "resource_link") && Says(link, "name", c.name(resource))
      && Says(link, "uri", TextOr(resource, "uri", "attyd://attachment/" + c.id(b)))
      && Says(link, "mimeType", TextOr(resource, "mimeType",
                                       if hasText then "text/plain" else "application/octet-stream"))
      && Get(link, "_meta") == Some(Object(map["attyd/attachment" := ReferenceJson(Reference(c.id(b), owner))]))
      && Get(link, "annotations") == Get(b, "annotations")
  {
    ResourceExactly(b);
    hide Resource, ReferenceJson;
    var link := ProjectBlock(c, owner, b);
    assert link.fields.Keys == {"type", "name", "size", "uri", "mimeType", "_meta"}
                               + (if Get(b, "annotations").Some? then {"annotations"} else {});
  }

  /** The reference's own form: four fields under these names. */
  lemma {:induction false} ReferenceSays(r: Reference)
    ensures
      var j := ReferenceJson(r);
      && j.Object? && j.fields.Keys == {"id", "sessionId", "bridgeEpoch", "sessionIncarnation"}
      && Says(j, "id", r.id) && Says(j, "sessionId", r.owner.session) && Says(j, "bridgeEpoch", r.owner.epoch)
      && Get(j, "sessionIncarnation") == Some(Number(r.owner.incarnation))
  {
    assert ReferenceJson(r).fields.Keys == {"id", "sessionId", "bridgeEpoch", "sessionIncarnation"};
  }

  /** A view's owner is read from its three fields; a view that lacks one is left as it is. */
  lemma {:induction false} OwnerExactly(c: Codec, v: Json, owner: Owner)
    ensures ViewOwner(v) == Some(owner) <==>
            && Says(v, "bridgeEpoch", owner.epoch) && Says(v, "sessionId", owner.session)
            && Get(v, "sessionIncarnation") == Some(Number(owner.incarnation))
            && 0.0 <= owner.incarnation < 18446744073709551616.0
            && owner.incarnation.Floor as real == owner.incarnation
    ensures ViewOwner(v).None? ==> Project(c, v) == v
  {
  }

  /** A block is found under a hash exactly if some attachment of the view has it. */
  lemma {:induction false} FoundExactly(c: Codec, v: Json, id: string)
    requires ListsKeys(c)
    ensures Find(c, v, id).Some? <==> exists path, b :: InView(v, path, b) && IsAttachment(b) && c.id(b) == id
    ensures Find(c, v, id).Some? ==> IsAttachment(Find(c, v, id).value) && c.id(Find(c, v, id).value) == id
  {
    if Find(c, v, id).Some? {
      var b := Find(c, v, id).value;
      var path := FindIsThere(c, v, id);
      BlocksExactly(v, path, b);
      ResourceExactly(b);
      assert InView(v, path, b);
    }
    if path, b :| InView(v, path, b) && IsAttachment(b) && c.id(b) == id {
      BlocksExactly(v, path, b);
      ResourceExactly(b);
      StandingIsFound(c, v, path, b);
    }
  }

  /** The bytes served: the text if there is one and its type parses; else the decoded data, or the decoded
      blob where there is no data. */
  lemma {:induction false} ServedExactly(c: Codec, mime: string -> bool, b: Json)
    ensures !IsAttachment(b) ==> File(c, mime, b).None?
    ensures IsAttachment(b) ==>
              var resource := if Says(b, "type", "resource") then b.fields["resource"] else b;
              var text, data, blob := Get(resource, "text"), Get(resource, "data"), Get(resource, "blob");
              if text.Some? && text.value.Text? then
                File(c, mime, b) == if mime(TextOr(resource, "mimeType", "text/plain"))
                                    then Some(c.utf8(text.value.text)) else None
              else if data.Some? && data.value.Text? then File(c, mime, b) == Base64.Decode(data.value.text)
              else if blob.Some? && blob.value.Text? then File(c, mime, b) == Base64.Decode(blob.value.text)
              else File(c, mime, b).None?
  {
    ResourceExactly(b);
  }
}
