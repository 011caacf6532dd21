/** Projection of attachment blocks to links, and their resolution from the original view.

    The traversal visits twelve positions of a view one after another and rewrites each visited block. */
module Attachments {
  import opened Prelude
  import opened Json
  import Base64

  // ---- The traversal ---------------------------------------------------------------------------

  /** What is visited below a position. `Under` is one step of a pointer. */
  datatype Part =
    | OneBlock
    | OneUpdate
    | OneToolCall
    | Under(key: string, part: Part)
    | Each(part: Part)
    | EachValue(part: Part)

  const POSITIONS: seq<Part> := [
    Under("timeline", Each(OneUpdate)),
    Under("activeTurn", Under("updates", Each(OneUpdate))),
    Under("baseline", Under("updates", Each(OneUpdate))),
    Under("session", Under("activeTurn", Under("updates", Each(OneUpdate)))),
    Under("prompt", Each(OneBlock)),
    Under("activeTurn", Under("prompt", Each(OneBlock))),
    Under("session", Under("activeTurn", Under("prompt", Each(OneBlock)))),
    Under("items", Each(Each(OneUpdate))),
    Under("change", Under("update", OneUpdate)),
    Under("interactions", Under("permissions", EachValue(Under("request", Under("toolCall", OneToolCall))))),
    Under("live", Under("permissions", EachValue(Under("request", Under("toolCall", OneToolCall))))),
    Under("change", Under("interaction", Under("request", Under("toolCall", OneToolCall))))]

  predicate IsContent(v: Json) {
    GetText(v, "type") == Some("content")
  }

  predicate IsChunk(v: Json) {
    var kind := GetText(v, "sessionUpdate");
    kind.Some? && kind.value in
      {"user_message_chunk", "agent_message_chunk", "agent_thought_chunk", "compaction_summary_chunk"}
  }

  predicate IsToolUpdate(v: Json) {
    var kind := GetText(v, "sessionUpdate");
    kind.Some? && kind.value in {"tool_call", "tool_call_update"}
  }

  function VisitContent(v: Json, f: Json -> Json): Json {
    if IsContent(v) && "content" in v.fields then Object(v.fields["content" := f(v.fields["content"])]) else v
  }

  /** The blocks of a tool call's contents. */
  function VisitToolCall(call: Json, f: Json -> Json): Json {
    if call.Object? && "content" in call.fields && call.fields["content"].Array? then
      var contents := call.fields["content"].items;
      Object(call.fields["content" :=
        Array(seq(|contents|, k requires 0 <= k < |contents| => VisitContent(contents[k], f)))])
    else call
  }

  function Visit(part: Part, v: Json, f: Json -> Json): Json
  {
    match part
    case OneBlock => f(v)
    case OneUpdate =>
      if IsChunk(v) && "content" in v.fields then Object(v.fields["content" := f(v.fields["content"])])
      else if IsToolUpdate(v) then VisitToolCall(v, f)
      else v
    case OneToolCall => VisitToolCall(v, f)
    case Under(key, rest) =>
      if v.Object? && key in v.fields then Object(v.fields[key := Visit(rest, v.fields[key], f)]) else v
    case Each(rest) =>
      if v.Array? then Array(seq(|v.items|, k requires 0 <= k < |v.items| => Visit(rest, v.items[k], f))) else v
    case EachValue(rest) =>
      if v.Object? then Object(map key | key in v.fields :: Visit(rest, v.fields[key], f)) else v
  }

  /** The view after its first `n` positions were visited. */
  function Visited(v: Json, n: nat, f: Json -> Json): Json
    requires n <= |POSITIONS|
  {
    if n == 0 then v else Visit(POSITIONS[n - 1], Visited(v, n - 1, f), f)
  }

  function Blocks(v: Json, f: Json -> Json): Json {
    Visited(v, |POSITIONS|, f)
  }

  // ---- The same in one pass over the tree ------------------------------------------------------

  /** The part a node plays in a view. */
  datatype Role =
    | View | Turn | Baseline | Session | Change | Pending | Permissions | Interaction | Request
    | Lists | Updates | Update | Prompt | ToolCall | Contents | Content | Block | Opaque

  function Child(role: Role, v: Json, key: string): Role {
    match role
    case View =>
      if key == "timeline" then Updates
      else if key == "activeTurn" then Turn
      else if key == "baseline" then Baseline
      else if key == "session" then Session
      else if key == "prompt" then Prompt
      else if key == "items" then Lists
      else if key == "change" then Change
      else if key == "interactions" || key == "live" then Pending
      else Opaque
    case Turn => if key == "updates" then Updates else if key == "prompt" then Prompt else Opaque
    case Baseline => if key == "updates" then Updates else Opaque
    case Session => if key == "activeTurn" then Turn else Opaque
    case Change => if key == "update" then Update else if key == "interaction" then Interaction else Opaque
    case Pending => if key == "permissions" then Permissions else Opaque
    case Permissions => Interaction
    case Interaction => if key == "request" then Request else Opaque
    case Request => if key == "toolCall" then ToolCall else Opaque
    case Update =>
      if key != "content" then Opaque
      else if IsChunk(v) then Block
      else if IsToolUpdate(v) then Contents
      else Opaque
    case ToolCall => if key == "content" then Contents else Opaque
    case Content => if key == "content" && IsContent(v) then Block else Opaque
    case _ => Opaque
  }

  function Element(role: Role): Role {
    match role
    case Lists => Updates
    case Updates => Update
    case Prompt => Block
    case Contents => Content
    case _ => Opaque
  }

  function Rewrite(role: Role, v: Json, f: Json -> Json): Json
    decreases v
  {
    if role == Block then f(v)
    else if role == Opaque then v
    else
      match v
      case Object(fields) => Object(map key | key in fields :: Rewrite(Child(role, v, key), fields[key], f))
      case Array(items) => Array(seq(|items|, k requires 0 <= k < |items| => Rewrite(Element(role), items[k], f)))
      case _ => v
  }

  // ---- Positions -------------------------------------------------------------------------------

  datatype PathStep = Field(key: string) | Item(index: nat)

  /** The node at a path and the part it plays; paths end at blocks. */
  function RoleAt(role: Role, v: Json, path: seq<PathStep>): Option<(Role, Json)>
    decreases |path|
  {
    if path == [] then Some((role, v))
    else if role == Block then None
    else
      match (v, path[0])
      case (Object(fields), Field(key)) =>
        if key in fields then RoleAt(Child(role, v, key), fields[key], path[1..]) else None
      case (Array(items), Item(k)) =>
        if k < |items| then RoleAt(Element(role), items[k], path[1..]) else None
      case _ => None
  }

  /** The block at a path of a view. */
  function BlockAt(v: Json, path: seq<PathStep>): Option<Json> {
    var at := RoleAt(View, v, path);
    if at.Some? && at.value.0 == Block then Some(at.value.1) else None
  }

  // ---- Projecting and finding ------------------------------------------------------------------

  /** The content hash, the display name and UTF-8 encoding; `order` is the order in which the values of an
      object are visited. */
  datatype Codec = Codec(
    id: Json -> string,
    name: Json -> string,
    utf8: string -> seq<Base64.Byte>,
    order: set<string> -> seq<string>)

  datatype Owner = Owner(session: string, epoch: string, incarnation: real)

  datatype Reference = Reference(id: string, owner: Owner)

  /** The object that holds a block's payload, for the kinds that have one. */
  function Resource(block: Json): Option<Json> {
    var kind := GetText(block, "type");
    if kind == Some("image") || kind == Some("audio") then Some(block)
    else if kind == Some("resource") then Get(block, "resource")
    else None
  }

  function Or<T>(a: Option<T>, b: Option<T>): Option<T> {
    if a.Some? then a else b
  }

  function OrElse<T>(a: Option<T>, default: T): T {
    if a.Some? then a.value else default
  }

  function Payload(resource: Json): Option<string> {
    Or(GetText(resource, "data"), GetText(resource, "blob"))
  }

  function AdvertisedSize(c: Codec, resource: Json): nat {
    var text := GetText(resource, "text");
    if text.Some? then |c.utf8(text.value)| else Base64.Size(OrElse(Payload(resource), ""))
  }

  function MimeType(resource: Json): string {
    OrElse(GetText(resource, "mimeType"),
           if GetText(resource, "text").Some? then "text/plain" else "application/octet-stream")
  }

  function ReferenceJson(r: Reference): Json {
    Object(map["id" := Text(r.id), "sessionId" := Text(r.owner.session), "bridgeEpoch" := Text(r.owner.epoch),
               "sessionIncarnation" := Number(r.owner.incarnation)])
  }

  predicate IsIncarnation(x: real) {
    0.0 <= x < 18446744073709551616.0 && x.Floor as real == x
  }

  /** Reads a reference from an object with exactly its fields, or from an array of their values in order. */
  function ParseReference(v: Json): Option<Reference> {
    if v.Object? && v.fields.Keys == {"id", "sessionId", "bridgeEpoch", "sessionIncarnation"} then
      ReadReference(v.fields["id"], v.fields["sessionId"], v.fields["bridgeEpoch"], v.fields["sessionIncarnation"])
    else if v.Array? && |v.items| == 4 then ReadReference(v.items[0], v.items[1], v.items[2], v.items[3])
    else None
  }

  function ReadReference(id: Json, session: Json, epoch: Json, incarnation: Json): Option<Reference> {
    if id.Text? && session.Text? && epoch.Text? && incarnation.Number? && IsIncarnation(incarnation.number)
    then Some(Reference(id.text, Owner(session.text, epoch.text, incarnation.number)))
    else None
  }

  /** The reference that a link carries. */
  function LinkReference(block: Json): Option<Reference> {
    var meta := Get(block, "_meta");
    var j := if meta.Some? then Get(meta.value, "attyd/attachment") else None;
    if GetText(block, "type") != Some("resource_link") || j.None? then None else ParseReference(j.value)
  }

  function ProjectBlock(c: Codec, owner: Owner, block: Json): Json {
    match Resource(block)
    case None => block
    case Some(resource) =>
      var r := Reference(c.id(block), owner);
      var link := map[
        "type" := Text("resource_link"), "name" := Text(c.name(resource)),
        "size" := Number(AdvertisedSize(c, resource) as real),
        "uri" := Text(OrElse(GetText(resource, "uri"), "attyd://attachment/" + r.id)),
        "mimeType" := Text(MimeType(resource)),
        "_meta" := Object(map["attyd/attachment" := ReferenceJson(r)])];
      Object(if Get(block, "annotations").Some? then link["annotations" := Get(block, "annotations").value] else link)
  }

  function ViewOwner(v: Json): Option<Owner> {
    var incarnation := Get(v, "sessionIncarnation");
    if GetText(v, "bridgeEpoch").Some? && GetText(v, "sessionId").Some?
       && incarnation.Some? && incarnation.value.Number? && IsIncarnation(incarnation.value.number)
    then Some(Owner(GetText(v, "sessionId").value, GetText(v, "bridgeEpoch").value, incarnation.value.number))
    else None
  }

  function Project(c: Codec, v: Json): Json {
    match ViewOwner(v)
    case None => v
    case Some(owner) => Blocks(v, block => ProjectBlock(c, owner, block))
  }

  function CollectContent(v: Json): seq<Json> {
    if IsContent(v) && "content" in v.fields then [v.fields["content"]] else []
  }

  function CollectContents(items: seq<Json>): seq<Json> {
    if items == [] then [] else CollectContent(items[0]) + CollectContents(items[1..])
  }

  function CollectToolCall(call: Json): seq<Json> {
    if call.Object? && "content" in call.fields && call.fields["content"].Array?
    then CollectContents(call.fields["content"].items) else []
  }

  function CollectUpdate(v: Json): seq<Json> {
    if IsChunk(v) && "content" in v.fields then [v.fields["content"]]
    else if IsToolUpdate(v) then CollectToolCall(v)
    else []
  }

  /** The blocks in the order in which the traversal visits them. */
  function Collect(c: Codec, part: Part, v: Json): seq<Json>
    decreases part, 0
  {
    match part
    case OneBlock => [v]
    case OneUpdate => CollectUpdate(v)
    case OneToolCall => CollectToolCall(v)
    case Under(key, rest) => if v.Object? && key in v.fields then Collect(c, rest, v.fields[key]) else []
    case Each(rest) => if v.Array? then CollectEach(c, rest, v.items) else []
    case EachValue(rest) => if v.Object? then CollectValues(c, rest, v.fields, c.order(v.fields.Keys)) else []
  }

  function CollectEach(c: Codec, part: Part, items: seq<Json>): seq<Json>
    decreases part, 1, |items|
  {
    if items == [] then [] else Collect(c, part, items[0]) + CollectEach(c, part, items[1..])
  }

  function CollectValues(c: Codec, part: Part, fields: map<string, Json>, keys: seq<string>): seq<Json>
    decreases part, 1, |keys|
  {
    if keys == [] then []
    else
      (if keys[0] in fields then Collect(c, part, fields[keys[0]]) else [])
      + CollectValues(c, part, fields, keys[1..])
  }

  function Collected(c: Codec, v: Json, n: nat): seq<Json>
    requires n <= |POSITIONS|
  {
    if n == 0 then [] else Collected(c, v, n - 1) + Collect(c, POSITIONS[n - 1], v)
  }

  function FirstWith(c: Codec, blocks: seq<Json>, id: string): Option<Json> {
    if blocks == [] then None
    else if Resource(blocks[0]).Some? && c.id(blocks[0]) == id then Some(blocks[0])
    else FirstWith(c, blocks[1..], id)
  }

  function Find(c: Codec, v: Json, id: string): Option<Json> {
    FirstWith(c, Collected(c, v, |POSITIONS|), id)
  }

  /** The bytes served for a block; `mime` says whether the declared type parses. */
  function File(c: Codec, mime: string -> bool, block: Json): Option<seq<Base64.Byte>> {
    match Resource(block)
    case None => None
    case Some(resource) =>
      var text := GetText(resource, "text");
      if text.Some? then (if mime(MimeType(resource)) then Some(c.utf8(text.value)) else None)
      else if Payload(resource).None? then None
      else Base64.Decode(Payload(resource).value)
  }
}
