/** What projection does to each position of a view, and how links resolve. */
module AttachmentLinks {
  import opened Prelude
  import opened Json
  import opened Attachments
  import opened AttachmentPass

  // ---- What the pass does at every path --------------------------------------------------------

  lemma {:induction false} FieldKept(role: Role, v: Json, key: string, f: Json -> Json)
    requires role != Block && (v.Object? ==> Child(role, v, key) == Opaque)
    ensures Get(Rewrite(role, v, f), key) == Get(v, key)
  {
    if role != Opaque && v.Object? {
      RewriteObject(role, v, f);
    } else if role != Opaque && v.Array? {
      RewriteArray(role, v, f);
    }
  }

  /** Rewriting changes nothing that decides which parts the children play. */
  lemma {:induction false} ChildrenKeepRoles(role: Role, v: Json, key: string, f: Json -> Json)
    requires role != Block && role != Opaque && v.Object?
    ensures Child(role, Rewrite(role, v, f), key) == Child(role, v, key)
  {
    if role == Update {
      FieldKept(role, v, "sessionUpdate", f);
    } else if role == Content {
      FieldKept(role, v, "type", f);
    }
  }

  function Mapped(at: Option<(Role, Json)>, f: Json -> Json): Option<(Role, Json)> {
    if at.Some? then Some((at.value.0, Rewrite(at.value.0, at.value.1, f))) else None
  }

  lemma {:induction false} OpaqueRoleAt(v: Json, path: seq<PathStep>, f: Json -> Json)
    ensures RoleAt(Opaque, v, path) == Mapped(RoleAt(Opaque, v, path), f)
    decreases |path|
  {
    if path != [] {
      match (v, path[0])
      case (Object(fields), Field(key)) =>
        if key in fields {
          OpaqueRoleAt(fields[key], path[1..], f);
        }
      case (Array(items), Item(k)) =>
        if k < |items| {
          OpaqueRoleAt(items[k], path[1..], f);
        }
      case _ =>
    }
  }

  lemma {:induction false} RoleAtField(role: Role, v: Json, path: seq<PathStep>)
    requires role != Block && v.Object? && path != [] && path[0].Field?
    ensures RoleAt(role, v, path)
         == if path[0].key in v.fields then RoleAt(Child(role, v, path[0].key), v.fields[path[0].key], path[1..])
            else None
  {
  }

  lemma {:induction false} RoleAtItem(role: Role, v: Json, path: seq<PathStep>)
    requires role != Block && v.Array? && path != [] && path[0].Item?
    ensures RoleAt(role, v, path)
         == if path[0].index < |v.items| then RoleAt(Element(role), v.items[path[0].index], path[1..]) else None
  {
  }

  lemma {:induction false} NoRoleAt(role: Role, v: Json, path: seq<PathStep>)
    requires path != [] && (role == Block || (!(v.Object? && path[0].Field?) && !(v.Array? && path[0].Item?)))
    ensures RoleAt(role, v, path) == None
  {
  }

  lemma {:induction false} RewriteLeaf(role: Role, v: Json, f: Json -> Json)
    requires role != Block && !v.Object? && !v.Array?
    ensures Rewrite(role, v, f) == v
  {
  }

  lemma {:induction false} FieldRewritten(role: Role, v: Json, path: seq<PathStep>, f: Json -> Json)
    requires role != Block && role != Opaque && v.Object? && path != [] && path[0].Field?
    ensures RoleAt(role, Rewrite(role, v, f), path) == Mapped(RoleAt(role, v, path), f)
    decreases |path|, 0
  {
    var key := path[0].key;
    var w := Rewrite(role, v, f);
    RewriteObject(role, v, f);
    ChildrenKeepRoles(role, v, key, f);
    RoleAtField(role, v, path);
    RoleAtField(role, w, path);
    if key in v.fields {
      RoleAtRewritten(Child(role, v, key), v.fields[key], path[1..], f);
    }
  }

  lemma {:induction false} ItemRewritten(role: Role, v: Json, path: seq<PathStep>, f: Json -> Json)
    requires role != Block && role != Opaque && v.Array? && path != [] && path[0].Item?
    ensures RoleAt(role, Rewrite(role, v, f), path) == Mapped(RoleAt(role, v, path), f)
    decreases |path|, 0
  {
    var k := path[0].index;
    RewriteArray(role, v, f);
    RoleAtItem(role, v, path);
    RoleAtItem(role, Rewrite(role, v, f), path);
    if k < |v.items| {
      RoleAtRewritten(Element(role), v.items[k], path[1..], f);
    }
  }

  /** The rewritten tree has the same paths, each playing the same part. What stands there is the rewriting
      of what stood there: at a block its image, outside the parts that lead to blocks the same value. */
  lemma {:induction false} RoleAtRewritten(role: Role, v: Json, path: seq<PathStep>, f: Json -> Json)
    ensures RoleAt(role, Rewrite(role, v, f), path) == Mapped(RoleAt(role, v, path), f)
    decreases |path|, 1
  {
    if path == [] {
    } else if role == Opaque {
      OpaqueRoleAt(v, path, f);
    } else if role != Block && v.Object? && path[0].Field? {
      FieldRewritten(role, v, path, f);
    } else if role != Block && v.Array? && path[0].Item? {
      ItemRewritten(role, v, path, f);
    } else {
      NoRoleAt(role, v, path);
      if role != Block && v.Object? {
        RewriteObject(role, v, f);
      } else if role != Block && v.Array? {
        RewriteArray(role, v, f);
      } else if role != Block {
        RewriteLeaf(role, v, f);
      }
      NoRoleAt(role, Rewrite(role, v, f), path);
    }
  }

  // ---- Projection ------------------------------------------------------------------------------

  /** What projection does to a view with an owner: the part at every path stays, each block becomes its
      link, and everything that is neither a block nor leads to one is untouched. */
  lemma {:induction false} ProjectionAt(c: Codec, v: Json, path: seq<PathStep>)
    requires ViewOwner(v).Some?
    ensures
      var owner := ViewOwner(v).value;
      match RoleAt(View, v, path)
      case None => RoleAt(View, Project(c, v), path).None?
      case Some(at) =>
        && RoleAt(View, Project(c, v), path).Some?
        && var (role, w) := RoleAt(View, Project(c, v), path).value;
        && role == at.0
        && (role == Block ==> w == ProjectBlock(c, owner, at.1))
        && (role == Opaque ==> w == at.1)
  {
    var owner := ViewOwner(v).value;
    var f := block => ProjectBlock(c, owner, block);
    BlocksIsOnePass(v, f);
    RoleAtRewritten(View, v, path, f);
  }

  lemma {:induction false} LinkHasNoResource(c: Codec, owner: Owner, block: Json)
    ensures Resource(ProjectBlock(c, owner, block)).None?
  {
    if Resource(block).Some? {
      assert GetText(ProjectBlock(c, owner, block), "type") == Some("resource_link");
    }
  }

  lemma {:induction false} KeptWithoutResource(c: Codec, owner: Owner, block: Json)
    requires Resource(block).None?
    ensures ProjectBlock(c, owner, block) == block
  {
  }

  lemma {:induction false} LinksStay(c: Codec, owner: Owner, block: Json)
    ensures ProjectBlock(c, owner, ProjectBlock(c, owner, block)) == ProjectBlock(c, owner, block)
  {
    hide ProjectBlock, Resource;
    LinkHasNoResource(c, owner, block);
    KeptWithoutResource(c, owner, ProjectBlock(c, owner, block));
  }

  ghost predicate Idempotent(f: Json -> Json) {
    forall x :: f(f(x)) == f(x)
  }

  lemma {:induction false} ObjectTwice(role: Role, v: Json, f: Json -> Json)
    requires role != Block && role != Opaque && v.Object?
    requires forall key | key in v.fields ::
        Rewrite(Child(role, v, key), Rewrite(Child(role, v, key), v.fields[key], f), f)
        == Rewrite(Child(role, v, key), v.fields[key], f)
    ensures Rewrite(role, Rewrite(role, v, f), f) == Rewrite(role, v, f)
  {
    var w := Rewrite(role, v, f);
    RewriteObject(role, v, f);
    RewriteObject(role, w, f);
    forall key | key in v.fields ensures Rewrite(role, w, f).fields[key] == w.fields[key] {
      ChildrenKeepRoles(role, v, key, f);
    }
    SameFields(Rewrite(role, w, f).fields, w.fields);
  }

  lemma {:induction false} ArrayTwice(role: Role, v: Json, f: Json -> Json)
    requires role != Block && role != Opaque && v.Array?
    requires forall k | 0 <= k < |v.items| ::
        Rewrite(Element(role), Rewrite(Element(role), v.items[k], f), f) == Rewrite(Element(role), v.items[k], f)
    ensures Rewrite(role, Rewrite(role, v, f), f) == Rewrite(role, v, f)
  {
    var w := Rewrite(role, v, f);
    RewriteArray(role, v, f);
    RewriteArray(role, w, f);
    SameItems(Rewrite(role, w, f).items, w.items);
  }

  lemma {:induction false} RewriteTwice(role: Role, v: Json, f: Json -> Json)
    requires Idempotent(f)
    ensures Rewrite(role, Rewrite(role, v, f), f) == Rewrite(role, v, f)
    decreases v
  {
    if role != Block && role != Opaque {
      match v
      case Object(fields) =>
        forall key | key in fields
          ensures Rewrite(Child(role, v, key), Rewrite(Child(role, v, key), v.fields[key], f), f)
               == Rewrite(Child(role, v, key), v.fields[key], f)
        {
          RewriteTwice(Child(role, v, key), fields[key], f);
        }
        ObjectTwice(role, v, f);
      case Array(items) =>
        forall k | 0 <= k < |v.items|
          ensures Rewrite(Element(role), Rewrite(Element(role), v.items[k], f), f)
                  == Rewrite(Element(role), v.items[k], f)
        {
          RewriteTwice(Element(role), items[k], f);
        }
        ArrayTwice(role, v, f);
      case _ => RewriteLeaf(role, v, f);
    }
  }

  lemma {:induction false} OwnerKept(v: Json, f: Json -> Json)
    ensures ViewOwner(Rewrite(View, v, f)) == ViewOwner(v)
  {
    FieldKept(View, v, "bridgeEpoch", f);
    FieldKept(View, v, "sessionId", f);
    FieldKept(View, v, "sessionIncarnation", f);
    SameOwner(Rewrite(View, v, f), v);
  }

  lemma {:induction false} SameOwner(v: Json, w: Json)
    requires forall key | key in {"bridgeEpoch", "sessionId", "sessionIncarnation"} :: Get(v, key) == Get(w, key)
    ensures ViewOwner(v) == ViewOwner(w)
  {
  }

  /** Projecting a projected view changes nothing. */
  lemma {:induction false} ProjectionIsIdempotent(c: Codec, v: Json)
    ensures Project(c, Project(c, v)) == Project(c, v)
  {
    if ViewOwner(v).Some? {
      var owner := ViewOwner(v).value;
      var f := block => ProjectBlock(c, owner, block);
      BlocksIsOnePass(v, f);
      OwnerKept(v, f);
      BlocksIsOnePass(Project(c, v), f);
      forall x ensures f(f(x)) == f(x) {
        LinksStay(c, owner, x);
      }
      RewriteTwice(View, v, f);
    }
  }

  // ---- Resolution ------------------------------------------------------------------------------

  lemma {:induction false} ReferenceParses(r: Reference)
    requires IsIncarnation(r.owner.incarnation)
    ensures ParseReference(ReferenceJson(r)) == Some(r)
  {
    assert ReferenceJson(r).fields.Keys == {"id", "sessionId", "bridgeEpoch", "sessionIncarnation"};
  }

  function ReferenceArray(r: Reference): Json {
    Array([Text(r.id), Text(r.owner.session), Text(r.owner.epoch), Number(r.owner.incarnation)])
  }

  /** A value is read as a reference exactly when it is one of the reference's two forms. */
  lemma {:induction false} ReferenceForms(v: Json, r: Reference)
    ensures ParseReference(v) == Some(r) <==>
            IsIncarnation(r.owner.incarnation) && (v == ReferenceJson(r) || v == ReferenceArray(r))
  {
    if IsIncarnation(r.owner.incarnation) {
      ReferenceParses(r);
    }
    if ParseReference(v) == Some(r) {
      if v.Object? {
        assert v.fields == ReferenceJson(r).fields;
      } else {
        assert v.items == ReferenceArray(r).items;
      }
    }
  }

  /** The link's reference names the block by its hash and the view's owner. */
  lemma {:induction false} LinkNamesBlock(c: Codec, owner: Owner, block: Json)
    requires Resource(block).Some? && IsIncarnation(owner.incarnation)
    ensures LinkReference(ProjectBlock(c, owner, block)) == Some(Reference(c.id(block), owner))
  {
    var link := ProjectBlock(c, owner, block);
    var r := Reference(c.id(block), owner);
    ReferenceParses(r);
    assert Get(link, "_meta") == Some(Object(map["attyd/attachment" := ReferenceJson(r)]));
    assert GetText(link, "type") == Some("resource_link");
  }
}
