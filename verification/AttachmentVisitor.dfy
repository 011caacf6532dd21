/** The loops of the traversal: rewriting the view position by position, and searching it with a variable
    that the visitor fills. */
module AttachmentVisitor {
  import opened Prelude
  import opened Json
  import opened Attachments
  import opened AttachmentPass

  /** Each block is rewritten where it stands, and nothing else. */
  method RewriteBlocks(view: Json, f: Json -> Json) returns (v: Json)
    ensures v == Rewrite(View, view, f)
  {
    v := view;
    for i := 0 to |POSITIONS|
      invariant v == Visited(view, i, f)
    {
      v := Visit(POSITIONS[i], v, f);
    }
    BlocksIsOnePass(view, f);
  }

  method ProjectView(c: Codec, view: Json) returns (v: Json)
    ensures v == Project(c, view)
  {
    var owner := ViewOwner(view);
    if owner.None? {
      return view;
    }
    v := RewriteBlocks(view, block => ProjectBlock(c, owner.value, block));
    BlocksIsOnePass(view, block => ProjectBlock(c, owner.value, block));
  }

  lemma {:induction false} FirstWithNext(c: Codec, blocks: seq<Json>, block: Json, id: string)
    ensures FirstWith(c, blocks + [block], id)
         == if FirstWith(c, blocks, id).Some? then FirstWith(c, blocks, id)
            else if Resource(block).Some? && c.id(block) == id then Some(block) else None
  {
    if blocks == [] {
      assert blocks + [block] == [block];
    } else {
      assert (blocks + [block])[1..] == blocks[1..] + [block];
      FirstWithNext(c, blocks[1..], block, id);
    }
  }

  lemma {:induction false} OneMoreBlock(before: seq<Json>, blocks: seq<Json>, k: nat)
    requires k < |blocks|
    ensures before + blocks[..k + 1] == before + blocks[..k] + [blocks[k]]
  {
  }

  /** The variable keeps the first block that matched and ignores later ones. */
  method VisitBlocks(c: Codec, ghost before: seq<Json>, blocks: seq<Json>, id: string, start: Option<Json>)
    returns (found: Option<Json>)
    requires start == FirstWith(c, before, id)
    ensures found == FirstWith(c, before + blocks, id)
  {
    found := start;
    assert before + blocks[..0] == before;
    for k := 0 to |blocks|
      invariant found == FirstWith(c, before + blocks[..k], id)
    {
      if found.None? && Resource(blocks[k]).Some? && c.id(blocks[k]) == id {
        found := Some(blocks[k]);
      }
      FirstWithNext(c, before + blocks[..k], blocks[k], id);
      OneMoreBlock(before, blocks, k);
    }
    assert blocks[..|blocks|] == blocks;
  }

  method FindBlock(c: Codec, view: Json, id: string) returns (found: Option<Json>)
    ensures found == Find(c, view, id)
  {
    found := None;
    for i := 0 to |POSITIONS|
      invariant found == FirstWith(c, Collected(c, view, i), id)
    {
      found := VisitBlocks(c, Collected(c, view, i), Collect(c, POSITIONS[i], view), id, found);
    }
  }
}
