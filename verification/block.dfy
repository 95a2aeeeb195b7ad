/** The generic synthetic formatting block of the Go formatter: a syntax
    node with its construct configuration, the indent, alignment and
    alignment map it was created with, and its memoised child blocks. */
module GoSyntheticBlock {
  import opened Options
  import opened Syntax
  import opened Layout
  import opened BlockConfig
  import opened SpacingRules
  import opened ChildBuilder
  import opened EmbeddedRegion

  datatype SyntheticBlock = SyntheticBlock(
    node: Node,
    cfg: Config,
    indent: Indent,
    align: Option<Alignment>,
    known: AlignMap,
    subBlocks: Option<seq<Block>>)

  /** The children the block formats. A placeholder of an outer language
      takes the topmost subtrees of the file's Go tree that lie inside its
      range and have an AST node, or nothing when the file has no Go tree (`goFile` is None);
      any other node takes its own children. */
  function GetGoChildren(node: Node, goFile: Option<Node>): (r: seq<Node>)
    ensures !node.isOuter ==> r == node.children
    ensures node.isOuter && goFile.None? ==> r == []
    ensures node.isOuter && goFile.Some? ==>
      |r| == |AddChildNodes(goFile.value, node.range)| &&
      forall i :: 0 <= i < |r| ==>
        && node.range.Contains(r[i].range)
        && r[i].hasAst
        && ValidPath(goFile.value, AddChildNodes(goFile.value, node.range)[i].path)
        && SubtreeAt(goFile.value, AddChildNodes(goFile.value, node.range)[i].path) == r[i]
  {
    if !node.isOuter then node.children
    else if goFile.None? then []
    else
      PlaceholderChildrenContained(goFile.value, node.range);
      Nodes(AddChildNodes(goFile.value, node.range))
  }

  datatype Children = Children(blocks: seq<Block>, next: nat)

  /** The children of `b` that become blocks. */
  function Kept(b: SyntheticBlock, goFile: Option<Node>): seq<Node> {
    Survivors(GetGoChildren(b.node, goFile))
  }

  /** The child blocks of `b`. Alignment maps are allocated from the epoch
      supply starting at `supply`: the first for the loop's initial map, one
      more at every reset; `next` is the first epoch not used. */
  function BuildChildren(b: SyntheticBlock, goFile: Option<Node>, hook: AlignHook, lines: LineCounter, supply: nat): (r: Children)
    // one block per kept child, in source order
    ensures |r.blocks| == |Kept(b, goFile)|
    ensures forall i :: 0 <= i < |r.blocks| ==> r.blocks[i].node == Kept(b, goFile)[i]
    // every map holds the construct's keys and is new to this call
    ensures forall i :: 0 <= i < |r.blocks| ==>
      r.blocks[i].aligns.keys == b.cfg.alignmentKeys && supply <= r.blocks[i].aligns.epoch < r.next
    ensures supply < r.next
  {
    var built := BuildFrom(Ctx(b.cfg, b.known, hook, lines), GetGoChildren(b.node, goFile), None, b.node.isDocumented, supply);
    Children(built.blocks, built.last + 1)
  }

  /** Block `i` is the reference block for kept child `i`. */
  lemma ChildIsReference(b: SyntheticBlock, goFile: Option<Node>, hook: AlignHook, lines: LineCounter, supply: nat, i: nat)
    requires i < |Kept(b, goFile)|
    ensures BuildChildren(b, goFile, hook, lines, supply).blocks[i] ==
            MakeBlock(Ctx(b.cfg, b.known, hook, lines), Kept(b, goFile)[i], PrevOf(None, Kept(b, goFile), i),
                      LeadingGroup(b.node.isDocumented, Kept(b, goFile), i),
                      EpochAt(Ctx(b.cfg, b.known, hook, lines), Kept(b, goFile), None, supply, i))
  {
    BuildMatchesReference(Ctx(b.cfg, b.known, hook, lines), GetGoChildren(b.node, goFile), None, b.node.isDocumented, supply);
  }

  /** A child is in the leading comment group exactly when the node is
      documented and every kept child up to it is a comment; such a child
      gets the configured comment-group indent and alignment, any other the
      default indent and the hook's alignment, computed from the block's own
      inherited map whatever the builder reset. */
  lemma LeadingCommentGroup(b: SyntheticBlock, goFile: Option<Node>, hook: AlignHook, lines: LineCounter, supply: nat, i: nat)
    requires i < |Kept(b, goFile)|
    ensures var blk := BuildChildren(b, goFile, hook, lines, supply).blocks[i];
      && (blk.commentGroupPart <==> b.node.isDocumented && forall j :: 0 <= j <= i ==> Kept(b, goFile)[j].isComment)
      && (blk.commentGroupPart ==> blk.indent == b.cfg.commentGroupIndent && blk.align == b.cfg.commentGroupAlign)
      && (!blk.commentGroupPart ==>
            && blk.indent == GetChildIndent(b.cfg, Kept(b, goFile)[i], PrevOf(None, Kept(b, goFile), i))
            && blk.align == hook(Kept(b, goFile)[i], PrevOf(None, Kept(b, goFile), i), b.known))
  {
    ChildIsReference(b, goFile, hook, lines, supply, i);
  }

  /** The first child is handed the loop's initial map: it never resets. */
  lemma FirstChildInitialMap(b: SyntheticBlock, goFile: Option<Node>, hook: AlignHook, lines: LineCounter, supply: nat)
    requires |Kept(b, goFile)| > 0
    ensures BuildChildren(b, goFile, hook, lines, supply).blocks[0].aligns.epoch == supply
  {
    ChildIsReference(b, goFile, hook, lines, supply, 0);
  }

  /** A later child is handed a map no earlier child got exactly when the
      previous kept child is line-breaking and the two are not held together
      at the number of lines between them. */
  lemma AlignmentReset(b: SyntheticBlock, goFile: Option<Node>, hook: AlignHook, lines: LineCounter, supply: nat, i: nat)
    requires 0 < i < |Kept(b, goFile)|
    ensures
      var prev := Kept(b, goFile)[i - 1];
      var cur := Kept(b, goFile)[i];
      (WantsToBreakLine(b.cfg, prev.kind) && !HoldTogether(b.cfg, prev.kind, cur.kind, lines(prev, cur)))
      <==> NewMapAt(BuildChildren(b, goFile, hook, lines, supply).blocks, i)
  {
    var ctx := Ctx(b.cfg, b.known, hook, lines);
    BuildMatchesReference(ctx, GetGoChildren(b.node, goFile), None, b.node.isDocumented, supply);
    FreshIffReset(ctx, Kept(b, goFile), None, b.node.isDocumented, supply, i);
  }

  /** A child after a kept child that is not line-breaking shares that
      child's alignment map. */
  lemma NonBreakingPrevSharesMap(b: SyntheticBlock, goFile: Option<Node>, hook: AlignHook, lines: LineCounter, supply: nat, i: nat)
    requires 0 < i < |Kept(b, goFile)|
    requires !WantsToBreakLine(b.cfg, Kept(b, goFile)[i - 1].kind)
    ensures !NewMapAt(BuildChildren(b, goFile, hook, lines, supply).blocks, i)
  {
    AlignmentReset(b, goFile, hook, lines, supply, i);
  }

  datatype SubBlocks = SubBlocks(blocks: seq<Block>, block: SyntheticBlock, next: nat)

  /** The child blocks, computed on the first request and cached: a block
      with a cache answers from it and changes nothing. */
  function GetSubBlocks(b: SyntheticBlock, goFile: Option<Node>, hook: AlignHook, lines: LineCounter, supply: nat): (r: SubBlocks)
    ensures b.subBlocks.Some? ==> r == SubBlocks(b.subBlocks.value, b, supply)
    ensures b.subBlocks.None? ==>
      && r.blocks == BuildChildren(b, goFile, hook, lines, supply).blocks
      && r.next == BuildChildren(b, goFile, hook, lines, supply).next
      && r.block == b.(subBlocks := Some(r.blocks))
      && |r.blocks| == |Kept(b, goFile)|
      && supply < r.next
  {
    match b.subBlocks
    case Some(cached) => SubBlocks(cached, b, supply)
    case None =>
      var built := BuildChildren(b, goFile, hook, lines, supply);
      // an empty list is replaced by the shared empty list: the same value
      var blocks := if |built.blocks| == 0 then [] else built.blocks;
      SubBlocks(blocks, b.(subBlocks := Some(blocks)), built.next)
  }

  /** A second request returns what the first returned and leaves the block
      and the alignment supply as they were. */
  lemma SubBlocksMemoised(b: SyntheticBlock, goFile: Option<Node>, hook: AlignHook, lines: LineCounter, supply: nat,
                          goFile': Option<Node>, hook': AlignHook, lines': LineCounter, supply': nat)
    ensures
      var first := GetSubBlocks(b, goFile, hook, lines, supply);
      var second := GetSubBlocks(first.block, goFile', hook', lines', supply');
      second.blocks == first.blocks && second.block == first.block && second.next == supply'
  {
  }

  /** The attributes for a child typed into the block at `index`: no indent
      and no alignment at the first position, otherwise those of the next
      child. */
  function GetChildAttributes(index: int): (r: ChildAttributes)
    ensures r.Attributes? <==> index == 0
    ensures r.Attributes? ==> r.indent == NoIndent && r.align.None?
  {
    if index == 0 then Attributes(NoIndent, None) else DelegateToNextChild
  }

  /** Every child collected for a placeholder lies within its range, has an
      AST node, and is the subtree found at its position. */
  lemma PlaceholderChildrenContained(file: Node, range: Range)
    ensures forall f :: f in AddChildNodes(file, range) ==>
      Hit(f.node, range) && ValidPath(file, f.path) && SubtreeAt(file, f.path) == f.node
  {
    AddChildNodesSound(file, range);
    forall f | f in AddChildNodes(file, range)
      ensures Hit(f.node, range)
    {
      MinimalHitValid(file, f.path, range);
    }
  }

  /** No child of a placeholder is an ancestor of another, and no position
      is collected twice: two collected positions are never one a proper
      prefix of the other, and two entries have different positions. */
  lemma PlaceholderChildrenUnrelated(file: Node, range: Range, i: nat, j: nat)
    requires i < |AddChildNodes(file, range)| && j < |AddChildNodes(file, range)|
    ensures !(AddChildNodes(file, range)[i].path < AddChildNodes(file, range)[j].path)
    ensures i != j ==> AddChildNodes(file, range)[i].path != AddChildNodes(file, range)[j].path
  {
    AddChildNodesSound(file, range);
    var r := AddChildNodes(file, range);
    MinimalHitsUnrelated(file, r[i].path, r[j].path, range);
    BeforeIrreflexive(r[i].path);
    BeforeIrreflexive(r[j].path);
  }
}
