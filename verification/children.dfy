/** The child-list builder of a synthetic block: one pass over a node's
    children that skips empty and whitespace nodes, tracks the leading
    comment group, picks each child's indent and alignment, and starts a new
    alignment epoch after an unheld line-breaking child. */
module ChildBuilder {
  import opened Options
  import opened Syntax
  import opened Layout
  import opened BlockConfig
  import opened SpacingRules

  /** A construct's alignment hook: given the child, the previous kept
      child and the block's own inherited alignment map, the alignment of
      the child. The generic block's hook answers None. */
  type AlignHook = (Node, Option<Node>, AlignMap) -> Option<Alignment>

  /** What one build reads besides the children: the block's configuration
      and inherited alignment map, the alignment hook and the line counter. */
  datatype Ctx = Ctx(cfg: Config, known: AlignMap, hook: AlignHook, lines: LineCounter)

  /** A zero-length or whitespace child carries no layout and is skipped. */
  predicate Skipped(c: Node) {
    c.range.Length() == 0 || c.isWhitespace
  }

  /** The children that become blocks, in source order. */
  function Survivors(kids: seq<Node>): (s: seq<Node>)
    ensures |s| <= |kids|
    ensures forall c :: c in s <==> c in kids && !Skipped(c)
    decreases |kids|
  {
    if |kids| == 0 then []
    else
      var rest := Survivors(kids[1..]);
      assert forall c :: c in kids <==> c == kids[0] || c in kids[1..];
      if Skipped(kids[0]) then rest else [kids[0]] + rest
  }

  /** A lone child survives exactly when it is not skipped. */
  lemma SurvivorsSingle(c: Node)
    ensures Survivors([c]) == if Skipped(c) then [] else [c]
  {
    assert [c][1..] == [];
  }

  /** Filtering keeps the source order: the survivors of a concatenation are
      the survivors of each part, one after the other. */
  lemma {:induction false} SurvivorsConcat(a: seq<Node>, b: seq<Node>)
    ensures Survivors(a + b) == Survivors(a) + Survivors(b)
    decreases |a|
  {
    if |a| > 0 {
      var ab := a + b;
      assert ab[0] == a[0];
      assert ab[1..] == a[1..] + b;
      SurvivorsConcat(a[1..], b);
      var head := if Skipped(a[0]) then [] else [a[0]];
      assert Survivors(ab) == head + Survivors(a[1..] + b);
      assert Survivors(a) == head + Survivors(a[1..]);
    } else {
      assert a + b == b;
    }
  }

  /** The default indent of a child outside the leading comment group. */
  function GetChildIndent(cfg: Config, child: Node, prev: Option<Node>): (r: Indent)
    ensures r == NormalIndent <==> child.kind in cfg.indentedChildren
    ensures r != NormalIndent ==> r == NoIndent
  {
    if child.kind in cfg.indentedChildren then NormalIndent else NoIndent
  }

  /** A new alignment epoch starts before `c` when the previous kept child is
      line-breaking and the two are not held together. There is no previous
      child for the first one, so it never starts an epoch. */
  predicate Resets(ctx: Ctx, prev: Option<Node>, c: Node) {
    && prev.Some?
    && WantsToBreakLine(ctx.cfg, prev.value.kind)
    && !HoldTogether(ctx.cfg, prev.value.kind, c.kind, ctx.lines(prev.value, c))
  }

  /** The block generated for kept child `c`, followed by the identity
      customisation of the generic block. */
  function MakeBlock(ctx: Ctx, c: Node, prev: Option<Node>, inGroup: bool, epoch: nat): Block {
    Block(
      c,
      if inGroup then ctx.cfg.commentGroupIndent else GetChildIndent(ctx.cfg, c, prev),
      if inGroup then ctx.cfg.commentGroupAlign else ctx.hook(c, prev, ctx.known),
      AlignMap(epoch, ctx.cfg.alignmentKeys),
      inGroup)
  }

  datatype Built = Built(blocks: seq<Block>, last: nat)

  /** Every block's map holds `keys` and comes from an epoch in [lo, hi]. */
  predicate MapsWithin(blocks: seq<Block>, keys: set<AlignKey>, lo: nat, hi: nat) {
    forall i :: 0 <= i < |blocks| ==> blocks[i].aligns.keys == keys && lo <= blocks[i].aligns.epoch <= hi
  }

  lemma MapsWithinCons(b: Block, rest: seq<Block>, keys: set<AlignKey>, lo: nat, hi: nat)
    requires b.aligns.keys == keys && lo <= b.aligns.epoch <= hi
    requires MapsWithin(rest, keys, lo, hi)
    ensures MapsWithin([b] + rest, keys, lo, hi)
  {
    var blocks := [b] + rest;
    forall i | 0 <= i < |blocks|
      ensures blocks[i].aligns.keys == keys && lo <= blocks[i].aligns.epoch <= hi
    {
      if i > 0 {
        assert blocks[i] == rest[i - 1];
      }
    }
  }

  lemma NodesCons(b: Block, rest: seq<Block>, s: seq<Node>)
    requires |rest| == |s| && forall i :: 0 <= i < |rest| ==> rest[i].node == s[i]
    ensures var blocks, t := [b] + rest, [b.node] + s;
      |blocks| == |t| && forall i :: 0 <= i < |blocks| ==> blocks[i].node == t[i]
  {
    var blocks, t := [b] + rest, [b.node] + s;
    forall i | 0 <= i < |blocks|
      ensures blocks[i].node == t[i]
    {
      if i > 0 {
        assert blocks[i] == rest[i - 1] && t[i] == s[i - 1];
      }
    }
  }

  /** The loop of the builder as a fold. The state is the previous kept
      child, whether the leading comment group is still open, and the epoch
      of the current alignment map; `last` is the epoch of the map in use
      when the loop ends. */
  function BuildFrom(ctx: Ctx, kids: seq<Node>, prev: Option<Node>, inGroup: bool, epoch: nat): (r: Built)
    ensures |r.blocks| == |Survivors(kids)|
    ensures forall i :: 0 <= i < |r.blocks| ==> r.blocks[i].node == Survivors(kids)[i]
    ensures epoch <= r.last
    ensures MapsWithin(r.blocks, ctx.cfg.alignmentKeys, epoch, r.last)
    decreases |kids|
  {
    if |kids| == 0 then Built([], epoch)
    else
      var c := kids[0];
      if Skipped(c) then BuildFrom(ctx, kids[1..], prev, inGroup, epoch)
      else
        var group := inGroup && c.isComment;
        var e := if Resets(ctx, prev, c) then epoch + 1 else epoch;
        var rest := BuildFrom(ctx, kids[1..], Some(c), group, e);
        var b := MakeBlock(ctx, c, prev, group, e);
        MapsWithinCons(b, rest.blocks, ctx.cfg.alignmentKeys, epoch, rest.last);
        NodesCons(b, rest.blocks, Survivors(kids[1..]));
        Built([b] + rest.blocks, rest.last)
  }

  // ---------------------------------------------------------------------
  // Reference definition: filter first, then decide each kept child from
  // its index alone.

  /** The kept child before index `i`, or the initial one before index 0. */
  function PrevOf(prev: Option<Node>, s: seq<Node>, i: nat): Option<Node>
    requires i <= |s|
  {
    if i == 0 then prev else Some(s[i - 1])
  }

  /** The leading comment group is open at index `i`: the block is
      documented and every kept child up to and including `i` is a comment. */
  predicate LeadingGroup(documented: bool, s: seq<Node>, i: nat)
    requires i < |s|
  {
    documented && forall j :: 0 <= j <= i ==> s[j].isComment
  }

  /** The epoch of the alignment map handed to kept child `i`: the initial
      epoch plus one for every reset up to and including `i`. */
  function EpochAt(ctx: Ctx, s: seq<Node>, prev: Option<Node>, epoch: nat, i: nat): nat
    requires i < |s|
    decreases i
  {
    (if i == 0 then epoch else EpochAt(ctx, s, prev, epoch, i - 1))
    + (if Resets(ctx, PrevOf(prev, s, i), s[i]) then 1 else 0)
  }

  function LastEpoch(ctx: Ctx, s: seq<Node>, prev: Option<Node>, epoch: nat): nat {
    if |s| == 0 then epoch else EpochAt(ctx, s, prev, epoch, |s| - 1)
  }

  function Reference(ctx: Ctx, s: seq<Node>, prev: Option<Node>, documented: bool, epoch: nat): (r: seq<Block>)
    ensures |r| == |s|
    ensures forall i :: 0 <= i < |s| ==>
      r[i] == MakeBlock(ctx, s[i], PrevOf(prev, s, i), LeadingGroup(documented, s, i), EpochAt(ctx, s, prev, epoch, i))
  {
    seq(|s|, i requires 0 <= i < |s| =>
      MakeBlock(ctx, s[i], PrevOf(prev, s, i), LeadingGroup(documented, s, i), EpochAt(ctx, s, prev, epoch, i)))
  }

  /** Shifting the reference by one kept child: index `i` of `[c] + s`
      starting from `prev` is index `i - 1` of `s` starting from `c`. */
  lemma {:induction false} EpochShift(ctx: Ctx, c: Node, s: seq<Node>, prev: Option<Node>, epoch: nat, i: nat)
    requires 1 <= i <= |s|
    ensures EpochAt(ctx, [c] + s, prev, epoch, i) ==
            EpochAt(ctx, s, Some(c), EpochAt(ctx, [c] + s, prev, epoch, 0), i - 1)
    decreases i
  {
    var t := [c] + s;
    assert t[i] == s[i - 1];
    assert PrevOf(prev, t, i) == PrevOf(Some(c), s, i - 1);
    if i > 1 {
      EpochShift(ctx, c, s, prev, epoch, i - 1);
    }
  }

  /** The epoch of the first kept child: one more than the initial epoch
      exactly when the initial previous child resets. */
  lemma EpochFirst(ctx: Ctx, s: seq<Node>, prev: Option<Node>, epoch: nat)
    requires |s| > 0
    ensures EpochAt(ctx, s, prev, epoch, 0) == if Resets(ctx, prev, s[0]) then epoch + 1 else epoch
  {
  }

  /** The leading comment group seen from one kept child further on. */
  lemma {:induction false} LeadingGroupShift(documented: bool, c: Node, s: seq<Node>, i: nat)
    requires 1 <= i <= |s|
    ensures LeadingGroup(documented, [c] + s, i) == LeadingGroup(documented && c.isComment, s, i - 1)
  {
    var t := [c] + s;
    assert t[0] == c;
    assert forall j :: 1 <= j <= i ==> t[j] == s[j - 1];
    if LeadingGroup(documented && c.isComment, s, i - 1) {
      forall j | 0 <= j <= i
        ensures t[j].isComment
      {
        if j > 0 {
          assert t[j] == s[j - 1];
        }
      }
    }
    if LeadingGroup(documented, t, i) {
      assert c.isComment;
      forall j | 0 <= j <= i - 1
        ensures s[j].isComment
      {
        assert s[j] == t[j + 1];
      }
    }
  }

  /** One index of the reference over `[c] + s`, seen from `s`. */
  lemma ReferenceTail(ctx: Ctx, c: Node, s: seq<Node>, prev: Option<Node>, documented: bool, epoch: nat, i: nat)
    requires 1 <= i <= |s|
    ensures
      var e := if Resets(ctx, prev, c) then epoch + 1 else epoch;
      Reference(ctx, [c] + s, prev, documented, epoch)[i] ==
      Reference(ctx, s, Some(c), documented && c.isComment, e)[i - 1]
  {
    var t := [c] + s;
    EpochFirst(ctx, t, prev, epoch);
    EpochShift(ctx, c, s, prev, epoch, i);
    LeadingGroupShift(documented, c, s, i);
    assert t[i] == s[i - 1];
    assert PrevOf(prev, t, i) == PrevOf(Some(c), s, i - 1);
  }

  /** A sequence whose first element is `head` and whose remaining elements
      are those of `rest` is `[head] + rest`. */
  lemma ConsOf(want: seq<Block>, head: Block, rest: seq<Block>)
    requires |want| == |rest| + 1 && want[0] == head
    requires forall i :: 1 <= i < |want| ==> want[i] == rest[i - 1]
    ensures want == [head] + rest
  {
    var cons := [head] + rest;
    assert |cons| == |want|;
    forall i | 0 <= i < |want|
      ensures want[i] == cons[i]
    {
      if i > 0 {
        assert cons[i] == rest[i - 1];
      }
    }
  }

  /** The reference over `[c] + s` is the block for `c` followed by the
      reference over `s` started from `c`. */
  lemma ReferenceCons(ctx: Ctx, c: Node, s: seq<Node>, prev: Option<Node>, documented: bool, epoch: nat)
    ensures
      var e := if Resets(ctx, prev, c) then epoch + 1 else epoch;
      var group := documented && c.isComment;
      && Reference(ctx, [c] + s, prev, documented, epoch) ==
         [MakeBlock(ctx, c, prev, group, e)] + Reference(ctx, s, Some(c), group, e)
      && LastEpoch(ctx, [c] + s, prev, epoch) == LastEpoch(ctx, s, Some(c), e)
  {
    var t := [c] + s;
    var e := if Resets(ctx, prev, c) then epoch + 1 else epoch;
    var group := documented && c.isComment;
    EpochFirst(ctx, t, prev, epoch);
    var want := Reference(ctx, t, prev, documented, epoch);
    var rest := Reference(ctx, s, Some(c), group, e);
    assert want[0] == MakeBlock(ctx, c, prev, group, e) by {
      assert LeadingGroup(documented, t, 0) == group;
    }
    forall i | 1 <= i < |t|
      ensures want[i] == rest[i - 1]
    {
      ReferenceTail(ctx, c, s, prev, documented, epoch, i);
    }
    ConsOf(want, MakeBlock(ctx, c, prev, group, e), rest);
    if |s| > 0 {
      EpochShift(ctx, c, s, prev, epoch, |s|);
    }
  }

  /** The fold computes exactly the reference over the kept children. */
  lemma {:induction false} BuildMatchesReference(ctx: Ctx, kids: seq<Node>, prev: Option<Node>, documented: bool, epoch: nat)
    ensures BuildFrom(ctx, kids, prev, documented, epoch) ==
            Built(Reference(ctx, Survivors(kids), prev, documented, epoch),
                  LastEpoch(ctx, Survivors(kids), prev, epoch))
    decreases |kids|
  {
    if |kids| > 0 {
      var c := kids[0];
      if Skipped(c) {
        BuildMatchesReference(ctx, kids[1..], prev, documented, epoch);
      } else {
        var group := documented && c.isComment;
        var e := if Resets(ctx, prev, c) then epoch + 1 else epoch;
        assert Survivors(kids) == [c] + Survivors(kids[1..]);
        BuildMatchesReference(ctx, kids[1..], Some(c), group, e);
        ReferenceCons(ctx, c, Survivors(kids[1..]), prev, documented, epoch);
      }
    }
  }

  /** Epochs never decrease along the kept children. */
  lemma {:induction false} EpochMonotone(ctx: Ctx, s: seq<Node>, prev: Option<Node>, epoch: nat, j: nat, i: nat)
    requires j <= i < |s|
    ensures epoch <= EpochAt(ctx, s, prev, epoch, j) <= EpochAt(ctx, s, prev, epoch, i)
    decreases i
  {
    if j < i {
      EpochMonotone(ctx, s, prev, epoch, j, i - 1);
    } else if i > 0 {
      EpochMonotone(ctx, s, prev, epoch, 0, i - 1);
    }
  }

  /** Block `i` is handed an alignment map no earlier block received. */
  predicate NewMapAt(blocks: seq<Block>, i: nat)
    requires i < |blocks|
  {
    forall j :: 0 <= j < i ==> blocks[j].aligns.epoch != blocks[i].aligns.epoch
  }

  /** Each block of the reference holds the map of its child's epoch. */
  lemma ReferenceEpochs(ctx: Ctx, s: seq<Node>, prev: Option<Node>, documented: bool, epoch: nat)
    ensures forall j :: 0 <= j < |s| ==>
      Reference(ctx, s, prev, documented, epoch)[j].aligns.epoch == EpochAt(ctx, s, prev, epoch, j)
  {
    var blocks := Reference(ctx, s, prev, documented, epoch);
    forall j | 0 <= j < |s|
      ensures blocks[j].aligns.epoch == EpochAt(ctx, s, prev, epoch, j)
    {
      assert blocks[j] == MakeBlock(ctx, s[j], PrevOf(prev, s, j), LeadingGroup(documented, s, j), EpochAt(ctx, s, prev, epoch, j));
    }
  }

  /** After a reset before child `i`, its epoch is above every earlier one. */
  lemma ResetRaisesEpoch(ctx: Ctx, s: seq<Node>, prev: Option<Node>, epoch: nat, j: nat, i: nat)
    requires j < i < |s| && Resets(ctx, Some(s[i - 1]), s[i])
    ensures EpochAt(ctx, s, prev, epoch, j) < EpochAt(ctx, s, prev, epoch, i)
  {
    assert PrevOf(prev, s, i) == Some(s[i - 1]);
    EpochMonotone(ctx, s, prev, epoch, j, i - 1);
  }

  /** After a reset, the child is handed a map no earlier child received. */
  lemma ResetGivesNewMap(ctx: Ctx, s: seq<Node>, prev: Option<Node>, documented: bool, epoch: nat, i: nat)
    requires 0 < i < |s| && Resets(ctx, Some(s[i - 1]), s[i])
    ensures NewMapAt(Reference(ctx, s, prev, documented, epoch), i)
  {
    var blocks := Reference(ctx, s, prev, documented, epoch);
    ReferenceEpochs(ctx, s, prev, documented, epoch);
    forall j | 0 <= j < i
      ensures blocks[j].aligns.epoch != blocks[i].aligns.epoch
    {
      ResetRaisesEpoch(ctx, s, prev, epoch, j, i);
    }
  }

  /** Without a reset, the child shares its predecessor's map. */
  lemma NoResetSharesMap(ctx: Ctx, s: seq<Node>, prev: Option<Node>, documented: bool, epoch: nat, i: nat)
    requires 0 < i < |s| && !Resets(ctx, Some(s[i - 1]), s[i])
    ensures !NewMapAt(Reference(ctx, s, prev, documented, epoch), i)
  {
    var blocks := Reference(ctx, s, prev, documented, epoch);
    ReferenceEpochs(ctx, s, prev, documented, epoch);
    assert EpochAt(ctx, s, prev, epoch, i) == EpochAt(ctx, s, prev, epoch, i - 1);
    assert blocks[i - 1].aligns.epoch == blocks[i].aligns.epoch;
  }

  /** A kept child is handed a map no earlier kept child received exactly
      when the builder reset the alignments before it. */
  lemma FreshIffReset(ctx: Ctx, s: seq<Node>, prev: Option<Node>, documented: bool, epoch: nat, i: nat)
    requires 0 < i < |s|
    ensures Resets(ctx, Some(s[i - 1]), s[i]) <==> NewMapAt(Reference(ctx, s, prev, documented, epoch), i)
  {
    if Resets(ctx, Some(s[i - 1]), s[i]) {
      ResetGivesNewMap(ctx, s, prev, documented, epoch, i);
    } else {
      NoResetSharesMap(ctx, s, prev, documented, epoch, i);
    }
  }
}
