/** The spacing resolver of a synthetic block: which directive goes between
    two adjacent child blocks, and when two kinds are held together. */
module SpacingRules {
  import opened Options
  import opened Syntax
  import opened Layout
  import opened BlockConfig

  /** Counts the newlines in the text between two nodes. The text accessors
      are not part of this model, so the count is an input. */
  type LineCounter = (Node, Node) -> nat

  /** Group `g` is present and holds both kinds. */
  predicate InGroup(g: Option<set<Kind>>, k1: Kind, k2: Kind) {
    g.Some? && k1 in g.value && k2 in g.value
  }

  /** The scan over the hold-together groups: true as soon as one non-null
      group holds both kinds. */
  function AnyGroupHolds(groups: seq<Option<set<Kind>>>, k1: Kind, k2: Kind): (r: bool)
    ensures r <==> exists i :: 0 <= i < |groups| && InGroup(groups[i], k1, k2)
    decreases |groups|
  {
    if |groups| == 0 then false
    else if InGroup(groups[0], k1, k2) then true
    else
      var rest := AnyGroupHolds(groups[1..], k1, k2);
      assert forall i :: 1 <= i < |groups| ==> groups[i] == groups[1..][i - 1];
      rest
  }

  /** Two neighbouring kinds stay on adjacent lines. */
  function HoldTogether(cfg: Config, k1: Kind, k2: Kind, linesBetween: nat): (r: bool)
    // a blank line the user left between them is always respected
    ensures linesBetween > 1 ==> !r
    ensures linesBetween <= 1 ==>
      (r <==> k1 == k2 ||
              (cfg.holdTogetherGroups.Some? &&
               exists i :: 0 <= i < |cfg.holdTogetherGroups.value| &&
                           InGroup(cfg.holdTogetherGroups.value[i], k1, k2)))
  {
    if linesBetween > 1 then false
    else if k1 == k2 then true
    else match cfg.holdTogetherGroups
      case None => false
      case Some(groups) => AnyGroupHolds(groups, k1, k2)
  }

  /** The default for a pair no earlier rule decides: one line after a
      single-line comment, the language's basic spacing otherwise. */
  function PlainSpacing(k1: Kind): (r: Spacing)
    ensures r == OneLine <==> k1 == SlComment
    ensures r == OneLine || r == Basic
  {
    if k1 == SlComment then OneLine else Basic
  }

  /** Neither the missing-left rule, the comment-group rule nor a custom
      rule has fired: the pair is decided by the mode-dependent rules. */
  predicate ReachesModeRules(cfg: Config, left: Option<Block>, right: Block) {
    && left.Some?
    && !left.value.commentGroupPart
    && !right.commentGroupPart
    && CustomSpacingBetween(cfg, left.value.node.kind, right.node.kind).None?
  }

  /** The directive between `left` (absent before the first child) and
      `right`, by the first rule that matches. */
  function GetSpacing(cfg: Config, left: Option<Block>, right: Block, lines: LineCounter): (r: Spacing)
    ensures left.None? ==> r == NoSpacing
    ensures left.Some? && (left.value.commentGroupPart || right.commentGroupPart) ==> r == OneLine
    ensures left.Some? && !left.value.commentGroupPart && !right.commentGroupPart ==>
      var custom := CustomSpacingBetween(cfg, left.value.node.kind, right.node.kind);
      custom.Some? ==> r == custom.value
    // outside multiline mode only the left kind matters
    ensures ReachesModeRules(cfg, left, right) && !cfg.multiLine ==>
      r == PlainSpacing(left.value.node.kind)
    ensures ReachesModeRules(cfg, left, right) && cfg.multiLine ==>
      (r == OneLineKeepBreaks <==>
        IsLeftBreak(cfg, left.value.node.kind) && IsRightBreak(cfg, right.node.kind))
    ensures ReachesModeRules(cfg, left, right) && cfg.multiLine &&
            IsLeftBreak(cfg, left.value.node.kind) != IsRightBreak(cfg, right.node.kind) ==>
      r == OneLine
    // the fallback fires only for an unheld line-breaking left kind between the markers
    ensures ReachesModeRules(cfg, left, right) && cfg.multiLine ==>
      (r == EmptyLine <==>
        && !IsLeftBreak(cfg, left.value.node.kind)
        && !IsRightBreak(cfg, right.node.kind)
        && WantsToBreakLine(cfg, left.value.node.kind)
        && !HoldTogether(cfg, left.value.node.kind, right.node.kind, lines(left.value.node, right.node)))
    // between the markers, a left kind that expects no break gets the plain
    // default, and a line-breaking left kind held together with its
    // neighbour gets exactly one line
    ensures ReachesModeRules(cfg, left, right) && cfg.multiLine &&
            !IsLeftBreak(cfg, left.value.node.kind) && !IsRightBreak(cfg, right.node.kind) &&
            !WantsToBreakLine(cfg, left.value.node.kind) ==>
      r == PlainSpacing(left.value.node.kind)
    ensures ReachesModeRules(cfg, left, right) && cfg.multiLine &&
            !IsLeftBreak(cfg, left.value.node.kind) && !IsRightBreak(cfg, right.node.kind) &&
            WantsToBreakLine(cfg, left.value.node.kind) &&
            HoldTogether(cfg, left.value.node.kind, right.node.kind, lines(left.value.node, right.node)) ==>
      r == OneLine
    ensures ReachesModeRules(cfg, left, right) ==>
      r in {OneLine, OneLineKeepBreaks, Basic, EmptyLine}
  {
    match left
    case None => NoSpacing
    case Some(l) =>
      var k1 := l.node.kind;
      var k2 := right.node.kind;
      if l.commentGroupPart || right.commentGroupPart then OneLine
      else match CustomSpacingBetween(cfg, k1, k2)
        case Some(s) => s
        case None =>
          if !cfg.multiLine then PlainSpacing(k1)
          else if IsLeftBreak(cfg, k1) && IsRightBreak(cfg, k2) then OneLineKeepBreaks
          else if IsLeftBreak(cfg, k1) || IsRightBreak(cfg, k2) then OneLine
          else if !WantsToBreakLine(cfg, k1) then PlainSpacing(k1)
          else if HoldTogether(cfg, k1, k2, lines(l.node, right.node)) then OneLine
          else EmptyLine
  }

  /** Holding together does not depend on the order of the two kinds. */
  lemma HoldTogetherSymmetric(cfg: Config, k1: Kind, k2: Kind, linesBetween: nat)
    ensures HoldTogether(cfg, k1, k2, linesBetween) == HoldTogether(cfg, k2, k1, linesBetween)
  {
    if linesBetween <= 1 && k1 != k2 && cfg.holdTogetherGroups.Some? {
      var gs := cfg.holdTogetherGroups.value;
      assert forall i :: 0 <= i < |gs| ==> (InGroup(gs[i], k1, k2) <==> InGroup(gs[i], k2, k1));
    }
  }

  /** Fewer lines between two kinds never separates a held pair. */
  lemma HoldTogetherMonotone(cfg: Config, k1: Kind, k2: Kind, fewer: nat, more: nat)
    requires fewer <= more
    requires HoldTogether(cfg, k1, k2, more)
    ensures HoldTogether(cfg, k1, k2, fewer)
  {
  }

  /** With the default groups, two comment kinds on the same or adjacent
      lines are held together, and two different non-comment kinds are not. */
  lemma DefaultHoldsComments(k1: Kind, k2: Kind, linesBetween: nat)
    requires linesBetween <= 1
    ensures k1 in Comments && k2 in Comments ==> HoldTogether(Default, k1, k2, linesBetween)
    ensures k1 != k2 && (k1 !in Comments || k2 !in Comments) ==>
      !HoldTogether(Default, k1, k2, linesBetween)
  {
    assert Default.holdTogetherGroups.value[0] == Some(Comments);
  }

  /** The break markers are never consulted outside multiline mode: any
      choice of markers gives the same directive. */
  lemma MarkersIgnoredOutsideMultiLine(cfg: Config, lb: Option<Kind>, rb: Option<Kind>,
                                       left: Option<Block>, right: Block, lines: LineCounter)
    requires !cfg.multiLine
    ensures GetSpacing(cfg, left, right, lines) ==
            GetSpacing(cfg.(leftBreak := lb, rightBreak := rb), left, right, lines)
  {
  }

  /** With the default configuration every non-first pair outside a comment
      group gets one line after a single-line comment and basic spacing
      otherwise. */
  lemma DefaultSpacing(left: Block, right: Block, lines: LineCounter)
    requires !left.commentGroupPart && !right.commentGroupPart
    ensures GetSpacing(Default, Some(left), right, lines) == PlainSpacing(left.node.kind)
  {
  }

  /** A left sibling that is not line-breaking never gets a blank line
      before its right neighbour unless a custom rule asks for one. */
  lemma NonBreakingNeverEmptyLine(cfg: Config, left: Block, right: Block, lines: LineCounter)
    requires CustomSpacingBetween(cfg, left.node.kind, right.node.kind).None?
    requires !WantsToBreakLine(cfg, left.node.kind)
    ensures GetSpacing(cfg, Some(left), right, lines) != EmptyLine
  {
  }
}
