# Go formatter: the generic synthetic block

This project models `GoSyntheticBlock`, the base formatting block of the Go
language plugin's code formatter, and proves properties of that model. A block
wraps one syntax node together with the per-construct configuration set by a
subclass. That configuration is: multiline mode with its left and right break
markers, the line-breaking kinds, the indented-child kinds, the hold-together
groups, a custom spacing table, the alignment keys, and the indent and
alignment of a leading comment group. From it the block answers four questions
for the formatting engine:

- which spacing directive goes between two adjacent children (`getSpacing`, `holdTogether`);
- what its child blocks are (`buildChildren`, memoised by `getSubBlocks`, with each child's default indent from `getChildIndent`);
- which children an outer-language placeholder formats (`getGoChildren`, `addChildNodes`);
- what indent and alignment a newly typed child takes (`getChildAttributes`).

Layout of the Dafny project:

- `options.dfy`: `Option`, the model of every nullable reference.
- `syntax.dfy`: element kinds, text ranges, syntax nodes, tree positions (paths) and document order.
- `layout.dfy`: spacing directives, indents, alignment handles and maps, child attributes, generated child blocks.
- `config.dfy`: the per-construct configuration, its default values, and the marker and line-breaking tests.
- `spacing.dfy`: `holdTogether` and the first-match-wins spacing rule table.
- `children.dfy`: the child-list builder. It is written as a fold over the children, like the source loop. A reference definition filters first and then decides each kept child from its index; a lemma proves the two agree.
- `embedded.dfy`: the depth-first collection of the topmost subtrees that lie inside a placeholder's range and have an AST node.
- `block.dfy`: the block itself, with child enumeration, child building, the memoised sub-block list and child attributes.
- `scenarios.dfy`: concrete child lists and configurations worked through the model by proof.

Alignment maps are modelled by allocation epochs. Each call of the source's
alignment allocator (`Alignments.set`) is one epoch drawn from a supply
counter, so "a freshly created map" means "an epoch no earlier map has".

## Model

| member | source | states |
|---|---|---|
| `SpacingRules.GetSpacing` | src/ro/redeul/google/go/formatter/blocks/GoSyntheticBlock.java:230-261 | No left sibling gives NONE. Otherwise a comment-group-part block on either side gives ONE_LINE. Otherwise a registered custom spacing for the kind pair is returned unchanged. Past those rules: outside multiline mode the result is ONE_LINE exactly after a single-line comment and BASIC otherwise. In multiline mode it is ONE_LINE_KEEP_BREAKS iff both markers are present and ONE_LINE when exactly one is. With neither marker present, a left kind that is not line-breaking gets the plain outcome (ONE_LINE after a single-line comment, BASIC otherwise), a line-breaking left kind held together with the right kind at the measured line count gets ONE_LINE, and EMPTY_LINE comes exactly when the left kind is line-breaking and the pair is not held together. The result is always one of the four standard directives. |
| `SpacingRules.MarkersIgnoredOutsideMultiLine` | src/ro/redeul/google/go/formatter/blocks/GoSyntheticBlock.java:245-269 | Outside multiline mode, replacing both break markers by anything leaves every spacing decision unchanged. |
| `SpacingRules.DefaultSpacing` | src/ro/redeul/google/go/formatter/blocks/GoSyntheticBlock.java:241-246 | Under the default configuration (no custom spacing, single-line mode), a pair outside a comment group gets ONE_LINE after a single-line comment and BASIC otherwise. |
| `SpacingRules.HoldTogether` | src/ro/redeul/google/go/formatter/blocks/GoSyntheticBlock.java:279-296 | False whenever more than one line separates the pair, whatever the kinds. Otherwise true exactly when the kinds are equal or some non-null group in a non-null group array holds both. |
| `SpacingRules.AnyGroupHolds` | src/ro/redeul/google/go/formatter/blocks/GoSyntheticBlock.java:288-293 | The scan over the groups is true exactly when some non-null group contains both kinds. |
| `SpacingRules.HoldTogetherSymmetric` | src/ro/redeul/google/go/formatter/blocks/GoSyntheticBlock.java:279-296 | Holding together does not depend on the order of the two kinds. |
| `SpacingRules.HoldTogetherMonotone` | src/ro/redeul/google/go/formatter/blocks/GoSyntheticBlock.java:282-283 | A pair held together at some line count is held together at every smaller count. |
| `SpacingRules.DefaultHoldsComments` | src/ro/redeul/google/go/formatter/blocks/GoSyntheticBlock.java:64 | With the default groups `{COMMENTS}`, two comment kinds on the same or adjacent lines are held together. Two different kinds that are not both comments are not. |
| `BlockConfig.CustomSpacingBetween` | src/ro/redeul/google/go/formatter/blocks/GoSyntheticBlock.java:210-216 | A custom rule exists exactly when the table is non-null and registers the pair, and then it is the registered directive. |
| `ChildBuilder.GetChildIndent` | src/ro/redeul/google/go/formatter/blocks/GoSyntheticBlock.java:310-314 | NORMAL exactly when the child's kind is in the indented-child set, NONE otherwise. |
| `ChildBuilder.Survivors` | src/ro/redeul/google/go/formatter/blocks/GoSyntheticBlock.java:165-166 | A node is kept exactly when it is a child of non-zero length that is not whitespace. The kept list is never longer than the child list. |
| `ChildBuilder.SurvivorsSingle` | src/ro/redeul/google/go/formatter/blocks/GoSyntheticBlock.java:162-166 | A lone child is kept exactly when it has non-zero length and is not whitespace. |
| `ChildBuilder.SurvivorsConcat` | src/ro/redeul/google/go/formatter/blocks/GoSyntheticBlock.java:162-166 | Skipping preserves source order: the kept children of two consecutive runs of children are those of the first run followed by those of the second. |
| `ChildBuilder.BuildFrom` | src/ro/redeul/google/go/formatter/blocks/GoSyntheticBlock.java:162-196 | The loop emits one block per kept child, for exactly the kept children in source order. Every map it hands out holds the construct's keys and comes from an epoch between the starting one and the final one. |
| `ChildBuilder.BuildMatchesReference` | src/ro/redeul/google/go/formatter/blocks/GoSyntheticBlock.java:153-199 | The one-pass loop equals the two-phase reference. Child `i` of the kept list gets the block decided by: the kept child before it (skipped nodes never become the previous child), whether all kept children up to it are comments, and the number of resets so far. |
| `ChildBuilder.EpochMonotone` | src/ro/redeul/google/go/formatter/blocks/GoSyntheticBlock.java:183-185 | Alignment epochs never decrease along the kept children. |
| `ChildBuilder.FreshIffReset` | src/ro/redeul/google/go/formatter/blocks/GoSyntheticBlock.java:183-185 | In the reference block list, a kept child's block holds a map no earlier block holds exactly when the previous kept child resets the alignments. |
| `GoSyntheticBlock.BuildChildren` | src/ro/redeul/google/go/formatter/blocks/GoSyntheticBlock.java:153-199 | There is exactly one block per kept child, carrying that child, in source order. Every map holds the construct's alignment keys and comes from an epoch allocated by this call, never from one allocated before it. |
| `GoSyntheticBlock.LeadingCommentGroup` | src/ro/redeul/google/go/formatter/blocks/GoSyntheticBlock.java:161-181 | A child's comment-group flag holds exactly when the node is documented and every kept child up to and including it is a comment. Flagged children get the configured comment-group indent and alignment. Every other child gets the default child indent, and its alignment comes from the hook applied to the block's own inherited map, whatever maps were reset. |
| `GoSyntheticBlock.FirstChildInitialMap` | src/ro/redeul/google/go/formatter/blocks/GoSyntheticBlock.java:156-159 | The first kept child receives the map allocated before the loop: it never triggers a reset. |
| `GoSyntheticBlock.AlignmentReset` | src/ro/redeul/google/go/formatter/blocks/GoSyntheticBlock.java:183-185 | A later child receives a map no earlier child received exactly when the previous kept child's kind is line-breaking and the pair is not held together at the line count measured from that previous kept child. |
| `GoSyntheticBlock.GetSubBlocks` | src/ro/redeul/google/go/formatter/blocks/GoSyntheticBlock.java:133-145 | A cached block answers from its cache, changes nothing and allocates no epoch. An uncached block answers exactly the blocks the builder produces, one per kept child, stores that list in its cache, and continues the epoch supply where the builder left it. |
| `GoSyntheticBlock.SubBlocksMemoised` | src/ro/redeul/google/go/formatter/blocks/GoSyntheticBlock.java:133-145 | A second request returns the first answer, leaves the block unchanged and allocates no alignment epoch. |
| `GoSyntheticBlock.GetChildAttributes` | src/ro/redeul/google/go/formatter/blocks/GoSyntheticBlock.java:337-341 | Index 0 gives NONE indent and no alignment. Every other index delegates to the next child. |
| `GoSyntheticBlock.GetGoChildren` | src/ro/redeul/google/go/formatter/blocks/GoSyntheticBlock.java:353-368 | A node that is not a placeholder yields its own children. A placeholder without a Go tree yields nothing. A placeholder with a Go tree yields the collected nodes, each inside the placeholder's range, each having an AST node, each the subtree at its position. |
| `GoSyntheticBlock.PlaceholderChildrenContained` | src/ro/redeul/google/go/formatter/blocks/GoSyntheticBlock.java:370-381 | Every collected node lies within the range, has an AST node, and is the subtree found at its recorded position. |
| `GoSyntheticBlock.PlaceholderChildrenUnrelated` | src/ro/redeul/google/go/formatter/blocks/GoSyntheticBlock.java:370-381 | No collected node is a proper ancestor of another collected node, and no position is collected twice. |
| `BlockConfig.IsRightBreak` | src/ro/redeul/google/go/formatter/blocks/GoSyntheticBlock.java:263-265 | Never true outside multiline mode or without a right marker. In multiline mode with a marker, true for exactly that kind. |
| `BlockConfig.IsLeftBreak` | src/ro/redeul/google/go/formatter/blocks/GoSyntheticBlock.java:267-269 | Never true outside multiline mode or without a left marker. In multiline mode with a marker, true for exactly that kind. |
| `SpacingRules.NonBreakingNeverEmptyLine` | src/ro/redeul/google/go/formatter/blocks/GoSyntheticBlock.java:254-258 | When no custom rule covers the pair and the left kind is not in the line-breaking set, the spacing is never EMPTY_LINE: only a line-breaking left sibling can ask for a blank line. |
| `GoSyntheticBlock.NonBreakingPrevSharesMap` | src/ro/redeul/google/go/formatter/blocks/GoSyntheticBlock.java:183-185 | A kept child whose predecessor's kind is not in the line-breaking set shares an alignment map with an earlier child: only a line-breaking predecessor can start a new map. |
| `EmbeddedRegion.AddChildNodes` | src/ro/redeul/google/go/formatter/blocks/GoSyntheticBlock.java:370-381 | A node inside the range with an AST node is collected whole, at the walk's root, and nothing else is collected. Otherwise every entry lies strictly below the root. Every collected node lies inside the range and has an AST node. |
| `EmbeddedRegion.AddChildNodesSound` | src/ro/redeul/google/go/formatter/blocks/GoSyntheticBlock.java:370-381 | Every collected entry is a node that is contained in the range and has an AST node, and none of its proper ancestors is both: such a node is taken whole rather than descended into, while a contained node without an AST node is descended into. Positions are valid. Entries come in preorder. |
| `EmbeddedRegion.AddChildNodesComplete` | src/ro/redeul/google/go/formatter/blocks/GoSyntheticBlock.java:370-381 | Every node of the tree that is contained in the range and has an AST node is collected, either itself or through an ancestor. |
| `EmbeddedRegion.MinimalHitsUnrelated` | src/ro/redeul/google/go/formatter/blocks/GoSyntheticBlock.java:374-379 | Two nodes that are each the first node on their path that is contained and has an AST node are never in an ancestor relation. |
| `Scenarios.LeadingCommentScenario` | src/ro/redeul/google/go/formatter/blocks/GoSyntheticBlock.java:161-190 | For `// a`, `// b`, `func f(){}` under a documented node, with whitespace between them: whitespace is skipped, the two comments form the group with ONE_LINE between them, and the function is outside the group with NONE indent. |
| `Scenarios.ContainedWithoutAstDescended` | src/ro/redeul/google/go/formatter/blocks/GoSyntheticBlock.java:373-380 | A root inside the range but without an AST node is not collected; the walk descends and collects its contained child, at position `[0]`. |
| `Scenarios.EmptyBodyKeepsBreaks` | src/ro/redeul/google/go/formatter/blocks/GoSyntheticBlock.java:248-249 | An empty bracketed body in multiline mode keeps the user's breaks. |
| `Scenarios.SameKindNeighbours` | src/ro/redeul/google/go/formatter/blocks/GoSyntheticBlock.java:254-260 | Two line-breaking neighbours of one kind get ONE_LINE on adjacent lines and the EMPTY_LINE fallback when a blank line separates them. |

## Left out

- IntelliJ formatting objects (`Spacing`, `Indent`, `Alignment`, `ChildAttributes`) are replaced by plain datatypes. `Wrap` is always null and is not modelled. Neither are `isIncomplete` and `isLeaf`, which are constant false.
- The plain accessors (`getNode`, `getTextRange`, `getPsi`, `getIndent`, `getAlignment`, `getAlignmentKeys`) are left out. The setters become fields of `Config`, and the field initialisers are the `Default` configuration. The constructors set only the node, the settings, the indent, the alignment and the inherited map, which are fields of the block.
- The one- and two-argument constructors pass a null indent. The model's `Indent` has no null value, so a block built that way is not represented; `NoIndent` is the closest stand-in.
- The construct registry `GoBlocks.generate` is not part of this model. A generated block records the arguments it was built from. The comment-group flag passed to the factory is assumed to make the block the comment-group-part block that the spacing rules test for.
- `customizeBlock` is the identity in this block and is modelled as such; subclass overrides are not part of this model.
- `getChildAlignment` is a subclass hook. It is a function parameter that receives the child, the previous kept child (or none) and the block's inherited alignment map, as the source passes them; this block's own version returns null.
- `GoFormatterUtil.getLineCount` and `getTextBetween` are not part of this model. The number of lines between two nodes is a function parameter. The source measures the line count for every kept child, including the first one, where it calls `getTextBetween(null, child)`. That first call is not modelled. Its value only feeds `holdTogether`, and the `&&` skips `holdTogether` when there is no previous child, because `wantsToBreakLine(null)` is false.
- `Alignments.set` is modelled as the allocation of a fresh epoch from a counter the caller threads through. Handle identity is the pair (epoch, key).
- `GoBlockUtil.CustomSpacing` is modelled as an optional map from kind pairs to directives.
- The PSI type tests (documented element, comment, outer-language element, whitespace, missing AST node) are flags on the node. The view-provider lookup of the Go file is an optional input tree. PSI children and AST children are the same sequence in the model.
- `COMMENTS` is defined outside the block; it is modelled as the set of the two comment kinds.
- Code style settings are passed through unchanged and are not modelled.
- The fallback spacing directive is `EMPTY_LINE` as the code writes it. It is not renamed to a single forced break.
- `GetChildAttributes` returns NONE indent at index 0, as the code does, not the block's own indent.
- `GoSyntheticBlock.GetSubBlocks`: `buildChildren` can return null only in subclasses. The generic build here always yields a list, so the null case reduces to the empty list.
