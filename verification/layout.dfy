/** The layout objects the formatting framework consumes: spacing
    directives, indents, alignments and the generated child blocks. The
    framework's own classes are replaced by plain values. */
module Layout {
  import opened Options
  import opened Syntax

  /** A spacing directive. `Custom` stands for any other spacing object a
      construct registers in its custom spacing table. */
  datatype Spacing = NoSpacing | OneLine | OneLineKeepBreaks | Basic | EmptyLine | Custom(id: nat)

  datatype Indent = NoIndent | NormalIndent | OtherIndent(id: nat)

  /** A symbolic alignment key of a construct. */
  type AlignKey = nat

  /** An alignment handle. Handles are created in groups, one per key, by
      one call of the alignment allocator; `epoch` identifies that call, so
      two handles are the same object exactly when epoch and key agree. */
  datatype Alignment = Alignment(epoch: nat, key: AlignKey)

  /** The key-to-handle map produced by one allocation for a set of keys. */
  datatype AlignMap = AlignMap(epoch: nat, keys: set<AlignKey>)

  /** What a block reports for a child inserted at a given index. */
  datatype ChildAttributes = Attributes(indent: Indent, align: Option<Alignment>) | DelegateToNextChild

  /** A generated child block. The construct-specific factory is not part of
      this model; a block records the arguments it was built from: the node,
      its indent and alignment, the alignment map handed down to it, and
      whether it is part of a leading comment group (such a block is the
      comment-group-part block the spacing rules test for). */
  datatype Block = Block(
    node: Node,
    indent: Indent,
    align: Option<Alignment>,
    aligns: AlignMap,
    commentGroupPart: bool)
}
