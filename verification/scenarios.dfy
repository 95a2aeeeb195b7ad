/** Concrete configurations and child lists worked through the model: a leading
    comment group, an empty bracketed body, and two same-kind line-breaking
    neighbours with and without a blank line between them. */
module Scenarios {
  import opened Options
  import opened Syntax
  import opened Layout
  import opened BlockConfig
  import opened SpacingRules
  import opened ChildBuilder
  import opened GoSyntheticBlock
  import opened EmbeddedRegion

  function Leaf(kind: Kind, start: int, end: int, isComment: bool): Node {
    Node(kind, Range(start, end), false, isComment, false, false, true, [])
  }

  function Space(start: int, end: int): Node {
    Node(Other(0), Range(start, end), true, false, false, false, true, [])
  }

  const FuncDecl: Kind := Other(1)
  const LParen: Kind := Other(2)
  const RParen: Kind := Other(3)
  const Stmt: Kind := Other(4)

  /** `// a`, newline, `// b`, newline, `func f(){}` under a documented node:
      the two comments form the leading comment group, the function does not. */
  function Documented(): SyntheticBlock {
    SyntheticBlock(Node(FuncDecl, Range(0, 20), false, false, true, false, true, DocumentedKids()),
                   Default, NoIndent, None, AlignMap(0, {}), None)
  }

  function DocumentedKids(): seq<Node> {
    [Leaf(SlComment, 0, 4, true), Space(4, 5), Leaf(SlComment, 5, 9, true),
     Space(9, 10), Leaf(FuncDecl, 10, 20, false), Leaf(Other(5), 20, 20, false)]
  }

  /** The whitespace child and the zero-length one are skipped. */
  lemma DocumentedKept()
    ensures Kept(Documented(), None) ==
      [Documented().node.children[0], Documented().node.children[2], Documented().node.children[4]]
  {
    DocumentedSurvivors(DocumentedKids());
  }

  lemma DocumentedSurvivors(kids: seq<Node>)
    requires kids == DocumentedKids()
    ensures Survivors(kids) == [kids[0], kids[2], kids[4]]
  {
    var a, b, c := [kids[0], kids[1]], [kids[2], kids[3]], [kids[4], kids[5]];
    assert kids == a + b + c;
    KeptPair(kids[0], kids[1]);
    KeptPair(kids[2], kids[3]);
    KeptPair(kids[4], kids[5]);
    SurvivorsConcat(a + b, c);
    SurvivorsConcat(a, b);
  }

  /** A kept child followed by a skipped one leaves only the first. */
  lemma KeptPair(a: Node, b: Node)
    requires !Skipped(a) && Skipped(b)
    ensures Survivors([a, b]) == [a]
  {
    SurvivorsConcat([a], [b]);
    SurvivorsSingle(a);
    SurvivorsSingle(b);
    assert [a, b] == [a] + [b];
  }

  lemma LeadingCommentScenario(hook: AlignHook, lines: LineCounter, supply: nat)
    ensures |BuildChildren(Documented(), None, hook, lines, supply).blocks| == 3
    ensures BuildChildren(Documented(), None, hook, lines, supply).blocks[0].commentGroupPart
    ensures BuildChildren(Documented(), None, hook, lines, supply).blocks[1].commentGroupPart
    ensures !BuildChildren(Documented(), None, hook, lines, supply).blocks[2].commentGroupPart
    ensures GetSpacing(Default, Some(BuildChildren(Documented(), None, hook, lines, supply).blocks[0]),
                       BuildChildren(Documented(), None, hook, lines, supply).blocks[1], lines) == OneLine
    ensures BuildChildren(Documented(), None, hook, lines, supply).blocks[2].indent == NoIndent
  {
    var b := Documented();
    DocumentedKept();
    var s := Kept(b, None);
    LeadingCommentGroup(b, None, hook, lines, supply, 0);
    LeadingCommentGroup(b, None, hook, lines, supply, 1);
    LeadingCommentGroup(b, None, hook, lines, supply, 2);
    assert s[2].kind !in Default.indentedChildren;
  }

  /** A multiline construct whose markers are the parentheses. */
  const Parens: Config := Default.(multiLine := true, leftBreak := Some(LParen), rightBreak := Some(RParen),
                                   lineBreaking := {Stmt})

  function Plain(kind: Kind, start: int, end: int): Block {
    Block(Leaf(kind, start, end, false), NoIndent, None, AlignMap(0, {}), false)
  }

  /** An empty body `()` keeps whatever breaks the user had. */
  lemma EmptyBodyKeepsBreaks(lines: LineCounter)
    ensures GetSpacing(Parens, Some(Plain(LParen, 0, 1)), Plain(RParen, 1, 2), lines) == OneLineKeepBreaks
  {
  }

  /** Two statements on adjacent lines are held together; a blank line
      between them makes the fallback fire. */
  lemma SameKindNeighbours(lines: LineCounter)
    ensures var l := Plain(Stmt, 0, 1);
      var r := Plain(Stmt, 2, 3);
      && (lines(l.node, r.node) == 1 ==> GetSpacing(Parens, Some(l), r, lines) == OneLine)
      && (lines(l.node, r.node) == 2 ==> GetSpacing(Parens, Some(l), r, lines) == EmptyLine)
  {
  }

  /** A contained node without an AST node is not collected: the walk
      descends into it and takes its contained child instead. */
  lemma ContainedWithoutAstDescended()
    ensures var kid := Leaf(Stmt, 0, 3, false);
      var root := Node(Other(6), Range(0, 3), false, false, false, false, false, [kid]);
      AddChildNodes(root, Range(0, 3)) == [Found([0], kid)]
  {
    var kid := Leaf(Stmt, 0, 3, false);
    var root := Node(Other(6), Range(0, 3), false, false, false, false, false, [kid]);
    assert AddChildrenFrom(root, 1, Range(0, 3)) == [];
    assert AddChildNodes(kid, Range(0, 3)) == [Found([], kid)];
    var u := Under(0, [Found([], kid)]);
    assert [0] + [] == [0];
    assert u[0] == Found([0], kid);
    assert u == [Found([0], kid)];
  }
}
