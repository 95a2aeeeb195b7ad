/** The syntax tree the formatter reads: element kinds, text ranges and nodes.
    The tree is built upstream by the parser; the formatter only reads it. */
module Syntax {

  /** An element type. Only the two comment kinds are named, because the
      block compares against the single-line comment kind and its default
      hold-together group is the comment token set; every other kind is an
      opaque identifier. */
  datatype Kind = SlComment | MlComment | Other(id: nat)

  /** The comment token set, the default hold-together group. */
  const Comments: set<Kind> := {SlComment, MlComment}

  /** A half-open text range [start, end) in the file. */
  datatype Range = Range(start: int, end: int) {

    function Length(): int {
      end - start
    }

    /** `other` lies within this range (TextRange.contains). */
    predicate Contains(other: Range) {
      start <= other.start && other.end <= end
    }
  }

  /** A syntax node. The flags stand for the type tests the block makes on
      the node's PSI element: a whitespace node, a comment, an element that
      can carry a doc comment, a placeholder for an outer (templating)
      language, and whether the PSI element has an AST node at all. */
  datatype Node = Node(
    kind: Kind,
    range: Range,
    isWhitespace: bool,
    isComment: bool,
    isDocumented: bool,
    isOuter: bool,
    hasAst: bool,
    children: seq<Node>)

  /** The position of a node below some root: the child index taken at each
      level, outermost first. */
  type Path = seq<nat>

  predicate ValidPath(e: Node, p: Path)
    decreases p
  {
    |p| == 0 || (p[0] < |e.children| && ValidPath(e.children[p[0]], p[1..]))
  }

  function SubtreeAt(e: Node, p: Path): Node
    requires ValidPath(e, p)
    decreases p
  {
    if |p| == 0 then e else SubtreeAt(e.children[p[0]], p[1..])
  }

  /** Document (preorder) order of two positions: `p` is visited strictly
      before `q` by a depth-first, left-to-right walk. */
  predicate Before(p: Path, q: Path)
    decreases p
  {
    |q| > 0 && (|p| == 0 || p[0] < q[0] || (p[0] == q[0] && Before(p[1..], q[1..])))
  }

  lemma {:induction false} BeforeIrreflexive(p: Path)
    ensures !Before(p, p)
    decreases p
  {
    if |p| > 0 {
      BeforeIrreflexive(p[1..]);
    }
  }

  lemma BeforeUnder(k: nat, p: Path, q: Path)
    ensures Before([k] + p, [k] + q) <==> Before(p, q)
  {
    assert ([k] + p)[1..] == p;
    assert ([k] + q)[1..] == q;
  }

  lemma BeforeAcross(i: nat, j: nat, p: Path, q: Path)
    requires i < j
    ensures Before([i] + p, [j] + q)
  {
  }

  lemma ValidUnder(e: Node, k: nat, p: Path)
    requires k < |e.children|
    ensures ValidPath(e, [k] + p) <==> ValidPath(e.children[k], p)
    ensures ValidPath(e, [k] + p) ==> SubtreeAt(e, [k] + p) == SubtreeAt(e.children[k], p)
  {
    assert ([k] + p)[1..] == p;
  }
}
