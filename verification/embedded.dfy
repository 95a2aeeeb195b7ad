/** Child collection for a placeholder of an outer templating language: a
    depth-first walk of the Go tree that collects the topmost subtrees whose
    text range lies inside the placeholder's range and that have an AST
    node; a contained node without one is descended into. */
module EmbeddedRegion {
  import opened Syntax

  /** A collected node with its position below the root of the walk. */
  datatype Found = Found(path: Path, node: Node)

  /** The walk stops at `n`: its range lies within `range` and its PSI
      element has an AST node. */
  predicate Hit(n: Node, range: Range) {
    range.Contains(n.range) && n.hasAst
  }

  /** `p` leads from `e` to a node the walk stops at, and no node strictly
      above it on the way (including `e`) is one the walk stops at. */
  predicate MinimalHit(e: Node, p: Path, range: Range)
    decreases p
  {
    if |p| == 0 then Hit(e, range)
    else !Hit(e, range) && p[0] < |e.children| && MinimalHit(e.children[p[0]], p[1..], range)
  }

  function Under(k: nat, fs: seq<Found>): (r: seq<Found>)
    ensures |r| == |fs|
    ensures forall i :: 0 <= i < |fs| ==> r[i] == Found([k] + fs[i].path, fs[i].node)
  {
    seq(|fs|, i requires 0 <= i < |fs| => Found([k] + fs[i].path, fs[i].node))
  }

  function Nodes(fs: seq<Found>): (r: seq<Node>)
    ensures |r| == |fs|
    ensures forall i :: 0 <= i < |fs| ==> r[i] == fs[i].node
  {
    seq(|fs|, i requires 0 <= i < |fs| => fs[i].node)
  }

  /** The walk from `e`: collect `e` whole when it is contained, otherwise
      walk each of its children in order. */
  function AddChildNodes(e: Node, range: Range): (r: seq<Found>)
    ensures Hit(e, range) ==> r == [Found([], e)]
    ensures !Hit(e, range) ==> forall i :: 0 <= i < |r| ==> |r[i].path| > 0
    ensures forall i :: 0 <= i < |r| ==> Hit(r[i].node, range)
    decreases e, |e.children| + 1
  {
    if Hit(e, range) then [Found([], e)] else AddChildrenFrom(e, 0, range)
  }

  /** The walks from the children of `e` at index `k` and after. */
  function AddChildrenFrom(e: Node, k: nat, range: Range): (r: seq<Found>)
    ensures k >= |e.children| ==> r == []
    ensures forall i :: 0 <= i < |r| ==> |r[i].path| > 0 && Hit(r[i].node, range)
    decreases e, |e.children| - k
  {
    if k >= |e.children| then []
    else
      var head := Under(k, AddChildNodes(e.children[k], range));
      var tail := AddChildrenFrom(e, k + 1, range);
      assert forall i :: |head| <= i < |head + tail| ==> (head + tail)[i] == tail[i - |head|];
      head + tail
  }

  lemma {:induction false} MinimalHitValid(e: Node, p: Path, range: Range)
    requires MinimalHit(e, p, range)
    ensures ValidPath(e, p) && Hit(SubtreeAt(e, p), range)
    decreases p
  {
    if |p| > 0 {
      MinimalHitValid(e.children[p[0]], p[1..], range);
    }
  }

  /** Of two minimal hits, neither is a proper ancestor of the other. */
  lemma {:induction false} MinimalHitsUnrelated(e: Node, p: Path, q: Path, range: Range)
    requires MinimalHit(e, p, range) && MinimalHit(e, q, range)
    ensures !(p < q)
    decreases p
  {
    if |p| > 0 && p < q {
      assert q[0] == p[0];
      assert p[1..] < q[1..];
      MinimalHitsUnrelated(e.children[p[0]], p[1..], q[1..], range);
    }
  }

  /** Every collected entry is a minimal hit below `e` and is the node found
      at its position, and the positions come in document order. */
  predicate SoundWalk(e: Node, r: seq<Found>, range: Range) {
    && (forall i :: 0 <= i < |r| ==>
          && MinimalHit(e, r[i].path, range)
          && ValidPath(e, r[i].path)
          && SubtreeAt(e, r[i].path) == r[i].node)
    && (forall i, j :: 0 <= i < j < |r| ==> Before(r[i].path, r[j].path))
  }

  /** The walk from `e` is sound. */
  lemma {:induction false} AddChildNodesSound(e: Node, range: Range)
    ensures SoundWalk(e, AddChildNodes(e, range), range)
    decreases e, |e.children| + 1, 0
  {
    if !Hit(e, range) {
      assert AddChildNodes(e, range) == AddChildrenFrom(e, 0, range);
      AddChildrenFromSound(e, 0, range);
    }
  }

  lemma {:induction false} AddChildrenFromSound(e: Node, k: nat, range: Range)
    requires !Hit(e, range)
    ensures SoundWalk(e, AddChildrenFrom(e, k, range), range)
    ensures forall f :: f in AddChildrenFrom(e, k, range) ==> |f.path| > 0 && k <= f.path[0]
    decreases e, |e.children| - k, 1
  {
    if k < |e.children| {
      var head := AddChildNodes(e.children[k], range);
      var u := Under(k, head);
      var tail := AddChildrenFrom(e, k + 1, range);
      var r := AddChildrenFrom(e, k, range);
      AddChildNodesSound(e.children[k], range);
      AddChildrenFromSound(e, k + 1, range);
      UnderSound(e, k, range);
      assert r == u + tail;
      ConcatOrdered(k, head, tail);
      assert forall i :: 0 <= i < |u| ==> r[i] == u[i];
      assert forall j :: |u| <= j < |r| ==> r[j] == tail[j - |u|];
    }
  }

  /** Positions in document order stay in order when the walk from child
      `k` is followed by walks from later children. */
  lemma ConcatOrdered(k: nat, head: seq<Found>, tail: seq<Found>)
    requires forall i, j :: 0 <= i < j < |head| ==> Before(head[i].path, head[j].path)
    requires forall i, j :: 0 <= i < j < |tail| ==> Before(tail[i].path, tail[j].path)
    requires forall f :: f in tail ==> |f.path| > 0 && k < f.path[0]
    ensures var r := Under(k, head) + tail;
      forall i, j :: 0 <= i < j < |r| ==> Before(r[i].path, r[j].path)
  {
    var u := Under(k, head);
    var r := u + tail;
    forall i, j | 0 <= i < j < |r|
      ensures Before(r[i].path, r[j].path)
    {
      if j < |u| {
        BeforeUnder(k, head[i].path, head[j].path);
      } else if i < |u| {
        var q := tail[j - |u|].path;
        assert tail[j - |u|] in tail;
        assert q == [q[0]] + q[1..];
        BeforeAcross(k, q[0], head[i].path, q[1..]);
      } else {
        assert r[i] == tail[i - |u|] && r[j] == tail[j - |u|];
      }
    }
  }

  /** The walk from child `k`, seen from `e`, is sound and stays below `k`. */
  lemma UnderSound(e: Node, k: nat, range: Range)
    requires !Hit(e, range) && k < |e.children|
    ensures var u := Under(k, AddChildNodes(e.children[k], range));
      forall i :: 0 <= i < |u| ==>
        && |u[i].path| > 0 && u[i].path[0] == k
        && MinimalHit(e, u[i].path, range)
        && ValidPath(e, u[i].path) && SubtreeAt(e, u[i].path) == u[i].node
    decreases e, |e.children| - k, 0
  {
    var child := e.children[k];
    var head := AddChildNodes(child, range);
    var u := Under(k, head);
    AddChildNodesSound(child, range);
    forall i | 0 <= i < |u|
      ensures |u[i].path| > 0 && u[i].path[0] == k
      ensures MinimalHit(e, u[i].path, range)
      ensures ValidPath(e, u[i].path) && SubtreeAt(e, u[i].path) == u[i].node
    {
      var p := head[i].path;
      var q := u[i].path;
      assert q == [k] + p;
      assert q[0] == k && q[1..] == p;
      assert MinimalHit(child, p, range);
      ValidUnder(e, k, p);
    }
  }

  /** Every node the walk stops at is collected, itself or through an
      ancestor: no contained region is missed. */
  lemma {:induction false} AddChildNodesComplete(e: Node, range: Range, p: Path)
    requires ValidPath(e, p) && Hit(SubtreeAt(e, p), range)
    ensures exists i :: 0 <= i < |AddChildNodes(e, range)| && AddChildNodes(e, range)[i].path <= p
    decreases p
  {
    var r := AddChildNodes(e, range);
    if Hit(e, range) {
      assert r[0].path == [] <= p;
    } else {
      var k := p[0];
      var child := e.children[k];
      assert p == [k] + p[1..];
      ValidUnder(e, k, p[1..]);
      AddChildNodesComplete(child, range, p[1..]);
      var head := AddChildNodes(child, range);
      var j :| 0 <= j < |head| && head[j].path <= p[1..];
      var u := Under(k, head);
      assert u[j].path <= p;
      AddChildrenFromContains(e, 0, k, range);
      var pre := |r| - |AddChildrenFrom(e, k, range)|;
      assert r[pre + j] == u[j];
    }
  }

  /** The walks from the children at index `m` and after end with the walks
      from index `k` and after, for `m <= k`. */
  lemma {:induction false} AddChildrenFromContains(e: Node, m: nat, k: nat, range: Range)
    requires m <= k < |e.children|
    ensures var whole := AddChildrenFrom(e, m, range);
      var part := AddChildrenFrom(e, k, range);
      |part| <= |whole| && whole[|whole| - |part|..] == part
    decreases k - m
  {
    if m < k {
      AddChildrenFromContains(e, m + 1, k, range);
    }
  }
}
