/**
 * What GetAbsolutePosition computes, stated over the ancestor chain of an
 * element: the element's own offset plus that of each VisualElement
 * ancestor, where a ScrollView's offset is its position minus its scroll.
 */
module VisualTree {
  import opened Host

  /** The contribution of one element to an absolute position. */
  function OwnOffset(e: Element): Point {
    match e.kind
    case Plain => Point(e.x, e.y)
    case ScrollView(sx, sy) => Point(e.x - sx, e.y - sy)
  }

  /**
   * The element followed by its VisualElement ancestors, nearest first, up to
   * the root of the visual tree.
   */
  function AncestorChain(t: Tree, n: NodeId): (chain: seq<NodeId>)
    requires t.WellFormed() && n in t.nodes
    ensures |chain| == t.depth[n] + 1 && chain[0] == n
    ensures forall i | 0 <= i < |chain| :: chain[i] in t.nodes
    ensures t.nodes[chain[|chain| - 1]].parent == None
    decreases t.depth[n]
  {
    match t.nodes[n].parent
    case None => [n]
    case Some(p) => [n] + AncestorChain(t, p)
  }

  /** Each element of `chain` is followed by its VisualElement parent. */
  ghost predicate FollowsParents(t: Tree, chain: seq<NodeId>)
    requires InTree(t, chain)
  {
    forall i | 0 <= i < |chain| - 1 :: t.nodes[chain[i]].parent == Some(chain[i + 1])
  }

  /** The ancestor chain follows parent links. */
  lemma {:induction false} AncestorChainFollowsParents(t: Tree, n: NodeId)
    requires t.WellFormed() && n in t.nodes
    ensures FollowsParents(t, AncestorChain(t, n))
    decreases t.depth[n]
  {
    var chain := AncestorChain(t, n);
    match t.nodes[n].parent
    case None =>
    case Some(p) =>
      AncestorChainFollowsParents(t, p);
      var tail := AncestorChain(t, p);
      assert chain == [n] + tail;
      forall i | 0 <= i < |chain| - 1 ensures t.nodes[chain[i]].parent == Some(chain[i + 1]) {
        if i == 0 {
          assert chain[1] == tail[0] == p;
        } else {
          assert chain[i] == tail[i - 1] && chain[i + 1] == tail[i];
        }
      }
  }

  ghost predicate InTree(t: Tree, chain: seq<NodeId>) {
    forall i | 0 <= i < |chain| :: chain[i] in t.nodes
  }

  /** The sum of the own offsets of the elements of `chain`. */
  function ChainOffset(t: Tree, chain: seq<NodeId>): Point
    requires InTree(t, chain)
  {
    if chain == [] then Point(0.0, 0.0)
    else OwnOffset(t.nodes[chain[0]]).Plus(ChainOffset(t, chain[1..]))
  }

  /** The position of element `n` relative to the root of the visual tree. */
  function AbsolutePosition(t: Tree, n: NodeId): Point
    requires t.WellFormed() && n in t.nodes
  {
    ChainOffset(t, AncestorChain(t, n))
  }

  /**
   * One step of the walk: an element's absolute position is its own offset,
   * plus its parent's absolute position when it has a VisualElement parent.
   */
  lemma AbsolutePositionStep(t: Tree, n: NodeId)
    requires t.WellFormed() && n in t.nodes
    ensures t.nodes[n].parent == None ==> AbsolutePosition(t, n) == OwnOffset(t.nodes[n])
    ensures t.nodes[n].parent.Some? ==>
      var p := t.nodes[n].parent.value;
      p in t.nodes && AbsolutePosition(t, n) == OwnOffset(t.nodes[n]).Plus(AbsolutePosition(t, p))
  {
    var chain := AncestorChain(t, n);
    match t.nodes[n].parent
    case None =>
      assert chain == [n] && chain[1..] == [];
      assert ChainOffset(t, chain[1..]) == Point(0.0, 0.0);
      var own := OwnOffset(t.nodes[n]);
      assert own.Plus(Point(0.0, 0.0)) == own;
    case Some(p) =>
      assert chain[1..] == AncestorChain(t, p);
  }

  /**
   * The ancestor chain is the only sequence that starts at `n`, follows parent
   * links and stops at an element without a VisualElement parent.
   */
  lemma {:induction false} AncestorChainUnique(t: Tree, n: NodeId, chain: seq<NodeId>)
    requires t.WellFormed() && n in t.nodes
    requires |chain| > 0 && chain[0] == n && InTree(t, chain) && FollowsParents(t, chain)
    requires t.nodes[chain[|chain| - 1]].parent == None
    ensures chain == AncestorChain(t, n)
    decreases |chain|
  {
    if |chain| == 1 {
    } else {
      var p := chain[1];
      assert t.nodes[n].parent == Some(p);
      var tail := chain[1..];
      assert InTree(t, tail);
      assert FollowsParents(t, tail) by {
        forall i | 0 <= i < |tail| - 1 ensures t.nodes[tail[i]].parent == Some(tail[i + 1]) {
          assert tail[i] == chain[i + 1] && tail[i + 1] == chain[i + 2];
        }
      }
      AncestorChainUnique(t, p, tail);
      assert chain == [n] + tail;
    }
  }

  function XOf(e: Element): real { e.x }
  function YOf(e: Element): real { e.y }
  function ScrollXOf(e: Element): real { if e.kind.ScrollView? then e.kind.scrollX else 0.0 }
  function ScrollYOf(e: Element): real { if e.kind.ScrollView? then e.kind.scrollY else 0.0 }

  /** The sum of `f` over the elements of `chain`. */
  function Sum(t: Tree, chain: seq<NodeId>, f: Element -> real): real
    requires InTree(t, chain)
  {
    if chain == [] then 0.0 else f(t.nodes[chain[0]]) + Sum(t, chain[1..], f)
  }

  /**
   * The offset of a chain is the sum of its X (resp. Y) positions minus the
   * sum of the ScrollX (resp. ScrollY) of the ScrollViews on it.
   */
  lemma {:induction false} ChainOffsetIsSumMinusScroll(t: Tree, chain: seq<NodeId>)
    requires InTree(t, chain)
    ensures ChainOffset(t, chain) ==
      Point(Sum(t, chain, XOf) - Sum(t, chain, ScrollXOf), Sum(t, chain, YOf) - Sum(t, chain, ScrollYOf))
  {
    if chain != [] {
      ChainOffsetIsSumMinusScroll(t, chain[1..]);
    }
  }

  /**
   * GetAbsolutePosition's result: X (resp. Y) summed over the element and all
   * its VisualElement ancestors, minus ScrollX (resp. ScrollY) of every
   * ScrollView among them.
   */
  lemma AbsolutePositionIsSumMinusScroll(t: Tree, n: NodeId)
    requires t.WellFormed() && n in t.nodes
    ensures var chain := AncestorChain(t, n);
      AbsolutePosition(t, n) ==
        Point(Sum(t, chain, XOf) - Sum(t, chain, ScrollXOf), Sum(t, chain, YOf) - Sum(t, chain, ScrollYOf))
  {
    ChainOffsetIsSumMinusScroll(t, AncestorChain(t, n));
  }
}
