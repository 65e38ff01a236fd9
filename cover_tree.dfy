/**
 * A node of a cover tree: cover and add features, a cover label (the number of
 * objects the node covers), a parent pointer and an ordered list of children.
 * Node ids come from a counter shared by all nodes; a visitor walks a tree in
 * pre-order. Links may be made in any order (a child may receive children after it
 * was attached); a ghost registry of all nodes shows that no node lies below itself.
 */
module CoverTree {

  const SIZE_T_RANGE: nat := 0x1_0000_0000_0000_0000

  newtype SizeT = x: int | 0 <= x < 0x1_0000_0000_0000_0000

  /** The counter that hands out node ids (a class-wide value, passed in explicitly). */
  class IdCounter {
    var next: SizeT

    constructor ()
      ensures next == 0
    {
      next := 0;
    }
  }

  /** A visitor that records the nodes it is called for, in call order. */
  class NodeVisitor {
    var visited: seq<CoverTreeNode>

    constructor ()
      ensures visited == []
    {
      visited := [];
    }

    method Visit(node: CoverTreeNode)
      modifies this
      ensures visited == old(visited) + [node]
    {
      visited := visited + [node];
    }
  }

  /** Sum of the cover labels of the nodes. */
  function CoverSum(nodes: seq<CoverTreeNode>): nat
    reads set n | n in nodes
  {
    if |nodes| == 0 then 0 else CoverSum(nodes[..|nodes| - 1]) + nodes[|nodes| - 1].coverLabel as nat
  }

  lemma CoverSumPair(a: CoverTreeNode, b: CoverTreeNode)
    ensures CoverSum([a, b]) == a.coverLabel as nat + b.coverLabel as nat
  {
    assert [a, b][..1] == [a] && [a][..0] == [];
    assert CoverSum([a]) == a.coverLabel as nat;
  }

  /**
   * All nodes created so far, with a rank per node that falls along every child link.
   * The ranks exist for the proofs only: they show that no node lies below itself,
   * whatever order the links were made in.
   */
  class Forest {
    ghost var nodes: set<CoverTreeNode>
    ghost var rank: map<CoverTreeNode, nat>

    constructor ()
      ensures nodes == {} && Valid()
    {
      nodes := {};
      rank := map[];
    }

    /** Every node belongs here, has a rank, and its children are registered nodes of lower rank. */
    ghost predicate Valid()
      reads this, nodes
    {
      forall x :: x in nodes ==>
        (x.forest == this && x in rank &&
         forall k :: 0 <= k < |x.children| ==> x.children[k] in nodes && x.children[k] in rank && rank[x.children[k]] < rank[x])
    }

    /** The node and every node below it. */
    ghost function Below(x: CoverTreeNode): (r: set<CoverTreeNode>)
      requires Valid() && x in nodes
      reads this, nodes
      ensures x in r && r <= nodes
      decreases rank[x], 1
    {
      {x} + BelowChildren(x, |x.children|)
    }

    /** The nodes below the first n children of x. */
    ghost function BelowChildren(x: CoverTreeNode, n: nat): (r: set<CoverTreeNode>)
      requires Valid() && x in nodes && n <= |x.children|
      reads this, nodes
      ensures r <= nodes
      ensures forall k :: 0 <= k < n ==> x.children[k] in r
      decreases rank[x], 0, n
    {
      if n == 0 then {} else BelowChildren(x, n - 1) + Below(x.children[n - 1])
    }

    /** A node without children has only itself below it. */
    lemma BelowLeaf(x: CoverTreeNode)
      requires Valid() && x in nodes && x.children == []
      ensures Below(x) == {x}
    {
    }

    /** A subtree holds the children of each of its nodes. */
    lemma {:induction false} BelowClosed(c: CoverTreeNode, x: CoverTreeNode, k: nat)
      requires Valid() && c in nodes && x in Below(c) && k < |x.children|
      ensures x.children[k] in Below(c)
      decreases rank[c], 1
    {
      if x != c {
        BelowChildrenClosed(c, |c.children|, x, k);
      }
    }

    lemma {:induction false} BelowChildrenClosed(c: CoverTreeNode, n: nat, x: CoverTreeNode, k: nat)
      requires Valid() && c in nodes && n <= |c.children| && x in BelowChildren(c, n) && k < |x.children|
      ensures x.children[k] in BelowChildren(c, n)
      decreases rank[c], 0, n
    {
      if x in BelowChildren(c, n - 1) {
        BelowChildrenClosed(c, n - 1, x, k);
      } else {
        BelowClosed(c.children[n - 1], x, k);
      }
    }
  }

  class CoverTreeNode {
    var parent: CoverTreeNode?
    var children: seq<CoverTreeNode>
    var coverFeatures: seq<real>
    var addFeatures: seq<real>
    const id: SizeT
    var coverLabel: SizeT
    /** Whether the cover label has been set (it is not initialised on construction). */
    ghost var labelled: bool
    /** The registry this node belongs to. */
    ghost const forest: Forest

    /**
     * Takes the counter's value as id and advances the counter by one (wrapping as a
     * size_t does); the new node has no parent and no children.
     */
    constructor (counter: IdCounter, ghost forest: Forest, coverFeatures: seq<real>, addFeatures: seq<real>)
      requires forest.Valid()
      modifies counter, forest
      ensures id == old(counter.next)
      ensures counter.next as int == (old(counter.next) as int + 1) % SIZE_T_RANGE
      ensures old(counter.next) as int + 1 < SIZE_T_RANGE ==> counter.next as int == old(counter.next) as int + 1
      ensures this.coverFeatures == coverFeatures && this.addFeatures == addFeatures
      ensures parent == null && children == [] && !labelled
      ensures this.forest == forest && forest.nodes == old(forest.nodes) + {this} && forest.Valid()
    {
      id := counter.next;
      this.coverFeatures := coverFeatures;
      this.addFeatures := addFeatures;
      parent := null;
      children := [];
      labelled := false;
      this.forest := forest;
      new;
      counter.next := ((counter.next as int + 1) % SIZE_T_RANGE) as SizeT;
      forest.nodes := forest.nodes + {this};
      forest.rank := forest.rank[this := 0];
    }

    /**
     * Appends the child and makes this node its parent. The child may already have
     * children and this node may already have a parent; only a link that would put this
     * node below itself is excluded.
     */
    method AddChild(child: CoverTreeNode)
      requires forest.Valid() && this in forest.nodes && child in forest.nodes
      requires this !in forest.Below(child)
      modifies this`children, child`parent, forest`rank
      ensures children == old(children) + [child]
      ensures child.parent == this
      ensures forest.Valid()
    {
      ghost var sub := forest.Below(child);
      ghost var rise := forest.rank[child] + 1;
      ghost var old_rank := forest.rank;
      forall x, k | x in forest.nodes && x in sub && 0 <= k < |x.children|
        ensures x.children[k] in sub
      {
        forest.BelowClosed(child, x, k);
      }
      forest.rank := map x | x in old_rank :: if x in sub then old_rank[x] else old_rank[x] + rise;
      children := children + [child];
      child.parent := this;
    }

    method SetCoverFeatures(f: seq<real>)
      modifies this`coverFeatures
      ensures coverFeatures == f
    {
      coverFeatures := f;
    }

    method SetAddFeatures(f: seq<real>)
      modifies this`addFeatures
      ensures addFeatures == f
    {
      addFeatures := f;
    }

    method SetCoverLabel(y: SizeT)
      modifies this`coverLabel, this`labelled
      ensures coverLabel == y && labelled
    {
      coverLabel := y;
      labelled := true;
    }

    /**
     * The number of objects this node accounts for beyond its children: its cover
     * label minus the children's, in size_t arithmetic (modulo 2^64).
     */
    function AddLabel(): (r: SizeT)
      requires labelled && forall c :: c in children ==> c.labelled
      reads this, set c | c in children
      ensures (r as int + CoverSum(children)) % SIZE_T_RANGE == coverLabel as int
      ensures CoverSum(children) <= coverLabel as int ==> r as int + CoverSum(children) == coverLabel as int
      ensures |children| == 0 ==> r == coverLabel
    {
      ((coverLabel as int - CoverSum(children)) % SIZE_T_RANGE) as SizeT
    }

    /** The nodes in the order a visitor is called: this node, then each child's subtree in list order. */
    ghost function PreOrder(): (r: seq<CoverTreeNode>)
      requires forest.Valid() && this in forest.nodes
      reads forest, forest.nodes
      ensures |r| > 0 && r[0] == this
      decreases forest.rank[this], 1
    {
      [this] + ChildrenPreOrder(|children|)
    }

    /** The pre-orders of the first n children, one after the other. */
    ghost function ChildrenPreOrder(n: nat): (r: seq<CoverTreeNode>)
      requires forest.Valid() && this in forest.nodes && n <= |children|
      reads forest, forest.nodes
      decreases forest.rank[this], 0, n
    {
      if n == 0 then []
      else
        var c := children[n - 1];
        ChildrenPreOrder(n - 1) + c.PreOrder()
    }

    /** A node with two children: itself, then the first child's subtree, then the second's. */
    lemma PreOrderTwoChildren()
      requires forest.Valid() && this in forest.nodes && |children| == 2
      ensures PreOrder() == [this] + children[0].PreOrder() + children[1].PreOrder()
    {
      assert ChildrenPreOrder(1) == children[0].PreOrder();
    }

    /** Visits this node, then lets each child accept the visitor, in list order. */
    method Accept(visitor: NodeVisitor)
      requires forest.Valid() && this in forest.nodes
      modifies visitor
      ensures visitor.visited == old(visitor.visited) + PreOrder()
      decreases forest.rank[this], 1
    {
      visitor.Visit(this);
      AcceptChildren(visitor);
    }

    /** Lets each child accept the visitor, in list order. */
    method AcceptChildren(visitor: NodeVisitor)
      requires forest.Valid() && this in forest.nodes
      modifies visitor
      ensures visitor.visited == old(visitor.visited) + ChildrenPreOrder(|children|)
      decreases forest.rank[this], 0
    {
      var i := 0;
      while i < |children|
        invariant 0 <= i <= |children|
        invariant visitor.visited == old(visitor.visited) + ChildrenPreOrder(i)
      {
        children[i].Accept(visitor);
        i := i + 1;
      }
    }
  }

  /**
   * The test's size feature as written: six entries, the bin size / 10 set to 1 and the
   * constant last entry set to 1. Its clamp of the bin to 4 is a comparison, not an
   * assignment, so the bin is never clamped: sizes from 50 to 59 fall on the constant
   * entry, and from 60 on the write lands past the end of the vector.
   */
  function SizeToFeatureVectorAsWritten(pixelSize: nat): (f: seq<real>)
    requires pixelSize / 10 < 6
    ensures |f| == 6 && f[5] == 1.0 && f[pixelSize / 10] == 1.0
    ensures forall k :: 0 <= k < 5 && k != pixelSize / 10 ==> f[k] == 0.0
  {
    seq(6, k requires 0 <= k < 6 => if k == pixelSize / 10 || k == 5 then 1.0 else 0.0)
  }

  /** A size of 55 sets no size bin at all: only the constant entry is on. */
  lemma AsWrittenSizeLosesBin()
    ensures forall k :: 0 <= k < 5 ==> SizeToFeatureVectorAsWritten(55)[k] == 0.0
  {
  }

  /** The bin a size falls in, with every size of 40 and more in the last bin. */
  function SizeBin(pixelSize: nat): (b: nat)
    ensures b <= 4 && (pixelSize < 50 ==> b == pixelSize / 10)
  {
    if pixelSize / 10 > 4 then 4 else pixelSize / 10
  }

  /**
   * The test's size feature with the clamp taking effect: exactly one of the five size bins
   * is on, the one the size falls in, and the last entry is the constant 1.
   */
  function SizeToFeatureVector(pixelSize: nat): (f: seq<real>)
    ensures |f| == 6 && f[5] == 1.0
    ensures forall k :: 0 <= k < 5 ==> (f[k] == 1.0 <==> k == SizeBin(pixelSize))
    ensures forall k :: 0 <= k < 5 ==> f[k] == 0.0 || f[k] == 1.0
    ensures pixelSize < 50 ==> f == SizeToFeatureVectorAsWritten(pixelSize)
  {
    seq(6, k requires 0 <= k < 6 => if k == SizeBin(pixelSize) || k == 5 then 1.0 else 0.0)
  }

  /** A new node of the test tree with its cover label set and no children yet. */
  method TestNode(counter: IdCounter, ghost forest: Forest, coverFeatures: seq<real>, addFeatures: seq<real>, coverLabel: SizeT)
    returns (n: CoverTreeNode)
    requires forest.Valid()
    modifies counter, forest
    ensures fresh(n) && n.forest == forest && forest.nodes == old(forest.nodes) + {n} && forest.Valid()
    ensures n.children == [] && n.labelled && n.coverLabel == coverLabel
    ensures n.coverFeatures == coverFeatures && n.addFeatures == addFeatures
  {
    n := new CoverTreeNode(counter, forest, coverFeatures, addFeatures);
    n.SetCoverLabel(coverLabel);
  }

  /**
   * Creates two labelled nodes and attaches them to a parent, in order, as the test
   * does for each level of its tree.
   */
  method AddTestLeaves(counter: IdCounter, ghost forest: Forest, parent: CoverTreeNode,
                       coverA: seq<real>, addA: seq<real>, labelA: SizeT,
                       coverB: seq<real>, addB: seq<real>, labelB: SizeT)
    returns (a: CoverTreeNode, b: CoverTreeNode)
    requires forest.Valid() && parent in forest.nodes && parent.forest == forest
    modifies counter, forest, parent`children
    ensures fresh(a) && fresh(b) && a != b && a.forest == forest && b.forest == forest
    ensures forest.nodes == old(forest.nodes) + {a, b} && forest.Valid()
    ensures parent.children == old(parent.children) + [a, b]
    ensures a.children == [] && a.labelled && a.coverLabel == labelA
    ensures b.children == [] && b.labelled && b.coverLabel == labelB
    ensures a.coverFeatures == coverA && a.addFeatures == addA
    ensures b.coverFeatures == coverB && b.addFeatures == addB
  {
    a := TestNode(counter, forest, coverA, addA, labelA);
    b := TestNode(counter, forest, coverB, addB, labelB);
    forest.BelowLeaf(a);
    parent.AddChild(a);
    forest.BelowLeaf(b);
    parent.AddChild(b);
  }

  /**
   * The test tree with ground truth, built top-down as the test builds it: the root
   * gets two children, and only then does each child get its own two. `nodes` is in
   * creation order (root, c1, c2, c1a, c1b, c2a, c2b).
   */
  method TestTreeWithGroundTruth(counter: IdCounter, ghost forest: Forest) returns (nodes: seq<CoverTreeNode>)
    requires forest.Valid()
    modifies counter, forest
    ensures TestTree(forest, nodes) && TestTreeFeatures(nodes)
  {
    TestFeatureVectors();
    var f48, f26, f19 := SizeToFeatureVector(48), SizeToFeatureVector(26), SizeToFeatureVector(19);
    var f11, f3, f6 := SizeToFeatureVector(11), SizeToFeatureVector(3), SizeToFeatureVector(6);
    var root := TestNode(counter, forest, f48, [3.0, 2.0, 1.0], 4);
    var c1, c2 := AddTestLeaves(counter, forest, root, f26, [4.0, 2.0, 1.0], 2, f19, [10.0, 2.0, 1.0], 1);
    var c1a, c1b := AddTestLeaves(counter, forest, c1, f11, [11.0, 0.0, 1.0], 1, f11, [11.0, 0.0, 1.0], 1);
    var c2a, c2b := AddTestLeaves(counter, forest, c2, f3, [3.0, 0.0, 1.0], 0, f6, [6.0, 0.0, 1.0], 0);
    nodes := [root, c1, c2, c1a, c1b, c2a, c2b];
  }

  /** The size features of the test's node sizes. */
  lemma TestFeatureVectors()
    ensures SizeToFeatureVector(48) == [0.0, 0.0, 0.0, 0.0, 1.0, 1.0]
    ensures SizeToFeatureVector(26) == [0.0, 0.0, 1.0, 0.0, 0.0, 1.0]
    ensures SizeToFeatureVector(19) == [0.0, 1.0, 0.0, 0.0, 0.0, 1.0]
    ensures SizeToFeatureVector(11) == [0.0, 1.0, 0.0, 0.0, 0.0, 1.0]
    ensures SizeToFeatureVector(3) == [1.0, 0.0, 0.0, 0.0, 0.0, 1.0]
    ensures SizeToFeatureVector(6) == [1.0, 0.0, 0.0, 0.0, 0.0, 1.0]
  {
  }

  /** The shape and the cover labels of the test tree, nodes in creation order. */
  ghost predicate TestTree(forest: Forest, nodes: seq<CoverTreeNode>)
    reads forest, forest.nodes
  {
    forest.Valid() && |nodes| == 7 &&
    (forall i :: 0 <= i < 7 ==> nodes[i] in forest.nodes && nodes[i].labelled) &&
    nodes[0].children == [nodes[1], nodes[2]] &&
    nodes[1].children == [nodes[3], nodes[4]] && nodes[2].children == [nodes[5], nodes[6]] &&
    (forall i :: 3 <= i < 7 ==> nodes[i].children == []) &&
    nodes[0].coverLabel == 4 && nodes[1].coverLabel == 2 && nodes[2].coverLabel == 1 &&
    nodes[3].coverLabel == 1 && nodes[4].coverLabel == 1 && nodes[5].coverLabel == 0 && nodes[6].coverLabel == 0
  }

  /**
   * The features of the test tree, nodes in creation order: the size feature of each node's
   * pixel size, and the add features the test gives.
   */
  ghost predicate TestTreeFeatures(nodes: seq<CoverTreeNode>)
    reads set n | n in nodes
  {
    |nodes| == 7 &&
    nodes[0].coverFeatures == [0.0, 0.0, 0.0, 0.0, 1.0, 1.0] && nodes[1].coverFeatures == [0.0, 0.0, 1.0, 0.0, 0.0, 1.0] &&
    nodes[2].coverFeatures == [0.0, 1.0, 0.0, 0.0, 0.0, 1.0] && nodes[3].coverFeatures == [0.0, 1.0, 0.0, 0.0, 0.0, 1.0] &&
    nodes[4].coverFeatures == [0.0, 1.0, 0.0, 0.0, 0.0, 1.0] && nodes[5].coverFeatures == [1.0, 0.0, 0.0, 0.0, 0.0, 1.0] &&
    nodes[6].coverFeatures == [1.0, 0.0, 0.0, 0.0, 0.0, 1.0] &&
    nodes[0].addFeatures == [3.0, 2.0, 1.0] && nodes[1].addFeatures == [4.0, 2.0, 1.0] &&
    nodes[2].addFeatures == [10.0, 2.0, 1.0] && nodes[3].addFeatures == [11.0, 0.0, 1.0] &&
    nodes[4].addFeatures == [11.0, 0.0, 1.0] && nodes[5].addFeatures == [3.0, 0.0, 1.0] &&
    nodes[6].addFeatures == [6.0, 0.0, 1.0]
  }

  /** In the test tree each node accounts for one object beyond its children, except c1 and the leaves of c2. */
  lemma TestTreeAddLabels(forest: Forest, nodes: seq<CoverTreeNode>)
    requires TestTree(forest, nodes)
    ensures nodes[0].AddLabel() == 1 && nodes[1].AddLabel() == 0 && nodes[2].AddLabel() == 1
    ensures nodes[3].AddLabel() == 1 && nodes[4].AddLabel() == 1 && nodes[5].AddLabel() == 0 && nodes[6].AddLabel() == 0
  {
    CoverSumPair(nodes[1], nodes[2]);
    CoverSumPair(nodes[3], nodes[4]);
    CoverSumPair(nodes[5], nodes[6]);
  }

  /** A visitor from the root of the test tree sees each child's subtree before the next child. */
  method VisitTestTree(counter: IdCounter, ghost forest: Forest) returns (nodes: seq<CoverTreeNode>, visited: seq<CoverTreeNode>)
    requires forest.Valid()
    modifies counter, forest
    ensures |nodes| == 7
    ensures visited == [nodes[0], nodes[1], nodes[3], nodes[4], nodes[2], nodes[5], nodes[6]]
  {
    nodes := TestTreeWithGroundTruth(counter, forest);
    var visitor := new NodeVisitor();
    nodes[0].Accept(visitor);
    visited := visitor.visited;
    TestTreePreOrder(forest, nodes);
  }

  lemma TestTreePreOrder(forest: Forest, nodes: seq<CoverTreeNode>)
    requires TestTree(forest, nodes)
    ensures nodes[0].PreOrder() == [nodes[0], nodes[1], nodes[3], nodes[4], nodes[2], nodes[5], nodes[6]]
  {
    nodes[0].PreOrderTwoChildren();
    nodes[1].PreOrderTwoChildren();
    nodes[2].PreOrderTwoChildren();
    assert forall i :: 3 <= i < 7 ==> nodes[i].PreOrder() == [nodes[i]];
  }
}
