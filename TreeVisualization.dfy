/** A model of the data reshaping done by the TreeVisualization component:
    the nested reason nodes of one thought are filtered down to their
    top-level entries and rebuilt, under a synthetic root standing for the
    thought, into the `{name, id, children}` records the tree renderer
    consumes. Rendering, interaction and layout are not modelled. */
module TreeVisualization {

  /** A reason node as the component receives it: already nested. */
  datatype Node = Node(id: string, content: string, children: seq<Node>, level: int)

  /** The thought the tree belongs to; only its id and title are used. */
  datatype Thought = Thought(id: string, title: string)

  /** A display node: what the renderer is given. */
  datatype TreeDatum = TreeDatum(name: string, id: string, children: seq<TreeDatum>)

  // ---------------------------------------------------------------------
  // The transformation
  // ---------------------------------------------------------------------

  /** The top-level entries kept as roots: those whose level is exactly 0. */
  function Roots(nodes: seq<Node>): (r: seq<Node>)
    ensures |r| <= |nodes|
    ensures forall n :: n in r <==> n in nodes && n.level == 0
    ensures (forall n :: n in nodes ==> n.level == 0) ==> r == nodes
  {
    if nodes == [] then []
    else if nodes[0].level == 0 then [nodes[0]] + Roots(nodes[1..])
    else Roots(nodes[1..])
  }

  /** One node turned into a display node: its content becomes the name,
      its id is kept, and its children are turned over one by one in order.
      The node's level plays no part. */
  function BuildTree(n: Node): (r: TreeDatum)
    decreases n
    ensures r.name == n.content && r.id == n.id
    ensures |r.children| == |n.children|
    ensures forall i :: 0 <= i < |n.children| ==> r.children[i] == BuildTree(n.children[i])
  {
    TreeDatum(n.content, n.id, BuildForest(n.children))
  }

  /** `children.map(buildTree)`: each node of the sequence rebuilt, in order. */
  function BuildForest(ns: seq<Node>): (r: seq<TreeDatum>)
    decreases ns
    ensures |r| == |ns|
    ensures forall i :: 0 <= i < |ns| ==> r[i] == BuildTree(ns[i])
  {
    if ns == [] then [] else [BuildTree(ns[0])] + BuildForest(ns[1..])
  }

  /** The whole transformation: a one-element list holding the thought as a
      synthetic root, whose children are the rebuilt level-0 entries. */
  function TransformData(nodes: seq<Node>, thought: Thought): (r: seq<TreeDatum>)
    ensures |r| == 1
    ensures r[0].id == thought.id && r[0].name == thought.title
    ensures |r[0].children| == |Roots(nodes)|
    ensures forall i :: 0 <= i < |Roots(nodes)| ==> r[0].children[i] == BuildTree(Roots(nodes)[i])
  {
    [TreeDatum(thought.title, thought.id, BuildForest(Roots(nodes)))]
  }

  // ---------------------------------------------------------------------
  // Measures on both kinds of tree
  // ---------------------------------------------------------------------

  /** Number of nodes in a subtree, the node itself included. */
  function NodeSize(n: Node): nat
    decreases n
  {
    1 + ForestSize(n.children)
  }

  function ForestSize(ns: seq<Node>): nat
    decreases ns
  {
    if ns == [] then 0 else NodeSize(ns[0]) + ForestSize(ns[1..])
  }

  function DatumSize(t: TreeDatum): nat
    decreases t
  {
    1 + DatumForestSize(t.children)
  }

  function DatumForestSize(ts: seq<TreeDatum>): nat
    decreases ts
  {
    if ts == [] then 0 else DatumSize(ts[0]) + DatumForestSize(ts[1..])
  }

  function Max(a: nat, b: nat): nat { if a < b then b else a }

  /** Depth of a subtree: a leaf has depth 1. */
  function NodeDepth(n: Node): nat
    decreases n
  {
    1 + ForestDepth(n.children)
  }

  /** Largest depth among the trees of a forest, 0 for an empty one. */
  function ForestDepth(ns: seq<Node>): nat
    decreases ns
  {
    if ns == [] then 0 else Max(NodeDepth(ns[0]), ForestDepth(ns[1..]))
  }

  function DatumDepth(t: TreeDatum): nat
    decreases t
  {
    1 + DatumForestDepth(t.children)
  }

  function DatumForestDepth(ts: seq<TreeDatum>): nat
    decreases ts
  {
    if ts == [] then 0 else Max(DatumDepth(ts[0]), DatumForestDepth(ts[1..]))
  }

  /** Every id occurring in a subtree, with its multiplicity. */
  function NodeIds(n: Node): multiset<string>
    decreases n
  {
    multiset{n.id} + ForestIds(n.children)
  }

  function ForestIds(ns: seq<Node>): multiset<string>
    decreases ns
  {
    if ns == [] then multiset{} else NodeIds(ns[0]) + ForestIds(ns[1..])
  }

  function DatumIds(t: TreeDatum): multiset<string>
    decreases t
  {
    multiset{t.id} + DatumForestIds(t.children)
  }

  function DatumForestIds(ts: seq<TreeDatum>): multiset<string>
    decreases ts
  {
    if ts == [] then multiset{} else DatumIds(ts[0]) + DatumForestIds(ts[1..])
  }

  /** Two node trees agree on everything but their level fields. */
  predicate SameShape(a: Node, b: Node)
    decreases a
  {
    a.id == b.id && a.content == b.content && SameShapeForest(a.children, b.children)
  }

  predicate SameShapeForest(xs: seq<Node>, ys: seq<Node>)
    decreases xs
  {
    |xs| == |ys| && (xs == [] || (SameShape(xs[0], ys[0]) && SameShapeForest(xs[1..], ys[1..])))
  }

  /** A node tree carrying the given display tree, every level set to `level`. */
  function Unbuild(t: TreeDatum, level: int): Node
    decreases t
  {
    Node(t.id, t.name, UnbuildForest(t.children, level), level)
  }

  function UnbuildForest(ts: seq<TreeDatum>, level: int): seq<Node>
    decreases ts
  {
    if ts == [] then [] else [Unbuild(ts[0], level)] + UnbuildForest(ts[1..], level)
  }

  // ---------------------------------------------------------------------
  // Root selection
  // ---------------------------------------------------------------------

  /** Filtering distributes over concatenation, so the roots keep the
      relative order they had in the input. */
  lemma {:induction false} RootsAppend(a: seq<Node>, b: seq<Node>)
    ensures Roots(a + b) == Roots(a) + Roots(b)
  {
    if a == [] {
      assert a + b == b;
    } else {
      assert (a + b)[1..] == a[1..] + b;
      RootsAppend(a[1..], b);
    }
  }

  /** There is no root exactly when no top-level entry has level 0. */
  lemma RootsEmpty(nodes: seq<Node>)
    ensures Roots(nodes) == [] <==> forall n :: n in nodes ==> n.level != 0
  {
  }

  // ---------------------------------------------------------------------
  // buildTree
  // ---------------------------------------------------------------------

  /** Mapping distributes over concatenation. */
  lemma BuildForestAppend(a: seq<Node>, b: seq<Node>)
    ensures BuildForest(a + b) == BuildForest(a) + BuildForest(b)
  {
  }

  /** The rebuilt tree has as many nodes as the input subtree. */
  lemma {:induction false} BuildTreeSize(n: Node)
    ensures DatumSize(BuildTree(n)) == NodeSize(n)
    decreases n, 1
  {
    BuildForestSize(n.children);
  }

  lemma {:induction false} BuildForestSize(ns: seq<Node>)
    ensures DatumForestSize(BuildForest(ns)) == ForestSize(ns)
    decreases ns, 0
  {
    if ns != [] {
      BuildTreeSize(ns[0]);
      BuildForestSize(ns[1..]);
      assert BuildForest(ns)[1..] == BuildForest(ns[1..]);
    }
  }

  /** The rebuilt tree has the depth of the input subtree. */
  lemma {:induction false} BuildTreeDepth(n: Node)
    ensures DatumDepth(BuildTree(n)) == NodeDepth(n)
    decreases n, 1
  {
    BuildForestDepth(n.children);
  }

  lemma {:induction false} BuildForestDepth(ns: seq<Node>)
    ensures DatumForestDepth(BuildForest(ns)) == ForestDepth(ns)
    decreases ns, 0
  {
    if ns != [] {
      BuildTreeDepth(ns[0]);
      BuildForestDepth(ns[1..]);
      assert BuildForest(ns)[1..] == BuildForest(ns[1..]);
    }
  }

  /** The rebuilt tree carries exactly the ids of the input subtree. */
  lemma {:induction false} BuildTreeIds(n: Node)
    ensures DatumIds(BuildTree(n)) == NodeIds(n)
    decreases n, 1
  {
    BuildForestIds(n.children);
  }

  lemma {:induction false} BuildForestIds(ns: seq<Node>)
    ensures DatumForestIds(BuildForest(ns)) == ForestIds(ns)
    decreases ns, 0
  {
    if ns != [] {
      BuildTreeIds(ns[0]);
      BuildForestIds(ns[1..]);
      assert BuildForest(ns)[1..] == BuildForest(ns[1..]);
    }
  }

  /** Levels below the top are ignored: two subtrees give the same display
      tree exactly when they differ at most in their level fields. */
  lemma {:induction false} BuildTreeIgnoresLevel(a: Node, b: Node)
    ensures BuildTree(a) == BuildTree(b) <==> SameShape(a, b)
    decreases a, 1
  {
    BuildForestIgnoresLevel(a.children, b.children);
  }

  lemma {:induction false} BuildForestIgnoresLevel(xs: seq<Node>, ys: seq<Node>)
    ensures BuildForest(xs) == BuildForest(ys) <==> SameShapeForest(xs, ys)
    decreases xs, 0
  {
    if xs != [] && |xs| == |ys| {
      BuildTreeIgnoresLevel(xs[0], ys[0]);
      BuildForestIgnoresLevel(xs[1..], ys[1..]);
      assert BuildForest(xs) == [BuildTree(xs[0])] + BuildForest(xs[1..]);
      assert BuildForest(ys) == [BuildTree(ys[0])] + BuildForest(ys[1..]);
      if BuildForest(xs) == BuildForest(ys) {
        assert BuildForest(xs)[0] == BuildForest(ys)[0];
        assert BuildForest(xs)[1..] == BuildForest(ys)[1..];
      }
    } else if |xs| != |ys| {
      assert |BuildForest(xs)| != |BuildForest(ys)|;
    }
  }

  /** Every display tree is the image of a node tree, whatever levels it has. */
  lemma {:induction false} BuildTreeUnbuild(t: TreeDatum, level: int)
    ensures BuildTree(Unbuild(t, level)) == t
    decreases t, 1
  {
    BuildForestUnbuild(t.children, level);
  }

  lemma {:induction false} BuildForestUnbuild(ts: seq<TreeDatum>, level: int)
    ensures BuildForest(UnbuildForest(ts, level)) == ts
    decreases ts, 0
  {
    if ts != [] {
      BuildTreeUnbuild(ts[0], level);
      BuildForestUnbuild(ts[1..], level);
      var us := UnbuildForest(ts, level);
      assert us[1..] == UnbuildForest(ts[1..], level);
      assert BuildForest(us) == [BuildTree(us[0])] + BuildForest(us[1..]);
    }
  }

  // ---------------------------------------------------------------------
  // transformData
  // ---------------------------------------------------------------------

  /** The root has no children exactly when no input entry has level 0;
      in particular for an empty input. */
  lemma TransformDataNoRoots(nodes: seq<Node>, thought: Thought)
    ensures TransformData(nodes, thought)[0].children == []
        <==> forall n :: n in nodes ==> n.level != 0
    ensures TransformData([], thought)[0].children == []
  {
  }

  /** Adding entries to the input appends their rebuilt level-0 entries to
      the root's children, after the existing ones. */
  lemma TransformDataAppend(a: seq<Node>, b: seq<Node>, thought: Thought)
    ensures TransformData(a + b, thought)[0].children
         == TransformData(a, thought)[0].children + BuildForest(Roots(b))
  {
    RootsAppend(a, b);
    BuildForestAppend(Roots(a), Roots(b));
  }

  /** An entry whose level is not 0 contributes nothing, wherever it sits. */
  lemma TransformDataSkips(a: seq<Node>, n: Node, b: seq<Node>, thought: Thought)
    requires n.level != 0
    ensures TransformData(a + [n] + b, thought) == TransformData(a + b, thought)
  {
    RootsSkip(a, n, b);
  }

  lemma {:induction false} RootsSkip(a: seq<Node>, n: Node, b: seq<Node>)
    requires n.level != 0
    ensures Roots(a + [n] + b) == Roots(a + b)
  {
    var s := a + [n] + b;
    if a == [] {
      assert s[0] == n && s[1..] == b;
      assert a + b == b;
    } else {
      assert s[0] == a[0] && s[1..] == a[1..] + [n] + b;
      assert (a + b)[0] == a[0] && (a + b)[1..] == a[1..] + b;
      RootsSkip(a[1..], n, b);
    }
  }

  /** The output carries exactly the thought id and every id in the subtrees
      of the level-0 entries, each as often as it occurs there. */
  lemma TransformDataIds(nodes: seq<Node>, thought: Thought)
    ensures DatumForestIds(TransformData(nodes, thought))
         == multiset{thought.id} + ForestIds(Roots(nodes))
  {
    var r := TransformData(nodes, thought);
    BuildForestIds(Roots(nodes));
    assert r[1..] == [];
  }

  /** Membership form of the same: an id appears in the output exactly when it
      is the thought's or lies in the subtree of some level-0 entry, at any
      depth and whatever the descendants' own levels are. */
  lemma TransformDataHasId(nodes: seq<Node>, thought: Thought, x: string)
    ensures x in DatumForestIds(TransformData(nodes, thought))
        <==> x == thought.id || exists n :: n in nodes && n.level == 0 && x in NodeIds(n)
  {
    TransformDataIds(nodes, thought);
    ForestIdsMember(Roots(nodes), x);
  }

  lemma {:induction false} ForestIdsMember(ns: seq<Node>, x: string)
    ensures x in ForestIds(ns) <==> exists n :: n in ns && x in NodeIds(n)
  {
    if ns != [] {
      ForestIdsMember(ns[1..], x);
      if x in NodeIds(ns[0]) {
        assert ns[0] in ns;
      } else if x in ForestIds(ns[1..]) {
        var n :| n in ns[1..] && x in NodeIds(n);
        assert n in ns;
      } else {
        forall n | n in ns
          ensures x !in NodeIds(n)
        {
          if n != ns[0] {
            assert n in ns[1..];
          }
        }
      }
    }
  }

  /** The output has one node for the thought plus one per node of each
      selected subtree. */
  lemma TransformDataSize(nodes: seq<Node>, thought: Thought)
    ensures DatumForestSize(TransformData(nodes, thought)) == 1 + ForestSize(Roots(nodes))
  {
    var r := TransformData(nodes, thought);
    BuildForestSize(Roots(nodes));
    assert r[1..] == [];
  }
}
