/**
 * The React Flow flattener (`backend/src/backend/letta_agent/skill_tree_generator.py`): a
 * nested topic tree becomes a flat list of nodes with ids "1", "2", … and a list of
 * parent-to-child edges. The walk stops at `max_depth`, skips topics it has already placed,
 * and gives a leaf its related topics as placeholder nodes.
 *
 * The input tree's dict is decoded with the source's defaults already applied: a missing
 * topic is "", missing lists are empty, a missing uuid is `None`. An output uuid of `None` is a
 * fresh `uuid4`. An explicit `null` uuid, which the source passes through as `None`, is not
 * told apart from a missing one. Node positions, always `{x: 0, y: 0}`, are left out.
 */
module SkillTreeGenerator {
  import opened Wrappers
  import opened Text
  import opened Json

  /** A node of the input tree. */
  datatype TopicNode = TopicNode(topic: string, resources: Json, quizQuestions: Json, relatedHarderTopics: seq<string>,
                                 uuid: Option<string>, children: seq<TopicNode>)

  /** A React Flow node: its id, its type and its `data` record. */
  datatype FlowNode = FlowNode(id: string, kind: string, labelText: string, topic: string, resources: Json,
                               quizQuestions: Json, relatedHarderTopics: seq<string>, uuid: Option<string>,
                               isPlaceholder: bool)

  datatype Edge = Edge(source: string, target: string)

  /** The generator's four mutable fields at one point of a walk. */
  datatype Walk = Walk(counter: nat, nodes: seq<FlowNode>, edges: seq<Edge>, processed: set<string>)

  /** The fields as `generate_react_flow_format` resets them. */
  const Start: Walk := Walk(1, [], [], {})

  const InputType: string := "input"
  const DefaultType: string := "default"
  const PlaceholderSuffix: string := " (placeholder)"

  /** Placing the real node for `n`: the next id, its type, the edge from a parent id, its topic marked. */
  function AddNode(w: Walk, n: TopicNode, parent: Option<string>): Walk {
    var id := NatToString(w.counter);
    var node := FlowNode(id, if parent.None? then InputType else DefaultType, n.topic, n.topic, n.resources,
                         n.quizQuestions, n.relatedHarderTopics, n.uuid, false);
    Walk(w.counter + 1, w.nodes + [node],
         if parent.Some? && parent.value != "" then w.edges + [Edge(parent.value, id)] else w.edges,
         w.processed + {n.topic})
  }

  /** Placing a placeholder for `topicName` under `parentId`. */
  function AddPlaceholder(w: Walk, topicName: string, parentId: string): Walk {
    var id := NatToString(w.counter);
    var node := FlowNode(id, DefaultType, topicName + PlaceholderSuffix, topicName, JList([]), JList([]), [], None, true);
    Walk(w.counter + 1, w.nodes + [node], w.edges + [Edge(parentId, id)], w.processed)
  }

  /** The fields after `_process_node(n, parent, depth)`. */
  function Process(maxDepth: int, n: TopicNode, parent: Option<string>, depth: int, w: Walk): Walk
    decreases n
  {
    if depth >= maxDepth || n.topic in w.processed then w
    else
      var id := NatToString(w.counter);
      var placed := AddNode(w, n, parent);
      if n.children != [] then ProcessChildren(maxDepth, n.children, id, depth + 1, placed)
      else Placeholders(maxDepth, n.relatedHarderTopics, id, depth, placed)
  }

  /** The children processed in order under `parentId`, each at `depth`. */
  function ProcessChildren(maxDepth: int, children: seq<TopicNode>, parentId: string, depth: int, w: Walk): Walk
    decreases children
  {
    if children == [] then w
    else
      var n := |children| - 1;
      Process(maxDepth, children[n], Some(parentId), depth, ProcessChildren(maxDepth, children[..n], parentId, depth, w))
  }

  /** The placeholder loop of a leaf at `depth`: one placeholder per related topic above the last level. */
  function Placeholders(maxDepth: int, related: seq<string>, parentId: string, depth: int, w: Walk): Walk {
    if related == [] then w
    else
      var n := |related| - 1;
      var before := Placeholders(maxDepth, related[..n], parentId, depth, w);
      if depth < maxDepth - 1 then AddPlaceholder(before, related[n], parentId) else before
  }

  /** What `generate_react_flow_format(root)` returns for a generator with `max_depth` `maxDepth`. */
  function Flow(maxDepth: int, root: TopicNode): (seq<FlowNode>, seq<Edge>) {
    var w := Process(maxDepth, root, None, 0, Start);
    (w.nodes, w.edges)
  }

  /** The output of `generate_json_output`. */
  datatype FlowJson = FlowJson(nodes: seq<FlowNode>, edges: seq<Edge>)

  /** `generate_json_output(nodes, edges)`: both lists exactly as given. */
  function GenerateJsonOutput(nodes: seq<FlowNode>, edges: seq<Edge>): (r: FlowJson)
    ensures r.nodes == nodes && r.edges == edges
  {
    FlowJson(nodes, edges)
  }

  /** Some real node before position `m` has id `s`: edges only leave real nodes placed earlier. */
  predicate RealBefore(nodes: seq<FlowNode>, s: string, m: int) {
    exists j | 0 <= j < m && j < |nodes| :: nodes[j].id == s && !nodes[j].isPlaceholder
  }

  /** The topics of the real (non-placeholder) nodes. */
  function RealTopics(nodes: seq<FlowNode>): set<string> {
    set k | 0 <= k < |nodes| && !nodes[k].isPlaceholder :: nodes[k].topic
  }

  /** Node `k` has id `k + 1`, the counter is the next id, and the first node is the only input. */
  predicate GoodIds(w: Walk) {
    |w.nodes| >= 1 && w.counter == |w.nodes| + 1 &&
    (forall k | 0 <= k < |w.nodes| :: w.nodes[k].id == NatToString(k + 1)) &&
    w.nodes[0].kind == InputType && !w.nodes[0].isPlaceholder &&
    (forall k | 1 <= k < |w.nodes| :: w.nodes[k].kind == DefaultType)
  }

  /** Edge `k` leads to node `k + 1` from a real node placed before it. */
  predicate GoodEdges(w: Walk) {
    |w.edges| == |w.nodes| - 1 &&
    forall k | 0 <= k < |w.edges| :: w.edges[k].target == w.nodes[k + 1].id && RealBefore(w.nodes, w.edges[k].source, k + 1)
  }

  /** The processed topics are the real nodes' topics, no two real nodes share one, and labels follow the kind. */
  predicate GoodTopics(w: Walk) {
    w.processed == RealTopics(w.nodes) &&
    (forall a, b | 0 <= a < b < |w.nodes| && !w.nodes[a].isPlaceholder && !w.nodes[b].isPlaceholder ::
       w.nodes[a].topic != w.nodes[b].topic) &&
    (forall k | 0 <= k < |w.nodes| ::
       w.nodes[k].labelText == if w.nodes[k].isPlaceholder then w.nodes[k].topic + PlaceholderSuffix else w.nodes[k].topic)
  }

  /** The invariant of a walk once the root is placed. */
  predicate Good(w: Walk) {
    GoodIds(w) && GoodEdges(w) && GoodTopics(w)
  }

  /** `w2` keeps the nodes and edges of `w1` as prefixes. */
  predicate Extends(w1: Walk, w2: Walk) {
    |w1.nodes| <= |w2.nodes| && w2.nodes[..|w1.nodes|] == w1.nodes &&
    |w1.edges| <= |w2.edges| && w2.edges[..|w1.edges|] == w1.edges
  }

  lemma ExtendsTrans(w1: Walk, w2: Walk, w3: Walk)
    requires Extends(w1, w2) && Extends(w2, w3)
    ensures Extends(w1, w3)
  {
    assert w3.nodes[..|w1.nodes|] == w3.nodes[..|w2.nodes|][..|w1.nodes|];
    assert w3.edges[..|w1.edges|] == w3.edges[..|w2.edges|][..|w1.edges|];
  }

  /** A real node stays where it is as the walk goes on. */
  lemma RealBeforeExtends(nodes1: seq<FlowNode>, nodes2: seq<FlowNode>, s: string, m: int)
    requires |nodes1| <= |nodes2| && nodes2[..|nodes1|] == nodes1
    requires RealBefore(nodes1, s, m)
    ensures RealBefore(nodes2, s, m) && RealBefore(nodes2, s, |nodes2|)
  {
    var j :| 0 <= j < m && j < |nodes1| && nodes1[j].id == s && !nodes1[j].isPlaceholder;
    assert nodes2[j] == nodes2[..|nodes1|][j];
  }

  lemma RealTopicsSnoc(nodes: seq<FlowNode>, x: FlowNode)
    ensures RealTopics(nodes + [x]) == RealTopics(nodes) + (if x.isPlaceholder then {} else {x.topic})
  {
    var all := nodes + [x];
    forall t | t in RealTopics(all) ensures t in RealTopics(nodes) + (if x.isPlaceholder then {} else {x.topic}) {
      var k :| 0 <= k < |all| && !all[k].isPlaceholder && all[k].topic == t;
      if k < |nodes| {
        assert nodes[k] == all[k];
      }
    }
    forall t | t in RealTopics(nodes) ensures t in RealTopics(all) {
      var k :| 0 <= k < |nodes| && !nodes[k].isPlaceholder && nodes[k].topic == t;
      assert all[k] == nodes[k];
    }
    if !x.isPlaceholder {
      assert all[|nodes|] == x;
    }
  }

  /** The root's node alone satisfies the invariant. */
  lemma AddRootGood(n: TopicNode)
    ensures Good(AddNode(Start, n, None))
  {
    var w := AddNode(Start, n, None);
    RealTopicsSnoc([], w.nodes[0]);
    assert [] + [w.nodes[0]] == w.nodes;
  }

  /** Placing a new topic under a real node keeps the invariant. */
  lemma AddNodeGood(w: Walk, n: TopicNode, p: string)
    requires Good(w) && RealBefore(w.nodes, p, |w.nodes|) && n.topic !in w.processed
    ensures Good(AddNode(w, n, Some(p))) && Extends(w, AddNode(w, n, Some(p)))
  {
    var w2 := AddNode(w, n, Some(p));
    var j :| 0 <= j < |w.nodes| && w.nodes[j].id == p && !w.nodes[j].isPlaceholder;
    assert p == NatToString(j + 1);
    assert w2.edges == w.edges + [Edge(p, NatToString(w.counter))];
    AddNodeIds(w, n, p);
    AddNodeEdges(w, n, p);
    AddNodeTopics(w, n, p);
    assert w2.nodes[..|w.nodes|] == w.nodes;
    assert w2.edges[..|w.edges|] == w.edges;
  }

  lemma AddNodeIds(w: Walk, n: TopicNode, p: string)
    requires GoodIds(w)
    ensures GoodIds(AddNode(w, n, Some(p)))
  {
    var w2 := AddNode(w, n, Some(p));
    forall k | 0 <= k < |w2.nodes| ensures w2.nodes[k].id == NatToString(k + 1) {
      if k < |w.nodes| {
        assert w2.nodes[k] == w.nodes[k];
      }
    }
  }

  lemma AddNodeEdges(w: Walk, n: TopicNode, p: string)
    requires GoodIds(w) && GoodEdges(w) && RealBefore(w.nodes, p, |w.nodes|) && p != ""
    ensures GoodEdges(AddNode(w, n, Some(p)))
  {
    var w2 := AddNode(w, n, Some(p));
    assert w2.edges == w.edges + [Edge(p, NatToString(w.counter))];
    forall k | 0 <= k < |w2.edges|
      ensures w2.edges[k].target == w2.nodes[k + 1].id && RealBefore(w2.nodes, w2.edges[k].source, k + 1)
    {
      if k < |w.edges| {
        assert w2.edges[k] == w.edges[k];
        assert w2.nodes[k + 1] == w.nodes[k + 1];
        assert w2.nodes[..|w.nodes|] == w.nodes;
        RealBeforeExtends(w.nodes, w2.nodes, w.edges[k].source, k + 1);
      } else {
        assert w2.nodes[..|w.nodes|] == w.nodes;
        RealBeforeExtends(w.nodes, w2.nodes, p, |w.nodes|);
      }
    }
  }

  lemma AddNodeTopics(w: Walk, n: TopicNode, p: string)
    requires GoodTopics(w) && n.topic !in w.processed
    ensures GoodTopics(AddNode(w, n, Some(p)))
  {
    var w2 := AddNode(w, n, Some(p));
    var x := w2.nodes[|w.nodes|];
    assert w2.nodes == w.nodes + [x];
    RealTopicsSnoc(w.nodes, x);
    forall a, b | 0 <= a < b < |w2.nodes| && !w2.nodes[a].isPlaceholder && !w2.nodes[b].isPlaceholder
      ensures w2.nodes[a].topic != w2.nodes[b].topic
    {
      assert w2.nodes[a] == w.nodes[a];
      if b == |w.nodes| {
        assert w.nodes[a].topic in RealTopics(w.nodes);
      } else {
        assert w2.nodes[b] == w.nodes[b];
      }
    }
  }

  /** Placing a placeholder under a real node keeps the invariant. */
  lemma AddPlaceholderGood(w: Walk, t: string, p: string)
    requires Good(w) && RealBefore(w.nodes, p, |w.nodes|)
    ensures Good(AddPlaceholder(w, t, p)) && Extends(w, AddPlaceholder(w, t, p))
  {
    var w2 := AddPlaceholder(w, t, p);
    assert w2.nodes[..|w.nodes|] == w.nodes;
    assert w2.edges[..|w.edges|] == w.edges;
    AddPlaceholderIds(w, t, p);
    AddPlaceholderEdges(w, t, p);
    AddPlaceholderTopics(w, t, p);
  }

  lemma AddPlaceholderIds(w: Walk, t: string, p: string)
    requires GoodIds(w)
    ensures GoodIds(AddPlaceholder(w, t, p))
  {
    var w2 := AddPlaceholder(w, t, p);
    forall k | 0 <= k < |w2.nodes| ensures w2.nodes[k].id == NatToString(k + 1) {
      if k < |w.nodes| {
        assert w2.nodes[k] == w.nodes[k];
      }
    }
  }

  lemma AddPlaceholderEdges(w: Walk, t: string, p: string)
    requires GoodIds(w) && GoodEdges(w) && RealBefore(w.nodes, p, |w.nodes|)
    ensures GoodEdges(AddPlaceholder(w, t, p))
  {
    var w2 := AddPlaceholder(w, t, p);
    assert w2.nodes[..|w.nodes|] == w.nodes;
    forall k | 0 <= k < |w2.edges|
      ensures w2.edges[k].target == w2.nodes[k + 1].id && RealBefore(w2.nodes, w2.edges[k].source, k + 1)
    {
      if k < |w.edges| {
        assert w2.edges[k] == w.edges[k];
        assert w2.nodes[k + 1] == w.nodes[k + 1];
        RealBeforeExtends(w.nodes, w2.nodes, w.edges[k].source, k + 1);
      } else {
        RealBeforeExtends(w.nodes, w2.nodes, p, |w.nodes|);
      }
    }
  }

  lemma AddPlaceholderTopics(w: Walk, t: string, p: string)
    requires GoodTopics(w)
    ensures GoodTopics(AddPlaceholder(w, t, p))
  {
    var w2 := AddPlaceholder(w, t, p);
    var x := w2.nodes[|w.nodes|];
    assert w2.nodes == w.nodes + [x];
    RealTopicsSnoc(w.nodes, x);
    forall a, b | 0 <= a < b < |w2.nodes| && !w2.nodes[a].isPlaceholder && !w2.nodes[b].isPlaceholder
      ensures w2.nodes[a].topic != w2.nodes[b].topic
    {
      assert w2.nodes[a] == w.nodes[a] && w2.nodes[b] == w.nodes[b];
    }
  }

  /** The placeholder loop keeps the invariant under a real node. */
  lemma {:induction false} PlaceholdersGood(maxDepth: int, related: seq<string>, p: string, depth: int, w: Walk)
    requires Good(w) && RealBefore(w.nodes, p, |w.nodes|)
    ensures Good(Placeholders(maxDepth, related, p, depth, w)) && Extends(w, Placeholders(maxDepth, related, p, depth, w))
  {
    if related != [] {
      var n := |related| - 1;
      PlaceholdersGood(maxDepth, related[..n], p, depth, w);
      var before := Placeholders(maxDepth, related[..n], p, depth, w);
      RealBeforeExtends(w.nodes, before.nodes, p, |w.nodes|);
      if depth < maxDepth - 1 {
        AddPlaceholderGood(before, related[n], p);
        ExtendsTrans(w, before, AddPlaceholder(before, related[n], p));
      }
    }
  }

  /** Processing a child under a real node keeps the invariant. */
  lemma {:induction false} ProcessGood(maxDepth: int, n: TopicNode, p: string, depth: int, w: Walk)
    requires Good(w) && RealBefore(w.nodes, p, |w.nodes|)
    ensures Good(Process(maxDepth, n, Some(p), depth, w)) && Extends(w, Process(maxDepth, n, Some(p), depth, w))
    decreases n
  {
    if !(depth >= maxDepth || n.topic in w.processed) {
      var placed := AddNode(w, n, Some(p));
      AddNodeGood(w, n, p);
      PlacedBelow(w, n, Some(p), maxDepth, depth);
      var r := Process(maxDepth, n, Some(p), depth, w);
      ExtendsTrans(w, placed, r);
    } else {
      assert w.nodes[..|w.nodes|] == w.nodes && w.edges[..|w.edges|] == w.edges;
    }
  }

  /** After `n`'s own node, what follows it keeps the invariant and extends the walk. */
  lemma PlacedBelow(w: Walk, n: TopicNode, parent: Option<string>, maxDepth: int, depth: int)
    requires depth < maxDepth && n.topic !in w.processed
    requires Good(AddNode(w, n, parent))
    ensures var placed := AddNode(w, n, parent);
            Good(Process(maxDepth, n, parent, depth, w)) && Extends(placed, Process(maxDepth, n, parent, depth, w))
    decreases n, 0
  {
    var placed := AddNode(w, n, parent);
    var id := NatToString(w.counter);
    assert placed.nodes[|w.nodes|].id == id && !placed.nodes[|w.nodes|].isPlaceholder;
    assert RealBefore(placed.nodes, id, |placed.nodes|);
    if n.children != [] {
      ChildrenGood(maxDepth, n.children, id, depth + 1, placed);
    } else {
      PlaceholdersGood(maxDepth, n.relatedHarderTopics, id, depth, placed);
    }
  }

  /** The children loop keeps the invariant under a real node. */
  lemma {:induction false} ChildrenGood(maxDepth: int, children: seq<TopicNode>, p: string, depth: int, w: Walk)
    requires Good(w) && RealBefore(w.nodes, p, |w.nodes|)
    ensures Good(ProcessChildren(maxDepth, children, p, depth, w)) &&
            Extends(w, ProcessChildren(maxDepth, children, p, depth, w))
    decreases children
  {
    if children == [] {
      assert w.nodes[..|w.nodes|] == w.nodes && w.edges[..|w.edges|] == w.edges;
    } else {
      var n := |children| - 1;
      ChildrenGood(maxDepth, children[..n], p, depth, w);
      var before := ProcessChildren(maxDepth, children[..n], p, depth, w);
      RealBeforeExtends(w.nodes, before.nodes, p, |w.nodes|);
      ProcessGood(maxDepth, children[n], p, depth, before);
      ExtendsTrans(w, before, Process(maxDepth, children[n], Some(p), depth, before));
    }
  }

  /**
   * With `max_depth` 0 or less the output is empty. Otherwise the ids are "1", "2", … in
   * order, the first node is the root topic and the only "input" node, edge `k` leads from
   * an earlier real node to node `k + 1` (so there is one edge fewer than nodes), no two
   * real nodes share a topic, and placeholders are labelled "<topic> (placeholder)".
   */
  lemma FlowShape(maxDepth: int, root: TopicNode)
    ensures maxDepth <= 0 ==> Flow(maxDepth, root) == ([], [])
    ensures maxDepth > 0 ==> Good(Process(maxDepth, root, None, 0, Start)) &&
                             Flow(maxDepth, root).0[0].topic == root.topic
    ensures maxDepth > 0 ==> var ns := Flow(maxDepth, root).0;
                             forall a, b | 0 <= a < b < |ns| :: ns[a].id != ns[b].id
  {
    if maxDepth > 0 {
      AddRootGood(root);
      PlacedBelow(Start, root, None, maxDepth, 0);
      var placed := AddNode(Start, root, None);
      var r := Process(maxDepth, root, None, 0, Start);
      assert r.nodes[0] == r.nodes[..|placed.nodes|][0];
      IdsDistinct(r);
    }
  }

  /** Node ids are pairwise distinct. */
  lemma IdsDistinct(w: Walk)
    requires GoodIds(w)
    ensures forall a, b | 0 <= a < b < |w.nodes| :: w.nodes[a].id != w.nodes[b].id
  {
    forall a, b | 0 <= a < b < |w.nodes| ensures w.nodes[a].id != w.nodes[b].id {
      if w.nodes[a].id == w.nodes[b].id {
        NatToStringInjective(a + 1, b + 1);
      }
    }
  }

  /** A walk step never removes nodes. */
  lemma {:induction false} ProcessGrows(maxDepth: int, n: TopicNode, parent: Option<string>, depth: int, w: Walk)
    ensures |Process(maxDepth, n, parent, depth, w).nodes| >= |w.nodes|
    ensures !(depth >= maxDepth || n.topic in w.processed) ==> |Process(maxDepth, n, parent, depth, w).nodes| > |w.nodes|
    decreases n, 1
  {
    if !(depth >= maxDepth || n.topic in w.processed) {
      var placed := AddNode(w, n, parent);
      var id := NatToString(w.counter);
      if n.children != [] {
        ChildrenGrow(maxDepth, n.children, id, depth + 1, placed);
      } else {
        PlaceholdersShape(maxDepth, n.relatedHarderTopics, id, depth, placed);
      }
    }
  }

  lemma {:induction false} ChildrenGrow(maxDepth: int, children: seq<TopicNode>, p: string, depth: int, w: Walk)
    ensures |ProcessChildren(maxDepth, children, p, depth, w).nodes| >= |w.nodes|
    decreases children, 0
  {
    if children != [] {
      var n := |children| - 1;
      ChildrenGrow(maxDepth, children[..n], p, depth, w);
      ProcessGrows(maxDepth, children[n], Some(p), depth, ProcessChildren(maxDepth, children[..n], p, depth, w));
    }
  }

  /**
   * `_process_node` leaves the generator untouched exactly when the depth limit is reached or
   * the topic was already placed; otherwise it places at least the topic's own node.
   */
  lemma SkipIff(maxDepth: int, n: TopicNode, parent: Option<string>, depth: int, w: Walk)
    ensures Process(maxDepth, n, parent, depth, w) == w <==> depth >= maxDepth || n.topic in w.processed
  {
    ProcessGrows(maxDepth, n, parent, depth, w);
  }

  /**
   * The placeholder loop of a leaf: below the last level it appends one placeholder per related
   * topic, in order, with the next ids, the topic as given, the label "<topic> (placeholder)",
   * and an edge from the leaf; on the last level it appends nothing. Processed topics are kept.
   */
  lemma {:induction false} PlaceholdersShape(maxDepth: int, related: seq<string>, p: string, depth: int, w: Walk)
    ensures depth >= maxDepth - 1 ==> Placeholders(maxDepth, related, p, depth, w) == w
    ensures depth < maxDepth - 1 ==>
              var r := Placeholders(maxDepth, related, p, depth, w);
              r.counter == w.counter + |related| && r.processed == w.processed &&
              |r.nodes| == |w.nodes| + |related| && r.nodes[..|w.nodes|] == w.nodes &&
              |r.edges| == |w.edges| + |related| && r.edges[..|w.edges|] == w.edges &&
              (forall j | 0 <= j < |related| ::
                 r.nodes[|w.nodes| + j] == FlowNode(NatToString(w.counter + j), DefaultType, related[j] + PlaceholderSuffix,
                                                    related[j], JList([]), JList([]), [], None, true) &&
                 r.edges[|w.edges| + j] == Edge(p, NatToString(w.counter + j)))
  {
    if related != [] {
      var n := |related| - 1;
      PlaceholdersShape(maxDepth, related[..n], p, depth, w);
      if depth < maxDepth - 1 {
        var before := Placeholders(maxDepth, related[..n], p, depth, w);
        var r := Placeholders(maxDepth, related, p, depth, w);
        assert r == AddPlaceholder(before, related[n], p);
        assert r.nodes[..|w.nodes|] == before.nodes[..|w.nodes|];
        assert r.edges[..|w.edges|] == before.edges[..|w.edges|];
        forall j | 0 <= j < |related|
          ensures r.nodes[|w.nodes| + j] == FlowNode(NatToString(w.counter + j), DefaultType, related[j] + PlaceholderSuffix,
                                                     related[j], JList([]), JList([]), [], None, true)
          ensures r.edges[|w.edges| + j] == Edge(p, NatToString(w.counter + j))
        {
          if j < n {
            assert r.nodes[|w.nodes| + j] == before.nodes[|w.nodes| + j];
            assert r.edges[|w.edges| + j] == before.edges[|w.edges| + j];
            assert related[..n][j] == related[j];
          }
        }
      }
    }
  }

  class SkillTreeGenerator {
    var maxDepth: int
    var nodeCounter: nat
    var nodes: seq<FlowNode>
    var edges: seq<Edge>
    var processedTopics: set<string>

    /** The four fields a walk changes. */
    function State(): Walk
      reads this
    {
      Walk(nodeCounter, nodes, edges, processedTopics)
    }

    /** `SkillTreeGenerator(max_depth)`. */
    constructor (maxDepth: int)
      ensures this.maxDepth == maxDepth && State() == Start
    {
      this.maxDepth := maxDepth;
      nodeCounter := 1;
      nodes := [];
      edges := [];
      processedTopics := {};
    }

    /** `generate_react_flow_format`: the fields are reset first, so earlier calls leave no trace. */
    method GenerateReactFlowFormat(root: TopicNode) returns (ns: seq<FlowNode>, es: seq<Edge>)
      modifies this
      ensures maxDepth == old(maxDepth)
      ensures (ns, es) == Flow(maxDepth, root)
      ensures State() == Process(maxDepth, root, None, 0, Start)
    {
      nodes := [];
      edges := [];
      nodeCounter := 1;
      processedTopics := {};
      var _ := ProcessNode(root, None, 0);
      return nodes, edges;
    }

    /** `_process_node`: the id of the node placed, `None` when the depth or a repeated topic stops it. */
    method ProcessNode(n: TopicNode, parent: Option<string>, depth: int) returns (id: Option<string>)
      modifies this
      ensures maxDepth == old(maxDepth)
      ensures State() == Process(maxDepth, n, parent, depth, old(State()))
      ensures id.None? <==> depth >= maxDepth || n.topic in old(processedTopics)
      ensures id.Some? ==> id.value == NatToString(old(nodeCounter))
      decreases n, 1
    {
      if depth >= maxDepth {
        return None;
      }
      var topic := n.topic;
      if topic in processedTopics {
        return None;
      }
      ghost var before := State();
      processedTopics := processedTopics + {topic};
      var nodeId := NatToString(nodeCounter);
      nodeCounter := nodeCounter + 1;
      var nodeType := if parent.None? then InputType else DefaultType;
      nodes := nodes + [FlowNode(nodeId, nodeType, topic, topic, n.resources, n.quizQuestions, n.relatedHarderTopics,
                                 n.uuid, false)];
      if parent.Some? && parent.value != "" {
        edges := edges + [Edge(parent.value, nodeId)];
      }
      assert State() == AddNode(before, n, parent);
      var children := n.children;
      if children != [] {
        ProcessChildNodes(children, nodeId, depth + 1);
      } else {
        var related := n.relatedHarderTopics;
        if related == [] {
          return Some(nodeId);
        }
        AddPlaceholders(related, nodeId, depth);
      }
      return Some(nodeId);
    }

    /** The `for child_data in children` loop. */
    method ProcessChildNodes(children: seq<TopicNode>, parentId: string, depth: int)
      modifies this
      ensures maxDepth == old(maxDepth)
      ensures State() == ProcessChildren(maxDepth, children, parentId, depth, old(State()))
      decreases children, 0
    {
      for i := 0 to |children|
        invariant maxDepth == old(maxDepth)
        invariant State() == ProcessChildren(maxDepth, children[..i], parentId, depth, old(State()))
      {
        assert children[..i + 1][..i] == children[..i];
        var _ := ProcessNode(children[i], Some(parentId), depth);
      }
      assert children[..|children|] == children;
    }

    /** The `for topic_name in related_topics` loop of a leaf. */
    method AddPlaceholders(related: seq<string>, parentId: string, depth: int)
      modifies this
      ensures maxDepth == old(maxDepth)
      ensures State() == Placeholders(maxDepth, related, parentId, depth, old(State()))
    {
      for i := 0 to |related|
        invariant maxDepth == old(maxDepth)
        invariant State() == Placeholders(maxDepth, related[..i], parentId, depth, old(State()))
      {
        assert related[..i + 1][..i] == related[..i];
        if depth < maxDepth - 1 {
          var placeholderId := NatToString(nodeCounter);
          nodeCounter := nodeCounter + 1;
          nodes := nodes + [FlowNode(placeholderId, DefaultType, related[i] + PlaceholderSuffix, related[i], JList([]),
                                     JList([]), [], None, true)];
          edges := edges + [Edge(parentId, placeholderId)];
        }
      }
      assert related[..|related|] == related;
    }
  }
}
