/**
 * The hierarchical skill view of the goal page (`goals/hierarchical-skill-tree.tsx`): every
 * skill is hung under a fixed "Emotional Intelligence" root, the records are turned into a
 * tree by `buildHierarchy`, and nodes are expanded and collapsed one at a time.
 *
 * `buildHierarchy` keeps one node object per id in a `Map` and pushes those objects into
 * their parents' `children` arrays. Here a node's children are the ids of the child node
 * objects: once the map is filled, each id names exactly one object, so a list of ids
 * identifies the same objects, and setting a node's `depth` later is seen through every
 * `children` array that holds it.
 */
module HierarchicalSkillTree {
  import opened Wrappers
  import opened SkillLinks

  const RootId: string := "emotional-intelligence"
  const RootSkill: Skill := Skill(RootId, "Emotional Intelligence", "Core Skill", "Done", None)

  /** The copy of a skill hung under the root. */
  function UnderRoot(s: Skill): Skill {
    s.(parent := Some(RootId))
  }

  /** The records `buildHierarchy` is given: the root, then every other skill under the root, in order. */
  function RootData(skills: seq<Skill>): (r: seq<Skill>)
    ensures |r| >= 1 && r[0] == RootSkill
    ensures forall i | 1 <= i < |r| :: r[i].id != RootId && r[i].parent == Some(RootId)
  {
    if skills == [] then [RootSkill]
    else
      var n := |skills| - 1;
      RootData(skills[..n]) + (if skills[n].id != RootId then [UnderRoot(skills[n])] else [])
  }

  /** The skills other than the root's id, in order. */
  function NonRoot(skills: seq<Skill>): seq<Skill> {
    if skills == [] then []
    else
      var n := |skills| - 1;
      NonRoot(skills[..n]) + (if skills[n].id != RootId then [skills[n]] else [])
  }

  /** The records after the root are the non-root skills, in order, each under the root. */
  lemma {:induction false} RootDataShape(skills: seq<Skill>)
    ensures |RootData(skills)| == |NonRoot(skills)| + 1
    ensures forall i | 0 <= i < |NonRoot(skills)| :: RootData(skills)[i + 1] == UnderRoot(NonRoot(skills)[i])
    decreases |skills|
  {
    if skills != [] {
      RootDataShape(skills[..|skills| - 1]);
    }
  }

  /** The `forEach` that builds `rootData`. */
  method BuildRootData(skills: seq<Skill>) returns (rootData: seq<Skill>)
    ensures rootData == RootData(skills)
  {
    rootData := [RootSkill];
    for i := 0 to |skills|
      invariant rootData == RootData(skills[..i])
    {
      assert skills[..i + 1][..i] == skills[..i];
      if skills[i].id != RootId {
        rootData := rootData + [UnderRoot(skills[i])];
      }
    }
    assert skills[..|skills|] == skills;
  }

  /** A node of the hierarchy: the record's fields, the ids of its children, and its depth. */
  datatype Node = Node(id: string, name: string, kind: string, status: string, parent: Option<string>,
                       children: seq<string>, depth: int)

  function NewNode(item: Skill): Node {
    Node(item.id, item.name, item.kind, item.status, item.parent, [], 0)
  }

  /** The node map after the first `forEach`: a fresh node per id, the last record of an id winning. */
  function Registered(data: seq<Skill>): (m: map<string, Node>)
    ensures forall i | 0 <= i < |data| :: data[i].id in m
    ensures forall id | id in m :: m[id].children == [] && m[id].depth == 0
  {
    if data == [] then map[]
    else
      var n := |data| - 1;
      Registered(data[..n])[data[n].id := NewNode(data[n])]
  }

  /** `if (item.parent)`: a parent that is present and not the empty string. */
  predicate HasParent(item: Skill) {
    item.parent.Some? && item.parent.value != ""
  }

  /** The node map and the root list. */
  datatype Forest = Forest(nodes: map<string, Node>, roots: seq<string>)

  /**
   * One step of the second `forEach`: a record with a known parent is pushed into the parent's
   * children and gets the parent's depth plus one; a record with an unknown parent is dropped;
   * a record without parent becomes a root.
   */
  function LinkItem(f: Forest, item: Skill): (r: Forest)
    requires item.id in f.nodes
    ensures r.nodes.Keys == f.nodes.Keys
  {
    if HasParent(item) then
      var p := item.parent.value;
      if p in f.nodes then
        var pushed := f.nodes[p := f.nodes[p].(children := f.nodes[p].children + [item.id])];
        Forest(pushed[item.id := pushed[item.id].(depth := pushed[p].depth + 1)], f.roots)
      else f
    else Forest(f.nodes, f.roots + [item.id])
  }

  /** The second `forEach` over `items`, starting from the node map `m`. */
  function LinkAll(items: seq<Skill>, m: map<string, Node>): (r: Forest)
    requires forall i | 0 <= i < |items| :: items[i].id in m
    ensures r.nodes.Keys == m.Keys
  {
    if items == [] then Forest(m, [])
    else
      var n := |items| - 1;
      LinkItem(LinkAll(items[..n], m), items[n])
  }

  /** What `buildHierarchy` computes. */
  function Hierarchy(data: seq<Skill>): Forest {
    LinkAll(data, Registered(data))
  }

  /** Linking one more record is one more step of the fold. */
  lemma LinkAllSnoc(items: seq<Skill>, i: nat, m: map<string, Node>)
    requires i < |items|
    requires forall j | 0 <= j < |items| :: items[j].id in m
    ensures items[i].id in LinkAll(items[..i], m).nodes
    ensures LinkAll(items[..i + 1], m) == LinkItem(LinkAll(items[..i], m), items[i])
  {
    assert items[..i + 1][..i] == items[..i];
  }

  /** `buildHierarchy`: fill the map, then link every record in order. */
  method BuildHierarchy(data: seq<Skill>) returns (nodeMap: map<string, Node>, rootNodes: seq<string>)
    ensures Forest(nodeMap, rootNodes) == Hierarchy(data)
  {
    var registered := RegisterNodes(data);
    nodeMap, rootNodes := LinkNodes(data, registered);
  }

  /** The first `forEach` of `buildHierarchy`. */
  method RegisterNodes(data: seq<Skill>) returns (nodeMap: map<string, Node>)
    ensures nodeMap == Registered(data)
  {
    nodeMap := map[];
    for i := 0 to |data|
      invariant nodeMap == Registered(data[..i])
    {
      assert data[..i + 1][..i] == data[..i];
      nodeMap := nodeMap[data[i].id := NewNode(data[i])];
    }
    assert data[..|data|] == data;
  }

  /** The second `forEach` of `buildHierarchy`, over a map holding every record's id. */
  method LinkNodes(data: seq<Skill>, registered: map<string, Node>) returns (nodeMap: map<string, Node>, rootNodes: seq<string>)
    requires forall i | 0 <= i < |data| :: data[i].id in registered
    ensures Forest(nodeMap, rootNodes) == LinkAll(data, registered)
  {
    nodeMap := registered;
    rootNodes := [];
    for i := 0 to |data|
      invariant Forest(nodeMap, rootNodes) == LinkAll(data[..i], registered)
    {
      LinkAllSnoc(data, i, registered);
      var item := data[i];
      if item.parent.Some? && item.parent.value != "" {
        var p := item.parent.value;
        if p in nodeMap {
          var parent := nodeMap[p];
          nodeMap := nodeMap[p := parent.(children := parent.children + [item.id])];
          var node := nodeMap[item.id];
          nodeMap := nodeMap[item.id := node.(depth := nodeMap[p].depth + 1)];
        }
      } else {
        rootNodes := rootNodes + [item.id];
      }
    }
    assert data[..|data|] == data;
  }

  /** The ids of the records without parent, in order. */
  function ParentlessIds(items: seq<Skill>): seq<string> {
    if items == [] then []
    else
      var n := |items| - 1;
      ParentlessIds(items[..n]) + (if HasParent(items[n]) then [] else [items[n].id])
  }

  /** The ids of the records whose parent is `p`, in order. */
  function ChildIds(items: seq<Skill>, p: string): seq<string> {
    if items == [] then []
    else
      var n := |items| - 1;
      ChildIds(items[..n], p) + (if HasParent(items[n]) && items[n].parent.value == p then [items[n].id] else [])
  }

  /** The roots are exactly the records without parent, in order. */
  lemma {:induction false} LinkAllRoots(items: seq<Skill>, m: map<string, Node>)
    requires forall i | 0 <= i < |items| :: items[i].id in m
    ensures LinkAll(items, m).roots == ParentlessIds(items)
    decreases |items|
  {
    if items != [] {
      LinkAllRoots(items[..|items| - 1], m);
    }
  }

  /**
   * A known id's children are exactly the records naming it as parent, in order. A record
   * whose parent is not a known id is therefore neither a root nor anyone's child.
   */
  lemma {:induction false} LinkAllChildren(items: seq<Skill>, m: map<string, Node>, p: string)
    requires forall i | 0 <= i < |items| :: items[i].id in m
    requires p in m
    ensures LinkAll(items, m).nodes[p].children == m[p].children + ChildIds(items, p)
    decreases |items|
  {
    if items != [] {
      var n := |items| - 1;
      LinkAllChildren(items[..n], m, p);
      var before := LinkAll(items[..n], m);
      var item := items[n];
      if HasParent(item) && item.parent.value == p {
        assert LinkAll(items, m).nodes[p].children == before.nodes[p].children + [item.id];
        assert ChildIds(items, p) == ChildIds(items[..n], p) + [item.id];
      } else {
        assert LinkAll(items, m).nodes[p].children == before.nodes[p].children;
        assert ChildIds(items, p) == ChildIds(items[..n], p);
      }
    }
  }

  /** The roots and children of `buildHierarchy` in terms of the records alone. */
  lemma HierarchyShape(data: seq<Skill>)
    ensures Hierarchy(data).roots == ParentlessIds(data)
    ensures forall p | p in Registered(data) :: Hierarchy(data).nodes[p].children == ChildIds(data, p)
  {
    var m := Registered(data);
    LinkAllRoots(data, m);
    forall p | p in m ensures LinkAll(data, m).nodes[p].children == ChildIds(data, p) {
      LinkAllChildren(data, m, p);
      assert m[p].children == [];
    }
  }

  /** The records for the view are those for the shorter list, and the last skill unless it has the root's id. */
  lemma RootDataSnoc(skills: seq<Skill>)
    requires skills != []
    ensures var n := |skills| - 1;
            if skills[n].id != RootId then
              |RootData(skills)| == |RootData(skills[..n])| + 1 &&
              RootData(skills)[..|RootData(skills)| - 1] == RootData(skills[..n]) &&
              RootData(skills)[|RootData(skills)| - 1] == UnderRoot(skills[n])
            else RootData(skills) == RootData(skills[..n])
  {
    var n := |skills| - 1;
    if skills[n].id == RootId {
      assert RootData(skills[..n]) + [] == RootData(skills[..n]);
    }
  }

  /** The root record's node is never replaced: no later record has its id. */
  lemma {:induction false} RegisteredRoot(skills: seq<Skill>)
    ensures RootId in Registered(RootData(skills)) && Registered(RootData(skills))[RootId] == NewNode(RootSkill)
    decreases |skills|
  {
    if skills != [] {
      RegisteredRoot(skills[..|skills| - 1]);
      RootDataSnoc(skills);
    }
  }

  /**
   * While linking the records after the root, the root keeps depth 0 and every linked record
   * gets depth 1.
   */
  lemma {:induction false} RootDataDepths(data: seq<Skill>, m: map<string, Node>, k: nat)
    requires |data| >= 1 && 1 <= k <= |data|
    requires forall i | 0 <= i < |data| :: data[i].id in m
    requires forall i | 1 <= i < |data| :: data[i].id != RootId && data[i].parent == Some(RootId)
    requires RootId in m && m[RootId].depth == 0
    requires !HasParent(data[0])
    ensures AtDepthOne(LinkAll(data[..k], m), data[1..k])
    decreases k
  {
    if k > 1 {
      RootDataDepths(data, m, k - 1);
      LinkAllSnoc(data, k - 1, m);
      AtDepthOneStepAt(LinkAll(data[..k - 1], m), data, k);
    } else {
      assert data[..1] == [data[0]];
      assert LinkAll(data[..1], m).nodes == m;
    }
  }

  /** Linking the `k`-th record, whose parent is the root, extends depth one to the first `k` records. */
  lemma AtDepthOneStepAt(f: Forest, data: seq<Skill>, k: nat)
    requires 2 <= k <= |data|
    requires AtDepthOne(f, data[1..k - 1])
    requires data[k - 1].id in f.nodes && data[k - 1].id != RootId && data[k - 1].parent == Some(RootId)
    ensures AtDepthOne(LinkItem(f, data[k - 1]), data[1..k])
  {
    AtDepthOneStep(f, data[1..k - 1], data[k - 1]);
    assert data[1..k] == data[1..k - 1] + [data[k - 1]];
  }

  /** The root is a node at depth 0 and every one of `items` a node at depth 1. */
  predicate AtDepthOne(f: Forest, items: seq<Skill>) {
    && RootId in f.nodes && f.nodes[RootId].depth == 0
    && forall i | 0 <= i < |items| :: items[i].id in f.nodes && f.nodes[items[i].id].depth == 1
  }

  /** Linking a record whose parent is the root gives it depth 1 and changes no other depth. */
  lemma AtDepthOneStep(f: Forest, items: seq<Skill>, item: Skill)
    requires AtDepthOne(f, items)
    requires item.id in f.nodes && item.id != RootId && item.parent == Some(RootId)
    ensures AtDepthOne(LinkItem(f, item), items + [item])
  {
    var r := LinkItem(f, item);
    assert r.nodes[item.id].depth == 1;
    forall i | 0 <= i < |items| + 1 ensures (items + [item])[i].id in r.nodes && r.nodes[(items + [item])[i].id].depth == 1 {
      if i < |items| && items[i].id != item.id {
        assert r.nodes[items[i].id] == f.nodes[items[i].id].(children := r.nodes[items[i].id].children);
      }
    }
  }

  /**
   * The hierarchy the view shows: exactly one root, the fixed root skill, whose children are
   * the other skills in order, each a node at depth 1 below the root at depth 0.
   */
  lemma SingleRoot(skills: seq<Skill>)
    ensures Hierarchy(RootData(skills)).roots == [RootId]
    ensures RootId in Hierarchy(RootData(skills)).nodes
    ensures Hierarchy(RootData(skills)).nodes[RootId].children == SkillIds(NonRoot(skills))
    ensures Hierarchy(RootData(skills)).nodes[RootId].depth == 0
    ensures forall c | c in SkillIds(NonRoot(skills)) ::
              c in Hierarchy(RootData(skills)).nodes && Hierarchy(RootData(skills)).nodes[c].depth == 1
  {
    OnlyRoot(skills);
    RootChildren(skills);
    ChildrenAtDepthOne(skills);
  }

  /** The root skill is the only root. */
  lemma OnlyRoot(skills: seq<Skill>)
    ensures Hierarchy(RootData(skills)).roots == [RootId]
  {
    LinkAllRoots(RootData(skills), Registered(RootData(skills)));
    RootDataParentless(skills);
  }

  /** The root's children are the other skills, in order. */
  lemma RootChildren(skills: seq<Skill>)
    ensures RootId in Hierarchy(RootData(skills)).nodes
    ensures Hierarchy(RootData(skills)).nodes[RootId].children == SkillIds(NonRoot(skills))
  {
    var data := RootData(skills);
    RegisteredRoot(skills);
    LinkAllChildren(data, Registered(data), RootId);
    RootDataChildren(skills);
  }

  /** The root sits at depth 0 and every other skill one level below it. */
  lemma ChildrenAtDepthOne(skills: seq<Skill>)
    ensures RootId in Hierarchy(RootData(skills)).nodes && Hierarchy(RootData(skills)).nodes[RootId].depth == 0
    ensures forall c | c in SkillIds(NonRoot(skills)) ::
              c in Hierarchy(RootData(skills)).nodes && Hierarchy(RootData(skills)).nodes[c].depth == 1
  {
    var data := RootData(skills);
    RegisteredRoot(skills);
    RootDataShape(skills);
    RootDataDepths(data, Registered(data), |data|);
    assert data[..|data|] == data;
    var h := Hierarchy(data);
    var ids := SkillIds(NonRoot(skills));
    forall c | c in ids ensures c in h.nodes && h.nodes[c].depth == 1 {
      var i :| 0 <= i < |ids| && ids[i] == c;
      assert data[1..|data|][i] == data[i + 1];
    }
  }

  /** The ids of a list of skills, in order. */
  function SkillIds(skills: seq<Skill>): (r: seq<string>)
    ensures |r| == |skills|
    ensures forall i | 0 <= i < |skills| :: r[i] == skills[i].id
  {
    seq(|skills|, i requires 0 <= i < |skills| => skills[i].id)
  }

  /** In the records for the view, the root is the only record without parent. */
  lemma {:induction false} RootDataParentless(skills: seq<Skill>)
    ensures ParentlessIds(RootData(skills)) == [RootId]
    decreases |skills|
  {
    if skills != [] {
      RootDataParentless(skills[..|skills| - 1]);
      RootDataSnoc(skills);
    }
  }

  /** In the records for the view, every record after the root names the root as parent. */
  lemma {:induction false} RootDataChildren(skills: seq<Skill>)
    ensures ChildIds(RootData(skills), RootId) == SkillIds(NonRoot(skills))
    decreases |skills|
  {
    if skills != [] {
      var n := |skills| - 1;
      RootDataChildren(skills[..n]);
      RootDataSnoc(skills);
      if skills[n].id != RootId {
        assert NonRoot(skills) == NonRoot(skills[..n]) + [skills[n]];
        assert SkillIds(NonRoot(skills)) == SkillIds(NonRoot(skills[..n])) + [skills[n].id];
      } else {
        assert NonRoot(skills) == NonRoot(skills[..n]) + [];
      }
    }
  }

  /** The nodes expanded when the view opens. */
  const InitialExpanded: set<string> := {RootId}

  /** `toggleExpanded`: the copy of the set with `nodeId`'s membership flipped. */
  function ToggleExpanded(expanded: set<string>, nodeId: string): (r: set<string>)
    ensures nodeId in r <==> nodeId !in expanded
    ensures forall x | x != nodeId :: x in r <==> x in expanded
  {
    if nodeId in expanded then expanded - {nodeId} else expanded + {nodeId}
  }

  /** Toggling twice restores the set. */
  lemma ToggleTwice(expanded: set<string>, nodeId: string)
    ensures ToggleExpanded(ToggleExpanded(expanded, nodeId), nodeId) == expanded
  {
    var once := ToggleExpanded(expanded, nodeId);
    assert forall x :: x in ToggleExpanded(once, nodeId) <==> x in expanded;
  }

  /** The related skills of the selected node, shown by name (or id) of the other end of each link. */
  function RelatedNames(links: seq<Link>, skills: seq<Skill>, selectedId: string): (r: seq<string>)
    ensures |r| == |Related(links, selectedId)|
  {
    var related := Related(links, selectedId);
    seq(|related|, i requires 0 <= i < |related| => DisplayName(skills, OtherEnd(related[i], selectedId)))
  }

  /**
   * The panel lists one entry per link touching the selected node, named after the skill at
   * the link's other end, and shows "No related skills" exactly when there is none.
   */
  lemma RelatedNamesSpec(links: seq<Link>, skills: seq<Skill>, selectedId: string)
    ensures forall i | 0 <= i < |RelatedNames(links, skills, selectedId)| ::
              var l := Related(links, selectedId)[i];
              l in links && Touches(l, selectedId) &&
              RelatedNames(links, skills, selectedId)[i] == DisplayName(skills, OtherEnd(l, selectedId))
    ensures forall l | l in links && Touches(l, selectedId) :: l in Related(links, selectedId)
    ensures RelatedNames(links, skills, selectedId) == [] <==> forall i | 0 <= i < |links| :: !Touches(links[i], selectedId)
  {
    RelatedComplete(links, selectedId);
    RelatedEmptyIff(links, selectedId);
    forall i | 0 <= i < |RelatedNames(links, skills, selectedId)|
      ensures Related(links, selectedId)[i] in links && Touches(Related(links, selectedId)[i], selectedId)
    {
      assert Related(links, selectedId)[i] in Related(links, selectedId);
    }
  }
}
