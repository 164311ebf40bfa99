/**
 * The course agent's node tool and recursive tree builder
 * (`backend/src/backend/letta_agent/course_agent.py`).
 *
 * The tool normalises what the node agent produced: resources become plain records and every
 * quiz field is stripped of surrounding whitespace and then of a leading run of '+' and ' '.
 * The builder asks the node agent about a topic and recurses into its related harder
 * topics, giving each child its own copy of the topics seen so far on its path.
 *
 * The node agent is the parameter `agent`, from a topic to the node data its JSON reply
 * decodes to, or `None` when the call fails: `call_node_agent` finds no tool return (and
 * `json.loads(None)` raises) or the reply is not JSON. The fresh UUID of the tool's output is
 * the parameter `uuid`.
 */
module CourseAgent {
  import opened Wrappers
  import opened Text
  import opened Json
  import opened Seqs

  /** The characters `lstrip("+ ")` removes. */
  const PlusSpace: set<char> := {'+', ' '}

  /** `s.strip().lstrip("+ ")`. */
  function Clean(s: string): string {
    TrimLeft(PyStrip(s), PlusSpace)
  }

  /**
   * A cleaned field is empty or starts with neither '+' nor ' ' and ends with no whitespace;
   * it is a piece of the original string.
   */
  lemma CleanShape(s: string)
    ensures Clean(s) != [] ==> Clean(s)[0] != '+' && Clean(s)[0] != ' '
    ensures Clean(s) != [] ==> Clean(s)[|Clean(s)| - 1] !in PyWhitespace
    ensures HasSubstring(s, Clean(s))
  {
    StripThenTrimEnds(s, PyWhitespace, PlusSpace);
    StripThenTrimOccurs(s, PyWhitespace, PlusSpace);
  }

  /** Stripping `ws` from both ends and then `ps` from the left leaves ends outside `ps` and `ws`. */
  lemma StripThenTrimEnds(s: string, ws: set<char>, ps: set<char>)
    ensures var c := TrimLeft(TrimRight(TrimLeft(s, ws), ws), ps);
            c == [] || (c[0] !in ps && c[|c| - 1] !in ws)
  {
    TrimEndsOutside(TrimRight(TrimLeft(s, ws), ws), ws, ps);
  }

  /** What is left after stripping both ends and trimming the left occurs in the original. */
  lemma StripThenTrimOccurs(s: string, ws: set<char>, ps: set<char>)
    ensures HasSubstring(s, TrimLeft(TrimRight(TrimLeft(s, ws), ws), ps))
  {
    var left := TrimLeft(s, ws);
    var stripped := TrimRight(left, ws);
    SuffixOfPrefixOfSuffix(s, left, stripped, TrimLeft(stripped, ps));
  }

  /** Trimming `ps` from the left of a string that ends outside `ws` keeps that last character. */
  lemma TrimEndsOutside(stripped: string, ws: set<char>, ps: set<char>)
    requires stripped == [] || stripped[|stripped| - 1] !in ws
    ensures var c := TrimLeft(stripped, ps); c == [] || c[|c| - 1] !in ws
  {
    var c := TrimLeft(stripped, ps);
    if c != [] {
      assert c[|c| - 1] == stripped[|stripped| - 1];
    }
  }

  /** A suffix of a prefix of a suffix of `s` occurs in `s`. */
  lemma SuffixOfPrefixOfSuffix(s: string, left: string, stripped: string, c: string)
    requires |left| <= |s| && left == s[|s| - |left|..]
    requires |stripped| <= |left| && stripped == left[..|stripped|]
    requires |c| <= |stripped| && c == stripped[|stripped| - |c|..]
    ensures HasSubstring(s, c)
  {
    var a := |s| - |left|;
    var b := |stripped| - |c|;
    assert s[a + b..a + b + |c|] == c by {
      forall k | 0 <= k < |c| ensures s[a + b + k] == c[k] {
        assert c[k] == left[b + k];
        assert left[b + k] == s[a + (b + k)];
      }
    }
    assert OccursAt(s, c, a + b);
  }

  /**
   * Cleaning is not idempotent: a '+' before a tab leaves the tab in front, which a second
   * clean removes.
   */
  lemma CleanKeepsTabAfterPlus(x: char)
    requires x !in PyWhitespace && x !in PlusSpace
    ensures Clean(['+', '\t', x]) == ['\t', x]
    ensures Clean(Clean(['+', '\t', x])) == [x]
  {
    CleanPlusTab(x);
    CleanTab(x);
  }

  lemma CleanPlusTab(x: char)
    requires x !in PyWhitespace
    ensures Clean(['+', '\t', x]) == ['\t', x]
  {
    StripPlusTab(x);
    TrimPlusTab(x);
  }

  lemma CleanTab(x: char)
    requires x !in PyWhitespace && x !in PlusSpace
    ensures Clean(['\t', x]) == [x]
  {
    StripTab(x);
    assert TrimLeft([x], PlusSpace) == [x];
  }

  lemma StripPlusTab(x: char)
    requires x !in PyWhitespace
    ensures PyStrip(['+', '\t', x]) == ['+', '\t', x]
  {
    assert '+' !in PyWhitespace;
    assert TrimLeft(['+', '\t', x], PyWhitespace) == ['+', '\t', x];
  }

  lemma TrimPlusTab(x: char)
    ensures TrimLeft(['+', '\t', x], PlusSpace) == ['\t', x]
  {
    var s := ['+', '\t', x];
    assert s[1..] == ['\t', x];
    assert s[1] !in PlusSpace;
  }

  lemma StripTab(x: char)
    requires x !in PyWhitespace
    ensures PyStrip(['\t', x]) == [x]
  {
    var t := ['\t', x];
    assert t[0] in PyWhitespace && t[1..] == [x];
    assert TrimLeft(t, PyWhitespace) == [x];
  }

  /** A resource as the agent handed it over: a dict, or a `LearningResource` object. */
  datatype ResourceIn = ResourceDict(fields: map<string, Json>) | ResourceObject(title: string, url: string, kind: string)

  /** The dict a resource becomes: a dict unchanged, an object reduced to its three fields. */
  function ResourceOut(r: ResourceIn): (d: map<string, Json>)
    ensures r.ResourceDict? ==> d == r.fields
    ensures r.ResourceObject? ==> d.Keys == {"title", "url", "type"} && d["title"] == JStr(r.title) &&
                                  d["url"] == JStr(r.url) && d["type"] == JStr(r.kind)
  {
    match r
    case ResourceDict(fields) => fields
    case ResourceObject(title, url, kind) => map["title" := JStr(title), "url" := JStr(url), "type" := JStr(kind)]
  }

  /** The seven fields of a quiz question. */
  datatype QuizQuestion = QuizQuestion(question: string, optionA: string, optionB: string, optionC: string,
                                       optionD: string, correctAnswer: string, explanation: string)

  /** A question as the agent handed it over: a dict of strings, or a `QuizQuestion` object. */
  datatype QuestionIn = QuestionDict(fields: map<string, string>) | QuestionObject(q: QuizQuestion)

  /** `question.get(key, "")`. */
  function FieldOr(fields: map<string, string>, key: string): string {
    if key in fields then fields[key] else ""
  }

  function CleanAll(q: QuizQuestion): QuizQuestion {
    QuizQuestion(Clean(q.question), Clean(q.optionA), Clean(q.optionB), Clean(q.optionC),
                 Clean(q.optionD), Clean(q.correctAnswer), Clean(q.explanation))
  }

  /** The fields of a question, a dict's missing keys read as "". */
  function FieldsOf(q: QuestionIn): QuizQuestion {
    match q
    case QuestionObject(o) => o
    case QuestionDict(f) =>
      QuizQuestion(FieldOr(f, "question"), FieldOr(f, "option_a"), FieldOr(f, "option_b"), FieldOr(f, "option_c"),
                   FieldOr(f, "option_d"), FieldOr(f, "correct_answer"), FieldOr(f, "explanation"))
  }

  /** The cleaned question the tool emits. */
  function QuestionOut(q: QuestionIn): QuizQuestion {
    CleanAll(FieldsOf(q))
  }

  /** Every field of an emitted question is clean; keys a dict lacks come out as "". */
  lemma QuestionOutClean(q: QuestionIn)
    ensures IsClean(QuestionOut(q).question) && IsClean(QuestionOut(q).optionA) && IsClean(QuestionOut(q).optionB)
    ensures IsClean(QuestionOut(q).optionC) && IsClean(QuestionOut(q).optionD)
    ensures IsClean(QuestionOut(q).correctAnswer) && IsClean(QuestionOut(q).explanation)
    ensures q.QuestionDict? && "correct_answer" !in q.fields ==> QuestionOut(q).correctAnswer == ""
  {
    var f := FieldsOf(q);
    CleanShape(f.question);
    CleanShape(f.optionA);
    CleanShape(f.optionB);
    CleanShape(f.optionC);
    CleanShape(f.optionD);
    CleanShape(f.correctAnswer);
    CleanShape(f.explanation);
    assert PyStrip("") == "";
  }

  predicate IsClean(s: string) {
    s != [] ==> s[0] != '+' && s[0] != ' ' && s[|s| - 1] !in PyWhitespace
  }

  /** What the tool's JSON output holds. */
  datatype NodeOutput = NodeOutput(topic: string, resources: seq<map<string, Json>>, quizQuestions: seq<QuizQuestion>,
                                   relatedHarderTopics: Option<seq<string>>, uuid: string)

  /** `NodeAgentOutputTool.run` up to `json.dumps`: convert the resources, then clean the questions. */
  method RunTool(topic: string, resources: seq<ResourceIn>, quizQuestions: seq<QuestionIn>,
                 relatedHarderTopics: Option<seq<string>>, uuid: string) returns (out: NodeOutput)
    ensures out.topic == topic && out.relatedHarderTopics == relatedHarderTopics && out.uuid == uuid
    ensures |out.resources| == |resources|
    ensures forall i | 0 <= i < |resources| :: out.resources[i] == ResourceOut(resources[i])
    ensures |out.quizQuestions| == |quizQuestions|
    ensures forall i | 0 <= i < |quizQuestions| :: out.quizQuestions[i] == QuestionOut(quizQuestions[i])
  {
    var resourcesDict: seq<map<string, Json>> := [];
    for i := 0 to |resources|
      invariant resourcesDict == MapSeq(ResourceOut, resources[..i])
    {
      MapSeqSnoc(ResourceOut, resources, i);
      resourcesDict := resourcesDict + [ResourceOut(resources[i])];
    }
    assert resources[..|resources|] == resources;
    var quizDict: seq<QuizQuestion> := [];
    for i := 0 to |quizQuestions|
      invariant quizDict == MapSeq(QuestionOut, quizQuestions[..i])
    {
      MapSeqSnoc(QuestionOut, quizQuestions, i);
      quizDict := quizDict + [QuestionOut(quizQuestions[i])];
    }
    assert quizQuestions[..|quizQuestions|] == quizQuestions;
    out := NodeOutput(topic, resourcesDict, quizDict, relatedHarderTopics, uuid);
  }

  /** The node data the agent returns for a topic; a missing or `null` list of related topics is `None`. */
  datatype NodeData = NodeData(fields: map<string, Json>, relatedHarderTopics: Option<seq<string>>)

  /**
   * A node of the generated tree: a stub with empty lists, or the agent's data with the built
   * children. `topic` is the topic asked about, not the `"topic"` key of the agent's dict.
   */
  datatype SkillNode = Stub(topic: string) | Node(topic: string, data: NodeData, children: seq<SkillNode>)

  /** `related_topics` when truthy, otherwise no related topics. */
  function RelatedOf(data: NodeData): seq<string> {
    if data.relatedHarderTopics.Some? then data.relatedHarderTopics.value else []
  }

  function Levels(maxDepth: int, depth: int): nat {
    if depth < maxDepth then maxDepth - depth else 0
  }

  /**
   * What `generate_skill_tree_recursively(topic, maxDepth, depth, processed)` returns; `None`
   * when a call to the node agent fails, which ends the whole build.
   */
  function Tree(agent: string -> Option<NodeData>, topic: string, maxDepth: int, depth: int,
                processed: set<string>): Option<SkillNode>
    decreases Levels(maxDepth, depth), 1, 0
  {
    if depth >= maxDepth || topic in processed then Some(Stub(topic))
    else
      match agent(topic)
      case None => None
      case Some(data) =>
        var children := Children(agent, RelatedOf(data), maxDepth, depth, processed + {topic});
        if children.Some? then Some(Node(topic, data, children.value)) else None
  }

  /** The children built for the related topics `related`, in order; `None` once one of them fails. */
  function Children(agent: string -> Option<NodeData>, related: seq<string>, maxDepth: int, depth: int,
                    seen: set<string>): Option<seq<SkillNode>>
    requires depth < maxDepth
    decreases Levels(maxDepth, depth), 0, |related|
  {
    if related == [] then Some([])
    else
      var n := |related| - 1;
      var init := Children(agent, related[..n], maxDepth, depth, seen);
      if init.None? then None
      else if related[n] !in seen && depth < maxDepth - 1 then
        var child := Tree(agent, related[n], maxDepth, depth + 1, seen);
        if child.Some? then Some(init.value + [child.value]) else None
      else init
  }

  /**
   * `generate_skill_tree_recursively`, with its `for` loop over the related topics; a failed
   * call to the node agent, here or in any branch below, aborts the build.
   */
  method GenerateSkillTreeRecursively(agent: string -> Option<NodeData>, topic: string, maxDepth: int, depth: int,
                                      processed: set<string>) returns (tree: Option<SkillNode>)
    ensures tree == Tree(agent, topic, maxDepth, depth, processed)
    decreases Levels(maxDepth, depth)
  {
    if depth >= maxDepth || topic in processed {
      return Some(Stub(topic));
    }
    var seen := processed + {topic};
    var response := agent(topic);
    if response.None? {
      return None;
    }
    var data := response.value;
    var related := RelatedOf(data);
    var children: seq<SkillNode> := [];
    for i := 0 to |related|
      invariant Children(agent, related[..i], maxDepth, depth, seen) == Some(children)
    {
      ChildrenStep(agent, related, i, maxDepth, depth, seen);
      if related[i] !in seen && depth < maxDepth - 1 {
        var child := GenerateSkillTreeRecursively(agent, related[i], maxDepth, depth + 1, seen);
        if child.None? {
          ChildrenPrefixFails(agent, related, i + 1, maxDepth, depth, seen);
          return None;
        }
        children := children + [child.value];
      }
    }
    assert related[..|related|] == related;
    return Some(Node(topic, data, children));
  }

  /** The children of one more related topic. */
  lemma ChildrenStep(agent: string -> Option<NodeData>, related: seq<string>, i: nat, maxDepth: int, depth: int,
                     seen: set<string>)
    requires depth < maxDepth && i < |related|
    ensures var init := Children(agent, related[..i], maxDepth, depth, seen);
            Children(agent, related[..i + 1], maxDepth, depth, seen) ==
              if init.None? then None
              else if related[i] !in seen && depth < maxDepth - 1 then
                var child := Tree(agent, related[i], maxDepth, depth + 1, seen);
                if child.Some? then Some(init.value + [child.value]) else None
              else init
  {
    assert related[..i + 1][..i] == related[..i];
    assert related[..i + 1][i] == related[i];
  }

  /** Once the children of a prefix of the related topics fail, so do those of the whole list. */
  lemma {:induction false} ChildrenPrefixFails(agent: string -> Option<NodeData>, related: seq<string>, k: nat,
                                               maxDepth: int, depth: int, seen: set<string>)
    requires depth < maxDepth && k <= |related|
    requires Children(agent, related[..k], maxDepth, depth, seen).None?
    ensures Children(agent, related, maxDepth, depth, seen).None?
    decreases |related|
  {
    if k < |related| {
      var n := |related| - 1;
      assert related[..n][..k] == related[..k];
      ChildrenPrefixFails(agent, related[..n], k, maxDepth, depth, seen);
    } else {
      assert related[..k] == related;
    }
  }

  /**
   * A failed branch aborts the build: when an unseen related topic below the last level
   * fails, no children are built at all.
   */
  lemma BranchFailureAborts(agent: string -> Option<NodeData>, related: seq<string>, i: nat, maxDepth: int,
                            depth: int, seen: set<string>)
    requires depth < maxDepth - 1 && i < |related| && related[i] !in seen
    requires Tree(agent, related[i], maxDepth, depth + 1, seen).None?
    ensures Children(agent, related, maxDepth, depth, seen).None?
  {
    ChildrenStep(agent, related, i, maxDepth, depth, seen);
    ChildrenPrefixFails(agent, related, i + 1, maxDepth, depth, seen);
  }

  /** An agent whose every call succeeds always gives a tree. */
  lemma {:induction false} TotalAgentBuilds(agent: string -> Option<NodeData>, topic: string, maxDepth: int,
                                            depth: int, processed: set<string>)
    requires forall t :: agent(t).Some?
    ensures Tree(agent, topic, maxDepth, depth, processed).Some?
    decreases Levels(maxDepth, depth), 1, 0
  {
    if !(depth >= maxDepth || topic in processed) {
      TotalAgentChildren(agent, RelatedOf(agent(topic).value), maxDepth, depth, processed + {topic});
    }
  }

  lemma {:induction false} TotalAgentChildren(agent: string -> Option<NodeData>, related: seq<string>, maxDepth: int,
                                              depth: int, seen: set<string>)
    requires forall t :: agent(t).Some?
    requires depth < maxDepth
    ensures Children(agent, related, maxDepth, depth, seen).Some?
    decreases Levels(maxDepth, depth), 0, |related|
  {
    if related != [] {
      var n := |related| - 1;
      TotalAgentChildren(agent, related[..n], maxDepth, depth, seen);
      if related[n] !in seen && depth < maxDepth - 1 {
        TotalAgentBuilds(agent, related[n], maxDepth, depth + 1, seen);
      }
    }
  }

  /** The topics of a list of nodes. */
  function Topics(nodes: seq<SkillNode>): (r: seq<string>)
    ensures |r| == |nodes|
    ensures forall i | 0 <= i < |nodes| :: r[i] == nodes[i].topic
  {
    seq(|nodes|, i requires 0 <= i < |nodes| => nodes[i].topic)
  }

  /** The related topics that become children: those not yet seen, in order. */
  function Unseen(related: seq<string>, seen: set<string>): seq<string> {
    if related == [] then []
    else
      var n := |related| - 1;
      Unseen(related[..n], seen) + (if related[n] !in seen then [related[n]] else [])
  }

  /**
   * Children that are built follow the related topics: below the last level they are the
   * unseen ones in order, each a researched node; on the last level there are none.
   */
  lemma {:induction false} ChildrenFollowRelated(agent: string -> Option<NodeData>, related: seq<string>,
                                                 maxDepth: int, depth: int, seen: set<string>)
    requires depth < maxDepth
    ensures var children := Children(agent, related, maxDepth, depth, seen);
            children.Some? ==>
              && (depth < maxDepth - 1 ==> Topics(children.value) == Unseen(related, seen))
              && (depth >= maxDepth - 1 ==> children.value == [])
              && (forall c | c in children.value :: c.Node?)
    decreases |related|
  {
    if related != [] {
      var n := |related| - 1;
      ChildrenFollowRelated(agent, related[..n], maxDepth, depth, seen);
      var init := Children(agent, related[..n], maxDepth, depth, seen);
      if init.Some? && related[n] !in seen && depth < maxDepth - 1 {
        var child := Tree(agent, related[n], maxDepth, depth + 1, seen);
        if child.Some? {
          assert child.value.Node?;
          assert Topics(init.value + [child.value]) == Topics(init.value) + [child.value.topic];
        }
      }
    }
  }

  /** A stub is returned without asking the agent: it is the same whatever the agent would answer. */
  lemma StubWithoutAgent(agent: string -> Option<NodeData>, other: string -> Option<NodeData>, topic: string,
                         maxDepth: int, depth: int, processed: set<string>)
    requires depth >= maxDepth || topic in processed
    ensures Tree(agent, topic, maxDepth, depth, processed) == Some(Stub(topic))
    ensures Tree(agent, topic, maxDepth, depth, processed) == Tree(other, topic, maxDepth, depth, processed)
  {
  }

  /** The number of researched levels of a tree: a stub has none. */
  function Height(t: SkillNode): nat {
    match t
    case Stub(_) => 0
    case Node(_, _, children) => 1 + MaxHeight(children)
  }

  function MaxHeight(nodes: seq<SkillNode>): nat
    decreases nodes
  {
    if nodes == [] then 0
    else
      var h := Height(nodes[|nodes| - 1]);
      var rest := MaxHeight(nodes[..|nodes| - 1]);
      if h > rest then h else rest
  }

  /** A tree built from depth `depth` has at most `maxDepth - depth` researched levels. */
  lemma {:induction false} TreeHeight(agent: string -> Option<NodeData>, topic: string, maxDepth: int, depth: int,
                                      processed: set<string>)
    ensures var tree := Tree(agent, topic, maxDepth, depth, processed);
            tree.Some? ==> Height(tree.value) <= Levels(maxDepth, depth)
    decreases Levels(maxDepth, depth), 1, 0
  {
    if !(depth >= maxDepth || topic in processed) && agent(topic).Some? {
      ChildrenHeight(agent, RelatedOf(agent(topic).value), maxDepth, depth, processed + {topic});
    }
  }

  lemma {:induction false} ChildrenHeight(agent: string -> Option<NodeData>, related: seq<string>, maxDepth: int,
                                          depth: int, seen: set<string>)
    requires depth < maxDepth
    ensures var children := Children(agent, related, maxDepth, depth, seen);
            children.Some? ==> MaxHeight(children.value) <= Levels(maxDepth, depth) - 1
    decreases Levels(maxDepth, depth), 0, |related|
  {
    if related != [] {
      var n := |related| - 1;
      ChildrenHeight(agent, related[..n], maxDepth, depth, seen);
      var init := Children(agent, related[..n], maxDepth, depth, seen);
      if init.Some? && related[n] !in seen && depth < maxDepth - 1 {
        TreeHeight(agent, related[n], maxDepth, depth + 1, seen);
        var child := Tree(agent, related[n], maxDepth, depth + 1, seen);
        if child.Some? {
          var all := init.value + [child.value];
          assert all[..|all| - 1] == init.value;
          assert all[|all| - 1] == child.value;
        }
      }
    }
  }

  /** Along every path from a node down, no topic repeats and none is in `seen`. */
  predicate PathsFresh(t: SkillNode, seen: set<string>) {
    match t
    case Stub(_) => true
    case Node(topic, _, children) => topic !in seen && forall c | c in children :: PathsFresh(c, seen + {topic})
  }

  /** No topic repeats along a root-to-leaf path, and no researched node has a topic already processed. */
  lemma {:induction false} TreePathsFresh(agent: string -> Option<NodeData>, topic: string, maxDepth: int,
                                          depth: int, processed: set<string>)
    ensures var tree := Tree(agent, topic, maxDepth, depth, processed);
            tree.Some? ==> PathsFresh(tree.value, processed)
    decreases Levels(maxDepth, depth), 1, 0
  {
    if !(depth >= maxDepth || topic in processed) && agent(topic).Some? {
      ChildrenPathsFresh(agent, RelatedOf(agent(topic).value), maxDepth, depth, processed + {topic});
    }
  }

  lemma {:induction false} ChildrenPathsFresh(agent: string -> Option<NodeData>, related: seq<string>,
                                              maxDepth: int, depth: int, seen: set<string>)
    requires depth < maxDepth
    ensures var children := Children(agent, related, maxDepth, depth, seen);
            children.Some? ==> forall c | c in children.value :: PathsFresh(c, seen)
    decreases Levels(maxDepth, depth), 0, |related|
  {
    if related != [] {
      var n := |related| - 1;
      ChildrenPathsFresh(agent, related[..n], maxDepth, depth, seen);
      if related[n] !in seen && depth < maxDepth - 1 {
        TreePathsFresh(agent, related[n], maxDepth, depth + 1, seen);
      }
    }
  }

  /**
   * Siblings may repeat a topic: each child gets its own copy of the processed set, so a
   * topic listed twice becomes two children.
   */
  lemma SiblingsMayRepeat()
    ensures var agent := (t: string) => Some(NodeData(map[], Some(["b", "b"])));
            var tree := Tree(agent, "a", 3, 0, {});
            tree.Some? && Topics(tree.value.children) == ["b", "b"]
  {
    var agent := (t: string) => Some(NodeData(map[], Some(["b", "b"])));
    TotalAgentBuilds(agent, "a", 3, 0, {});
    TotalAgentChildren(agent, ["b", "b"], 3, 0, {"a"});
    ChildrenFollowRelated(agent, ["b", "b"], 3, 0, {"a"});
    assert ["b", "b"][..1] == ["b"];
    assert ["b"][..0] == [];
    assert Unseen(["b", "b"], {"a"}) == ["b", "b"];
  }
}
