/**
 * The structured-output course agent (`backend/src/backend/letta_agent/enhanced_course_agent.py`):
 * reading a JSON analysis out of an agent reply, building a skill tree of researched branches,
 * and naming the file the tree is saved to.
 *
 * The reply is its list of messages. `json.loads` is the parameter `parse` (`None` on a decode
 * error), `str()` of a non-string tool return is `pyStr`, `str(response)` is `raw`, and the
 * research step (agent creation, a prompt, and extraction) is the parameter `research`.
 */
module EnhancedCourseAgent {
  import opened Wrappers
  import opened Text
  import opened Json
  import opened Seqs

  /** The messages of a reply that extraction looks at. */
  datatype AgentMessage =
    | ToolReturnMessage(toolReturn: Json)
    | AssistantMessage(content: string)
    | OtherMessage(messageType: string)

  const ExtractError: string := "Could not extract structured output"

  /** The dict returned when nothing could be extracted. */
  function ErrorDict(raw: string): (r: Json)
    ensures HasKey(r, "error") && r.fields["error"] == JStr(ExtractError)
    ensures HasKey(r, "raw_response") && r.fields["raw_response"] == JStr(raw)
  {
    JObject(map["error" := JStr(ExtractError), "raw_response" := JStr(raw)])
  }

  /** The text handed to `json.loads`: a string return as is, anything else through `str()`. */
  function ToolText(v: Json, pyStr: Json -> string): string {
    if v.JStr? then v.s else pyStr(v)
  }

  /** A tool return that is truthy and parses. */
  predicate ToolParses(m: AgentMessage, parse: string -> Option<Json>, pyStr: Json -> string) {
    m.ToolReturnMessage? && PyTruthy(m.toolReturn) && parse(ToolText(m.toolReturn, pyStr)).Some?
  }

  /** `content[content.find("{"):content.rfind("}") + 1]` when both braces occur. */
  function JsonSlice(content: string): Option<string> {
    if '{' in content && '}' in content then
      Some(Slice(content, FirstIndexOf(content, '{'), LastIndexOf(content, '}') + 1))
    else None
  }

  /** An assistant message whose braced slice parses. */
  predicate AssistantParses(m: AgentMessage, parse: string -> Option<Json>) {
    m.AssistantMessage? && JsonSlice(m.content).Some? && parse(JsonSlice(m.content).value).Some?
  }

  /** The parse of the first truthy tool return that parses. */
  function ToolResult(msgs: seq<AgentMessage>, parse: string -> Option<Json>, pyStr: Json -> string): Option<Json> {
    match FirstWhere(msgs, m => ToolParses(m, parse, pyStr))
    case Some(i) => parse(ToolText(msgs[i].toolReturn, pyStr))
    case None => None
  }

  /** The parse of the braced slice of the first assistant message where that parses. */
  function TextResult(msgs: seq<AgentMessage>, parse: string -> Option<Json>): Option<Json> {
    match FirstWhere(msgs, m => AssistantParses(m, parse))
    case Some(i) => parse(JsonSlice(msgs[i].content).value)
    case None => None
  }

  /** What `_extract_structured_output` returns. */
  function Extract(msgs: seq<AgentMessage>, parse: string -> Option<Json>, pyStr: Json -> string, raw: string): Json {
    if ToolResult(msgs, parse, pyStr).Some? then ToolResult(msgs, parse, pyStr).value
    else if TextResult(msgs, parse).Some? then TextResult(msgs, parse).value
    else ErrorDict(raw)
  }

  /** `_extract_structured_output`: a scan of the tool returns, then one of the assistant texts. */
  method ExtractStructuredOutput(msgs: seq<AgentMessage>, parse: string -> Option<Json>, pyStr: Json -> string,
                                 raw: string) returns (r: Json)
    ensures r == Extract(msgs, parse, pyStr, raw)
  {
    var tool := ScanToolReturns(msgs, parse, pyStr);
    if tool.Some? {
      return tool.value;
    }
    var text := ScanAssistantMessages(msgs, parse);
    if text.Some? {
      return text.value;
    }
    return ErrorDict(raw);
  }

  /** The first loop of `_extract_structured_output`; `None` is falling through to the second. */
  method ScanToolReturns(msgs: seq<AgentMessage>, parse: string -> Option<Json>, pyStr: Json -> string)
    returns (r: Option<Json>)
    ensures r == ToolResult(msgs, parse, pyStr)
  {
    for i := 0 to |msgs|
      invariant forall j | 0 <= j < i :: !ToolParses(msgs[j], parse, pyStr)
    {
      var m := msgs[i];
      if m.ToolReturnMessage? && PyTruthy(m.toolReturn) {
        var parsed := parse(if m.toolReturn.JStr? then m.toolReturn.s else pyStr(m.toolReturn));
        if parsed.Some? {
          FirstWhereIs(msgs, m => ToolParses(m, parse, pyStr), i);
          return parsed;
        }
      }
    }
    return None;
  }

  /** The second loop of `_extract_structured_output`; `None` is falling through to the error dict. */
  method ScanAssistantMessages(msgs: seq<AgentMessage>, parse: string -> Option<Json>) returns (r: Option<Json>)
    ensures r == TextResult(msgs, parse)
  {
    for i := 0 to |msgs|
      invariant forall j | 0 <= j < i :: !AssistantParses(msgs[j], parse)
    {
      var m := msgs[i];
      if m.AssistantMessage? {
        var content := m.content;
        if '{' in content && '}' in content {
          var start := FirstIndexOf(content, '{');
          var end := LastIndexOf(content, '}') + 1;
          var jsonStr := Slice(content, start, end);
          assert JsonSlice(content) == Some(jsonStr);
          var parsed := parse(jsonStr);
          if parsed.Some? {
            FirstWhereIs(msgs, m => AssistantParses(m, parse), i);
            return parsed;
          }
        } else {
          assert JsonSlice(content).None?;
        }
      }
    }
    return None;
  }

  /**
   * A tool return wins over any assistant text: the first truthy tool return that parses is
   * the result, wherever the assistant messages stand.
   */
  lemma ToolReturnFirst(msgs: seq<AgentMessage>, parse: string -> Option<Json>, pyStr: Json -> string,
                        raw: string, i: nat)
    requires i < |msgs| && ToolParses(msgs[i], parse, pyStr)
    requires forall j | 0 <= j < i :: !ToolParses(msgs[j], parse, pyStr)
    ensures Extract(msgs, parse, pyStr, raw) == parse(ToolText(msgs[i].toolReturn, pyStr)).value
  {
    FirstWhereIs(msgs, m => ToolParses(m, parse, pyStr), i);
  }

  /** With no usable tool return, the first assistant message whose braced slice parses is the result. */
  lemma AssistantFallback(msgs: seq<AgentMessage>, parse: string -> Option<Json>, pyStr: Json -> string,
                          raw: string, i: nat)
    requires forall j | 0 <= j < |msgs| :: !ToolParses(msgs[j], parse, pyStr)
    requires i < |msgs| && AssistantParses(msgs[i], parse)
    requires forall j | 0 <= j < i :: !AssistantParses(msgs[j], parse)
    ensures Extract(msgs, parse, pyStr, raw) == parse(JsonSlice(msgs[i].content).value).value
  {
    FirstWhereIs(msgs, m => AssistantParses(m, parse), i);
  }

  /**
   * The error dict comes back exactly when nothing parses, unless a parse happens to produce
   * that very dict.
   */
  lemma ErrorWhenNothingParses(msgs: seq<AgentMessage>, parse: string -> Option<Json>, pyStr: Json -> string, raw: string)
    ensures (forall j | 0 <= j < |msgs| :: !ToolParses(msgs[j], parse, pyStr) && !AssistantParses(msgs[j], parse))
            ==> Extract(msgs, parse, pyStr, raw) == ErrorDict(raw)
    ensures Extract(msgs, parse, pyStr, raw) == ErrorDict(raw) ==>
              (forall j | 0 <= j < |msgs| :: !ToolParses(msgs[j], parse, pyStr) && !AssistantParses(msgs[j], parse)) ||
              (exists t | t in msgs :: (ToolParses(t, parse, pyStr) && parse(ToolText(t.toolReturn, pyStr)).value == ErrorDict(raw)) ||
                                       (AssistantParses(t, parse) && parse(JsonSlice(t.content).value).value == ErrorDict(raw)))
  {
    var tool := FirstWhere(msgs, m => ToolParses(m, parse, pyStr));
    var text := FirstWhere(msgs, m => AssistantParses(m, parse));
    if tool.Some? {
      assert msgs[tool.value] in msgs;
    } else if text.Some? {
      assert msgs[text.value] in msgs;
    }
  }

  /**
   * The slice runs from the first '{' to the last '}' inclusive, so it starts with '{' and
   * ends with '}'; when the last '}' comes before the first '{' it is empty.
   */
  lemma JsonSliceShape(content: string)
    ensures JsonSlice(content).Some? <==> '{' in content && '}' in content
    ensures JsonSlice(content).Some? && JsonSlice(content).value != [] ==>
              var t := JsonSlice(content).value;
              t[0] == '{' && t[|t| - 1] == '}' &&
              OccursAt(content, t, FirstIndexOf(content, '{')) &&
              '{' !in content[..FirstIndexOf(content, '{')] &&
              '}' !in content[FirstIndexOf(content, '{') + |t|..]
    ensures JsonSlice(content).Some? && JsonSlice(content).value == [] ==>
              LastIndexOf(content, '}') < FirstIndexOf(content, '{')
  {
    if '{' in content && '}' in content {
      var start := FirstIndexOf(content, '{');
      var last := LastIndexOf(content, '}');
      if start <= last {
        var t := content[start..last + 1];
        assert t[|t| - 1] == content[last];
      }
    }
  }

  /** The decoded analysis of a topic; `subtopics` missing, `None` or empty is the empty list. */
  datatype Analysis = Analysis(value: Json, subtopics: seq<string>)

  /** A branch of the tree: a stub (no analysis, no children) or a researched topic with its children. */
  datatype Branch = Stub(topic: string) | Researched(topic: string, analysis: Analysis, children: seq<Branch>)

  /** The first three subtopics, `subtopics[:3]`. */
  function FirstThree(subtopics: seq<string>): (r: seq<string>)
    ensures |r| == if |subtopics| < 3 then |subtopics| else 3
    ensures r == subtopics[..|r|]
  {
    if |subtopics| < 3 then subtopics else subtopics[..3]
  }

  /** The number of depths still researched: `depth` up to `maxDepth` inclusive. */
  function Levels(maxDepth: int, depth: int): nat {
    if depth <= maxDepth then maxDepth - depth + 1 else 0
  }

  /** What `build_branch(topic, depth, visited)` returns under `max_depth`. */
  function BuildBranch(research: string -> Analysis, topic: string, maxDepth: int, depth: int, visited: set<string>): Branch
    decreases Levels(maxDepth, depth), 1, 0
  {
    if depth > maxDepth || topic in visited then Stub(topic)
    else
      var analysis := research(topic);
      Researched(topic, analysis, BranchChildren(research, FirstThree(analysis.subtopics), maxDepth, depth, visited + {topic}))
  }

  /** The branches built one level down for `subtopics`, in order. */
  function BranchChildren(research: string -> Analysis, subtopics: seq<string>, maxDepth: int, depth: int,
                          visited: set<string>): seq<Branch>
    requires depth <= maxDepth
    decreases Levels(maxDepth, depth), 0, |subtopics|
  {
    if subtopics == [] then []
    else
      var n := |subtopics| - 1;
      BranchChildren(research, subtopics[..n], maxDepth, depth, visited) +
        [BuildBranch(research, subtopics[n], maxDepth, depth + 1, visited)]
  }

  /** `build_branch`, recursing over its `for` loop with a copy of `visited` for every child. */
  method BuildBranchRecursively(research: string -> Analysis, topic: string, maxDepth: int, depth: int,
                                visited: set<string>) returns (b: Branch)
    ensures b == BuildBranch(research, topic, maxDepth, depth, visited)
    decreases Levels(maxDepth, depth)
  {
    if depth > maxDepth || topic in visited {
      return Stub(topic);
    }
    var seen := visited + {topic};
    var analysis := research(topic);
    var subtopics := FirstThree(analysis.subtopics);
    var children: seq<Branch> := [];
    for i := 0 to |subtopics|
      invariant children == BranchChildren(research, subtopics[..i], maxDepth, depth, seen)
    {
      assert subtopics[..i + 1][..i] == subtopics[..i];
      var child := BuildBranchRecursively(research, subtopics[i], maxDepth, depth + 1, seen);
      children := children + [child];
    }
    assert subtopics[..|subtopics|] == subtopics;
    return Researched(topic, analysis, children);
  }

  /** `build_skill_tree_structured(root_topic, max_depth)`. */
  function BuildSkillTreeStructured(research: string -> Analysis, rootTopic: string, maxDepth: int): Branch {
    BuildBranch(research, rootTopic, maxDepth, 0, {})
  }

  /** The topics of a list of branches (as `CourseAgent.Topics`, over this builder's branch type). */
  function BranchTopics(bs: seq<Branch>): (r: seq<string>)
    ensures |r| == |bs|
    ensures forall i | 0 <= i < |bs| :: r[i] == bs[i].topic
  {
    seq(|bs|, i requires 0 <= i < |bs| => bs[i].topic)
  }

  /**
   * A branch is researched exactly when its depth is at most `maxDepth` and its topic is new;
   * then its children are one per subtopic among the first three, in order.
   */
  lemma BranchShape(research: string -> Analysis, topic: string, maxDepth: int, depth: int, visited: set<string>)
    ensures BuildBranch(research, topic, maxDepth, depth, visited).Researched? <==> depth <= maxDepth && topic !in visited
    ensures BuildBranch(research, topic, maxDepth, depth, visited).topic == topic
    ensures BuildBranch(research, topic, maxDepth, depth, visited).Researched? ==>
              BuildBranch(research, topic, maxDepth, depth, visited).analysis == research(topic) &&
              BranchTopics(BuildBranch(research, topic, maxDepth, depth, visited).children) ==
                FirstThree(research(topic).subtopics)
  {
    if depth <= maxDepth && topic !in visited {
      ChildrenTopics(research, FirstThree(research(topic).subtopics), maxDepth, depth, visited + {topic});
    }
  }

  lemma {:induction false} ChildrenTopics(research: string -> Analysis, subtopics: seq<string>, maxDepth: int,
                                          depth: int, visited: set<string>)
    requires depth <= maxDepth
    ensures BranchTopics(BranchChildren(research, subtopics, maxDepth, depth, visited)) == subtopics
    decreases |subtopics|
  {
    if subtopics != [] {
      var n := |subtopics| - 1;
      ChildrenTopics(research, subtopics[..n], maxDepth, depth, visited);
      var init := BranchChildren(research, subtopics[..n], maxDepth, depth, visited);
      var last := BuildBranch(research, subtopics[n], maxDepth, depth + 1, visited);
      assert BranchTopics(init + [last]) == BranchTopics(init) + [last.topic];
      assert subtopics[..n] + [subtopics[n]] == subtopics;
    }
  }

  /** Researched levels of a branch: a stub has none. */
  function Height(b: Branch): nat {
    match b
    case Stub(_) => 0
    case Researched(_, _, children) => 1 + MaxHeight(children)
  }

  function MaxHeight(bs: seq<Branch>): nat
    decreases bs
  {
    if bs == [] then 0
    else
      var h := Height(bs[|bs| - 1]);
      var rest := MaxHeight(bs[..|bs| - 1]);
      if h > rest then h else rest
  }

  /** Researched depths are `depth` to `maxDepth`: a branch has at most that many researched levels. */
  lemma {:induction false} BranchHeight(research: string -> Analysis, topic: string, maxDepth: int, depth: int,
                                        visited: set<string>)
    ensures Height(BuildBranch(research, topic, maxDepth, depth, visited)) <= Levels(maxDepth, depth)
    decreases Levels(maxDepth, depth), 1, 0
  {
    if !(depth > maxDepth || topic in visited) {
      ChildrenHeight(research, FirstThree(research(topic).subtopics), maxDepth, depth, visited + {topic});
    }
  }

  lemma {:induction false} ChildrenHeight(research: string -> Analysis, subtopics: seq<string>, maxDepth: int,
                                          depth: int, visited: set<string>)
    requires depth <= maxDepth
    ensures MaxHeight(BranchChildren(research, subtopics, maxDepth, depth, visited)) <= Levels(maxDepth, depth) - 1
    decreases Levels(maxDepth, depth), 0, |subtopics|
  {
    if subtopics != [] {
      var n := |subtopics| - 1;
      ChildrenHeight(research, subtopics[..n], maxDepth, depth, visited);
      BranchHeight(research, subtopics[n], maxDepth, depth + 1, visited);
      var init := BranchChildren(research, subtopics[..n], maxDepth, depth, visited);
      var all := init + [BuildBranch(research, subtopics[n], maxDepth, depth + 1, visited)];
      assert all[..|all| - 1] == init;
    }
  }

  /** Along every path down from a branch no researched topic repeats, and none is in `seen`. */
  predicate PathsFresh(b: Branch, seen: set<string>) {
    match b
    case Stub(_) => true
    case Researched(topic, _, children) => topic !in seen && forall c | c in children :: PathsFresh(c, seen + {topic})
  }

  /** `visited` is copied per child, so no topic is researched twice along a path. */
  lemma {:induction false} BranchPathsFresh(research: string -> Analysis, topic: string, maxDepth: int, depth: int,
                                            visited: set<string>)
    ensures PathsFresh(BuildBranch(research, topic, maxDepth, depth, visited), visited)
    decreases Levels(maxDepth, depth), 1, 0
  {
    if !(depth > maxDepth || topic in visited) {
      ChildrenPathsFresh(research, FirstThree(research(topic).subtopics), maxDepth, depth, visited + {topic});
    }
  }

  lemma {:induction false} ChildrenPathsFresh(research: string -> Analysis, subtopics: seq<string>, maxDepth: int,
                                              depth: int, visited: set<string>)
    requires depth <= maxDepth
    ensures forall c | c in BranchChildren(research, subtopics, maxDepth, depth, visited) :: PathsFresh(c, visited)
    decreases Levels(maxDepth, depth), 0, |subtopics|
  {
    if subtopics != [] {
      var n := |subtopics| - 1;
      ChildrenPathsFresh(research, subtopics[..n], maxDepth, depth, visited);
      BranchPathsFresh(research, subtopics[n], maxDepth, depth + 1, visited);
    }
  }

  const TreeFilePrefix: string := "structured_skill_tree_"
  const JsonSuffix: string := ".json"

  /**
   * The file `save_skill_tree` writes: the given name when it is non-empty, otherwise one
   * derived from the tree's `topic` entry, "unknown" when there is none.
   */
  function SkillTreeFilename(topic: Option<string>, filename: Option<string>): string {
    if filename.Some? && filename.value != "" then filename.value
    else TreeFilePrefix + Slug(if topic.Some? then topic.value else "unknown") + JsonSuffix
  }

  /**
   * A derived name is the prefix, the topic's slug and ".json"; it has no space. Topics that
   * differ only in spaces against underscores or in letter case get the same file.
   */
  lemma SkillTreeFilenameShape(topic: string, filename: Option<string>)
    ensures filename.Some? && filename.value != "" ==> SkillTreeFilename(Some(topic), filename) == filename.value
    ensures filename.None? || filename.value == "" ==>
              var name := SkillTreeFilename(Some(topic), filename);
              StartsWith(name, TreeFilePrefix) && name[|name| - |JsonSuffix|..] == JsonSuffix &&
              |name| == |TreeFilePrefix| + |topic| + |JsonSuffix| &&
              ' ' !in name[|TreeFilePrefix|..|TreeFilePrefix| + |topic|]
    ensures SkillTreeFilename(None, None) == "structured_skill_tree_unknown.json"
  {
    SlugShape(topic);
    SlugShape("unknown");
    var name := TreeFilePrefix + Slug(topic) + JsonSuffix;
    assert name[|TreeFilePrefix|..|TreeFilePrefix| + |topic|] == Slug(topic);
    assert Slug("unknown") == "unknown";
  }

  /**
   * A topic and its own slug are saved to the same file, so "Data Science" and
   * "data_science" overwrite each other.
   */
  lemma FilenamesCollide(topic: string)
    ensures SkillTreeFilename(Some(topic), None) == SkillTreeFilename(Some(Slug(topic)), None)
  {
    SlugShape(topic);
    SlugShape(Slug(topic));
    assert Slug(Slug(topic)) == Slug(topic);
  }

  /** The saved tree is named after its root topic. */
  lemma BuiltTreeFilename(research: string -> Analysis, rootTopic: string, maxDepth: int)
    ensures SkillTreeFilename(Some(BuildSkillTreeStructured(research, rootTopic, maxDepth).topic), None) ==
            TreeFilePrefix + Slug(rootTopic) + JsonSuffix
  {
    BranchShape(research, rootTopic, maxDepth, 0, {});
  }
}
