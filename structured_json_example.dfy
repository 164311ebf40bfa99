/**
 * The structured-output example script (`backend/examples/structured_json_example.py`):
 * validating an analysis, the priority of tool returns during extraction, and the files
 * `save_results` writes.
 *
 * Its `_extract_structured_output` is the same code as the enhanced course agent's and is
 * modelled once, as `EnhancedCourseAgent.Extract`. An analysis is a decoded JSON dict.
 */
module StructuredJsonExample {
  import opened Wrappers
  import opened Text
  import opened Json
  import opened Seqs
  import opened EnhancedCourseAgent

  /** The ten fields an analysis must have, in the order they are reported. */
  const RequiredFields: seq<string> := ["topic", "summary", "key_concepts", "prerequisites", "difficulty_level",
                                        "estimated_hours", "resources", "subtopics", "current_trends",
                                        "career_applications"]

  /** `[field for field in fields if field not in data]`. */
  function MissingFrom(fields: seq<string>, data: map<string, Json>): (r: seq<string>)
    ensures |r| <= |fields|
    ensures forall f :: f in r <==> f in fields && f !in data
  {
    if fields == [] then []
    else
      var n := |fields| - 1;
      MissingFrom(fields[..n], data) + (if fields[n] in data then [] else [fields[n]])
  }

  /** `isinstance(v, int)`: Python's `bool` is a subclass of `int`. */
  predicate IsPyInt(v: Json) {
    v.JInt? || v.JBool?
  }

  /** Which check `validate_structured_output` stops at, if any. */
  datatype Verdict = Passed | MissingFields(fields: seq<string>) | WrongType(field: string)

  /** The check that decides `validate_structured_output`, its message aside. */
  function ValidationVerdict(data: map<string, Json>): Verdict {
    var missing := MissingFrom(RequiredFields, data);
    if missing != [] then MissingFields(missing)
    else if !data["key_concepts"].JList? then WrongType("key_concepts")
    else if !data["resources"].JList? then WrongType("resources")
    else if !IsPyInt(data["estimated_hours"]) then WrongType("estimated_hours")
    else Passed
  }

  /** `validate_structured_output(data)`. */
  function ValidateStructuredOutput(data: map<string, Json>): bool {
    ValidationVerdict(data).Passed?
  }

  /** All ten fields are present. */
  predicate HasRequiredFields(data: map<string, Json>) {
    forall f | f in RequiredFields :: f in data
  }

  /**
   * Validation passes exactly when all ten fields are present, `key_concepts` and `resources`
   * are lists and `estimated_hours` is an int (a bool counts).
   */
  lemma ValidateIff(data: map<string, Json>)
    ensures ValidateStructuredOutput(data) <==>
              HasRequiredFields(data) && data["key_concepts"].JList? && data["resources"].JList? &&
              IsPyInt(data["estimated_hours"])
  {
    MissingNone(data);
  }

  /** No field is reported missing exactly when all are present. */
  lemma MissingNone(data: map<string, Json>)
    ensures MissingFrom(RequiredFields, data) == [] <==> HasRequiredFields(data)
  {
    var missing := MissingFrom(RequiredFields, data);
    if missing != [] {
      assert missing[0] in missing;
    }
  }

  /**
   * A missing field fails validation before any type is looked at, and the report names
   * exactly the missing fields; the type checks go key_concepts, resources, estimated_hours.
   */
  lemma ValidationOrder(data: map<string, Json>)
    ensures !HasRequiredFields(data) ==>
              ValidationVerdict(data).MissingFields? &&
              forall f :: f in ValidationVerdict(data).fields <==> f in RequiredFields && f !in data
    ensures HasRequiredFields(data) && !data["key_concepts"].JList? ==> ValidationVerdict(data) == WrongType("key_concepts")
    ensures HasRequiredFields(data) && data["key_concepts"].JList? && !data["resources"].JList? ==>
              ValidationVerdict(data) == WrongType("resources")
    ensures (HasRequiredFields(data) && data["key_concepts"].JList? && data["resources"].JList? &&
             !IsPyInt(data["estimated_hours"])) ==> ValidationVerdict(data) == WrongType("estimated_hours")
  {
    MissingNone(data);
  }

  /** `True` passes as `estimated_hours`; a float such as `2.5` does not. */
  lemma BoolPassesIntCheck(data: map<string, Json>)
    requires HasRequiredFields(data) && data["key_concepts"].JList? && data["resources"].JList?
    ensures ValidateStructuredOutput(data["estimated_hours" := JBool(true)])
    ensures !ValidateStructuredOutput(data["estimated_hours" := JFloat(2.5)])
  {
    ValidateIff(data["estimated_hours" := JBool(true)]);
    ValidateIff(data["estimated_hours" := JFloat(2.5)]);
  }

  /**
   * Tool returns take priority over JSON in assistant text: once some tool return parses,
   * assistant messages put in front of the reply change nothing.
   */
  lemma ToolReturnsOverText(texts: seq<string>, msgs: seq<AgentMessage>, parse: string -> Option<Json>,
                            pyStr: Json -> string, raw: string)
    requires ToolResult(msgs, parse, pyStr).Some?
    ensures Extract(TextMessages(texts) + msgs, parse, pyStr, raw) == Extract(msgs, parse, pyStr, raw)
  {
    var pre := TextMessages(texts);
    var p := m => ToolParses(m, parse, pyStr);
    FirstWhereSkip(pre, msgs, p);
    var i := FirstWhere(msgs, p).value;
    assert (pre + msgs)[|pre| + i] == msgs[i];
  }

  /** Assistant messages with the given texts. */
  function TextMessages(texts: seq<string>): (r: seq<AgentMessage>)
    ensures |r| == |texts|
    ensures forall j | 0 <= j < |texts| :: r[j] == AssistantMessage(texts[j])
  {
    seq(|texts|, j requires 0 <= j < |texts| => AssistantMessage(texts[j]))
  }

  const AnalysisFilePrefix: string := "structured_analysis_"

  /** The file `save_results` writes for a topic. */
  function AnalysisFilename(topic: string): string {
    AnalysisFilePrefix + Slug(topic) + JsonSuffix
  }

  /** The files written for `results.items()`, in order: entries holding "error" are skipped. */
  function SavedFiles(results: seq<(string, map<string, Json>)>): seq<(string, map<string, Json>)> {
    if results == [] then []
    else
      var n := |results| - 1;
      SavedFiles(results[..n]) +
        (if "error" in results[n].1 then [] else [(AnalysisFilename(results[n].0), results[n].1)])
  }

  /** `save_results`: one file written per entry without "error"; the writes are the result. */
  method SaveResults(results: seq<(string, map<string, Json>)>) returns (written: seq<(string, map<string, Json>)>)
    ensures written == SavedFiles(results)
  {
    written := [];
    for i := 0 to |results|
      invariant written == SavedFiles(results[..i])
    {
      assert results[..i + 1][..i] == results[..i];
      var (topic, data) := results[i];
      if "error" !in data {
        written := written + [(AnalysisFilename(topic), data)];
      }
    }
    assert results[..|results|] == results;
  }

  /**
   * A file is written exactly for the entries without "error", under the name derived from
   * its topic, and never more files than entries.
   */
  lemma {:induction false} SavedFilesExactly(results: seq<(string, map<string, Json>)>)
    ensures |SavedFiles(results)| <= |results|
    ensures forall w | w in SavedFiles(results) :: "error" !in w.1
    ensures forall e | e in results && "error" !in e.1 :: (AnalysisFilename(e.0), e.1) in SavedFiles(results)
    ensures forall w | w in SavedFiles(results) :: exists e | e in results :: w == (AnalysisFilename(e.0), e.1)
  {
    if results != [] {
      var n := |results| - 1;
      SavedFilesExactly(results[..n]);
      assert results == results[..n] + [results[n]];
      forall w | w in SavedFiles(results) ensures exists e | e in results :: w == (AnalysisFilename(e.0), e.1) {
        if w in SavedFiles(results[..n]) {
          var e :| e in results[..n] && w == (AnalysisFilename(e.0), e.1);
          assert e in results;
        } else {
          assert results[n] in results;
        }
      }
    }
  }

  /** An analysis file name is the prefix, the topic's slug and ".json", with no space in it. */
  lemma AnalysisFilenameShape(topic: string)
    ensures var name := AnalysisFilename(topic);
            StartsWith(name, AnalysisFilePrefix) && name[|name| - |JsonSuffix|..] == JsonSuffix &&
            |name| == |AnalysisFilePrefix| + |topic| + |JsonSuffix| && ' ' !in name
  {
    SlugShape(topic);
    var name := AnalysisFilename(topic);
    assert ' ' !in AnalysisFilePrefix && ' ' !in JsonSuffix;
    forall i | 0 <= i < |name| ensures name[i] != ' ' {
      if i < |AnalysisFilePrefix| {
        assert name[i] == AnalysisFilePrefix[i];
      } else if i < |AnalysisFilePrefix| + |topic| {
        assert name[i] == Slug(topic)[i - |AnalysisFilePrefix|];
      } else {
        assert name[i] == JsonSuffix[i - |AnalysisFilePrefix| - |topic|];
      }
    }
  }
}
