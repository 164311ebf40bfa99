/**
 * The `POST /api/letta` route: request validation, and the frames the reply stream is made of.
 *
 * The Letta/Vercel SDK call (`streamText`) is not modelled: what it yields is an input — the
 * text parts produced before the stream finished or failed, the tool calls, and the failure
 * message if iteration threw. `JSON.stringify` is the parameter `stringify`.
 */
module LettaRoute {
  import opened Wrappers
  import opened Text
  import opened Json
  import opened StreamProtocol

  /** The route's answer before any streaming: a 400 or 500 JSON error, or the start of a stream. */
  datatype PostResponse =
    | JsonError(status: nat, error: string)
    | StartStream(prompt: Json)

  /**
   * Validation of the parsed body `{prompt, agentId}`: `body` is `None` when `request.json()`
   * threw (its message is `parseError`); a property is `None` when it is missing. A falsy
   * prompt is rejected before the agent id is looked at.
   */
  function Validate(body: Option<map<string, Json>>, parseError: string): (r: PostResponse)
    ensures body.None? ==> r == JsonError(500, "Failed to setup stream: " + parseError)
    ensures body.Some? && !JsTruthy(LookUp(body.value, "prompt")) ==> r == JsonError(400, "Prompt is required")
    ensures body.Some? && JsTruthy(LookUp(body.value, "prompt")) && !JsTruthy(LookUp(body.value, "agentId")) ==>
              r == JsonError(400, "Agent ID is required")
    ensures r.StartStream? <==> body.Some? && JsTruthy(LookUp(body.value, "prompt")) && JsTruthy(LookUp(body.value, "agentId"))
    ensures r.StartStream? ==> Some(r.prompt) == LookUp(body.value, "prompt")
  {
    if body.None? then JsonError(500, "Failed to setup stream: " + parseError)
    else if !JsTruthy(LookUp(body.value, "prompt")) then JsonError(400, "Prompt is required")
    else if !JsTruthy(LookUp(body.value, "agentId")) then JsonError(400, "Agent ID is required")
    else StartStream(LookUp(body.value, "prompt").value)
  }

  function LookUp(m: map<string, Json>, key: string): Option<Json> {
    if key in m then Some(m[key]) else None
  }

  /** The objects the stream serialises, one per frame. */
  datatype FrameObject =
    | TextFrame(content: string)          // {content, done: false}
    | ToolCallsFrame(toolCalls: seq<Json>) // {toolCalls, done: false}
    | FinalFrame                          // {content: "", done: true}
    | ErrorFrame(error: string)           // {error, done: true}

  /** One frame on the wire: `data: <json>` and a blank line. */
  function Frame(obj: FrameObject, stringify: FrameObject -> string): string {
    DataPrefix + stringify(obj) + "\n\n"
  }

  /** One text frame per text part, in order. */
  function TextObjects(parts: seq<string>): (objs: seq<FrameObject>)
    ensures |objs| == |parts|
    ensures forall i | 0 <= i < |parts| :: objs[i] == TextFrame(parts[i])
  {
    if parts == [] then [] else [TextFrame(parts[0])] + TextObjects(parts[1..])
  }

  /** What follows the text frames: the tool-call frame if any and the final frame, or the error frame alone. */
  function Closing(toolCalls: seq<Json>, failure: Option<string>): seq<FrameObject> {
    if failure.Some? then [ErrorFrame("Streaming error: " + failure.value)]
    else (if toolCalls != [] then [ToolCallsFrame(toolCalls)] else []) + [FinalFrame]
  }

  /** The objects the stream emits, in order: one per text part, then tool calls if any, then exactly one terminal object. */
  function StreamObjects(parts: seq<string>, toolCalls: seq<Json>, failure: Option<string>): (objs: seq<FrameObject>)
    ensures |objs| == |parts| + (if failure.None? && toolCalls != [] then 1 else 0) + 1
    ensures forall i | 0 <= i < |parts| :: objs[i] == TextFrame(parts[i])
    ensures failure.None? ==> objs[|objs| - 1] == FinalFrame
    ensures failure.Some? ==> objs[|objs| - 1] == ErrorFrame("Streaming error: " + failure.value)
    ensures failure.None? && toolCalls != [] ==> objs[|parts|] == ToolCallsFrame(toolCalls)
  {
    TextObjects(parts) + Closing(toolCalls, failure)
  }

  function Frames(objs: seq<FrameObject>, stringify: FrameObject -> string): (frames: seq<string>)
    ensures |frames| == |objs|
    ensures forall i | 0 <= i < |objs| :: frames[i] == Frame(objs[i], stringify)
  {
    seq(|objs|, i requires 0 <= i < |objs| => Frame(objs[i], stringify))
  }

  /**
   * The stream's `start`: enqueue one frame per text part, the tool-call frame when there are
   * tool calls, and the final frame — or, when iterating the text stream threw after `parts`,
   * the error frame instead of the last two.
   */
  method Start(parts: seq<string>, toolCalls: seq<Json>, failure: Option<string>, stringify: FrameObject -> string)
    returns (enqueued: seq<string>)
    ensures enqueued == Frames(StreamObjects(parts, toolCalls, failure), stringify)
  {
    ghost var objs := StreamObjects(parts, toolCalls, failure);
    ghost var frames := Frames(objs, stringify);
    enqueued := [];
    for i := 0 to |parts|
      invariant enqueued == frames[..i]
    {
      var chunk := stringify(TextFrame(parts[i]));
      assert frames[i] == DataPrefix + chunk + "\n\n";
      assert frames[..i + 1] == frames[..i] + [frames[i]];
      enqueued := enqueued + [DataPrefix + chunk + "\n\n"];
    }
    var n := |parts|;
    if failure.Some? {
      var errorChunk := stringify(ErrorFrame("Streaming error: " + failure.value));
      assert frames == frames[..n] + [frames[n]];
      enqueued := enqueued + [DataPrefix + errorChunk + "\n\n"];
    } else {
      if |toolCalls| > 0 {
        var toolCallsChunk := stringify(ToolCallsFrame(toolCalls));
        assert frames[..n + 1] == frames[..n] + [frames[n]];
        enqueued := enqueued + [DataPrefix + toolCallsChunk + "\n\n"];
        n := n + 1;
      }
      var finalChunk := stringify(FinalFrame);
      assert frames == frames[..n] + [frames[n]];
      enqueued := enqueued + [DataPrefix + finalChunk + "\n\n"];
    }
  }

  // ---- Round trip: the frames read back by the stream decoder ----

  /** What `JSON.stringify` and the reader's `JSON.parse` agree on for the four frame objects. */
  ghost predicate CodecAgrees(stringify: FrameObject -> string, parse: string -> Payload) {
    && (forall obj :: '\n' !in stringify(obj))
    && (forall c :: parse(stringify(TextFrame(c))) == Message(c, false, false))
    && (forall t :: parse(stringify(ToolCallsFrame(t))) == Message("", false, false))
    && parse(stringify(FinalFrame)) == Message("", true, false)
    && (forall e :: parse(stringify(ErrorFrame(e))) == Message("", true, e != ""))
  }

  function Flatten<T>(groups: seq<seq<T>>): seq<T> {
    if groups == [] then [] else groups[0] + Flatten(groups[1..])
  }

  /** The chunks a reader receives when each read holds the whole frames of one group. */
  function ChunksOf(groups: seq<seq<FrameObject>>, stringify: FrameObject -> string): (chunks: seq<string>)
    ensures |chunks| == |groups|
  {
    seq(|groups|, i requires 0 <= i < |groups| => Concat(Frames(groups[i], stringify)))
  }

  /** The lines of a run of frames: a data line and a blank line per frame. */
  function FrameLines(objs: seq<FrameObject>, stringify: FrameObject -> string): seq<string> {
    if objs == [] then [] else [DataPrefix + stringify(objs[0]), ""] + FrameLines(objs[1..], stringify)
  }

  lemma {:induction false} FrameLinesAppend(a: seq<FrameObject>, b: seq<FrameObject>, stringify: FrameObject -> string)
    ensures FrameLines(a + b, stringify) == FrameLines(a, stringify) + FrameLines(b, stringify)
  {
    if a == [] {
      assert a + b == b;
    } else {
      assert (a + b)[0] == a[0] && (a + b)[1..] == a[1..] + b;
      FrameLinesAppend(a[1..], b, stringify);
    }
  }

  /** Splitting a chunk of whole frames gives their lines and one trailing empty line. */
  lemma {:induction false} SplitFrames(objs: seq<FrameObject>, stringify: FrameObject -> string)
    requires forall obj :: '\n' !in stringify(obj)
    ensures SplitLines(Concat(Frames(objs, stringify))) == FrameLines(objs, stringify) + [""]
  {
    var frames := Frames(objs, stringify);
    if objs == [] {
      assert Concat(frames) == "";
    } else {
      var head := DataPrefix + stringify(objs[0]);
      var tail := Concat(Frames(objs[1..], stringify));
      FramesConcatCons(objs, stringify);
      DataLineNoNewline(objs[0], stringify);
      SplitLinesAppend(head, "" + "\n" + tail);
      SplitLinesAppend("", tail);
      SplitLinesSingle(head);
      SplitFrames(objs[1..], stringify);
    }
  }

  /** The frames of a run are its first frame's line, a blank line, and the rest's frames. */
  lemma FramesConcatCons(objs: seq<FrameObject>, stringify: FrameObject -> string)
    requires objs != []
    ensures Concat(Frames(objs, stringify)) ==
              DataPrefix + stringify(objs[0]) + "\n" + ("" + "\n" + Concat(Frames(objs[1..], stringify)))
  {
    var frames := Frames(objs, stringify);
    assert frames[1..] == Frames(objs[1..], stringify);
  }

  /** A data line holds no newline when the serialised object holds none. */
  lemma DataLineNoNewline(obj: FrameObject, stringify: FrameObject -> string)
    requires '\n' !in stringify(obj)
    ensures '\n' !in DataPrefix + stringify(obj)
  {
    var head := DataPrefix + stringify(obj);
    forall i | 0 <= i < |head| ensures head[i] != '\n' {
      if i >= |DataPrefix| {
        assert head[i] == stringify(obj)[i - |DataPrefix|];
      }
    }
  }

  /** A blank line between frames is skipped. */
  lemma {:induction false} DecodeDropBlank(objs: seq<FrameObject>, rest: seq<string>,
                                           stringify: FrameObject -> string, parse: string -> Payload)
    ensures Decode(FrameLines(objs, stringify) + [""] + rest, parse) == Decode(FrameLines(objs, stringify) + rest, parse)
  {
    SkippedLineIrrelevant(FrameLines(objs, stringify), "", rest, parse);
  }

  /** Reading whole-frame chunks is reading the frames' lines with the blank lines removed between chunks. */
  lemma {:induction false} DecodeChunks(groups: seq<seq<FrameObject>>, stringify: FrameObject -> string, parse: string -> Payload)
    requires forall obj :: '\n' !in stringify(obj)
    ensures Decode(LinesOf(ChunksOf(groups, stringify)), parse) == Decode(FrameLines(Flatten(groups), stringify), parse)
    decreases |groups|
  {
    if groups != [] {
      var n := |groups| - 1;
      var init := groups[..n];
      ChunkLinesSnoc(groups, stringify);
      assert groups == init + [groups[n]];
      FlattenLinesSnoc(init, groups[n], stringify);
      var before := LinesOf(ChunksOf(init, stringify));
      var mid := FrameLines(groups[n], stringify);
      DecodeChunks(init, stringify, parse);
      DecodeAppend(before, mid + [""], parse);
      DecodeAppend(FrameLines(Flatten(init), stringify), mid, parse);
      DecodeDropBlank(groups[n], [], stringify, parse);
      assert mid + [""] + [] == mid + [""];
      assert mid + [] == mid;
    }
  }

  /** The lines of the chunks: those of all but the last group, then the last group's frames and a blank line. */
  lemma ChunkLinesSnoc(groups: seq<seq<FrameObject>>, stringify: FrameObject -> string)
    requires groups != []
    requires forall obj :: '\n' !in stringify(obj)
    ensures var n := |groups| - 1;
            LinesOf(ChunksOf(groups, stringify)) ==
              LinesOf(ChunksOf(groups[..n], stringify)) + (FrameLines(groups[n], stringify) + [""])
  {
    var n := |groups| - 1;
    var chunks := ChunksOf(groups, stringify);
    assert chunks[..n] == ChunksOf(groups[..n], stringify);
    assert chunks == chunks[..n] + [chunks[n]];
    LinesOfAppend(chunks[..n], chunks[n]);
    SplitFrames(groups[n], stringify);
  }

  /** The lines of all frames: those of all but the last group, then the last group's. */
  lemma FlattenLinesSnoc(init: seq<seq<FrameObject>>, last: seq<FrameObject>, stringify: FrameObject -> string)
    ensures FrameLines(Flatten(init + [last]), stringify) == FrameLines(Flatten(init), stringify) + FrameLines(last, stringify)
  {
    FlattenSnoc(init, last);
    FrameLinesAppend(Flatten(init), last, stringify);
  }

  lemma FlattenSnoc<T>(groups: seq<seq<T>>, g: seq<T>)
    ensures Flatten(groups + [g]) == Flatten(groups) + g
  {
    if groups != [] {
      assert (groups + [g])[1..] == groups[1..] + [g];
    }
  }

  /** A frame's first line passes the line filter and carries the serialised object. */
  lemma FrameLineIsData(obj: FrameObject, stringify: FrameObject -> string)
    ensures IsDataLine(DataPrefix + stringify(obj))
    ensures (DataPrefix + stringify(obj))[|DataPrefix|..] == stringify(obj)
  {
    var line := DataPrefix + stringify(obj);
    assert line[..|DataPrefix|] == DataPrefix;
    assert line[0] == 'd' && line[0] !in JsWhitespace;
  }

  /** Decoding the lines of a single frame. */
  lemma DecodeOneFrame(obj: FrameObject, stringify: FrameObject -> string, parse: string -> Payload)
    ensures Decode(FrameLines([obj], stringify), parse) ==
      match StepOf(DataPrefix + stringify(obj), parse)
      case Skip => Decoded("", false, "")
      case Append(delta) => Decoded(delta, false, "")
      case Finish(delta) => Decoded(delta, true, delta)
  {
    var line := DataPrefix + stringify(obj);
    assert [obj][1..] == [];
    assert FrameLines([obj], stringify) == [line, ""];
    assert [line, ""][1..] == [""];
    assert [""][1..] == [];
  }

  /** The text frames decode to the concatenation of the parts, without `done`. */
  lemma {:induction false} DecodeTextFrames(parts: seq<string>, stringify: FrameObject -> string, parse: string -> Payload)
    requires forall c :: parse(stringify(TextFrame(c))) == Message(c, false, false)
    ensures Decode(FrameLines(TextObjects(parts), stringify), parse) == Decoded(Concat(parts), false, "")
  {
    if parts != [] {
      var objs := TextObjects(parts);
      assert objs == [TextFrame(parts[0])] + TextObjects(parts[1..]);
      FrameLinesAppend([TextFrame(parts[0])], TextObjects(parts[1..]), stringify);
      FrameLineIsData(TextFrame(parts[0]), stringify);
      DecodeOneFrame(TextFrame(parts[0]), stringify, parse);
      DecodeTextFrames(parts[1..], stringify, parse);
      DecodeAppend(FrameLines([TextFrame(parts[0])], stringify), FrameLines(TextObjects(parts[1..]), stringify), parse);
    }
  }

  lemma DecodeFinalFrame(stringify: FrameObject -> string, parse: string -> Payload)
    requires parse(stringify(FinalFrame)) == Message("", true, false)
    ensures Decode(FrameLines([FinalFrame], stringify), parse) == Decoded("", true, "")
  {
    FrameLineIsData(FinalFrame, stringify);
    DecodeOneFrame(FinalFrame, stringify, parse);
  }

  lemma DecodeToolCallsFrame(toolCalls: seq<Json>, stringify: FrameObject -> string, parse: string -> Payload)
    requires parse(stringify(ToolCallsFrame(toolCalls))) == Message("", false, false)
    ensures Decode(FrameLines([ToolCallsFrame(toolCalls)], stringify), parse) == Decoded("", false, "")
  {
    FrameLineIsData(ToolCallsFrame(toolCalls), stringify);
    DecodeOneFrame(ToolCallsFrame(toolCalls), stringify, parse);
  }

  /** The closing frames of a stream that completed decode to `done` with nothing more. */
  lemma DecodeClosing(toolCalls: seq<Json>, stringify: FrameObject -> string, parse: string -> Payload)
    requires CodecAgrees(stringify, parse)
    ensures Decode(FrameLines(Closing(toolCalls, None), stringify), parse) == Decoded("", true, "")
  {
    DecodeFinalFrame(stringify, parse);
    if toolCalls != [] {
      DecodeToolCallsFrame(toolCalls, stringify, parse);
      assert Closing(toolCalls, None) == [ToolCallsFrame(toolCalls)] + [FinalFrame];
      FrameLinesAppend([ToolCallsFrame(toolCalls)], [FinalFrame], stringify);
      DecodeAppend(FrameLines([ToolCallsFrame(toolCalls)], stringify), FrameLines([FinalFrame], stringify), parse);
    } else {
      assert Closing(toolCalls, None) == [FinalFrame];
    }
  }

  /** The closing frame of a stream that failed is skipped: no `done` is seen. */
  lemma DecodeFailedClosing(message: string, stringify: FrameObject -> string, parse: string -> Payload)
    requires CodecAgrees(stringify, parse)
    ensures Decode(FrameLines(Closing([], Some(message)), stringify), parse) == Decoded("", false, "")
  {
    var obj := ErrorFrame("Streaming error: " + message);
    assert ("Streaming error: " + message)[0] == 'S';
    FrameLineIsData(obj, stringify);
    DecodeOneFrame(obj, stringify, parse);
  }

  /** All frames of a stream that completed decode to the concatenated text parts, with `done` seen. */
  lemma DecodeSuccessFrames(parts: seq<string>, toolCalls: seq<Json>,
                            stringify: FrameObject -> string, parse: string -> Payload)
    requires CodecAgrees(stringify, parse)
    ensures Decode(FrameLines(StreamObjects(parts, toolCalls, None), stringify), parse) == Decoded(Concat(parts), true, "")
  {
    FrameLinesAppend(TextObjects(parts), Closing(toolCalls, None), stringify);
    DecodeTextFrames(parts, stringify, parse);
    DecodeClosing(toolCalls, stringify, parse);
    DecodeAppend(FrameLines(TextObjects(parts), stringify), FrameLines(Closing(toolCalls, None), stringify), parse);
    assert Concat(parts) + "" == Concat(parts);
  }

  /** All frames of a stream that failed decode to the text parts sent before the failure, with no `done`. */
  lemma DecodeFailedFrames(parts: seq<string>, message: string,
                           stringify: FrameObject -> string, parse: string -> Payload)
    requires CodecAgrees(stringify, parse)
    ensures Decode(FrameLines(StreamObjects(parts, [], Some(message)), stringify), parse) == Decoded(Concat(parts), false, "")
  {
    FrameLinesAppend(TextObjects(parts), Closing([], Some(message)), stringify);
    DecodeTextFrames(parts, stringify, parse);
    DecodeFailedClosing(message, stringify, parse);
    DecodeAppend(FrameLines(TextObjects(parts), stringify), FrameLines(Closing([], Some(message)), stringify), parse);
    assert Concat(parts) + "" == Concat(parts);
  }

  /**
   * Round trip: the frames of a stream that completes, cut into reads at frame boundaries,
   * decode to the concatenation of the text parts, with `done` seen.
   */
  lemma RoundTrip(parts: seq<string>, toolCalls: seq<Json>, groups: seq<seq<FrameObject>>,
                  stringify: FrameObject -> string, parse: string -> Payload)
    requires CodecAgrees(stringify, parse)
    requires Flatten(groups) == StreamObjects(parts, toolCalls, None)
    ensures Decode(LinesOf(ChunksOf(groups, stringify)), parse) == Decoded(Concat(parts), true, "")
  {
    DecodeChunks(groups, stringify, parse);
    DecodeSuccessFrames(parts, toolCalls, stringify, parse);
  }

  /**
   * When iteration fails, the error frame the route sends is ignored by the reader: it ends
   * with the text received so far and without having seen `done`.
   */
  lemma RoundTripFailure(parts: seq<string>, message: string, groups: seq<seq<FrameObject>>,
                         stringify: FrameObject -> string, parse: string -> Payload)
    requires CodecAgrees(stringify, parse)
    requires Flatten(groups) == StreamObjects(parts, [], Some(message))
    ensures Decode(LinesOf(ChunksOf(groups, stringify)), parse) == Decoded(Concat(parts), false, "")
  {
    DecodeChunks(groups, stringify, parse);
    DecodeFailedFrames(parts, message, stringify, parse);
  }
}
