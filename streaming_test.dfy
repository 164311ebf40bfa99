/**
 * The streaming test page (`streaming-test.tsx`): one button posts a fixed prompt and shows
 * the streamed reply as it arrives, with two flags, `isStreaming` and `error`.
 *
 * `fetch` is the parameter `server`, as for the chat components.
 */
module StreamingTest {
  import opened Wrappers
  import opened Text
  import opened StreamProtocol
  import opened ChatSession
  import LettaRoute
  import Chat
  import Json

  const StoryPrompt: string := "Tell me a short story about a robot learning to paint."

  /** What the page shows: the three pieces of state of the component. */
  datatype Display = Display(isStreaming: bool, streamedText: string, error: string)

  /**
   * The page after a test run. Errors thrown before reading (transport, status, no body) or
   * by the reader after an unfinished read are shown and stop the spinner; a `done` payload
   * stops it too; a reply that ends without `done` leaves it spinning.
   */
  function Shown(outcome: FetchOutcome, parse: string -> Payload): (r: Display)
    ensures r.isStreaming <==>
              Reading(outcome, parse).Some? && !Reading(outcome, parse).value.done && outcome.body.value.failure.None?
    ensures r.streamedText == (if Reading(outcome, parse).Some? then Reading(outcome, parse).value.content else "")
    ensures StreamResult(outcome, parse).Err? ==> !r.isStreaming && r.error == StreamResult(outcome, parse).error
    ensures StreamResult(outcome, parse).Ok? ==>
              r.error == "" && r.streamedText == StreamResult(outcome, parse).value
  {
    match outcome
    case NetworkFailure(message) => Display(false, "", message)
    case Response(ok, status, body) =>
      if !ok then Display(false, "", "HTTP error! status: " + NatToString(status))
      else if body.None? then Display(false, "", "No response body")
      else
        var d := Decode(LinesOf(body.value.chunks), parse);
        if d.done then Display(false, d.content, "")
        else if body.value.failure.Some? then Display(false, d.content, body.value.failure.value)
        else Display(true, d.content, "")
  }

  class StreamingTest {
    var isStreaming: bool
    var streamedText: string
    var error: string

    constructor ()
      ensures !isStreaming && streamedText == "" && error == ""
    {
      isStreaming := false;
      streamedText := "";
      error := "";
    }

    function Current(): Display
      reads this
    {
      Display(isStreaming, streamedText, error)
    }

    /** One line of the read loop: the shown text follows the content, `done` stops the spinner. */
    method ReadLine(line: string, parse: string -> Payload, fullContent: string)
      returns (content: string, finished: bool, ghost step: Step)
      requires isStreaming && streamedText == fullContent
      modifies this
      ensures step == StepOf(line, parse)
      ensures finished <==> step.Finish?
      ensures content == fullContent + Delta(step)
      ensures streamedText == content && isStreaming == !finished && error == old(error)
    {
      step := StepOf(line, parse);
      StepOfCases(line, parse);
      content, finished := fullContent, false;
      if !IsBlank(line) && StartsWith(line, DataPrefix) {
        var data := parse(line[|DataPrefix|..]);
        if data.Message? && !data.hasError {
          if data.content != "" {
            content := content + data.content;
            streamedText := content;
          }
          if data.done {
            isStreaming := false;
            finished := true;
          }
        }
      }
    }

    /** The `for` loop over the lines of one chunk, after the lines `seen` of the earlier chunks. */
    method ReadChunk(chunk: string, parse: string -> Payload, ghost seen: seq<string>, fullContent: string)
      returns (content: string, finished: bool, ghost j: nat)
      requires Decode(seen, parse) == Decoded(fullContent, false, "")
      requires isStreaming && streamedText == fullContent
      modifies this
      ensures !finished ==> Decode(seen + SplitLines(chunk), parse) == Decoded(content, false, "")
      ensures finished ==> j < |SplitLines(chunk)| &&
                           Decode(seen + SplitLines(chunk)[..j + 1], parse).done &&
                           Decode(seen + SplitLines(chunk)[..j + 1], parse).content == content
      ensures streamedText == content && isStreaming == !finished && error == old(error)
    {
      var lines := SplitLines(chunk);
      content, finished, j := fullContent, false, 0;
      EndSlices(seen, lines);
      for i := 0 to |lines|
        invariant Decode(seen + lines[..i], parse) == Decoded(content, false, "")
        invariant isStreaming && streamedText == content && error == old(error)
      {
        var line := lines[i];
        SnocSlice(seen, lines, i);
        DecodeSnoc(seen + lines[..i], line, parse);
        ghost var step;
        content, finished, step := ReadLine(line, parse, content);
        if finished {
          j := i;
          return;
        }
      }
    }

    /** The `while` loop over `reader.read()`, with the `catch` for an error thrown while reading. */
    method ReadBody(body: Body, parse: string -> Payload)
      requires isStreaming && streamedText == "" && error == ""
      modifies this
      ensures streamedText == Decode(LinesOf(body.chunks), parse).content
      ensures isStreaming == (!Decode(LinesOf(body.chunks), parse).done && body.failure.None?)
      ensures error == (if !Decode(LinesOf(body.chunks), parse).done && body.failure.Some? then body.failure.value else "")
    {
      var chunks := body.chunks;
      var fullContent := "";
      var k := 0;
      ghost var seen: seq<string> := [];
      while k < |chunks|
        invariant 0 <= k <= |chunks|
        invariant seen == LinesOf(chunks[..k])
        invariant Decode(seen, parse) == Decoded(fullContent, false, "")
        invariant isStreaming && streamedText == fullContent && error == ""
      {
        var finished;
        ghost var j;
        fullContent, finished, j := ReadChunk(chunks[k], parse, seen, fullContent);
        if finished {
          DecodeStopsEarly(chunks, k, j, parse);
          return;
        }
        LinesOfPrefix(chunks, k);
        seen := seen + SplitLines(chunks[k]);
        k := k + 1;
      }
      assert chunks[..k] == chunks;
      if body.failure.Some? {
        error := body.failure.value;
        isStreaming := false;
      }
    }

    /** `testStreaming`: clear the page, post the story prompt and read the reply. */
    method TestStreaming(server: string -> FetchOutcome, parse: string -> Payload)
      modifies this
      ensures Current() == Shown(server(StoryPrompt), parse)
    {
      isStreaming := true;
      streamedText := "";
      error := "";
      var response := server(StoryPrompt);
      if response.NetworkFailure? {
        error := response.message;
        isStreaming := false;
        return;
      }
      if !response.ok {
        error := "HTTP error! status: " + NatToString(response.status);
        isStreaming := false;
        return;
      }
      if response.body.None? {
        error := "No response body";
        isStreaming := false;
        return;
      }
      ReadBody(response.body.value, parse);
    }
  }

  /** A completed reply of the route shows the concatenated text parts and stops the spinner. */
  lemma RouteReplyShown(parts: seq<string>, toolCalls: seq<Json.Json>, groups: seq<seq<LettaRoute.FrameObject>>,
                        stringify: LettaRoute.FrameObject -> string, parse: string -> Payload)
    requires LettaRoute.CodecAgrees(stringify, parse)
    requires LettaRoute.Flatten(groups) == LettaRoute.StreamObjects(parts, toolCalls, None)
    ensures Shown(Chat.RouteReply(groups, stringify), parse) == Display(false, Concat(parts), "")
  {
    LettaRoute.RoundTrip(parts, toolCalls, groups, stringify, parse);
  }

  /**
   * A reply of the route whose iteration failed shows the text before the failure, no error,
   * and keeps spinning: its error frame is skipped and no `done` arrives.
   */
  lemma RouteFailureKeepsStreaming(parts: seq<string>, message: string, groups: seq<seq<LettaRoute.FrameObject>>,
                                   stringify: LettaRoute.FrameObject -> string, parse: string -> Payload)
    requires LettaRoute.CodecAgrees(stringify, parse)
    requires LettaRoute.Flatten(groups) == LettaRoute.StreamObjects(parts, [], Some(message))
    ensures Shown(Chat.RouteReply(groups, stringify), parse) == Display(true, Concat(parts), "")
  {
    LettaRoute.RoundTripFailure(parts, message, groups, stringify, parse);
  }
}
