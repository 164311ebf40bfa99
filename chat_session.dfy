/**
 * The message list of a chat component and the streaming read that fills in the assistant's
 * reply. The main chat and the topic chatbot hold the same three pieces of state and run the
 * same `streamFromLettuce` loop; they differ only in the prompt they send and in `handleSend`.
 *
 * `fetch` is the parameter `server`: it maps the prompt sent to the outcome of the request.
 * `nanoid` ids are parameters, timestamps are left out.
 */
module ChatSession {
  import opened Wrappers
  import opened Text
  import opened StreamProtocol

  datatype Role = User | Assistant

  /** A chat message; `isStreaming` and `error` are the optional properties of the record. */
  datatype ChatMessage = ChatMessage(id: string, content: string, role: Role,
                                     isStreaming: Option<bool>, error: Option<string>)

  /**
   * `prev.map(msg => msg.id === id ? {...msg, content, isStreaming} : msg)`: the list keeps its
   * length and every message with another id; messages with this id get the new content and flag.
   */
  function SetContent(ms: seq<ChatMessage>, id: string, content: string, streaming: bool): (r: seq<ChatMessage>)
    ensures |r| == |ms|
    ensures forall i | 0 <= i < |ms| && ms[i].id != id :: r[i] == ms[i]
    ensures forall i | 0 <= i < |ms| && ms[i].id == id ::
              r[i] == ChatMessage(id, content, ms[i].role, Some(streaming), ms[i].error)
  {
    seq(|ms|, i requires 0 <= i < |ms| =>
      if ms[i].id == id then ms[i].(content := content, isStreaming := Some(streaming)) else ms[i])
  }

  /** The failure update of `handleSend`: fallback text, not streaming, and the error message. */
  function MarkFailed(ms: seq<ChatMessage>, id: string, fallback: string, message: string): (r: seq<ChatMessage>)
    ensures |r| == |ms|
    ensures forall i | 0 <= i < |ms| && ms[i].id != id :: r[i] == ms[i]
    ensures forall i | 0 <= i < |ms| && ms[i].id == id ::
              r[i] == ChatMessage(id, fallback, ms[i].role, Some(false), Some(message))
  {
    seq(|ms|, i requires 0 <= i < |ms| =>
      if ms[i].id == id then ms[i].(content := fallback, isStreaming := Some(false), error := Some(message)) else ms[i])
  }

  /** Only the last of two updates of the same message is visible. */
  lemma SetContentTwice(ms: seq<ChatMessage>, id: string, c1: string, s1: bool, c2: string, s2: bool)
    ensures SetContent(SetContent(ms, id, c1, s1), id, c2, s2) == SetContent(ms, id, c2, s2)
  {
  }

  /** A failure update after any streaming updates of the same message hides them. */
  lemma MarkFailedHidesStreaming(ms: seq<ChatMessage>, id: string, c: string, s: bool, fallback: string, message: string)
    ensures MarkFailed(SetContent(ms, id, c, s), id, fallback, message) == MarkFailed(ms, id, fallback, message)
  {
  }

  /** The reply body: the chunks `reader.read()` yields, and the error it throws afterwards, if any. */
  datatype Body = Body(chunks: seq<string>, failure: Option<string>)

  /** What `fetch` gives: a thrown error, or a response with its status and optional body. */
  datatype FetchOutcome =
    | NetworkFailure(message: string)
    | Response(ok: bool, status: nat, body: Option<Body>)

  /** The decoder's view of the body, when the request got as far as reading it. */
  function Reading(outcome: FetchOutcome, parse: string -> Payload): (d: Option<Decoded>)
    ensures d.Some? <==> outcome.Response? && outcome.ok && outcome.body.Some?
  {
    if outcome.Response? && outcome.ok && outcome.body.Some? then
      Some(Decode(LinesOf(outcome.body.value.chunks), parse))
    else None
  }

  /** Whether the reply delivered a `done` payload, which ends the stream early and resets the flags. */
  predicate Finished(outcome: FetchOutcome, parse: string -> Payload) {
    Reading(outcome, parse).Some? && Reading(outcome, parse).value.done
  }

  /** What `streamFromLettuce` resolves to (`Ok` with the content) or rejects with (`Err`). */
  function StreamResult(outcome: FetchOutcome, parse: string -> Payload): (r: Result<string>)
    ensures outcome.NetworkFailure? ==> r == Err(outcome.message)
    ensures outcome.Response? && !outcome.ok ==> r == Err("HTTP error! status: " + NatToString(outcome.status))
    ensures outcome.Response? && outcome.ok && outcome.body.None? ==> r == Err("No response body")
    ensures Finished(outcome, parse) ==> r == Ok(Reading(outcome, parse).value.content)
    ensures Reading(outcome, parse).Some? && !Finished(outcome, parse) ==>
              r == (if outcome.body.value.failure.Some? then Err(outcome.body.value.failure.value)
                    else Ok(Reading(outcome, parse).value.content))
  {
    match outcome
    case NetworkFailure(message) => Err(message)
    case Response(ok, status, body) =>
      if !ok then Err("HTTP error! status: " + NatToString(status))
      else if body.None? then Err("No response body")
      else
        var d := Decode(LinesOf(body.value.chunks), parse);
        if !d.done && body.value.failure.Some? then Err(body.value.failure.value) else Ok(d.content)
  }

  /**
   * The message list after reading: untouched while no content arrived; otherwise the streaming
   * message shows all content so far, and is marked finished only when the `done` payload
   * itself carried content (a bare `done` does not update the list).
   */
  function Streamed(ms: seq<ChatMessage>, id: string, d: Decoded): seq<ChatMessage> {
    if d.content == "" then ms else SetContent(ms, id, d.content, !(d.done && d.finalDelta != ""))
  }

  /** The message list after `streamFromLettuce`. */
  function StreamedMessages(ms: seq<ChatMessage>, id: string, outcome: FetchOutcome, parse: string -> Payload): seq<ChatMessage> {
    match Reading(outcome, parse)
    case None => ms
    case Some(d) => Streamed(ms, id, d)
  }

  /** The list only ever changes in the streaming message, and keeps its length. */
  lemma StreamedTouchesOnlyId(ms: seq<ChatMessage>, id: string, outcome: FetchOutcome, parse: string -> Payload)
    ensures |StreamedMessages(ms, id, outcome, parse)| == |ms|
    ensures forall i | 0 <= i < |ms| && ms[i].id != id :: StreamedMessages(ms, id, outcome, parse)[i] == ms[i]
  {
  }

  /** Once content arrived, the streaming message shows exactly the content the stream resolves with. */
  lemma StreamedShowsResult(ms: seq<ChatMessage>, id: string, outcome: FetchOutcome, parse: string -> Payload, i: nat)
    requires i < |ms| && ms[i].id == id
    requires StreamResult(outcome, parse).Ok? && StreamResult(outcome, parse).value != ""
    ensures StreamedMessages(ms, id, outcome, parse)[i].content == StreamResult(outcome, parse).value
  {
  }

  /** The empty assistant message the reply is streamed into. */
  function Placeholder(id: string): ChatMessage {
    ChatMessage(id, "", Assistant, Some(true), None)
  }

  /** Both components' `handleSend` ignore blank input and input sent while a reply is still being typed. */
  predicate Accepts(value: string, isTyping: bool) {
    JsTrim(value) != "" && !isTyping
  }

  /** The user message and the placeholder appended before streaming starts. */
  function Started(ms: seq<ChatMessage>, userId: string, text: string, assistantId: string): seq<ChatMessage> {
    ms + [ChatMessage(userId, text, User, None, None), Placeholder(assistantId)]
  }

  /**
   * The final update of `handleSend`: on success the placeholder holds the streamed content,
   * on failure the fallback text and the error message; it is not streaming either way.
   */
  function Settle(ms: seq<ChatMessage>, assistantId: string, result: Result<string>, fallback: string): seq<ChatMessage> {
    match result
    case Ok(content) => SetContent(ms, assistantId, content, false)
    case Err(message) => MarkFailed(ms, assistantId, fallback, message)
  }

  /** The message list after an accepted send. */
  function AfterSend(ms: seq<ChatMessage>, userId: string, text: string, assistantId: string,
                     outcome: FetchOutcome, parse: string -> Payload, fallback: string): seq<ChatMessage> {
    Settle(StreamedMessages(Started(ms, userId, text, assistantId), assistantId, outcome, parse),
           assistantId, StreamResult(outcome, parse), fallback)
  }

  /**
   * After an accepted send (with fresh ids), the list is the old one plus the trimmed user
   * message and the assistant message, which is no longer streaming and shows the reply, or
   * the fallback text with the error.
   */
  lemma AfterSendShape(ms: seq<ChatMessage>, userId: string, text: string, assistantId: string,
                       outcome: FetchOutcome, parse: string -> Payload, fallback: string)
    requires userId != assistantId
    requires forall i | 0 <= i < |ms| :: ms[i].id != assistantId
    ensures var r := AfterSend(ms, userId, text, assistantId, outcome, parse, fallback);
      && |r| == |ms| + 2
      && r[..|ms|] == ms
      && r[|ms|] == ChatMessage(userId, text, User, None, None)
      && r[|ms| + 1] == match StreamResult(outcome, parse)
                        case Ok(content) => ChatMessage(assistantId, content, Assistant, Some(false), None)
                        case Err(message) => ChatMessage(assistantId, fallback, Assistant, Some(false), Some(message))
  {
    var started := Started(ms, userId, text, assistantId);
    var streamed := StreamedMessages(started, assistantId, outcome, parse);
    StreamedTouchesOnlyId(started, assistantId, outcome, parse);
    var r := AfterSend(ms, userId, text, assistantId, outcome, parse, fallback);
    assert r[..|ms|] == ms by {
      forall i | 0 <= i < |ms| ensures r[i] == ms[i] {
        assert started[i] == ms[i];
      }
    }
    assert streamed[|ms| + 1].id == assistantId && streamed[|ms| + 1].role == Assistant && streamed[|ms| + 1].error.None?;
  }

  class ChatSession {
    var messages: seq<ChatMessage>
    var isTyping: bool
    var streamingMessageId: Option<string>

    constructor (greeting: ChatMessage)
      ensures messages == [greeting] && !isTyping && streamingMessageId.None?
    {
      messages := [greeting];
      isTyping := false;
      streamingMessageId := None;
    }

    /**
     * The body of the `try` for a parsed payload: append non-empty content and update the
     * streaming message; on `done`, reset the typing flag and the streaming id. A payload
     * with `error` throws into the `catch` that moves on to the next line.
     */
    method ApplyPayload(data: Payload, currentId: string, ghost original: seq<ChatMessage>, fullContent: string)
      returns (content: string, finished: bool)
      requires messages == Streamed(original, currentId, Decoded(fullContent, false, ""))
      modifies this
      ensures finished <==> data.Message? && !data.hasError && data.done
      ensures content == fullContent + (if data.Message? && !data.hasError then data.content else "")
      ensures messages == Streamed(original, currentId, Decoded(content, finished, if finished then data.content else ""))
      ensures isTyping == (if finished then false else old(isTyping))
      ensures streamingMessageId == (if finished then None else old(streamingMessageId))
    {
      content, finished := fullContent, false;
      if data.Message? && !data.hasError {
        if data.content != "" {
          SetContentTwice(original, currentId, content, true, content + data.content, !data.done);
          content := content + data.content;
          messages := SetContent(messages, currentId, content, !data.done);
        }
        if data.done {
          isTyping := false;
          streamingMessageId := None;
          finished := true;
        }
      }
    }

    /** One line of the read loop: lines that are blank or lack the `data: ` prefix are skipped. */
    method ReadLine(line: string, currentId: string, parse: string -> Payload,
                    ghost original: seq<ChatMessage>, fullContent: string)
      returns (content: string, finished: bool, ghost step: Step)
      requires messages == Streamed(original, currentId, Decoded(fullContent, false, ""))
      modifies this
      ensures step == StepOf(line, parse)
      ensures finished <==> step.Finish?
      ensures content == fullContent + Delta(step)
      ensures messages == Streamed(original, currentId, Decoded(content, finished, if finished then Delta(step) else ""))
      ensures isTyping == (if finished then false else old(isTyping))
      ensures streamingMessageId == (if finished then None else old(streamingMessageId))
    {
      step := StepOf(line, parse);
      StepOfCases(line, parse);
      if !IsBlank(line) && StartsWith(line, DataPrefix) {
        var data := parse(line[|DataPrefix|..]);
        assert Delta(step) == if data.Message? && !data.hasError then data.content else "";
        content, finished := ApplyPayload(data, currentId, original, fullContent);
      } else {
        content, finished := fullContent, false;
        assert content == fullContent + Delta(step);
      }
    }

    /**
     * The `for` loop over the lines of one chunk, after the lines `seen` of the earlier chunks.
     * It stops at the first line `j` whose payload has `done`.
     */
    method ReadChunk(chunk: string, currentId: string, parse: string -> Payload,
                     ghost original: seq<ChatMessage>, ghost seen: seq<string>, fullContent: string)
      returns (content: string, finished: bool, ghost j: nat)
      requires Decode(seen, parse) == Decoded(fullContent, false, "")
      requires messages == Streamed(original, currentId, Decoded(fullContent, false, ""))
      modifies this
      ensures !finished ==> Decode(seen + SplitLines(chunk), parse) == Decoded(content, false, "")
      ensures finished ==> j < |SplitLines(chunk)| &&
                           Decode(seen + SplitLines(chunk)[..j + 1], parse).done &&
                           Decode(seen + SplitLines(chunk)[..j + 1], parse).content == content
      ensures finished ==> messages == Streamed(original, currentId, Decode(seen + SplitLines(chunk)[..j + 1], parse))
      ensures !finished ==> messages == Streamed(original, currentId, Decoded(content, false, ""))
      ensures isTyping == (if finished then false else old(isTyping))
      ensures streamingMessageId == (if finished then None else old(streamingMessageId))
    {
      var lines := SplitLines(chunk);
      content, finished, j := fullContent, false, 0;
      EndSlices(seen, lines);
      for i := 0 to |lines|
        invariant Decode(seen + lines[..i], parse) == Decoded(content, false, "")
        invariant messages == Streamed(original, currentId, Decoded(content, false, ""))
        invariant isTyping == old(isTyping) && streamingMessageId == old(streamingMessageId)
      {
        var line := lines[i];
        ghost var prefix := seen + lines[..i];
        SnocSlice(seen, lines, i);
        DecodeSnoc(prefix, line, parse);
        ghost var step;
        content, finished, step := ReadLine(line, currentId, parse, original, content);
        assert Decode(seen + lines[..i + 1], parse) == Decoded(content, finished, if finished then Delta(step) else "");
        if finished {
          j := i;
          return;
        }
        assert Decoded(content, finished, if finished then Delta(step) else "") == Decoded(content, false, "");
      }
    }

    /**
     * `streamFromLettuce`: post the prompt, read the reply chunk by chunk, split each chunk into
     * lines, and append the content of the payloads in order, updating the streaming message
     * after each one, until a payload has `done`.
     */
    method StreamFromLettuce(server: string -> FetchOutcome, prompt: string, currentId: string, parse: string -> Payload)
      returns (r: Result<string>)
      modifies this
      ensures r == StreamResult(server(prompt), parse)
      ensures messages == StreamedMessages(old(messages), currentId, server(prompt), parse)
      ensures isTyping == (if Finished(server(prompt), parse) then false else old(isTyping))
      ensures streamingMessageId == (if Finished(server(prompt), parse) then None else old(streamingMessageId))
    {
      var response := server(prompt);
      if response.NetworkFailure? {
        return Err(response.message);
      }
      if !response.ok {
        return Err("HTTP error! status: " + NatToString(response.status));
      }
      if response.body.None? {
        return Err("No response body");
      }
      r := ReadBody(response.body.value, currentId, parse);
    }

    /** The `while` loop over `reader.read()`, and what the function returns after it. */
    method ReadBody(body: Body, currentId: string, parse: string -> Payload) returns (r: Result<string>)
      modifies this
      ensures r == (if !Decode(LinesOf(body.chunks), parse).done && body.failure.Some? then Err(body.failure.value)
                    else Ok(Decode(LinesOf(body.chunks), parse).content))
      ensures messages == Streamed(old(messages), currentId, Decode(LinesOf(body.chunks), parse))
      ensures isTyping == (if Decode(LinesOf(body.chunks), parse).done then false else old(isTyping))
      ensures streamingMessageId == (if Decode(LinesOf(body.chunks), parse).done then None else old(streamingMessageId))
    {
      var chunks := body.chunks;
      var fullContent := "";
      var k := 0;
      ghost var seen: seq<string> := [];
      while k < |chunks|
        invariant 0 <= k <= |chunks|
        invariant seen == LinesOf(chunks[..k])
        invariant Decode(seen, parse) == Decoded(fullContent, false, "")
        invariant messages == Streamed(old(messages), currentId, Decoded(fullContent, false, ""))
        invariant isTyping == old(isTyping) && streamingMessageId == old(streamingMessageId)
      {
        var finished;
        ghost var j;
        fullContent, finished, j := ReadChunk(chunks[k], currentId, parse, old(messages), seen, fullContent);
        if finished {
          DecodeStopsEarly(chunks, k, j, parse);
          assert Decode(LinesOf(chunks), parse) == Decode(seen + SplitLines(chunks[k])[..j + 1], parse);
          return Ok(fullContent);
        }
        LinesOfPrefix(chunks, k);
        seen := seen + SplitLines(chunks[k]);
        k := k + 1;
      }
      assert chunks[..k] == chunks;
      if body.failure.Some? {
        return Err(body.failure.value);
      }
      return Ok(fullContent);
    }
  }
}
