/**
 * The main chat component (`chatbox/chat.tsx`): sending a message, which streams the reply
 * into an assistant placeholder, and resetting the conversation.
 */
module Chat {
  import opened Wrappers
  import opened Text
  import opened StreamProtocol
  import opened ChatSession
  import LettaRoute
  import Json

  const Greeting: string := "Hello! I'm your AI assistant powered by Letta. I can help you with questions, provide guidance, and have meaningful conversations. What would you like to know?"

  const FailureText: string := "I encountered an issue processing your request. This might be due to conflicting information or a temporary error. Please try again or rephrase your message."

  /** `handleSend`: blank input and input while typing are ignored; the rest is sent trimmed. */
  method HandleSend(s: ChatSession, value: string, userId: string, assistantId: string,
                    server: string -> FetchOutcome, parse: string -> Payload)
    modifies s
    ensures !Accepts(value, old(s.isTyping)) ==>
              s.messages == old(s.messages) && s.isTyping == old(s.isTyping) && s.streamingMessageId == old(s.streamingMessageId)
    ensures Accepts(value, old(s.isTyping)) ==>
              s.messages == AfterSend(old(s.messages), userId, JsTrim(value), assistantId, server(JsTrim(value)), parse, FailureText)
    ensures Accepts(value, old(s.isTyping)) ==> !s.isTyping && s.streamingMessageId.None?
  {
    if JsTrim(value) == "" || s.isTyping {
      return;
    }
    Send(s, JsTrim(value), userId, assistantId, server, parse);
  }

  /** The part of `handleSend` after the guard, for the trimmed text. */
  method Send(s: ChatSession, text: string, userId: string, assistantId: string,
              server: string -> FetchOutcome, parse: string -> Payload)
    modifies s
    ensures s.messages == AfterSend(old(s.messages), userId, text, assistantId, server(text), parse, FailureText)
    ensures !s.isTyping && s.streamingMessageId.None?
  {
    s.messages := s.messages + [ChatMessage(userId, text, User, None, None)];
    s.isTyping := true;
    s.messages := s.messages + [Placeholder(assistantId)];
    s.streamingMessageId := Some(assistantId);
    assert s.messages == Started(old(s.messages), userId, text, assistantId);
    var result := s.StreamFromLettuce(server, text, assistantId, parse);
    match result {
      case Ok(content) =>
        s.messages := SetContent(s.messages, assistantId, content, false);
      case Err(message) =>
        s.messages := MarkFailed(s.messages, assistantId, FailureText, message);
        s.isTyping := false;
        s.streamingMessageId := None;
    }
    // finally
    s.isTyping := false;
    s.streamingMessageId := None;
  }

  /** `handleReset`: one fresh greeting, and nothing being typed. */
  method HandleReset(s: ChatSession, greetingId: string)
    modifies s
    ensures s.messages == [ChatMessage(greetingId, Greeting, Assistant, None, None)]
    ensures !s.isTyping && s.streamingMessageId.None?
  {
    s.messages := [ChatMessage(greetingId, Greeting, Assistant, None, None)];
    s.isTyping := false;
    s.streamingMessageId := None;
  }

  /** The reply of the API route as the chat receives it: whole frames per read, no read error. */
  function RouteReply(groups: seq<seq<LettaRoute.FrameObject>>, stringify: LettaRoute.FrameObject -> string): FetchOutcome {
    Response(true, 200, Some(Body(LettaRoute.ChunksOf(groups, stringify), None)))
  }

  /**
   * End to end: when the route streams text parts and completes, the chat's stream resolves
   * with their concatenation after seeing `done`, and the assistant message shows it.
   */
  lemma RouteReplyShown(ms: seq<ChatMessage>, userId: string, text: string, assistantId: string,
                        parts: seq<string>, toolCalls: seq<Json.Json>, groups: seq<seq<LettaRoute.FrameObject>>,
                        stringify: LettaRoute.FrameObject -> string, parse: string -> Payload)
    requires LettaRoute.CodecAgrees(stringify, parse)
    requires LettaRoute.Flatten(groups) == LettaRoute.StreamObjects(parts, toolCalls, None)
    requires userId != assistantId
    requires forall i | 0 <= i < |ms| :: ms[i].id != assistantId
    ensures StreamResult(RouteReply(groups, stringify), parse) == Ok(Concat(parts))
    ensures Finished(RouteReply(groups, stringify), parse)
    ensures AfterSend(ms, userId, text, assistantId, RouteReply(groups, stringify), parse, FailureText)[|ms| + 1]
            == ChatMessage(assistantId, Concat(parts), Assistant, Some(false), None)
  {
    LettaRoute.RoundTrip(parts, toolCalls, groups, stringify, parse);
    AfterSendShape(ms, userId, text, assistantId, RouteReply(groups, stringify), parse, FailureText);
  }

  /**
   * When the route's iteration fails, its error frame is skipped: the chat's stream resolves
   * with the text before the failure, without `done` and without an error.
   */
  lemma RouteFailureNotReported(parts: seq<string>, message: string, groups: seq<seq<LettaRoute.FrameObject>>,
                                stringify: LettaRoute.FrameObject -> string, parse: string -> Payload)
    requires LettaRoute.CodecAgrees(stringify, parse)
    requires LettaRoute.Flatten(groups) == LettaRoute.StreamObjects(parts, [], Some(message))
    ensures StreamResult(RouteReply(groups, stringify), parse) == Ok(Concat(parts))
    ensures !Finished(RouteReply(groups, stringify), parse)
  {
    LettaRoute.RoundTripFailure(parts, message, groups, stringify, parse);
  }
}
