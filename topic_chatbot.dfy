/**
 * The topic page's chatbot (`topic-page/topic-chatbot.tsx`): the same message list and
 * streaming read as the main chat, a prompt that wraps the question in the topic's context,
 * and a `handleSend` without a `finally` block.
 */
module TopicChatbot {
  import opened Wrappers
  import opened Text
  import opened StreamProtocol
  import opened ChatSession
  import LettaRoute
  import Chat
  import Json

  /** The properties of the topic record that the prompt uses. */
  datatype TopicData = TopicData(summary: string, keyConcepts: seq<string>, difficultyLevel: string,
                                 prerequisites: seq<string>, currentTrends: seq<string>,
                                 careerApplications: seq<string>, subtopics: seq<string>)

  const FailureText: string := "I encountered an issue processing your request. Please try again or rephrase your message."

  const GreetingOpening: string := "Hello! I'm your AI assistant specialized in "
  const GreetingMiddle: string := ". I can help you understand key concepts, answer questions, and guide your learning journey. What would you like to know about "

  /** The greeting the conversation starts with and is reset to. */
  function Greeting(topic: string): string {
    GreetingOpening + topic + GreetingMiddle + topic + "?"
  }

  /** The greeting names the topic twice: in its first sentence and in its closing question. */
  lemma GreetingMentionsTopic(topic: string)
    ensures OccursAt(Greeting(topic), topic, |GreetingOpening|)
    ensures OccursAt(Greeting(topic), topic, |Greeting(topic)| - |topic| - 1)
  {
    var a, b := GreetingOpening, GreetingMiddle;
    InMiddle(a, topic, "");
    assert a + topic + "" == a + topic;
    OccursExtend(a + topic, topic, |a|, b);
    OccursExtend(a + topic + b, topic, |a|, topic);
    OccursExtend(a + topic + b + topic, topic, |a|, "?");
    InMiddle(a + topic + b, topic, "?");
  }

  const PromptOpening: string := "You are an expert AI assistant specializing in "
  const PromptClosing: string := "Please provide a helpful, accurate response that leverages your expertise in "
  const SubtopicsHint: string := ". If the user asks about related topics, feel free to suggest connections to the subtopics: "

  /** The lines of the template literal of the context prompt. */
  function PromptLines(topic: string, d: TopicData, userMessage: string): (r: seq<string>)
    ensures |r| == 13
  {
    [ PromptOpening + topic + ". ",
      "",
      "Topic Context:",
      "- Summary: " + d.summary,
      "- Key Concepts: " + Join(d.keyConcepts, ", "),
      "- Difficulty Level: " + d.difficultyLevel,
      "- Prerequisites: " + Join(d.prerequisites, ", "),
      "- Current Trends: " + Join(d.currentTrends, ", "),
      "- Career Applications: " + Join(d.careerApplications, ", "),
      "",
      "User Question: " + userMessage,
      "",
      PromptClosing + topic + SubtopicsHint + Join(d.subtopics, ", ") + "."
    ]
  }

  /** The prompt `streamFromLettuce` posts instead of the bare question. */
  function ContextPrompt(topic: string, d: TopicData, userMessage: string): string {
    Join(PromptLines(topic, d, userMessage), "\n")
  }

  /**
   * The prompt carries the question after "User Question: ", and each list property of the
   * topic joined with ", " after its label.
   */
  lemma PromptCarriesContext(topic: string, d: TopicData, userMessage: string)
    ensures HasSubstring(ContextPrompt(topic, d, userMessage), "User Question: " + userMessage)
    ensures HasSubstring(ContextPrompt(topic, d, userMessage), "- Summary: " + d.summary)
    ensures HasSubstring(ContextPrompt(topic, d, userMessage), "- Key Concepts: " + Join(d.keyConcepts, ", "))
    ensures HasSubstring(ContextPrompt(topic, d, userMessage), "- Prerequisites: " + Join(d.prerequisites, ", "))
    ensures HasSubstring(ContextPrompt(topic, d, userMessage), "- Current Trends: " + Join(d.currentTrends, ", "))
    ensures HasSubstring(ContextPrompt(topic, d, userMessage), "- Career Applications: " + Join(d.careerApplications, ", "))
  {
    var lines := PromptLines(topic, d, userMessage);
    JoinContains(lines, "\n", 10);
    JoinContains(lines, "\n", 3);
    JoinContains(lines, "\n", 4);
    JoinContains(lines, "\n", 6);
    JoinContains(lines, "\n", 7);
    JoinContains(lines, "\n", 8);
  }

  /**
   * When the question and the topic's texts are single lines, the question is exactly line
   * 10 of the prompt: the prompt splits back into the template's lines.
   */
  lemma PromptLinesRoundTrip(topic: string, d: TopicData, userMessage: string)
    requires forall i | 0 <= i < 13 :: '\n' !in PromptLines(topic, d, userMessage)[i]
    ensures SplitLines(ContextPrompt(topic, d, userMessage)) == PromptLines(topic, d, userMessage)
    ensures SplitLines(ContextPrompt(topic, d, userMessage))[10] == "User Question: " + userMessage
  {
    var lines := PromptLines(topic, d, userMessage);
    assert forall i | 0 <= i < |lines| :: '\n' !in lines[i];
    SplitJoin(lines);
  }

  /** `streamFromLettuce` of the topic chatbot: the shared read loop on the context prompt. */
  method StreamFromLettuce(s: ChatSession, server: string -> FetchOutcome, topic: string, data: TopicData,
                           userMessage: string, currentId: string, parse: string -> Payload)
    returns (r: Result<string>)
    modifies s
    ensures r == StreamResult(server(ContextPrompt(topic, data, userMessage)), parse)
    ensures s.messages == StreamedMessages(old(s.messages), currentId, server(ContextPrompt(topic, data, userMessage)), parse)
    ensures s.isTyping == (if Finished(server(ContextPrompt(topic, data, userMessage)), parse) then false else old(s.isTyping))
    ensures s.streamingMessageId ==
              (if Finished(server(ContextPrompt(topic, data, userMessage)), parse) then None else old(s.streamingMessageId))
  {
    var contextPrompt := ContextPrompt(topic, data, userMessage);
    r := s.StreamFromLettuce(server, contextPrompt, currentId, parse);
  }

  /**
   * Whether `handleSend` leaves the typing flags reset: the `catch` resets them, and on
   * success only a `done` payload inside the read loop does.
   */
  predicate Settles(outcome: FetchOutcome, parse: string -> Payload) {
    StreamResult(outcome, parse).Err? || Finished(outcome, parse)
  }

  /** `handleSend`: the same guard as the main chat. */
  method HandleSend(s: ChatSession, topic: string, data: TopicData, value: string, userId: string,
                    assistantId: string, server: string -> FetchOutcome, parse: string -> Payload)
    modifies s
    ensures !Accepts(value, old(s.isTyping)) ==>
              s.messages == old(s.messages) && s.isTyping == old(s.isTyping) && s.streamingMessageId == old(s.streamingMessageId)
    ensures Accepts(value, old(s.isTyping)) ==>
              s.messages == AfterSend(old(s.messages), userId, JsTrim(value), assistantId,
                                      server(ContextPrompt(topic, data, JsTrim(value))), parse, FailureText)
    ensures Accepts(value, old(s.isTyping)) ==>
              s.isTyping == !Settles(server(ContextPrompt(topic, data, JsTrim(value))), parse)
    ensures Accepts(value, old(s.isTyping)) ==>
              s.streamingMessageId == (if Settles(server(ContextPrompt(topic, data, JsTrim(value))), parse) then None else Some(assistantId))
  {
    if JsTrim(value) == "" || s.isTyping {
      return;
    }
    Send(s, topic, data, JsTrim(value), userId, assistantId, server, parse);
  }

  /**
   * The part of `handleSend` after the guard. Without a `finally` block, a reply that resolves
   * without `done` leaves the chatbot typing.
   */
  method Send(s: ChatSession, topic: string, data: TopicData, text: string, userId: string,
              assistantId: string, server: string -> FetchOutcome, parse: string -> Payload)
    modifies s
    ensures s.messages == AfterSend(old(s.messages), userId, text, assistantId,
                                    server(ContextPrompt(topic, data, text)), parse, FailureText)
    ensures s.isTyping == !Settles(server(ContextPrompt(topic, data, text)), parse)
    ensures s.streamingMessageId == (if Settles(server(ContextPrompt(topic, data, text)), parse) then None else Some(assistantId))
  {
    s.messages := s.messages + [ChatMessage(userId, text, User, None, None)];
    s.isTyping := true;
    s.messages := s.messages + [Placeholder(assistantId)];
    s.streamingMessageId := Some(assistantId);
    assert s.messages == Started(old(s.messages), userId, text, assistantId);
    var result := StreamFromLettuce(s, server, topic, data, text, assistantId, parse);
    match result {
      case Ok(content) =>
        s.messages := SetContent(s.messages, assistantId, content, false);
      case Err(message) =>
        s.messages := MarkFailed(s.messages, assistantId, FailureText, message);
        s.isTyping := false;
        s.streamingMessageId := None;
    }
  }

  /** `handleReset`: one fresh greeting, and nothing being typed. */
  method HandleReset(s: ChatSession, topic: string, greetingId: string)
    modifies s
    ensures s.messages == [ChatMessage(greetingId, Greeting(topic), Assistant, None, None)]
    ensures !s.isTyping && s.streamingMessageId.None?
  {
    s.messages := [ChatMessage(greetingId, Greeting(topic), Assistant, None, None)];
    s.isTyping := false;
    s.streamingMessageId := None;
  }

  /** A reply of the route that completes resets the flags: its final frame has `done`. */
  lemma RouteReplySettles(parts: seq<string>, toolCalls: seq<Json.Json>, groups: seq<seq<LettaRoute.FrameObject>>,
                          stringify: LettaRoute.FrameObject -> string, parse: string -> Payload)
    requires LettaRoute.CodecAgrees(stringify, parse)
    requires LettaRoute.Flatten(groups) == LettaRoute.StreamObjects(parts, toolCalls, None)
    ensures Settles(Chat.RouteReply(groups, stringify), parse)
  {
    LettaRoute.RoundTrip(parts, toolCalls, groups, stringify, parse);
  }

  /**
   * A reply of the route whose iteration failed does not: its error frame is skipped, the
   * stream resolves without `done`, and the chatbot keeps showing that it is typing.
   */
  lemma RouteFailureLeavesTyping(parts: seq<string>, message: string, groups: seq<seq<LettaRoute.FrameObject>>,
                                 stringify: LettaRoute.FrameObject -> string, parse: string -> Payload)
    requires LettaRoute.CodecAgrees(stringify, parse)
    requires LettaRoute.Flatten(groups) == LettaRoute.StreamObjects(parts, [], Some(message))
    ensures !Settles(Chat.RouteReply(groups, stringify), parse)
  {
    Chat.RouteFailureNotReported(parts, message, groups, stringify, parse);
  }
}
