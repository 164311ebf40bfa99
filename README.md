# A verified model of the calhacks12 learning platform's core rules

The platform turns a topic into a tree of skills. Each skill has learning resources and a quiz. A chat assistant answers questions about the topic, and the answer is streamed from an agent.

This project models the parts of the platform that are rules rather than presentation or SDK calls, one Dafny module per source file:

- **Skill-tree flattener** (`SkillTreeGenerator`). A class with the generator's four mutable fields: `nodeCounter`, `nodes`, `edges` and `processedTopics`. Its methods are proved against fold functions over a `Walk` record. Lemmas about those functions prove the walk's invariants:
  - ids "1", "2", … are distinct;
  - every edge points from an earlier real node to the node just made;
  - only the first node has type "input";
  - real topics are distinct;
  - placeholders are added only above the last level;
  - depth 0 gives an empty result.
- **Streamed reply decoder** (`StreamProtocol`, `ChatSession`, `Chat`, `TopicChatbot`, `StreamingTest`).
  - Each read is split into lines. Only non-blank `data: ` lines are parsed.
  - Non-empty `content` fields accumulate in order until the first `done`.
  - Malformed payloads are skipped, and so are payloads carrying `error`.
  - The read loops are methods over a `ChatSession` or `StreamingTest` object. They are proved equal to the `Decode` specification function.
  - The message-list updates touch only the message with the streaming id.
- **Frame encoder of the API route** (`LettaRoute`): request validation and the `data: …\n\n` frames. The round-trip lemmas show that the decoder gets back exactly the text parts from the frames. This holds however the frames are grouped into reads.
- **Quiz state machines** (`TopicQuiz`, `NodeDetailModal`, `QuizScoring`): navigation bounds, answers stored per index, score, rounded percentage and the pass mark of 70.
- **Goals skill trees** (`HierarchicalSkillTree`, `SkillTree`, `SkillLinks`, `SkillStatus`): the root data list, the parent/children hierarchy, the expanded-set toggle, the related-link filter and the status tables.
- **Backend helpers** (`LettaLlm`, `CourseAgent`, `EnhancedCourseAgent`, `StructuredJsonExample`):
  - content-part text;
  - the last user turn;
  - word deltas and the usage chunk;
  - quiz field cleaning;
  - JSON extraction from agent replies;
  - required-field validation;
  - file names;
  - the two recursive tree builders, with the agent as an oracle function.
- **Small pure rules**: `ChartAreaInteractive` (date window), `TopicResources` (type lookups), `AppSidebar` (active routes) and `AgentState` (goal list).

Shared helpers:

- `Wrappers`: Option and Result.
- `Text`: JS and Python whitespace, trimming, `split('\n')`, `split()`, join, replace, lower-casing, find/rfind and decimal rendering.
- `Json`: an abstract JSON value with Python and JS truthiness.
- `Seqs`: map and first-match.

Non-deterministic or foreign inputs are parameters. These are JSON parsing and stringifying, the LLM and agent calls, `fetch`, `str()` of a non-string and uuids.

A payload carrying `error` does not abort the stream. In all three components (chat.tsx, topic-chatbot.tsx, streaming-test.tsx) the `throw` sits inside the `try` whose `catch` continues the read loop, so the payload is skipped, its `done` flag included.

## Model

| member | source | states |
|---|---|---|
| AgentState.Latest | agent/state.py:27-33 | the latest goal is None exactly when there are no goals, and otherwise it is the last goal |
| AgentState.LatestOfAdded | agent/state.py:23-33 | right after a goal is appended, it is the latest goal |
| AgentState.AgentState.constructor | agent/state.py:21 | a new state has no goals |
| AgentState.AgentState.WithGoals | agent/state.py:21 | a new state given a goal list holds exactly those goals |
| AgentState.AgentState.AddGoal | agent/state.py:23-25 | the goal is appended at the end: the length grows by one, earlier goals are unchanged, and the new goal is the latest |
| AgentState.AgentState.GetLatestGoal | agent/state.py:27-33 | returns None iff there are no goals, otherwise the last one; it modifies nothing |
| AppSidebar.NavMain | frontend/src/components/sidebar/app-sidebar.tsx:28-47 | exactly three items, in order: Dashboard /dashboard, Topics /topic, Goal /goal |
| AppSidebar.ActiveRules | frontend/src/components/sidebar/app-sidebar.tsx:33-45 | Dashboard is active iff the path is "/dashboard"; Topics iff the path starts with "/topic"; Goal iff the path is "/goal"; no two items are active at once |
| AppSidebar.AtMostOneActive | frontend/src/components/sidebar/app-sidebar.tsx:33-45 | the set of active items has at most one element |
| ChartAreaInteractive.InitialWindow | frontend/src/components/chart-area-interactive.tsx:142-148 | the range starts as "90d", a 90-day window, and becomes "7d", a 7-day window, on a mobile device |
| ChartAreaInteractive.DaysToSubtract | frontend/src/components/chart-area-interactive.tsx:153-158 | "30d" gives 30 days, "7d" gives 7, and anything else gives 90 |
| ChartAreaInteractive.FilteredData | frontend/src/components/chart-area-interactive.tsx:150-162 | every kept row is from the data and is on or after the window start |
| ChartAreaInteractive.FilteredComplete | frontend/src/components/chart-area-interactive.tsx:150-162 | every row on or after the window start is kept |
| ChartAreaInteractive.FilteredIsSubsequence | frontend/src/components/chart-area-interactive.tsx:150 | the filtered data is an order-preserving subsequence of the chart data |
| ChartAreaInteractive.FilterNarrower | frontend/src/components/chart-area-interactive.tsx:153-161 | filtering a wide window by a narrower one equals filtering by the narrower one |
| ChartAreaInteractive.NestedWindows | frontend/src/components/chart-area-interactive.tsx:153-161 | the 7d result is a subsequence of the 30d result, which is a subsequence of the 90d result |
| ChartAreaInteractive.WindowEnds | frontend/src/components/chart-area-interactive.tsx:152-161 | the reference day 2024-06-30 is always shown; a day more than 90 days earlier never is |
| ChartAreaInteractive.StartDays | frontend/src/components/chart-area-interactive.tsx:152-161 | the windows start on 2024-06-23, 2024-05-31 and 2024-04-01 |
| StreamProtocol.BlankIffTrimsToEmpty | frontend/src/components/chatbox/chat.tsx:130 | a line is blank (all JS whitespace) iff `trim()` makes it empty |
| StreamProtocol.StepOf | frontend/src/components/chatbox/chat.tsx:130-165 | a non-data line, a malformed payload and a payload with `error` are skipped; an error-free payload with `done` finishes and one without appends, each carrying that payload's content; a step finishes only on such a `done` payload |
| StreamProtocol.Decode | frontend/src/components/chatbox/chat.tsx:122-169 | a decode that has not finished has no final delta |
| StreamProtocol.DecodeAppend | frontend/src/components/chatbox/chat.tsx:122-167 | decoding two line lists in a row is decoding the first; if it finished, that is the result, otherwise the content of the second is appended |
| StreamProtocol.SkippedLineIrrelevant | frontend/src/components/chatbox/chat.tsx:130-165 | a skipped line (non-data, malformed or error payload) changes nothing, wherever it occurs |
| StreamProtocol.DoneIgnoresRest | frontend/src/components/chatbox/chat.tsx:157-161 | after a `done` payload, further lines change nothing |
| StreamProtocol.DecodeStopsEarly | frontend/src/components/chatbox/chat.tsx:157-161 | if the stream is done at line j of read k, the whole stream decodes to the prefix up to that line |
| StreamProtocol.LinesOfConcat | frontend/src/components/chatbox/chat.tsx:122-128 | the lines of a stream are the lines of its reads, each read split on its own |
| ChatSession.SetContent | frontend/src/components/chatbox/chat.tsx:143-153 | the length is unchanged, messages with another id are unchanged, and the message with the id gets the content and streaming flag |
| ChatSession.MarkFailed | frontend/src/components/chatbox/chat.tsx:225-240 | only the message with the id changes: it gets the fallback text, is no longer streaming, and carries the error |
| ChatSession.SetContentTwice | frontend/src/components/chatbox/chat.tsx:143-153 | the last content update wins |
| ChatSession.MarkFailedHidesStreaming | frontend/src/components/chatbox/chat.tsx:143-240 | marking a message failed erases any streamed content it had |
| ChatSession.Reading | frontend/src/components/chatbox/chat.tsx:99-117 | the body is read iff the fetch succeeded with an OK status and a body |
| ChatSession.StreamResult | frontend/src/components/chatbox/chat.tsx:99-169 | a transport failure, a bad status ("HTTP error! status: N") and a missing body ("No response body") are errors; a finished stream returns the content; an unfinished one returns it unless the reader failed |
| ChatSession.StreamedTouchesOnlyId | frontend/src/components/chatbox/chat.tsx:143-153 | streaming keeps the list length and every message with another id |
| ChatSession.StreamedShowsResult | frontend/src/components/chatbox/chat.tsx:139-155 | a non-empty streamed result is the content of the message being streamed |
| ChatSession.AfterSendShape | frontend/src/components/chatbox/chat.tsx:180-245 | an accepted send appends the trimmed user message and the assistant message; the latter no longer streams and shows the reply, or the fallback text with the error |
| ChatSession.ChatSession.constructor | frontend/src/components/chatbox/chat.tsx:44-57 | one greeting message, not typing, no streaming id |
| ChatSession.ChatSession.ApplyPayload | frontend/src/components/chatbox/chat.tsx:139-161 | a well-formed payload adds its content; a `done` payload stops typing and clears the streaming id; an error payload changes nothing |
| ChatSession.ChatSession.ReadLine | frontend/src/components/chatbox/chat.tsx:129-165 | one line performs exactly the step `StepOf` gives for it |
| ChatSession.ChatSession.ReadChunk | frontend/src/components/chatbox/chat.tsx:126-166 | the loop over one read's lines equals `Decode` over them, stopping at the first `done` line |
| ChatSession.ChatSession.ReadBody | frontend/src/components/chatbox/chat.tsx:122-169 | the read loop leaves the messages as `Decode` of all the lines says, and returns the content, or the reader's failure if it failed before `done` |
| ChatSession.ChatSession.StreamFromLettuce | frontend/src/components/chatbox/chat.tsx:95-174 | returns `StreamResult` and leaves the messages as `StreamedMessages`; typing stops only if the stream finished |
| Chat.HandleSend | frontend/src/components/chatbox/chat.tsx:176-248 | blank input or a send while typing changes nothing; otherwise the list is `AfterSend` of the trimmed text, typing is false and the streaming id is cleared |
| Chat.Send | frontend/src/components/chatbox/chat.tsx:180-245 | the list becomes `AfterSend`, and the `finally` clears typing and the streaming id on every path |
| Chat.HandleReset | frontend/src/components/chatbox/chat.tsx:250-262 | exactly the greeting message remains, not typing, no streaming id |
| Chat.RouteReplyShown | frontend/src/components/chatbox/chat.tsx:95-245 | a reply framed by the route is decoded to the concatenated text parts and shown in the assistant message |
| Chat.RouteFailureNotReported | frontend/src/components/chatbox/chat.tsx:130-169 | when the route ends with an error frame, the chat still returns the text parts as success, never finished by `done` |
| TopicChatbot.GreetingMentionsTopic | frontend/src/components/topic-page/topic-chatbot.tsx:252-262 | the greeting names the topic twice |
| TopicChatbot.PromptLines | frontend/src/components/topic-page/topic-chatbot.tsx:100-112 | the context prompt has thirteen lines |
| TopicChatbot.PromptCarriesContext | frontend/src/components/topic-page/topic-chatbot.tsx:100-112 | the prompt contains "User Question: " then the user text, the summary, and each list field joined with ", " |
| TopicChatbot.PromptLinesRoundTrip | frontend/src/components/topic-page/topic-chatbot.tsx:100-112 | when no field holds a newline, splitting the prompt on newlines gives back its lines; line 10 is the user question |
| TopicChatbot.StreamFromLettuce | frontend/src/components/topic-page/topic-chatbot.tsx:98-187 | the same decoder as the main chat, sent the context prompt |
| TopicChatbot.HandleSend | frontend/src/components/topic-page/topic-chatbot.tsx:189-249 | the same guard and appends as the main chat; typing stops only when the stream delivered `done` or failed, since there is no `finally` |
| TopicChatbot.Send | frontend/src/components/topic-page/topic-chatbot.tsx:193-247 | the list becomes `AfterSend`; typing and the streaming id stay set unless the reply settled |
| TopicChatbot.HandleReset | frontend/src/components/topic-page/topic-chatbot.tsx:252-263 | exactly one greeting that mentions the topic remains |
| TopicChatbot.RouteReplySettles | frontend/src/components/topic-page/topic-chatbot.tsx:141-187 | a successful route reply settles the chat |
| TopicChatbot.RouteFailureLeavesTyping | frontend/src/components/topic-page/topic-chatbot.tsx:141-187 | a route reply ending in an error frame leaves the chat typing |
| StreamingTest.Shown | frontend/src/components/streaming-test.tsx:12-78 | errors before reading, or a reader failure before `done`, are shown and stop the spinner; `done` stops it; a reply without `done` leaves it spinning; the text is the decoded content |
| StreamingTest.StreamingTest.constructor | frontend/src/components/streaming-test.tsx:8-10 | not streaming, no text, no error |
| StreamingTest.StreamingTest.ReadLine | frontend/src/components/streaming-test.tsx:46-71 | one line performs the `StepOf` step; the shown text is the content so far |
| StreamingTest.StreamingTest.ReadChunk | frontend/src/components/streaming-test.tsx:44-72 | the loop over one read equals `Decode` up to the first `done` |
| StreamingTest.StreamingTest.ReadBody | frontend/src/components/streaming-test.tsx:41-77 | the text is the decoded content; streaming stays on only without `done` and without a failure |
| StreamingTest.StreamingTest.TestStreaming | frontend/src/components/streaming-test.tsx:12-78 | the page ends as `Shown` of the server's reply |
| StreamingTest.RouteReplyShown | frontend/src/components/streaming-test.tsx:41-73 | a successful route reply ends with the text parts shown and streaming off |
| StreamingTest.RouteFailureKeepsStreaming | frontend/src/components/streaming-test.tsx:41-73 | a route reply ending in an error frame leaves `isStreaming` true |
| LettaRoute.Validate | frontend/src/app/api/letta/route.ts:20-117 | an unreadable body gives 500; a falsy prompt gives 400 "Prompt is required" before the agent id is looked at; a falsy agent id gives 400 "Agent ID is required"; otherwise the stream starts with the prompt |
| LettaRoute.TextObjects | frontend/src/app/api/letta/route.ts:56-60 | one text frame per part, in order |
| LettaRoute.StreamObjects | frontend/src/app/api/letta/route.ts:52-95 | the text frames come first, in order; a tool-call frame follows only when there are tool calls and no failure; exactly one terminal frame ends the stream, the final frame or the error frame |
| LettaRoute.Frames | frontend/src/app/api/letta/route.ts:56-90 | each object becomes `data: ` + its JSON + a blank line |
| LettaRoute.Start | frontend/src/app/api/letta/route.ts:52-95 | the loop enqueues exactly the frames of `StreamObjects` |
| LettaRoute.ChunksOf | frontend/src/app/api/letta/route.ts:52-95 | one read per group of frames |
| LettaRoute.SplitFrames | frontend/src/app/api/letta/route.ts:56-90 | splitting concatenated frames on newlines gives each data line followed by a blank line |
| LettaRoute.DecodeChunks | frontend/src/app/api/letta/route.ts:52-95 | however the frames are grouped into reads, decoding the reads equals decoding the frame lines |
| LettaRoute.DecodeTextFrames | frontend/src/app/api/letta/route.ts:56-60 | the text frames decode to the concatenated parts, unfinished |
| LettaRoute.DecodeClosing | frontend/src/app/api/letta/route.ts:63-79 | the tool-call frame adds nothing; the final frame finishes with no content |
| LettaRoute.DecodeFailedClosing | frontend/src/app/api/letta/route.ts:81-93 | the error frame is skipped, `done` included |
| LettaRoute.RoundTrip | frontend/src/app/api/letta/route.ts:52-95 | a successful stream decodes to the concatenated text parts, finished |
| LettaRoute.RoundTripFailure | frontend/src/app/api/letta/route.ts:52-95 | a failed stream decodes to the text parts sent before the failure, unfinished |
| QuizScoring.CorrectAnswers | frontend/src/components/topic-page/topic-quiz.tsx:72-77 | the `correct_answer` of each question, one per question, in order; shared by the topic quiz and the goal dialog (node-detail-modal.tsx:73-77) |
| QuizScoring.Score | frontend/src/components/topic-page/topic-quiz.tsx:72-77 | the score never exceeds the number of questions |
| QuizScoring.ScoreCountsMatching | frontend/src/components/topic-page/topic-quiz.tsx:72-77 | the score is the number of indices whose answer equals the correct one |
| QuizScoring.ScoreFullIff | frontend/src/components/topic-page/topic-quiz.tsx:72-77 | a full score means every question is answered correctly, and conversely |
| QuizScoring.CountScore | frontend/src/components/topic-page/topic-quiz.tsx:72-77 | the counting loop computes the score |
| QuizScoring.Percent | frontend/src/components/topic-page/topic-quiz.tsx:110 | the percentage is score·100/n rounded half up, and at most 100 |
| QuizScoring.PassedIff | frontend/src/components/topic-page/topic-quiz.tsx:111 | a rounded percentage of at least 70 means 200·score ≥ 139·n |
| QuizScoring.PercentExtremes | frontend/src/components/topic-page/topic-quiz.tsx:110 | all right gives 100, none right gives 0 |
| TopicQuiz.AnswerSelect | frontend/src/components/topic-page/topic-quiz.tsx:54-62 | only the answer at the current question is set or overwritten; every other field is unchanged |
| TopicQuiz.HandleNext | frontend/src/components/topic-page/topic-quiz.tsx:64-85 | the `forEach` score loop gives the `Next` transition |
| TopicQuiz.TransitionsKeepValid | frontend/src/components/topic-page/topic-quiz.tsx:34-103 | the initial state, every transition and restart keep 0 ≤ current question ≤ n−1 |
| TopicQuiz.NextMovesOrFinishes | frontend/src/components/topic-page/topic-quiz.tsx:64-85 | before the last question Next advances by one; at the last it keeps the index and shows results with the computed score; the answers are kept |
| TopicQuiz.NavigationRoundTrip | frontend/src/components/topic-page/topic-quiz.tsx:64-94 | Previous undoes Next before the last question, and Next undoes Previous after the first |
| TopicQuiz.PreviousEnabledIff | frontend/src/components/topic-page/topic-quiz.tsx:87-94 | the Previous button is enabled exactly when Previous changes the state |
| TopicQuiz.AnswerEnablesNext | frontend/src/components/topic-page/topic-quiz.tsx:54-62 | answering the current question enables Next; after a restart it is disabled |
| TopicQuiz.FinishedPassRule | frontend/src/components/topic-page/topic-quiz.tsx:110-111 | after finishing, the quiz is passed iff the rounded percentage is at least 70, and that percentage is at most 100 |
| NodeDetailModal.AnswerSelect | frontend/src/components/goals/node-detail-modal.tsx:54-59 | sets the answer for one index and leaves the others and `showResults` unchanged |
| NodeDetailModal.SubmitQuiz | frontend/src/components/goals/node-detail-modal.tsx:61-63 | shows results and keeps the answers |
| NodeDetailModal.ResetQuiz | frontend/src/components/goals/node-detail-modal.tsx:65-68 | clears all answers and hides results |
| NodeDetailModal.GetScore | frontend/src/components/goals/node-detail-modal.tsx:70-79 | 0 without questions; otherwise the number of matching answers, at most the number of questions |
| NodeDetailModal.GetScorePercentage | frontend/src/components/goals/node-detail-modal.tsx:81-84 | 0 without questions; NaN (None) for an empty list; otherwise the rounded percentage |
| NodeDetailModal.HandlersKeepKeysInRange | frontend/src/components/goals/node-detail-modal.tsx:54-68 | the handlers only store answers for indices of existing questions |
| NodeDetailModal.SubmitEnabledIff | frontend/src/components/goals/node-detail-modal.tsx:211 | submit is enabled iff every question has an answer |
| NodeDetailModal.ResetDisablesSubmit | frontend/src/components/goals/node-detail-modal.tsx:65-79 | after a reset, submit is disabled for a non-empty quiz and the score is 0 for every question list, or none |
| HierarchicalSkillTree.RootData | frontend/src/components/goals/hierarchical-skill-tree.tsx:40-57 | the list starts with the fixed root; every later item has another id and the root as parent |
| HierarchicalSkillTree.RootDataShape | frontend/src/components/goals/hierarchical-skill-tree.tsx:40-57 | after the root come exactly the skills with another id, in order, each re-parented to the root |
| HierarchicalSkillTree.BuildRootData | frontend/src/components/goals/hierarchical-skill-tree.tsx:40-57 | the push loop builds `RootData` |
| HierarchicalSkillTree.Registered | frontend/src/components/goals/hierarchical-skill-tree.tsx:65-75 | every item is registered with no children and depth 0 |
| HierarchicalSkillTree.LinkItem | frontend/src/components/goals/hierarchical-skill-tree.tsx:78-90 | linking never adds or removes a node |
| HierarchicalSkillTree.LinkAll | frontend/src/components/goals/hierarchical-skill-tree.tsx:78-90 | linking all items keeps the registered ids |
| HierarchicalSkillTree.BuildHierarchy | frontend/src/components/goals/hierarchical-skill-tree.tsx:60-93 | the two loops build `Hierarchy` |
| HierarchicalSkillTree.RegisterNodes | frontend/src/components/goals/hierarchical-skill-tree.tsx:65-75 | the first loop builds `Registered` |
| HierarchicalSkillTree.LinkNodes | frontend/src/components/goals/hierarchical-skill-tree.tsx:78-90 | the second loop builds `LinkAll` |
| HierarchicalSkillTree.LinkAllRoots | frontend/src/components/goals/hierarchical-skill-tree.tsx:80-89 | the roots are exactly the parentless items, in order |
| HierarchicalSkillTree.LinkAllChildren | frontend/src/components/goals/hierarchical-skill-tree.tsx:80-89 | a node's children are those of the items whose parent it is, appended in order |
| HierarchicalSkillTree.HierarchyShape | frontend/src/components/goals/hierarchical-skill-tree.tsx:60-93 | roots are the parentless items; each registered node's children are the items naming it; an item whose parent is missing is in neither |
| HierarchicalSkillTree.SingleRoot | frontend/src/components/goals/hierarchical-skill-tree.tsx:40-93 | with the root data there is exactly one root, at depth 0, whose children are the non-root skills in order, all at depth 1 |
| HierarchicalSkillTree.RootDataParentless | frontend/src/components/goals/hierarchical-skill-tree.tsx:40-57 | only the root is parentless in the root data |
| HierarchicalSkillTree.RootDataChildren | frontend/src/components/goals/hierarchical-skill-tree.tsx:40-57 | the items under the root are the non-root skills, in order |
| HierarchicalSkillTree.ToggleExpanded | frontend/src/components/goals/hierarchical-skill-tree.tsx:98-108 | the id is removed if present and added if absent; other ids are unchanged |
| HierarchicalSkillTree.ToggleTwice | frontend/src/components/goals/hierarchical-skill-tree.tsx:98-108 | toggling twice restores the set |
| HierarchicalSkillTree.RelatedNames | frontend/src/components/goals/hierarchical-skill-tree.tsx:268-287 | one entry per link touching the selected node |
| HierarchicalSkillTree.RelatedNamesSpec | frontend/src/components/goals/hierarchical-skill-tree.tsx:268-294 | each entry shows the other endpoint's name; every touching link is listed; the list is empty iff no link touches the node |
| SkillStatus.StatusTextCases | frontend/src/components/goals/hierarchical-skill-tree.tsx:110-138 | "Done"/"completed" give Completed; "In Process"/"in-progress" give In Progress; "not-started" gives Not Started; anything else gives Unknown |
| SkillStatus.ColorFollowsText | frontend/src/components/goals/skill-tree.tsx:25-53 | green iff Completed, yellow iff In Progress, gray for Not Started and Unknown |
| SkillLinks.Related | frontend/src/components/goals/skill-tree.tsx:124-132 | every listed link is one of the links and touches the id |
| SkillLinks.RelatedComplete | frontend/src/components/goals/skill-tree.tsx:124-132 | every link touching the id is listed |
| SkillLinks.RelatedAppend | frontend/src/components/goals/skill-tree.tsx:124-132 | the filter keeps the original order |
| SkillLinks.RelatedEmptyIff | frontend/src/components/goals/skill-tree.tsx:153-163 | "No related skills" shows iff no link touches the id |
| SkillLinks.OtherEnd | frontend/src/components/goals/skill-tree.tsx:134-143 | for a touching link, the result is the target when the source is selected, and the source otherwise |
| SkillLinks.Find | frontend/src/components/goals/skill-tree.tsx:144-146 | None iff no skill has the id; otherwise the first skill with it |
| SkillLinks.DisplayName | frontend/src/components/goals/skill-tree.tsx:144-150 | falls back to the raw id when no skill has it; any other result is the name of a skill with the id |
| SkillTree.Resolve | frontend/src/components/goals/skill-tree.tsx:126-131 | an endpoint resolves to itself if it is a string, or to the node's id if it is an object |
| SkillTree.ResolveAll | frontend/src/components/goals/skill-tree.tsx:126-131 | resolves every link, in order |
| SkillTree.RelatedLinksResolve | frontend/src/components/goals/skill-tree.tsx:123-132 | filtering the raw links equals filtering the resolved links |
| SkillTree.RelatedIds | frontend/src/components/goals/skill-tree.tsx:134-143 | one id per related link |
| SkillTree.RelatedSkillNames | frontend/src/components/goals/skill-tree.tsx:144-150 | one shown name per related id: the id itself when no skill has it, and otherwise either the id or the name of a skill with that id |
| SkillTree.RelatedIdsSpec | frontend/src/components/goals/skill-tree.tsx:123-163 | each id is the other endpoint of a touching link; every touching link is listed; the list is empty iff none touches |
| TopicResources.LookupsIgnoreCase | frontend/src/components/topic-page/topic-resources.tsx:20-50 | types equal up to case get the same icon and colour |
| TopicResources.TablesAgree | frontend/src/components/topic-page/topic-resources.tsx:20-50 | unknown types get gray and the book icon; the Video icon goes with purple, GraduationCap with blue, and FileText with orange |
| TopicResources.Render | frontend/src/components/topic-page/topic-resources.tsx:53-90 | a missing or empty list gives only the empty state; otherwise one card per resource, in order |
| LettaLlm.Collected | backend/src/backend/letta.py:173-182 | keeps string parts and the `text` of "text" dicts, in order, and nothing else |
| LettaLlm.JoinStrings | backend/src/backend/letta.py:182 | joining fails iff some collected value is not a string |
| LettaLlm.ToText | backend/src/backend/letta.py:169-185 | the loop computes `TextOf`: a string unchanged, a list's text parts joined (failing when one is not a string), a lone "text" dict's `text` entry as it stands, whatever its type, and otherwise `str(content)` |
| LettaLlm.ListTextSingle | backend/src/backend/letta.py:173-182 | a one-part list gives the part's own text: a string itself, a text dict's `text` (failing when it is not a string), anything else "" |
| LettaLlm.ListTextAppend | backend/src/backend/letta.py:173-182 | the text of a list is the text of its parts, concatenated in order, and fails when either half fails |
| LettaLlm.LastUserIndex | backend/src/backend/letta.py:157-167 | None iff no item has role "user"; otherwise the last such item |
| LettaLlm.LastUserIndexIs | backend/src/backend/letta.py:157-167 | the user item with no user item after it is the last user turn |
| LettaLlm.ExtractLastUserText | backend/src/backend/letta.py:157-167 | the reverse scan returns the value `_to_text` gives for the last user turn, or "" when there is none or the conversion raises |
| LettaLlm.FirstAssistant | backend/src/backend/letta.py:140-148 | None iff no message is an assistant message; otherwise the first one |
| LettaLlm.ReplyOf | backend/src/backend/letta.py:140-153 | the reply text is the first assistant message's content, None when empty or absent; usage counts default to 0 |
| LettaLlm.AskLetta | backend/src/backend/letta.py:112-155 | the reply is `ReplyOf` the server's response to the prompt |
| LettaLlm.Deltas | backend/src/backend/letta.py:94-99 | one delta per word, each but the last followed by one space |
| LettaLlm.DeltasJoin | backend/src/backend/letta.py:91-99 | the deltas concatenate to the words joined by single spaces |
| LettaLlm.DeltaChunks | backend/src/backend/letta.py:94-99 | one delta chunk per word, in order |
| LettaLlm.Run | backend/src/backend/letta.py:75-110 | the method computes `RunOutcome` |
| LettaLlm.SendDeltas | backend/src/backend/letta.py:94-99 | the emitting loop sends exactly the delta chunks |
| LettaLlm.RunChunks | backend/src/backend/letta.py:91-110 | one delta per word spelling the words joined by single spaces, then exactly one usage chunk, last; an empty reply sends only the usage chunk |
| LettaLlm.GuardCases | backend/src/backend/letta.py:81-82 | the guard passes exactly the strings with some non-whitespace; it fails with "Empty user message" exactly on falsy values and blank strings, and in `.strip()` exactly on truthy non-strings |
| LettaLlm.EmptyMessageNoRequest | backend/src/backend/letta.py:81-82 | a last user message the guard rejects fails with the guard's error whatever the server would say |
| LettaLlm.NoUserTurnFails | backend/src/backend/letta.py:81-82 | with no user turn the run fails with "Empty user message" before any request |
| LettaLlm.TextDictTurn | backend/src/backend/letta.py:81-184 | a lone "text" dict hands its `text` entry to the guard unchanged: falsy fails with "Empty user message", a truthy non-string fails in `.strip()` |
| LettaLlm.BadPartsTurn | backend/src/backend/letta.py:157-182 | a parts list whose join raises reads as "", so the run fails with "Empty user message" |
| Text.Words | backend/src/backend/letta.py:91 | `split()` gives non-empty words with no whitespace |
| CourseAgent.CleanShape | backend/src/backend/letta_agent/course_agent.py:69-88 | a cleaned field never starts with '+' or ' ', never ends with whitespace, and is a substring of the original |
| CourseAgent.CleanKeepsTabAfterPlus | backend/src/backend/letta_agent/course_agent.py:69-88 | cleaning is not idempotent: "+\tx" cleans to "\tx", which cleans to "x" |
| CourseAgent.ResourceOut | backend/src/backend/letta_agent/course_agent.py:53-62 | dict resources pass through unchanged; object resources become title/url/type |
| CourseAgent.QuestionOutClean | backend/src/backend/letta_agent/course_agent.py:64-88 | every emitted field is clean, and a key a dict lacks comes out as "" |
| CourseAgent.RunTool | backend/src/backend/letta_agent/course_agent.py:46-98 | topic, related topics and uuid pass through; resources and questions keep their count and order, each converted or cleaned |
| CourseAgent.GenerateSkillTreeRecursively | backend/src/backend/letta_agent/course_agent.py:307-347 | the recursive method builds `Tree`, and a failed call to the node agent anywhere aborts the build |
| CourseAgent.ChildrenPrefixFails | backend/src/backend/letta_agent/course_agent.py:332-342 | once building the children of a prefix of the related topics fails, building them all fails |
| CourseAgent.BranchFailureAborts | backend/src/backend/letta_agent/course_agent.py:322-342 | a failing branch for an unseen related topic below the last level leaves no children at all |
| CourseAgent.TotalAgentBuilds | backend/src/backend/letta_agent/course_agent.py:307-347 | when every call to the node agent succeeds, a tree is always built |
| CourseAgent.Topics | backend/src/backend/letta_agent/course_agent.py:332-342 | the topics of a list of nodes, in order |
| CourseAgent.ChildrenFollowRelated | backend/src/backend/letta_agent/course_agent.py:332-342 | below the last level, children are requested for the unseen related topics, in order, each researched; on the last level there are none |
| CourseAgent.StubWithoutAgent | backend/src/backend/letta_agent/course_agent.py:311-319 | past the depth limit, or for a processed topic, the result is a stub whatever the agent would answer |
| CourseAgent.TreeHeight | backend/src/backend/letta_agent/course_agent.py:311-342 | a tree built from depth d has at most max_depth − d researched levels |
| CourseAgent.TreePathsFresh | backend/src/backend/letta_agent/course_agent.py:322-342 | in a built tree no requested topic repeats along a root-to-leaf path, and no researched request was already processed |
| CourseAgent.SiblingsMayRepeat | backend/src/backend/letta_agent/course_agent.py:340 | because each child gets a copy of the set, sibling branches can repeat a topic |
| EnhancedCourseAgent.ErrorDict | backend/src/backend/letta_agent/enhanced_course_agent.py:189 | the fallback has `error` "Could not extract structured output" and the raw response |
| EnhancedCourseAgent.ExtractStructuredOutput | backend/src/backend/letta_agent/enhanced_course_agent.py:160-189 | the two scanning loops compute `Extract` |
| EnhancedCourseAgent.ScanToolReturns | backend/src/backend/letta_agent/enhanced_course_agent.py:164-174 | the first loop returns the first tool return that parses |
| EnhancedCourseAgent.ScanAssistantMessages | backend/src/backend/letta_agent/enhanced_course_agent.py:176-187 | the second loop returns the first assistant slice that parses |
| EnhancedCourseAgent.ToolReturnFirst | backend/src/backend/letta_agent/enhanced_course_agent.py:164-174 | the first non-empty tool return that parses is the result |
| EnhancedCourseAgent.AssistantFallback | backend/src/backend/letta_agent/enhanced_course_agent.py:176-187 | failing that, the first assistant message whose slice parses gives the result |
| EnhancedCourseAgent.ErrorWhenNothingParses | backend/src/backend/letta_agent/enhanced_course_agent.py:164-189 | the error dict is returned when nothing parses; otherwise it comes back only if some parse itself yields that dict |
| EnhancedCourseAgent.JsonSliceShape | backend/src/backend/letta_agent/enhanced_course_agent.py:180-184 | a slice exists iff the content has both '{' and '}'; it runs from the first '{' to the last '}' inclusive, and is empty when the last '}' comes before the first '{' |
| EnhancedCourseAgent.FirstThree | backend/src/backend/letta_agent/enhanced_course_agent.py:212 | at most the first three subtopics, in order |
| EnhancedCourseAgent.BuildBranchRecursively | backend/src/backend/letta_agent/enhanced_course_agent.py:194-220 | the recursive method builds `BuildBranch` |
| EnhancedCourseAgent.BranchTopics | backend/src/backend/letta_agent/enhanced_course_agent.py:210-214 | the topics of a list of branches, in order |
| EnhancedCourseAgent.BranchShape | backend/src/backend/letta_agent/enhanced_course_agent.py:197-220 | a branch is researched iff depth ≤ max_depth and the topic is unvisited; a researched branch's children are its first three subtopics, in order |
| EnhancedCourseAgent.ChildrenTopics | backend/src/backend/letta_agent/enhanced_course_agent.py:211-214 | one child per listed subtopic, in order |
| EnhancedCourseAgent.BranchHeight | backend/src/backend/letta_agent/enhanced_course_agent.py:197 | a branch built from depth d has at most max_depth − d + 1 researched levels |
| EnhancedCourseAgent.BranchPathsFresh | backend/src/backend/letta_agent/enhanced_course_agent.py:204-214 | no topic repeats along a path, and no researched branch was already visited |
| EnhancedCourseAgent.SkillTreeFilenameShape | backend/src/backend/letta_agent/enhanced_course_agent.py:227-232 | a given name is kept; otherwise the name is "structured_skill_tree_" + the topic slug + ".json", with "unknown" for a missing topic |
| EnhancedCourseAgent.FilenamesCollide | backend/src/backend/letta_agent/enhanced_course_agent.py:232 | a topic and its slug get the same default file name |
| EnhancedCourseAgent.BuiltTreeFilename | backend/src/backend/letta_agent/enhanced_course_agent.py:223-232 | a built tree is saved under its root topic's name |
| Text.SlugShape | backend/src/backend/letta_agent/enhanced_course_agent.py:232 | the slug has the topic's length, no space and no capital letter; spaces become '_' and other characters are lower-cased |
| StructuredJsonExample.MissingFrom | backend/examples/structured_json_example.py:241 | a field is reported missing iff it is required and absent |
| StructuredJsonExample.ValidateIff | backend/examples/structured_json_example.py:233-261 | validation passes iff all ten fields are present, `key_concepts` and `resources` are lists, and `estimated_hours` is an int (a bool counts) |
| StructuredJsonExample.MissingNone | backend/examples/structured_json_example.py:241-245 | nothing is reported missing iff all ten fields are present |
| StructuredJsonExample.ValidationOrder | backend/examples/structured_json_example.py:243-258 | missing fields are reported before any type check; the type checks go key_concepts, resources, estimated_hours |
| StructuredJsonExample.BoolPassesIntCheck | backend/examples/structured_json_example.py:256 | `True` passes as `estimated_hours`; 2.5 does not |
| StructuredJsonExample.ToolReturnsOverText | backend/examples/structured_json_example.py:158-187 | once a tool return parses, assistant messages placed in front change nothing |
| StructuredJsonExample.SaveResults | backend/examples/structured_json_example.py:264-272 | the loop writes exactly `SavedFiles` |
| StructuredJsonExample.SavedFilesExactly | backend/examples/structured_json_example.py:267-270 | a file is written exactly for each entry without "error", under the name from its topic, never more files than entries |
| StructuredJsonExample.AnalysisFilenameShape | backend/examples/structured_json_example.py:269 | the name is "structured_analysis_" + the slug + ".json", with no space |
| SkillTreeGenerator.GenerateJsonOutput | backend/src/backend/letta_agent/skill_tree_generator.py:150-164 | both lists are returned exactly as given |
| SkillTreeGenerator.FlowShape | backend/src/backend/letta_agent/skill_tree_generator.py:25-148 | max_depth ≤ 0 gives no nodes and no edges; otherwise the walk keeps all invariants, the first node is the root's topic, and node ids are pairwise distinct |
| SkillTreeGenerator.ProcessGood | backend/src/backend/letta_agent/skill_tree_generator.py:45-148 | processing a node keeps the invariants: consecutive ids, one input node first, one edge per later node from an earlier real node, distinct real topics, and labels |
| SkillTreeGenerator.ChildrenGood | backend/src/backend/letta_agent/skill_tree_generator.py:104-107 | processing the children in order keeps the invariants |
| SkillTreeGenerator.PlaceholdersGood | backend/src/backend/letta_agent/skill_tree_generator.py:110-146 | adding the placeholders keeps the invariants |
| SkillTreeGenerator.AddRootGood | backend/src/backend/letta_agent/skill_tree_generator.py:70-91 | the root alone satisfies the invariants |
| SkillTreeGenerator.AddNodeGood | backend/src/backend/letta_agent/skill_tree_generator.py:67-99 | placing a real node with a fresh topic under an earlier real node keeps the invariants and extends the lists |
| SkillTreeGenerator.AddPlaceholderGood | backend/src/backend/letta_agent/skill_tree_generator.py:121-146 | placing a placeholder under an earlier real node keeps the invariants and extends the lists |
| SkillTreeGenerator.IdsDistinct | backend/src/backend/letta_agent/skill_tree_generator.py:70-122 | ids "1", "2", … from the counter are pairwise distinct |
| SkillTreeGenerator.ProcessGrows | backend/src/backend/letta_agent/skill_tree_generator.py:45-148 | nodes are only appended, and a node that is not skipped adds at least one |
| SkillTreeGenerator.SkipIff | backend/src/backend/letta_agent/skill_tree_generator.py:58-67 | a node changes nothing iff its depth is at least max_depth or its topic is already processed; a skipped topic adds no node, no edge and none of its subtree |
| SkillTreeGenerator.PlaceholdersShape | backend/src/backend/letta_agent/skill_tree_generator.py:110-146 | at the last level or below there are no placeholders; above it there is one per related topic, in order, each labelled "<topic> (placeholder)", flagged, with empty lists and an edge from the leaf, and nothing is recursed into |
| SkillTreeGenerator.SkillTreeGenerator.constructor | backend/src/backend/letta_agent/skill_tree_generator.py:18-23 | counter 1, no nodes, no edges, nothing processed |
| SkillTreeGenerator.SkillTreeGenerator.GenerateReactFlowFormat | backend/src/backend/letta_agent/skill_tree_generator.py:25-43 | the fields are reset before the walk, so the result is `Flow` of the tree and max_depth alone |
| SkillTreeGenerator.SkillTreeGenerator.ProcessNode | backend/src/backend/letta_agent/skill_tree_generator.py:45-148 | the fields become `Process` of the old ones; the returned id is None iff the node is skipped, and otherwise the old counter's string |
| SkillTreeGenerator.SkillTreeGenerator.ProcessChildNodes | backend/src/backend/letta_agent/skill_tree_generator.py:104-107 | the fields become `ProcessChildren` of the old ones |
| SkillTreeGenerator.SkillTreeGenerator.AddPlaceholders | backend/src/backend/letta_agent/skill_tree_generator.py:110-146 | the fields become `Placeholders` of the old ones |

## Left out

- SDK and network calls are parameters (oracle functions). These are Letta agent and block creation, message posting, the OpenAI calls, `fetch` and `streamText`. The module-level orchestration run at import in course_agent.py is left out.
- `json.loads`/`json.dumps` and `JSON.parse`/`JSON.stringify` are parameters. The round-trip lemmas require that parsing a stringified frame gives its payload back, and that stringifying emits no newline.
- uuids, `nanoid` and `new Date()` timestamps are parameters or are omitted. Message ids are passed in. A `uuid` of `None` in the generator's output stands for a fresh `uuid4()`.
- `ReadableStream` and `TextDecoder` are abstracted: each `reader.read()` is one string. Lines are split per read with no carry-over, as in the code, so a frame split across reads is lost. UTF-8 decoding is not modelled.
- Async interleaving, React state batching and effects are not modelled: every handler is one atomic transition on the current state.
- QuizScoring.Percent: `Math.round((score / n) * 100)` is computed on doubles; the model rounds the exact ratio half up. The two agree for fewer than 40 questions. From 40 on, at a ratio whose exact percentage ends in .5 the double can fall just below it (23/40 gives 57.49999999999999), and the model's percentage is then one higher (58 against 57). The pass verdict at 70 agrees for every quiz of up to 3000 questions.
- NodeDetailModal.GetScorePercentage: uses QuizScoring.Percent, so it shares the one-higher gap at exact .5 ratios from 40 questions on.
- JS `Date` and time zones are not modelled. Dates are day ordinals, with the reference day 2024-06-30.
- `toLowerCase` and `lower()` are modelled as ASCII lower-casing only.
- Printing and logging are not modelled, nor are file writes. `save_results` and `save_skill_tree` give the names and contents they would write.
- `sendToLettuce` in chat.tsx is never called and is not modelled.
- `PUBLIC_AGENT_ID` is used at route.ts line 45 but declared nowhere. The `ReferenceError` is thrown while the argument of `streamText` is built, inside the outer `try`, before any stream exists. So as written, every request that passes validation gets a JSON 500 "Failed to setup stream: PUBLIC_AGENT_ID is not defined" from the outer `catch` (route.ts lines 104-116). LettaRoute.Validate returns `StartStream` there, and the model follows the intended stream.
- The random weather tool in route.ts is not modelled.
- AgentState.AgentState.WithGoals: the dataclass keeps the caller's list object, so later changes through either name show in both. The model copies the goals as a value, so this aliasing is not captured.
- `feild` and `defaul_factory` in state.py are typos. The model gives the intended dataclass meaning: a new state starts with an empty goal list.
- `buildHierarchy` keys nodes by object reference in places; the model uses ids throughout.
- NodeDetailModal.GetScorePercentage: the NaN of 0/0 for an empty question list is modelled as `None`.
- LettaLlm.ToText: the `TypeError` that `"".join` raises for a non-string `text` inside a parts list is `None`; the extraction reads it as "", as the source's `except` does. A lone "text" dict's non-string `text` is returned as it stands, and `_run`'s guard then fails with "Empty user message" when it is falsy and in `.strip()` when it is truthy.
- LettaLlm.Run: a truthy non-string reply content makes `.split()` raise; the model returns an `Err` for it. A missing `messages` list or usage object is treated as empty.
- EnhancedCourseAgent.Extract: only `JSONDecodeError` is modelled, as a parse that gives `None`. Other exceptions, and `json.loads` returning a non-dict, are not modelled. `str()` of a non-string tool return is a parameter.
- CourseAgent.Tree: a node's `topic` is the topic the builder requested. For a researched node the source returns the agent's own dict with `children` added, so its `"topic"` and `"uuid"` keys are whatever the agent answered. They are not tied to the requested topic, and a returned tree can repeat a `"topic"` value along a path ("Two pointers" answered as "Two Pointers").
- CourseAgent.GenerateSkillTreeRecursively: a failed call to the node agent is one `None`, which aborts the build. It covers `call_node_agent` finding no tool return (so `json.loads(None)` raises `TypeError`) and a reply that is not JSON (`JSONDecodeError`). Which exception is raised, and a reply that decodes to something other than a dict, are not modelled.
- EnhancedCourseAgent.BuildBranch: the research oracle gives each topic's analysis with `subtopics` as a list of strings.
- `research_topic_structured` and the agents' prompts are not modelled.
- StructuredJsonExample.SaveResults: the results are dicts of decoded JSON only.
- The `_extract_structured_output` of structured_json_example.py is the same code as the enhanced agent's and is modelled once, as `EnhancedCourseAgent.Extract`.
- SkillTreeGenerator: the input dict is decoded with the source's defaults already applied. A missing topic is "", missing lists are empty, and a missing uuid is `None`, which the output reads as a fresh `uuid4`. An explicit `null` uuid, which the source passes through as `None`, is conflated with a missing key.
- SkillTreeGenerator: node positions, always `{x: 0, y: 0}`, are not modelled. `generate_typescript_output`, a string serialiser built on `json.dumps`, is left out.
