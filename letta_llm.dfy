/**
 * The voice agent's language-model adapter (`backend/src/backend/letta.py`): it takes the
 * text of the last user turn, asks the Letta agent for a reply, and replays the reply as one
 * delta per word followed by a single usage chunk.
 *
 * Message contents are JSON-shaped values; Python's `str()` of a value that is neither text
 * nor a list of parts is the parameter `pyStr`. The HTTP request is the parameter `server`,
 * taking the prompt to the decoded response body, and the request id (a fresh UUID) is the
 * parameter `requestId`.
 */
module LettaLlm {
  import opened Wrappers
  import opened Text
  import opened Json

  /** One item of the chat context. */
  datatype ChatItem = ChatItem(role: string, content: Json)

  /** `{"type": "text", ...}`. */
  predicate IsTextDict(fields: map<string, Json>) {
    "type" in fields && fields["type"] == JStr("text")
  }

  /** `part.get("text", "")`. */
  function TextValue(fields: map<string, Json>): Json {
    if "text" in fields then fields["text"] else JStr("")
  }

  /** The values the loop of `_to_text` collects into `out`: strings, and the text of text dicts. */
  function Collected(parts: seq<Json>): (out: seq<Json>)
    ensures |out| <= |parts|
  {
    if parts == [] then []
    else
      var n := |parts| - 1;
      Collected(parts[..n]) +
        (match parts[n]
         case JStr(_) => [parts[n]]
         case JObject(fields) => if IsTextDict(fields) then [TextValue(fields)] else []
         case _ => [])
  }

  /** `"".join(out)`; `None` when a value is not a string, on which `join` raises `TypeError`. */
  function JoinStrings(out: seq<Json>): (r: Option<string>)
    ensures r.None? <==> exists i | 0 <= i < |out| :: !out[i].JStr?
  {
    if out == [] then Some("")
    else
      var n := |out| - 1;
      var init := JoinStrings(out[..n]);
      if init.Some? && out[n].JStr? then Some(init.value + out[n].s)
      else
        assert init.None? ==> exists i | 0 <= i < n :: !out[..n][i].JStr?;
        None
  }

  /** The text of a list of parts: the collected values joined, `None` when `join` raises. */
  function ListText(parts: seq<Json>): Option<string> {
    JoinStrings(Collected(parts))
  }

  /**
   * The value `_to_text` returns: a string unchanged, the joined texts of a list of parts,
   * the `text` entry of a single text dict as it stands (a string or not), and `str()` of
   * anything else. `None` stands for the `TypeError` of a list part whose text is not a string.
   */
  function TextOf(content: Json, pyStr: Json -> string): Option<Json> {
    match content
    case JStr(s) => Some(content)
    case JList(parts) => if ListText(parts).Some? then Some(JStr(ListText(parts).value)) else None
    case JObject(fields) => if IsTextDict(fields) then Some(TextValue(fields)) else Some(JStr(pyStr(content)))
    case _ => Some(JStr(pyStr(content)))
  }

  /** `_to_text`, collecting the parts of a list in a loop. */
  method ToText(content: Json, pyStr: Json -> string) returns (r: Option<Json>)
    ensures r == TextOf(content, pyStr)
  {
    if content.JStr? {
      return Some(content);
    }
    if content.JList? {
      var parts := content.items;
      var out: seq<Json> := [];
      for i := 0 to |parts|
        invariant out == Collected(parts[..i])
      {
        assert parts[..i + 1][..i] == parts[..i];
        var part := parts[i];
        if part.JStr? {
          out := out + [part];
        } else if part.JObject? {
          if IsTextDict(part.fields) {
            out := out + [TextValue(part.fields)];
          }
        }
      }
      assert parts[..|parts|] == parts;
      var joined := JoinStrings(out);
      return if joined.Some? then Some(JStr(joined.value)) else None;
    }
    if content.JObject? && IsTextDict(content.fields) {
      return Some(TextValue(content.fields));
    }
    return Some(JStr(pyStr(content)));
  }

  /** What one part contributes on its own: a string itself, a text dict its text, anything else nothing. */
  function PartText(part: Json): Option<string> {
    match part
    case JStr(s) => Some(s)
    case JObject(fields) =>
      if !IsTextDict(fields) then Some("")
      else if TextValue(fields).JStr? then Some(TextValue(fields).s)
      else None
    case _ => Some("")
  }

  lemma {:induction false} CollectedAppend(a: seq<Json>, b: seq<Json>)
    ensures Collected(a + b) == Collected(a) + Collected(b)
    decreases |b|
  {
    if b == [] {
      assert a + b == a;
    } else {
      var n := |b| - 1;
      assert (a + b)[..|a + b| - 1] == a + b[..n];
      CollectedAppend(a, b[..n]);
    }
  }

  lemma {:induction false} JoinStringsAppend(a: seq<Json>, b: seq<Json>)
    ensures JoinStrings(a + b) == if JoinStrings(a).Some? && JoinStrings(b).Some?
                                  then Some(JoinStrings(a).value + JoinStrings(b).value) else None
    decreases |b|
  {
    if b == [] {
      assert a + b == a;
      if JoinStrings(a).Some? {
        assert JoinStrings(a).value + "" == JoinStrings(a).value;
      }
    } else {
      var n := |b| - 1;
      assert (a + b)[..|a + b| - 1] == a + b[..n];
      assert (a + b)[|a + b| - 1] == b[n];
      JoinStringsAppend(a, b[..n]);
      var ja, jb := JoinStrings(a), JoinStrings(b[..n]);
      if ja.Some? && jb.Some? && b[n].JStr? {
        assert JoinStrings(a + b) == Some((ja.value + jb.value) + b[n].s);
        assert JoinStrings(b) == Some(jb.value + b[n].s);
        assert (ja.value + jb.value) + b[n].s == ja.value + (jb.value + b[n].s);
      }
    }
  }

  /**
   * A list of parts is read part by part, in order: the text of `a + b` is the text of `a`
   * followed by that of `b`, and a single part gives its own text. A part whose text is not a
   * string makes the whole conversion fail.
   */
  lemma ListTextAppend(a: seq<Json>, b: seq<Json>)
    ensures ListText(a + b) ==
              if ListText(a).Some? && ListText(b).Some? then Some(ListText(a).value + ListText(b).value) else None
  {
    CollectedAppend(a, b);
    JoinStringsAppend(Collected(a), Collected(b));
  }

  lemma ListTextSingle(part: Json)
    ensures ListText([part]) == PartText(part)
  {
    CollectedSingle(part);
    if part.JStr? {
      JoinStringsSingle(part);
    } else if part.JObject? && IsTextDict(part.fields) {
      JoinStringsSingle(TextValue(part.fields));
    }
  }

  lemma JoinStringsSingle(v: Json)
    ensures JoinStrings([v]) == if v.JStr? then Some(v.s) else None
  {
    assert [v][..0] == [];
    if v.JStr? {
      assert "" + v.s == v.s;
    }
  }

  /** The value a single part leaves in `out`, if any. */
  lemma CollectedSingle(part: Json)
    ensures part.JStr? ==> Collected([part]) == [part]
    ensures part.JObject? && IsTextDict(part.fields) ==> Collected([part]) == [TextValue(part.fields)]
    ensures !part.JStr? && !(part.JObject? && IsTextDict(part.fields)) ==> Collected([part]) == []
  {
    assert [part][..0] == [];
  }

  /** The index of the last item with role "user". */
  function LastUserIndex(items: seq<ChatItem>): (r: Option<nat>)
    ensures r.None? <==> forall j | 0 <= j < |items| :: items[j].role != "user"
    ensures r.Some? ==> r.value < |items| && items[r.value].role == "user" &&
                        forall j | r.value < j < |items| :: items[j].role != "user"
  {
    if items == [] then None
    else
      var n := |items| - 1;
      if items[n].role == "user" then Some(n)
      else
        var r := LastUserIndex(items[..n]);
        assert forall j | 0 <= j < n :: items[..n][j] == items[j];
        r
  }

  /**
   * What `_extract_last_user_text` returns: the value `_to_text` gives for the last user item,
   * and "" when there is none or the conversion raises.
   */
  function LastUserMessage(items: seq<ChatItem>, pyStr: Json -> string): Json {
    match LastUserIndex(items)
    case None => JStr("")
    case Some(i) => TextOf(items[i].content, pyStr).GetOr(JStr(""))
  }

  /** The last user item is the one a scan from the back meets first. */
  lemma {:induction false} LastUserIndexIs(items: seq<ChatItem>, i: nat)
    requires i < |items| && items[i].role == "user"
    requires forall j | i < j < |items| :: items[j].role != "user"
    ensures LastUserIndex(items) == Some(i)
  {
    var n := |items| - 1;
    if i < n {
      assert items[..n][i] == items[i];
      LastUserIndexIs(items[..n], i);
    }
  }

  /** `_extract_last_user_text`: scan from the back; a failed conversion reads as "". */
  method ExtractLastUserText(items: seq<ChatItem>, pyStr: Json -> string) returns (r: Json)
    ensures r == LastUserMessage(items, pyStr)
  {
    var i := |items|;
    while i > 0
      invariant 0 <= i <= |items|
      invariant forall j | i <= j < |items| :: items[j].role != "user"
    {
      i := i - 1;
      if items[i].role == "user" {
        LastUserIndexIs(items, i);
        var text := ToText(items[i].content, pyStr);
        return text.GetOr(JStr(""));
      }
    }
    return JStr("");
  }

  /** The decoded body of the agent's reply; a missing list or object is read as empty. */
  datatype LettaResponse = LettaResponse(messages: seq<map<string, Json>>, usage: map<string, Json>)

  /** The three token counts, each 0 when missing. */
  datatype Usage = Usage(completionTokens: Json, promptTokens: Json, totalTokens: Json)

  function Field(fields: map<string, Json>, key: string, default: Json): Json {
    if key in fields then fields[key] else default
  }

  function UsageOf(usage: map<string, Json>): Usage {
    Usage(Field(usage, "completion_tokens", JInt(0)), Field(usage, "prompt_tokens", JInt(0)),
          Field(usage, "total_tokens", JInt(0)))
  }

  predicate IsAssistant(msg: map<string, Json>) {
    "message_type" in msg && msg["message_type"] == JStr("assistant_message")
  }

  /** The index of the first assistant message. */
  function FirstAssistant(messages: seq<map<string, Json>>): (r: Option<nat>)
    ensures r.None? <==> forall j | 0 <= j < |messages| :: !IsAssistant(messages[j])
    ensures r.Some? ==> r.value < |messages| && IsAssistant(messages[r.value]) &&
                        forall j | 0 <= j < r.value :: !IsAssistant(messages[j])
  {
    if messages == [] then None
    else if IsAssistant(messages[0]) then Some(0)
    else
      var r := FirstAssistant(messages[1..]);
      assert forall j | 0 <= j < |messages| - 1 :: messages[1..][j] == messages[j + 1];
      if r.Some? then Some(r.value + 1) else None
  }

  /** What `ask_letta` returns. */
  datatype Reply = Reply(assistantMessage: Option<Json>, fullMessage: Option<map<string, Json>>, usage: Usage)

  /**
   * The reply of `ask_letta` for a response body: the content of the first assistant message
   * when it is truthy, otherwise nothing, and the usage with missing counts at 0.
   */
  function ReplyOf(response: LettaResponse): (r: Reply)
    ensures r.usage == UsageOf(response.usage)
    ensures r.fullMessage.None? <==> FirstAssistant(response.messages).None?
    ensures r.fullMessage.Some? ==> r.fullMessage.value == response.messages[FirstAssistant(response.messages).value]
    ensures r.assistantMessage.Some? <==>
              r.fullMessage.Some? && PyTruthy(Field(r.fullMessage.value, "content", JStr("")))
    ensures r.assistantMessage.Some? ==> r.assistantMessage.value == Field(r.fullMessage.value, "content", JStr(""))
  {
    var first := FirstAssistant(response.messages);
    var full := if first.Some? then Some(response.messages[first.value]) else None;
    var content := if full.Some? then Some(Field(full.value, "content", JStr(""))) else None;
    Reply(if content.Some? && PyTruthy(content.value) then content else None, full, UsageOf(response.usage))
  }

  /** `ask_letta`: post the prompt, then scan the messages for the first assistant message. */
  method AskLetta(prompt: string, server: string -> LettaResponse) returns (r: Reply)
    ensures r == ReplyOf(server(prompt))
  {
    var response := server(prompt);
    var assistantMessage: Option<map<string, Json>> := None;
    var assistantContent: Option<Json> := None;
    var i := 0;
    while i < |response.messages|
      invariant 0 <= i <= |response.messages|
      invariant forall j | 0 <= j < i :: !IsAssistant(response.messages[j])
    {
      var msg := response.messages[i];
      if IsAssistant(msg) {
        assistantMessage := Some(msg);
        assistantContent := Some(Field(msg, "content", JStr("")));
        break;
      }
      i := i + 1;
    }
    assert i < |response.messages| ==> FirstAssistant(response.messages) == Some(i);
    var shown := if assistantContent.Some? && PyTruthy(assistantContent.value) then assistantContent else None;
    return Reply(shown, assistantMessage, UsageOf(response.usage));
  }

  /** A chunk sent on the event channel. */
  datatype Chunk = DeltaChunk(id: string, content: string) | UsageChunk(id: string, usage: Usage)

  /** The delta for word `i` of `words`: the word, followed by a space unless it is the last. */
  function Delta(words: seq<string>, i: nat): string
    requires i < |words|
  {
    words[i] + (if i < |words| - 1 then " " else "")
  }

  function Deltas(words: seq<string>): (r: seq<string>)
    ensures |r| == |words|
    ensures forall i | 0 <= i < |words| :: r[i] == Delta(words, i)
  {
    seq(|words|, i requires 0 <= i < |words| => Delta(words, i))
  }

  /** Played back in order, the deltas spell the words joined by single spaces. */
  lemma {:induction false} DeltasJoin(words: seq<string>)
    ensures Concat(Deltas(words)) == Join(words, " ")
    decreases |words|
  {
    if |words| >= 2 {
      DeltasJoin(words[1..]);
      assert Deltas(words)[1..] == Deltas(words[1..]);
      assert Deltas(words)[0] == words[0] + " ";
    } else if |words| == 1 {
      assert Deltas(words)[1..] == [];
    }
  }

  const EmptyUserMessage: string := "Empty user message"
  const NoStrip: string := "user message has no strip()"
  const NotText: string := "assistant content has no split()"

  /**
   * The guard `(message or "").strip()` of `_run`: a falsy message and a blank string fail
   * with "Empty user message", a truthy message that is not a string fails in `.strip()`,
   * and a string with some non-whitespace passes as the prompt.
   */
  function Guard(message: Json): Result<string> {
    if !PyTruthy(message) then Err(EmptyUserMessage)
    else if !message.JStr? then Err(NoStrip)
    else if PyStrip(message.s) == "" then Err(EmptyUserMessage)
    else Ok(message.s)
  }

  /** The words of the reply, or the failure of `.split()` on a truthy content that is not a string. */
  function ReplyWords(assistantMessage: Option<Json>): Result<seq<string>> {
    match assistantMessage
    case None => Ok([])
    case Some(JStr(s)) => Ok(Words(s))
    case Some(_) => Err(NotText)
  }

  /** The delta chunks for the words of a reply. */
  function DeltaChunks(requestId: string, words: seq<string>): (r: seq<Chunk>)
    ensures |r| == |words|
    ensures forall i | 0 <= i < |words| :: r[i] == DeltaChunk(requestId, Delta(words, i))
  {
    seq(|words|, i requires 0 <= i < |words| => DeltaChunk(requestId, Delta(words, i)))
  }

  /** The chunks `_run` sends for the chat context, or the error it raises. */
  function RunOutcome(items: seq<ChatItem>, pyStr: Json -> string, server: string -> LettaResponse,
                      requestId: string): Result<seq<Chunk>>
  {
    match Guard(LastUserMessage(items, pyStr))
    case Err(e) => Err(e)
    case Ok(prompt) =>
      var reply := ReplyOf(server(prompt));
      match ReplyWords(reply.assistantMessage)
      case Err(e) => Err(e)
      case Ok(words) => Ok(DeltaChunks(requestId, words) + [UsageChunk(requestId, reply.usage)])
  }

  /** `_run`: the event channel is the sequence of chunks returned. */
  method Run(items: seq<ChatItem>, pyStr: Json -> string, server: string -> LettaResponse, requestId: string)
    returns (r: Result<seq<Chunk>>)
    ensures r == RunOutcome(items, pyStr, server, requestId)
  {
    var message := ExtractLastUserText(items, pyStr);
    if !PyTruthy(message) {
      return Err(EmptyUserMessage);
    }
    if !message.JStr? {
      return Err(NoStrip);
    }
    if PyStrip(message.s) == "" {
      return Err(EmptyUserMessage);
    }
    var response := AskLetta(message.s, server);
    var split := ReplyWords(response.assistantMessage);
    if split.Err? {
      return Err(split.error);
    }
    var sent := SendDeltas(requestId, split.value);
    return Ok(sent + [UsageChunk(requestId, response.usage)]);
  }

  /** The `for` loop of `_run`: one delta chunk per word, in order. */
  method SendDeltas(requestId: string, words: seq<string>) returns (sent: seq<Chunk>)
    ensures sent == DeltaChunks(requestId, words)
  {
    ghost var deltas := DeltaChunks(requestId, words);
    sent := [];
    for i := 0 to |words|
      invariant sent == deltas[..i]
    {
      assert deltas[..i + 1] == deltas[..i] + [deltas[i]];
      sent := sent + [DeltaChunk(requestId, Delta(words, i))];
    }
    assert deltas[..|words|] == deltas;
  }

  /** The contents of the delta chunks of a chunk list, in order. */
  function DeltaContents(chunks: seq<Chunk>): seq<string> {
    if chunks == [] then []
    else (if chunks[0].DeltaChunk? then [chunks[0].content] else []) + DeltaContents(chunks[1..])
  }

  /** Delta chunks followed by usage chunks: the contents are those of the delta chunks. */
  lemma {:induction false} DeltaContentsAll(xs: seq<Chunk>, tail: seq<Chunk>)
    requires forall i | 0 <= i < |xs| :: xs[i].DeltaChunk?
    requires forall i | 0 <= i < |tail| :: tail[i].UsageChunk?
    ensures |DeltaContents(xs + tail)| == |xs|
    ensures forall i | 0 <= i < |xs| :: DeltaContents(xs + tail)[i] == xs[i].content
    decreases |xs| + |tail|
  {
    if xs == [] {
      assert xs + tail == tail;
      if tail != [] {
        DeltaContentsAll([], tail[1..]);
        assert [] + tail[1..] == tail[1..];
      }
    } else {
      assert (xs + tail)[1..] == xs[1..] + tail;
      DeltaContentsAll(xs[1..], tail);
    }
  }

  /**
   * A run that gets a reply sends one delta per word of the reply, which together spell the
   * words joined by single spaces, then exactly one usage chunk, last; an empty or missing
   * reply sends only the usage chunk.
   */
  lemma RunChunks(items: seq<ChatItem>, pyStr: Json -> string, server: string -> LettaResponse, requestId: string)
    requires RunOutcome(items, pyStr, server, requestId).Ok?
    ensures var chunks := RunOutcome(items, pyStr, server, requestId).value;
            var reply := ReplyOf(server(Guard(LastUserMessage(items, pyStr)).value));
            var words := ReplyWords(reply.assistantMessage).value;
            && |chunks| == |words| + 1
            && chunks[|chunks| - 1] == UsageChunk(requestId, reply.usage)
            && (forall i | 0 <= i < |chunks| - 1 :: chunks[i].DeltaChunk?)
            && Concat(DeltaContents(chunks)) == Join(words, " ")
            && (reply.assistantMessage.None? ==> chunks == [UsageChunk(requestId, reply.usage)])
  {
    var guard := Guard(LastUserMessage(items, pyStr));
    var reply := ReplyOf(server(guard.value));
    var words := ReplyWords(reply.assistantMessage).value;
    assert RunOutcome(items, pyStr, server, requestId).value == DeltaChunks(requestId, words) + [UsageChunk(requestId, reply.usage)];
    ChunksShape(requestId, words, reply.usage);
  }

  /** The deltas for `words` followed by one usage chunk, as `RunChunks` describes them. */
  lemma ChunksShape(requestId: string, words: seq<string>, usage: Usage)
    ensures var chunks := DeltaChunks(requestId, words) + [UsageChunk(requestId, usage)];
            && |chunks| == |words| + 1
            && chunks[|chunks| - 1] == UsageChunk(requestId, usage)
            && (forall i | 0 <= i < |chunks| - 1 :: chunks[i].DeltaChunk?)
            && Concat(DeltaContents(chunks)) == Join(words, " ")
            && (words == [] ==> chunks == [UsageChunk(requestId, usage)])
  {
    var chunks := DeltaChunks(requestId, words) + [UsageChunk(requestId, usage)];
    DeltaContentsAll(DeltaChunks(requestId, words), [UsageChunk(requestId, usage)]);
    assert DeltaContents(chunks) == Deltas(words);
    DeltasJoin(words);
  }

  /**
   * The guard, case by case: it passes exactly the strings with some non-whitespace; it fails
   * with "Empty user message" exactly on falsy values and blank strings; and it fails in
   * `.strip()` exactly on truthy values that are not strings.
   */
  lemma GuardCases(message: Json)
    ensures Guard(message).Ok? <==> message.JStr? && PyStrip(message.s) != ""
    ensures Guard(message).Ok? ==> Guard(message).value == message.s
    ensures Guard(message) == Err(EmptyUserMessage) <==>
              !PyTruthy(message) || (message.JStr? && PyStrip(message.s) == "")
    ensures Guard(message) == Err(NoStrip) <==> PyTruthy(message) && !message.JStr?
  {
    assert PyStrip("") == "";
  }

  /**
   * A last user turn the guard rejects fails before any request: the outcome is the guard's
   * error, the same whatever the server would have answered.
   */
  lemma EmptyMessageNoRequest(items: seq<ChatItem>, pyStr: Json -> string,
                              server: string -> LettaResponse, other: string -> LettaResponse, requestId: string)
    requires Guard(LastUserMessage(items, pyStr)).Err?
    ensures RunOutcome(items, pyStr, server, requestId) == Err(Guard(LastUserMessage(items, pyStr)).error)
    ensures RunOutcome(items, pyStr, server, requestId) == RunOutcome(items, pyStr, other, requestId)
  {
  }

  /** With no user item at all the message is empty, so the run fails before any request. */
  lemma NoUserTurnFails(items: seq<ChatItem>, pyStr: Json -> string, server: string -> LettaResponse, requestId: string)
    requires forall j | 0 <= j < |items| :: items[j].role != "user"
    ensures RunOutcome(items, pyStr, server, requestId) == Err(EmptyUserMessage)
  {
    assert LastUserMessage(items, pyStr) == JStr("");
  }

  /**
   * A last user turn that is a single text dict hands its `text` entry to the guard as it
   * stands: a falsy entry fails with "Empty user message", a truthy entry that is not a string
   * fails in `.strip()`, and a string entry is the message.
   */
  lemma TextDictTurn(items: seq<ChatItem>, pyStr: Json -> string, server: string -> LettaResponse, requestId: string)
    requires items != [] && items[|items| - 1].role == "user"
    requires items[|items| - 1].content.JObject? && IsTextDict(items[|items| - 1].content.fields)
    ensures var text := TextValue(items[|items| - 1].content.fields);
            && LastUserMessage(items, pyStr) == text
            && (!PyTruthy(text) ==> RunOutcome(items, pyStr, server, requestId) == Err(EmptyUserMessage))
            && (PyTruthy(text) && !text.JStr? ==> RunOutcome(items, pyStr, server, requestId) == Err(NoStrip))
  {
  }

  /**
   * A last user turn that is a list of parts with a text that is not a string makes `join`
   * raise; the extraction reads that as "", so the run fails with "Empty user message".
   */
  lemma BadPartsTurn(items: seq<ChatItem>, pyStr: Json -> string, server: string -> LettaResponse, requestId: string)
    requires items != [] && items[|items| - 1].role == "user"
    requires items[|items| - 1].content.JList? && ListText(items[|items| - 1].content.items).None?
    ensures RunOutcome(items, pyStr, server, requestId) == Err(EmptyUserMessage)
  {
    assert LastUserMessage(items, pyStr) == JStr("");
  }
}
