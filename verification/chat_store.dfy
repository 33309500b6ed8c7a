/**
 * The client chat store of `lib/stores/chatStore.ts`: the message list,
 * the current user, the loading flag and the last error, changed in place
 * by the store's actions. `sendMessage` is modelled from the point where
 * the HTTP answer is known: the streamed chunks are split into lines, the
 * `data: ` lines are parsed as events, and each event updates the
 * assistant message that was appended for the answer.
 */
module ChatStore {
  import opened Wrappers
  import opened Text
  import opened JsonValue

  datatype Role = User | Assistant | System

  /**
   * A chat message. Reasoning steps and tool calls are kept as the values
   * the events carried (`None` where the event had no such field); an
   * absent optional field is `None`.
   */
  datatype ChatMessage = ChatMessage(
    id: string,
    role: Role,
    content: string,
    timestamp: string,
    reasoning: Option<seq<Option<Json>>>,
    toolCalls: Option<seq<Option<Json>>>,
    changeSummary: Option<Json>)

  /** The fields an update supplies; a `Some` field overwrites, a `None` field is not part of the update. */
  datatype Patch = Patch(
    content: Option<string>,
    reasoning: Option<seq<Option<Json>>>,
    toolCalls: Option<seq<Option<Json>>>,
    changeSummary: Option<Option<Json>>)

  /** `{ ...m, ...updates }`. */
  function Merge(m: ChatMessage, p: Patch): ChatMessage {
    m.(content := if p.content.Some? then p.content.value else m.content,
       reasoning := if p.reasoning.Some? then p.reasoning else m.reasoning,
       toolCalls := if p.toolCalls.Some? then p.toolCalls else m.toolCalls,
       changeSummary := if p.changeSummary.Some? then p.changeSummary.value else m.changeSummary)
  }

  /** The index of the last message whose role is `assistant`, if there is one. */
  function LastAssistant(ms: seq<ChatMessage>): (r: Option<nat>)
    ensures r.Some? ==> r.value < |ms| && ms[r.value].role == Assistant
    ensures r.Some? ==> forall j :: r.value < j < |ms| ==> ms[j].role != Assistant
    ensures r.None? <==> forall j :: 0 <= j < |ms| ==> ms[j].role != Assistant
  {
    if ms == [] then None
    else if ms[|ms| - 1].role == Assistant then Some(|ms| - 1)
    else LastAssistant(ms[..|ms| - 1])
  }

  /**
   * The list after `updateLastAssistantMessage(p)`: the last assistant
   * message takes the update and every other message is left alone;
   * without an assistant message the list is unchanged.
   */
  function UpdatedLast(ms: seq<ChatMessage>, p: Patch): (r: seq<ChatMessage>)
    ensures |r| == |ms|
    ensures LastAssistant(ms).None? ==> r == ms
    ensures LastAssistant(ms).Some? ==>
      (var i := LastAssistant(ms).value;
       r[i] == Merge(ms[i], p) && forall j :: 0 <= j < |ms| && j != i ==> r[j] == ms[j])
  {
    match LastAssistant(ms)
    case None => ms
    case Some(i) => ms[i := Merge(ms[i], p)]
  }

  /** What the store writes to local storage under "dynamic-todo-chat". */
  datatype PersistedState = PersistedState(messages: seq<ChatMessage>, currentUserId: Option<string>)

  // ----- The event stream of `sendMessage` -----

  /** The payload of a `data: ` line, unless it is the `[DONE]` marker. */
  function Payload(line: string): (r: Option<string>)
    ensures r.Some? <==> StartsWith(line, "data: ") && line[6..] != "[DONE]"
    ensures r.Some? ==> line == "data: " + r.value
  {
    if StartsWith(line, "data: ") && line[6..] != "[DONE]" then Some(line[6..]) else None
  }

  /** The lines of the received chunks: each chunk is split on "\n" on its own. */
  function Lines(chunks: seq<string>): seq<string> {
    if chunks == [] then [] else Lines(chunks[..|chunks| - 1]) + SplitOn(chunks[|chunks| - 1], "\n")
  }

  /**
   * The accumulated state of one answer: the text so far, the reasoning
   * steps and tool calls so far, the assistant message as the store holds
   * it, and the store's `error`.
   */
  datatype Progress = Progress(
    content: string,
    reasoning: seq<Option<Json>>,
    toolCalls: seq<Option<Json>>,
    reply: ChatMessage,
    error: Option<Json>)

  /** The state before the first event: an empty assistant message and no error. */
  function StreamStart(replyId: string, replyTime: string): Progress {
    Progress("", [], [], ChatMessage(replyId, Assistant, "", replyTime, None, None, None), None)
  }

  /** One parsed event; an event of another type, or one that is not an object, changes nothing. */
  function Absorb(p: Progress, event: Json): Progress {
    var kind := Field(event, "type");
    if kind == Some(JStr("text")) then
      var c := p.content + JsString(Field(event, "text"));
      p.(content := c, reply := Merge(p.reply, Patch(Some(c), None, None, None)))
    else if kind == Some(JStr("reasoning")) then
      var r := p.reasoning + [Field(event, "step")];
      p.(reasoning := r, reply := Merge(p.reply, Patch(None, Some(r), None, None)))
    else if kind == Some(JStr("tool_call")) then
      var t := p.toolCalls + [Field(event, "toolCall")];
      p.(toolCalls := t, reply := Merge(p.reply, Patch(None, None, Some(t), None)))
    else if kind == Some(JStr("summary")) then
      p.(reply := Merge(p.reply, Patch(None, None, None, Some(Field(event, "summary")))))
    else if kind == Some(JStr("error")) then
      p.(error := Field(event, "message"))
    else p
  }

  /**
   * The state after a sequence of lines; `parse` is `JSON.parse`, `None`
   * where it throws.
   */
  function Replay(start: Progress, lines: seq<string>, parse: string -> Option<Json>): Progress {
    if lines == [] then start
    else StepLine(Replay(start, lines[..|lines| - 1], parse), lines[|lines| - 1], parse)
  }

  /** One line: a parsed `data: ` payload is absorbed; any other line is skipped. */
  function StepLine(p: Progress, line: string, parse: string -> Option<Json>): Progress {
    var data := Payload(line);
    if data.None? then p
    else
      match parse(data.value)
      case None => p
      case Some(event) => Absorb(p, event)
  }

  lemma ReplaySnoc(start: Progress, lines: seq<string>, line: string, parse: string -> Option<Json>)
    ensures Replay(start, lines + [line], parse) == StepLine(Replay(start, lines, parse), line, parse)
  {
    assert (lines + [line])[..|lines|] == lines;
  }

  /** The `text` payloads of the well-formed `text` events among the lines, in order. */
  function TextPayloads(lines: seq<string>, parse: string -> Option<Json>): seq<string> {
    if lines == [] then []
    else TextPayloads(lines[..|lines| - 1], parse) + LineText(lines[|lines| - 1], parse)
  }

  /** The `text` payload of one line, if it carries a well-formed `text` event. */
  function LineText(line: string, parse: string -> Option<Json>): seq<string> {
    var data := Payload(line);
    var event := if data.None? then None else parse(data.value);
    if event.Some? && Field(event.value, "type") == Some(JStr("text")) then [JsString(Field(event.value, "text"))] else []
  }

  lemma {:induction false} ConcatSnoc(parts: seq<string>, last: string)
    ensures Concat(parts + [last]) == Concat(parts) + last
    decreases |parts|
  {
    if parts == [] {
      assert parts + [last] == [last];
    } else {
      assert (parts + [last])[1..] == parts[1..] + [last];
      ConcatSnoc(parts[1..], last);
    }
  }

  /** One line adds its own `text` payload, if any, to the accumulated text. */
  lemma StepContent(p: Progress, line: string, parse: string -> Option<Json>)
    ensures StepLine(p, line, parse).content == p.content + Concat(LineText(line, parse))
  {
    if LineText(line, parse) == [] {
      assert StepLine(p, line, parse).content == p.content;
    }
  }

  lemma ConcatLine(parts: seq<string>, line: string, parse: string -> Option<Json>)
    ensures Concat(parts + LineText(line, parse)) == Concat(parts) + Concat(LineText(line, parse))
  {
    var extra := LineText(line, parse);
    if extra == [] {
      assert parts + extra == parts;
    } else {
      ConcatSnoc(parts, extra[0]);
    }
  }

  /** The accumulated text is the concatenation of every `text` payload received, in order. */
  lemma {:induction false} ReplayContent(start: Progress, lines: seq<string>, parse: string -> Option<Json>)
    ensures Replay(start, lines, parse).content == start.content + Concat(TextPayloads(lines, parse))
    decreases |lines|
  {
    if lines != [] {
      var front, last := lines[..|lines| - 1], lines[|lines| - 1];
      var earlier, extra := Concat(TextPayloads(front, parse)), Concat(LineText(last, parse));
      calc {
        Replay(start, lines, parse).content;
        StepLine(Replay(start, front, parse), last, parse).content;
        { StepContent(Replay(start, front, parse), last, parse); }
        Replay(start, front, parse).content + extra;
        { ReplayContent(start, front, parse); }
        (start.content + earlier) + extra;
        start.content + (earlier + extra);
        { ConcatLine(TextPayloads(front, parse), last, parse); }
        start.content + Concat(TextPayloads(lines, parse));
      }
    }
  }

  /**
   * Throughout the stream the assistant message keeps its id, role and
   * timestamp, shows the accumulated text, and carries the reasoning steps
   * and tool calls received so far once there is at least one.
   */
  predicate Tracks(p: Progress, replyId: string, replyTime: string) {
    p.reply.id == replyId && p.reply.role == Assistant && p.reply.timestamp == replyTime
    && p.reply.content == p.content
    && p.reply.reasoning == (if p.reasoning == [] then None else Some(p.reasoning))
    && p.reply.toolCalls == (if p.toolCalls == [] then None else Some(p.toolCalls))
  }

  lemma {:induction false} ReplayTracks(replyId: string, replyTime: string, lines: seq<string>,
                                        parse: string -> Option<Json>)
    ensures Tracks(Replay(StreamStart(replyId, replyTime), lines, parse), replyId, replyTime)
    decreases |lines|
  {
    if lines != [] {
      ReplayTracks(replyId, replyTime, lines[..|lines| - 1], parse);
    }
  }

  /** A line without the `data: ` prefix, the `[DONE]` marker and a payload that does not parse are skipped. */
  lemma SkippedLine(start: Progress, lines: seq<string>, line: string, parse: string -> Option<Json>)
    requires !StartsWith(line, "data: ") || line == "data: [DONE]" || parse(line[6..]).None?
    ensures Replay(start, lines + [line], parse) == Replay(start, lines, parse)
  {
    assert (lines + [line])[..|lines|] == lines;
    if StartsWith(line, "data: ") && line[6..] == "[DONE]" {
      assert Payload(line).None?;
    }
  }

  /** Chunks made of complete newline-free lines yield exactly those lines. */
  lemma LinesOfOneChunk(parts: seq<string>)
    requires |parts| >= 1
    requires forall i, j :: 0 <= i < |parts| && 0 <= j < |parts[i]| ==> parts[i][j] != '\n'
    ensures Lines([Join(parts, "\n")]) == parts
  {
    SplitOnJoin(parts, "\n");
    assert [Join(parts, "\n")][..0] == [];
  }

  /** How the `fetch` to `/api/chat` went. */
  datatype FetchOutcome =
    | Threw(error: Option<string>)   // `fetch` rejected; `None` when what it threw is not an `Error`
    | NotOk(statusText: string)
    | NoBody
    | Streamed(chunks: seq<string>)

  /** The message of the error `sendMessage` catches. */
  function FailureMessage(o: FetchOutcome): (m: string)
    requires !o.Streamed?
  {
    match o
    case Threw(e) => if e.Some? then e.value else "Unknown error"
    case NotOk(t) => "Chat request failed: " + t
    case NoBody => "No response body"
  }

  function ErrorReply(message: string): string {
    "I encountered an error: " + message + ". Please try again."
  }

  class ChatStore {
    var messages: seq<ChatMessage>
    var currentUserId: Option<string>
    var isLoading: bool
    var error: Option<Json>   // `None` is `null` (or `undefined`, which an `error` event can carry)
    /** How many times the store published a new state to its subscribers (each `set`). */
    var publications: nat

    constructor ()
      ensures messages == [] && currentUserId == None && !isLoading && error == None && publications == 0
    {
      messages := [];
      currentUserId := None;
      isLoading := false;
      error := None;
      publications := 0;
    }

    function Persisted(): (s: PersistedState)
      reads this
    {
      PersistedState(messages, currentUserId)
    }

    /** `setCurrentUser`: publishes only when the id changes. */
    method SetCurrentUser(userId: string)
      modifies this
      ensures currentUserId == Some(userId)
      ensures messages == old(messages) && isLoading == old(isLoading) && error == old(error)
      ensures old(currentUserId) == Some(userId) ==> publications == old(publications)
      ensures old(currentUserId) != Some(userId) ==> publications == old(publications) + 1
    {
      if currentUserId != Some(userId) {
        currentUserId := Some(userId);
        publications := publications + 1;
      }
    }

    /** `addMessage`: appends the message with the given id and timestamp. */
    method AddMessage(message: ChatMessage, id: string, timestamp: string)
      modifies this
      ensures messages == old(messages) + [message.(id := id, timestamp := timestamp)]
      ensures currentUserId == old(currentUserId) && isLoading == old(isLoading) && error == old(error)
      ensures publications == old(publications) + 1
    {
      messages := messages + [message.(id := id, timestamp := timestamp)];
      publications := publications + 1;
    }

    /** `updateLastAssistantMessage`: a backward scan for the last assistant message. */
    method UpdateLastAssistantMessage(updates: Patch)
      modifies this
      ensures messages == UpdatedLast(old(messages), updates)
      ensures currentUserId == old(currentUserId) && isLoading == old(isLoading) && error == old(error)
      ensures publications == old(publications) + 1
    {
      var ms := messages;
      var i := |ms|;
      while i > 0 && ms[i - 1].role != Assistant
        invariant 0 <= i <= |ms|
        invariant forall j :: i <= j < |ms| ==> ms[j].role != Assistant
        decreases i
      {
        i := i - 1;
      }
      if i > 0 {
        ms := ms[i - 1 := Merge(ms[i - 1], updates)];
      }
      messages := ms;
      publications := publications + 1;
    }

    /** `clearMessages`. */
    method ClearMessages()
      modifies this
      ensures messages == [] && error == None
      ensures currentUserId == old(currentUserId) && isLoading == old(isLoading)
      ensures publications == old(publications) + 1
    {
      messages := [];
      error := None;
      publications := publications + 1;
    }

    /** `clearError`: nothing that is persisted changes. */
    method ClearError()
      modifies this
      ensures error == None
      ensures messages == old(messages) && currentUserId == old(currentUserId) && isLoading == old(isLoading)
      ensures Persisted() == old(Persisted())
      ensures publications == old(publications) + 1
    {
      error := None;
      publications := publications + 1;
    }

    /**
     * `sendMessage(content, userId)` once `fetch` has answered with
     * `response`. The user message comes first; then either the streamed
     * answer, accumulated event by event into a new assistant message, or
     * an assistant message reporting the error; the store ends not loading.
     */
    method SendMessage(content: string, response: FetchOutcome, parse: string -> Option<Json>,
                       userMessageId: string, userTime: string, replyId: string, replyTime: string)
      modifies this
      ensures |messages| == |old(messages)| + 2
      ensures messages[..|old(messages)| + 1]
              == old(messages) + [ChatMessage(userMessageId, User, content, userTime, None, None, None)]
      ensures !isLoading && currentUserId == old(currentUserId)
      ensures response.Streamed? ==>
        (var p := Replay(StreamStart(replyId, replyTime), Lines(response.chunks), parse);
         messages[|old(messages)| + 1] == p.reply && error == p.error
         && p.reply.content == Concat(TextPayloads(Lines(response.chunks), parse)))
      ensures !response.Streamed? ==>
        (messages[|old(messages)| + 1]
         == ChatMessage(replyId, Assistant, ErrorReply(FailureMessage(response)), replyTime, None, None, None)
         && error == Some(JStr(FailureMessage(response))))
    {
      ghost var userMessage := ChatMessage(userMessageId, User, content, userTime, None, None, None);
      AddMessage(ChatMessage("", User, content, "", None, None, None), userMessageId, userTime);
      var base := messages;
      assert base == old(messages) + [userMessage];
      isLoading := true;
      error := None;
      publications := publications + 1;
      if !response.Streamed? {
        var message := FailureMessage(response);
        error := Some(JStr(message));
        publications := publications + 1;
        AddMessage(ChatMessage("", Assistant, ErrorReply(message), "", None, None, None), replyId, replyTime);
      } else {
        AddMessage(ChatMessage("", Assistant, "", "", None, None, None), replyId, replyTime);
        ReadStream(base, response.chunks, parse, replyId, replyTime);
        ReplayContent(StreamStart(replyId, replyTime), Lines(response.chunks), parse);
        ReplayTracks(replyId, replyTime, Lines(response.chunks), parse);
      }
      assert messages[..|old(messages)| + 1] == base;
      isLoading := false;
      publications := publications + 1;
    }

    /** The streaming loop of `sendMessage`: every chunk read, in order, into the answer's message. */
    method ReadStream(ghost base: seq<ChatMessage>, chunks: seq<string>, parse: string -> Option<Json>,
                      ghost replyId: string, ghost replyTime: string)
      requires messages == base + [StreamStart(replyId, replyTime).reply] && error == None
      modifies this
      ensures var p := Replay(StreamStart(replyId, replyTime), Lines(chunks), parse);
        messages == base + [p.reply] && error == p.error
      ensures currentUserId == old(currentUserId) && isLoading == old(isLoading)
    {
      var accumulatedContent := "";
      var reasoning: seq<Option<Json>> := [];
      var toolCalls: seq<Option<Json>> := [];
      ghost var start := StreamStart(replyId, replyTime);
      for k := 0 to |chunks|
        invariant var p := Replay(start, Lines(chunks[..k]), parse);
          messages == base + [p.reply] && error == p.error && accumulatedContent == p.content
          && reasoning == p.reasoning && toolCalls == p.toolCalls
        invariant currentUserId == old(currentUserId) && isLoading == old(isLoading)
      {
        assert chunks[..k + 1][..k] == chunks[..k];
        accumulatedContent, reasoning, toolCalls :=
          ReadChunk(base, Lines(chunks[..k]), chunks[k], parse, replyId, replyTime, accumulatedContent, reasoning, toolCalls);
      }
      assert chunks[..|chunks|] == chunks;
    }

    /** One chunk: split into lines, each `data: ` line parsed and handled; the rest skipped. */
    method ReadChunk(ghost base: seq<ChatMessage>, ghost seen: seq<string>, chunk: string, parse: string -> Option<Json>,
                     ghost replyId: string, ghost replyTime: string,
                     accumulatedContent: string, reasoning: seq<Option<Json>>, toolCalls: seq<Option<Json>>)
      returns (content': string, reasoning': seq<Option<Json>>, toolCalls': seq<Option<Json>>)
      requires var p := Replay(StreamStart(replyId, replyTime), seen, parse);
        messages == base + [p.reply] && error == p.error && accumulatedContent == p.content
        && reasoning == p.reasoning && toolCalls == p.toolCalls
      modifies this
      ensures var p := Replay(StreamStart(replyId, replyTime), seen + SplitOn(chunk, "\n"), parse);
        messages == base + [p.reply] && error == p.error && content' == p.content
        && reasoning' == p.reasoning && toolCalls' == p.toolCalls
      ensures currentUserId == old(currentUserId) && isLoading == old(isLoading)
    {
      ghost var start := StreamStart(replyId, replyTime);
      content', reasoning', toolCalls' := accumulatedContent, reasoning, toolCalls;
      var lines := SplitOn(chunk, "\n");
      assert seen + lines[..0] == seen;
      for j := 0 to |lines|
        invariant var p := Replay(start, seen + lines[..j], parse);
          messages == base + [p.reply] && error == p.error && content' == p.content
          && reasoning' == p.reasoning && toolCalls' == p.toolCalls
        invariant currentUserId == old(currentUserId) && isLoading == old(isLoading)
      {
        assert seen + lines[..j + 1] == (seen + lines[..j]) + [lines[j]];
        ReplaySnoc(start, seen + lines[..j], lines[j], parse);
        ReplayTracks(replyId, replyTime, seen + lines[..j], parse);
        content', reasoning', toolCalls' :=
          ReadLine(base, Replay(start, seen + lines[..j], parse), replyId, replyTime, lines[j], parse,
                   content', reasoning', toolCalls');
      }
      assert lines[..|lines|] == lines;
    }

    /** One line of a chunk: a `data: ` payload that parses is handled as an event; other lines change nothing. */
    method ReadLine(ghost base: seq<ChatMessage>, ghost p: Progress, ghost replyId: string, ghost replyTime: string,
                    line: string, parse: string -> Option<Json>,
                    accumulatedContent: string, reasoning: seq<Option<Json>>, toolCalls: seq<Option<Json>>)
      returns (content': string, reasoning': seq<Option<Json>>, toolCalls': seq<Option<Json>>)
      requires Tracks(p, replyId, replyTime)
      requires messages == base + [p.reply] && error == p.error
      requires accumulatedContent == p.content && reasoning == p.reasoning && toolCalls == p.toolCalls
      modifies this
      ensures var q := StepLine(p, line, parse);
        messages == base + [q.reply] && error == q.error
        && content' == q.content && reasoning' == q.reasoning && toolCalls' == q.toolCalls
      ensures currentUserId == old(currentUserId) && isLoading == old(isLoading)
    {
      content', reasoning', toolCalls' := accumulatedContent, reasoning, toolCalls;
      var data := Payload(line);
      if data.Some? {
        var parsed := parse(data.value);
        if parsed.Some? {
          content', reasoning', toolCalls' :=
            HandleEvent(base, p, replyId, replyTime, parsed.value, content', reasoning', toolCalls');
        }
      }
    }

    /** The `switch` on one parsed event, with the answer's message last in the list. */
    method HandleEvent(ghost base: seq<ChatMessage>, ghost p: Progress, ghost replyId: string, ghost replyTime: string,
                       event: Json, accumulatedContent: string, reasoning: seq<Option<Json>>,
                       toolCalls: seq<Option<Json>>)
      returns (content': string, reasoning': seq<Option<Json>>, toolCalls': seq<Option<Json>>)
      requires Tracks(p, replyId, replyTime)
      requires messages == base + [p.reply] && error == p.error
      requires accumulatedContent == p.content && reasoning == p.reasoning && toolCalls == p.toolCalls
      modifies this
      ensures var q := Absorb(p, event);
        messages == base + [q.reply] && error == q.error
        && content' == q.content && reasoning' == q.reasoning && toolCalls' == q.toolCalls
      ensures currentUserId == old(currentUserId) && isLoading == old(isLoading)
    {
      content', reasoning', toolCalls' := accumulatedContent, reasoning, toolCalls;
      var kind := Field(event, "type");
      if kind == Some(JStr("text")) {
        content' := accumulatedContent + JsString(Field(event, "text"));
        UpdateAssistantLast(base, p.reply, Patch(Some(content'), None, None, None));
      } else if kind == Some(JStr("reasoning")) {
        reasoning' := reasoning + [Field(event, "step")];
        UpdateAssistantLast(base, p.reply, Patch(None, Some(reasoning'), None, None));
      } else if kind == Some(JStr("tool_call")) {
        toolCalls' := toolCalls + [Field(event, "toolCall")];
        UpdateAssistantLast(base, p.reply, Patch(None, None, Some(toolCalls'), None));
      } else if kind == Some(JStr("summary")) {
        UpdateAssistantLast(base, p.reply, Patch(None, None, None, Some(Field(event, "summary"))));
      } else if kind == Some(JStr("error")) {
        error := Field(event, "message");
        publications := publications + 1;
      }
    }

    /** One `updateLastAssistantMessage` call while the answer's message is the last one. */
    method UpdateAssistantLast(ghost base: seq<ChatMessage>, ghost reply: ChatMessage, updates: Patch)
      requires messages == base + [reply] && reply.role == Assistant
      modifies this
      ensures messages == base + [Merge(reply, updates)]
      ensures currentUserId == old(currentUserId) && isLoading == old(isLoading) && error == old(error)
      ensures publications == old(publications) + 1
    {
      UpdateLastAssistantMessage(updates);
      assert LastAssistant(old(messages)) == Some(|base|);
    }
  }
}
