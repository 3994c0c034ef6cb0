/**
  The data model of the chat transcript: the entries a `useMastra` hook keeps
  in its `messages` list, and the chunk records the agent stream delivers.
 */
module Transcript {

  datatype Option<+T> = None | Some(value: T)

  /** An `args` object or a tool `result`: carried from chunk to entry, never inspected. */
  datatype Json = Json(raw: string)

  /** The lifecycle stage a tool-call entry shows. */
  datatype ToolStatus = Streaming | Executing | Done

  /**
    One transcript entry. `toolCallId` is optional because the hook copies it
    from the chunk payload without checking that it is present; `args` and
    `result` are the optional properties of the tool-call variant.
   */
  datatype ChatMessage =
    | UserMessage(id: string, content: string)
    | ToolCall(runId: string, toolCallId: Option<string>, toolName: string,
               argsText: string, args: Option<Json>, result: Option<Json>,
               status: ToolStatus)
    | AssistantText(runId: string, content: string)

  /**
    The chunk kinds the reducer recognises, with the payload fields it reads;
    every other kind is `Other`. Optional fields are the ones the hook reads
    with a fallback or a truthiness test, or copies as they come.
   */
  datatype Chunk =
    | TextDelta(runId: string, text: string)
    | ToolCallStart(runId: string, toolCallId: Option<string>, toolName: Option<string>)
    | ToolCallDelta(toolCallId: Option<string>, argsTextDelta: Option<string>)
    | ToolCallArgs(toolCallId: Option<string>, args: Option<Json>)
    | ToolResult(toolCallId: Option<string>, result: Option<Json>)
    | Other(kind: string)

  /** The assistant-text entry of run `runId`. */
  predicate IsRunText(m: ChatMessage, runId: string)
  {
    m.AssistantText? && m.runId == runId
  }

  /** A tool-call entry whose `toolCallId` is strictly equal to `id`. */
  predicate IsToolEntry(m: ChatMessage, id: Option<string>)
  {
    m.ToolCall? && m.toolCallId == id
  }

  predicate HasRunText(s: seq<ChatMessage>, runId: string)
  {
    exists i | 0 <= i < |s| :: IsRunText(s[i], runId)
  }

  predicate HasToolEntry(s: seq<ChatMessage>, id: Option<string>)
  {
    exists i | 0 <= i < |s| :: IsToolEntry(s[i], id)
  }

  /** At most one assistant-text entry per `runId`. */
  ghost predicate UniqueRuns(s: seq<ChatMessage>)
  {
    forall i, j | 0 <= i < j < |s| ::
      s[i].AssistantText? && s[j].AssistantText? ==> s[i].runId != s[j].runId
  }

  /** At most one tool-call entry per `toolCallId`. */
  ghost predicate UniqueToolCalls(s: seq<ChatMessage>)
  {
    forall i, j | 0 <= i < j < |s| ::
      s[i].ToolCall? && s[j].ToolCall? ==> s[i].toolCallId != s[j].toolCallId
  }

  /** The two entries are the same entry: same variant and same identity fields. */
  ghost predicate SameIdentity(a: ChatMessage, b: ChatMessage)
  {
    match a
    case UserMessage(id, content) => b == a
    case AssistantText(runId, _) => b.AssistantText? && b.runId == runId
    case ToolCall(runId, toolCallId, toolName, _, _, _, _) =>
      b.ToolCall? && b.runId == runId && b.toolCallId == toolCallId && b.toolName == toolName
  }
}
