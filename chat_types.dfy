/** The values the task loop exchanges with its collaborators: transcript
    messages, streamed chunks and the events reported to the caller
    (renderer/src/components/main-panel/chat/core/task-loop.ts). */
module ChatTypes {
  import opened Common

  datatype Role = System | User | Assistant | Tool

  /** The lifecycle states of a message that the task loop uses. */
  datatype MessageState = Success | ParseJsonError | ToolCall | ReceiveChunkError

  /** One block of tool output: `{ type, text }`. */
  datatype ContentBlock = Block(kind: string, text: string)

  function ErrorBlock(text: string): ContentBlock {
    Block("error", text)
  }

  /** A message's content: plain text, or the content blocks of a tool result. */
  datatype Content = Text(text: string) | Blocks(blocks: seq<ContentBlock>)

  /** The token accounting the backend reports on a chunk. */
  datatype Usage = Usage(promptTokens: nat, completionTokens: nat, totalTokens: nat)

  /** A tool call under assembly: `{ id, index, type: 'function', function: { name, arguments } }`.
      The backend may leave `id` undefined. */
  datatype ToolInvocation = ToolInvocation(id: Option<string>, index: nat, name: string, arguments: string)

  /** The buffer of tool calls, indexed by `index`. JavaScript index assignment
      past the end leaves holes, which are `None` here. */
  type ToolCallList = seq<Option<ToolInvocation>>

  /** `extraInfo` of a transcript message (the creation time is not modelled). */
  datatype ExtraInfo = ExtraInfo(state: MessageState, serverName: string, usage: Option<Usage>)

  /** One request or transcript message. The system prompt of a request is the
      only message without `extraInfo`. */
  datatype Message = Message(
    role: Role,
    content: Content,
    toolCalls: Option<ToolCallList>,
    toolCallId: Option<string>,
    info: Option<ExtraInfo>)

  /** The first element of `delta.tool_calls` in a chunk; absent fields are `None`. */
  datatype ToolCallDelta = ToolCallDelta(index: nat, id: Option<string>, name: Option<string>, arguments: Option<string>)

  /** One streamed chunk, reduced to what the task loop reads from it:
      `choices[0].delta.content`, `choices[0].delta.tool_calls` and `usage`. */
  datatype Chunk = Chunk(content: Option<string>, toolCalls: seq<ToolCallDelta>, usage: Option<Usage>)

  /** What the loop reports to its caller through the registered hooks, and the
      cancellation it posts to the backend. */
  datatype LoopEvent =
    | EpochStarted
    | ChunkReceived(chunk: Chunk)
    | Done
    | Error(state: MessageState, msg: string)
    | AbortSent(chatId: string)
}
