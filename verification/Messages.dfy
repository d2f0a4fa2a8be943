/** The conversation vocabulary: content blocks, provenance and messages. */
module Messages {
  import opened Prelude

  datatype Block =
    | TextBlock(text: string)
    | ReasoningBlock(text: string)
    | ToolCallBlock(id: string, name: string, arguments: string)
    | ToolResultBlock(callId: string, content: seq<Block>, isError: bool)

  datatype Source = Source(
    kind: string, plugin: string, form: string, provider: string, model: string,
    goalId: string, revision: Option<int>, round: Option<int>)

  datatype Message = Message(id: string, role: string, content: seq<Block>, source: Source)

  /** How many tool calls a message asks for. */
  function CountCalls(blocks: seq<Block>): nat {
    if blocks == [] then 0
    else CountCalls(blocks[..|blocks| - 1]) + (if blocks[|blocks| - 1].ToolCallBlock? then 1 else 0)
  }
}
