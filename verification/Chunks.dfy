/** The chunks that a turn streams and the blocks that a saved message is made of. A missing or
    null id is the empty string, as both sides only test ids for truth. */
module Chunks {
  import opened Common

  datatype Chunk =
    | TextChunk(content: string)
    | ThinkingChunk(content: string)
    | ToolUse(id: string, name: string, input: Json, parent: string)
    | ToolResult(id: string, content: string, isError: bool)
    | ToolProgress(id: string, elapsed: int)
    | EndOfTurn                       // "result"
    | FailureChunk(message: string)   // "error"
    | OtherChunk

  /** A saved block; `result` and `isError` are as after the results were attached. */
  datatype Block =
    | TextBlock(content: string)
    | ThinkingBlock(content: string)
    | ToolBlock(id: string, name: string, input: Json, parent: string, result: Option<string>, isError: bool)
    | ErrorBlock(message: string)

  /** All text of a stream, in order. */
  function ContentOf(chunks: seq<Chunk>): string {
    if chunks == [] then ""
    else
      var last := chunks[|chunks| - 1];
      ContentOf(chunks[..|chunks| - 1]) + if last.TextChunk? then last.content else ""
  }

  /** A block without what a tool result adds to it. */
  function Bare(b: Block): Block {
    if b.ToolBlock? then b.(result := None, isError := false) else b
  }

  function BareAll(blocks: seq<Block>): seq<Block> {
    seq(|blocks|, k requires 0 <= k < |blocks| => Bare(blocks[k]))
  }
}
