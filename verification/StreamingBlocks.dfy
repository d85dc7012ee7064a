/** The browser's live accumulator (web/src/features/chat/hooks/use-streaming-blocks.ts): it
    builds blocks from the same chunks as they arrive. */
module StreamingBlocks {
  import opened Common
  import opened Chunks

  datatype Status = Running | Complete

  /** A block on screen. Generated ids of text and thinking blocks are left out. */
  datatype UiBlock =
    | UiText(content: string)
    | UiThinking(content: string)
    | UiTool(id: string, name: string, input: Json, status: Status, result: Option<string>, isError: bool,
             parent: string, elapsed: Option<int>)
    | UiError(message: string)

  /** String.prototype.trim whitespace. */
  predicate JsSpace(c: char) {
    var n := c as int;
    || 0x09 <= n <= 0x0d || n == 0x20 || n == 0xa0 || n == 0x1680 || 0x2000 <= n <= 0x200a
    || n == 0x2028 || n == 0x2029 || n == 0x202f || n == 0x205f || n == 0x3000 || n == 0xfeff
  }

  // ---------- updates ----------

  function Resolved(b: UiBlock): UiBlock {
    if b.UiTool? && b.status == Running then b.(status := Complete) else b
  }

  function WithResult(b: UiBlock, id: string, content: string, isError: bool): UiBlock {
    if b.UiTool? && b.id == id then b.(status := Complete, result := Some(content), isError := isError) else b
  }

  function WithProgress(b: UiBlock, id: string, elapsed: int): UiBlock {
    if b.UiTool? && b.id == id then b.(elapsed := Some(elapsed)) else b
  }

  function MapBlocks(f: UiBlock -> UiBlock, blocks: seq<UiBlock>): (r: seq<UiBlock>)
    ensures |r| == |blocks| && forall k :: 0 <= k < |r| ==> r[k] == f(blocks[k])
  {
    seq(|blocks|, k requires 0 <= k < |blocks| => f(blocks[k]))
  }

  /** No call is left running, and nothing else changes. */
  function ResolveAll(blocks: seq<UiBlock>): (r: seq<UiBlock>)
    ensures |r| == |blocks|
    ensures forall k :: 0 <= k < |r| ==>
      if r[k].UiTool? then blocks[k].UiTool? && r[k] == blocks[k].(status := Complete) else r[k] == blocks[k]
  {
    MapBlocks(Resolved, blocks)
  }

  function SetResult(blocks: seq<UiBlock>, id: string, content: string, isError: bool): (r: seq<UiBlock>)
    ensures |r| == |blocks| && forall k :: 0 <= k < |r| ==> r[k] == WithResult(blocks[k], id, content, isError)
  {
    MapBlocks(b => WithResult(b, id, content, isError), blocks)
  }

  function SetProgress(blocks: seq<UiBlock>, id: string, elapsed: int): (r: seq<UiBlock>)
    ensures |r| == |blocks| && forall k :: 0 <= k < |r| ==> r[k] == WithProgress(blocks[k], id, elapsed)
  {
    MapBlocks(b => WithProgress(b, id, elapsed), blocks)
  }

  /** Text grows a trailing text block, or opens one. */
  function AddText(blocks: seq<UiBlock>, content: string): seq<UiBlock> {
    if blocks != [] && blocks[|blocks| - 1].UiText?
    then blocks[..|blocks| - 1] + [UiText(blocks[|blocks| - 1].content + content)]
    else blocks + [UiText(content)]
  }

  function AddThinking(blocks: seq<UiBlock>, content: string): seq<UiBlock> {
    if blocks != [] && blocks[|blocks| - 1].UiThinking?
    then blocks[..|blocks| - 1] + [UiThinking(blocks[|blocks| - 1].content + content)]
    else blocks + [UiThinking(content)]
  }

  /** One message; `stamp` is the id made up for a tool call that came without one. */
  function Handle(blocks: seq<UiBlock>, msg: Chunk, stamp: string): seq<UiBlock> {
    match msg
    case ThinkingChunk(content) => AddThinking(blocks, content)
    case TextChunk(content) => AddText(ResolveAll(blocks), content)
    case ToolUse(id, name, input, parent) =>
      blocks + [UiTool(if id != "" then id else stamp, name, input, Running, None, false, parent, None)]
    case ToolResult(id, content, isError) => SetResult(blocks, id, content, isError)
    case ToolProgress(id, elapsed) => SetProgress(blocks, id, elapsed)
    case _ => blocks
  }

  /** All messages of a stream, on an empty list. */
  function Live(chunks: seq<Chunk>, stamp: nat -> string): seq<UiBlock> {
    if chunks == [] then []
    else Handle(Live(chunks[..|chunks| - 1], stamp), chunks[|chunks| - 1], stamp(|chunks|))
  }

  // ---------- reading the list ----------

  function TextOf(blocks: seq<UiBlock>): string {
    if blocks == [] then ""
    else
      var last := blocks[|blocks| - 1];
      TextOf(blocks[..|blocks| - 1]) + if last.UiText? then last.content else ""
  }

  predicate Shown(b: UiBlock) {
    !((b.UiText? || b.UiThinking?) && Trim(b.content, JsSpace) == "")
  }

  function MetaOf(b: UiBlock): Block {
    match b
    case UiText(content) => TextBlock(content)
    case UiThinking(content) => ThinkingBlock(content)
    case UiError(message) => ErrorBlock(message)
    case UiTool(id, name, input, _, result, isError, parent, _) => ToolBlock(id, name, input, parent, result, isError)
  }

  /** Blank text and thinking blocks are not saved. */
  function Meta(blocks: seq<UiBlock>): seq<Block> {
    if blocks == [] then []
    else
      var last := blocks[|blocks| - 1];
      Meta(blocks[..|blocks| - 1]) + if Shown(last) then [MetaOf(last)] else []
  }

  // ---------- the hook ----------

  class Accumulator {
    var blocks: seq<UiBlock>

    constructor ()
      ensures blocks == []
    {
      blocks := [];
    }

    method HandleMessage(msg: Chunk, stamp: string)
      modifies this
      ensures blocks == Handle(old(blocks), msg, stamp)
    {
      match msg {
        case ThinkingChunk(content) =>
          var n := |blocks|;
          if n > 0 && blocks[n - 1].UiThinking? {
            blocks := blocks[..n - 1] + [UiThinking(blocks[n - 1].content + content)];
          } else {
            blocks := blocks + [UiThinking(content)];
          }
        case TextChunk(content) =>
          var resolved := ResolveAll(blocks);
          var n := |resolved|;
          if n > 0 && resolved[n - 1].UiText? {
            blocks := resolved[..n - 1] + [UiText(resolved[n - 1].content + content)];
          } else {
            blocks := resolved + [UiText(content)];
          }
        case ToolUse(id, name, input, parent) =>
          var tool := UiTool(if id != "" then id else stamp, name, input, Running, None, false, parent, None);
          blocks := blocks + [tool];
        case ToolResult(id, content, isError) =>
          blocks := SetResult(blocks, id, content, isError);
        case ToolProgress(id, elapsed) =>
          blocks := SetProgress(blocks, id, elapsed);
        case _ =>
      }
    }

    method Reset()
      modifies this
      ensures blocks == []
    {
      blocks := [];
    }

    method Finalize()
      modifies this
      ensures blocks == ResolveAll(old(blocks))
    {
      blocks := ResolveAll(blocks);
    }

    function FlattenText(): string
      reads this
    {
      TextOf(blocks)
    }

    function GetBlocksMeta(): seq<Block>
      reads this
    {
      Meta(blocks)
    }
  }

  // ---------- updates and reading ----------

  /** A change that what is saved cannot see. */
  ghost predicate Unseen(b: UiBlock, b': UiBlock) {
    Shown(b) == Shown(b') && MetaOf(b) == MetaOf(b') && b.UiText? == b'.UiText?
  }

  lemma {:induction false} UnseenMeta(blocks: seq<UiBlock>, blocks': seq<UiBlock>)
    requires |blocks| == |blocks'| && forall k :: 0 <= k < |blocks| ==> Unseen(blocks[k], blocks'[k])
    ensures Meta(blocks) == Meta(blocks')
  {
    if blocks != [] {
      var n := |blocks| - 1;
      assert Unseen(blocks[n], blocks'[n]);
      assert forall k :: 0 <= k < n ==> blocks[..n][k] == blocks[k] && blocks'[..n][k] == blocks'[k];
      UnseenMeta(blocks[..n], blocks'[..n]);
    }
  }

  /** Finalizing changes nothing that is saved or shown as text. */
  lemma FinalizeKeepsMeta(blocks: seq<UiBlock>)
    ensures Meta(ResolveAll(blocks)) == Meta(blocks)
    ensures TextOf(ResolveAll(blocks)) == TextOf(blocks)
  {
    UnseenMeta(blocks, ResolveAll(blocks));
    SameText(blocks, ResolveAll(blocks));
  }

  lemma {:induction false} SameText(blocks: seq<UiBlock>, blocks': seq<UiBlock>)
    requires |blocks| == |blocks'|
    requires forall k :: 0 <= k < |blocks| ==>
               blocks[k].UiText? == blocks'[k].UiText? && (blocks[k].UiText? ==> blocks[k] == blocks'[k])
    ensures TextOf(blocks) == TextOf(blocks')
  {
    if blocks != [] {
      var n := |blocks| - 1;
      assert forall k :: 0 <= k < n ==> blocks[..n][k] == blocks[k] && blocks'[..n][k] == blocks'[k];
      SameText(blocks[..n], blocks'[..n]);
    }
  }

  lemma TextOfAdded(blocks: seq<UiBlock>, content: string)
    ensures TextOf(AddText(blocks, content)) == TextOf(blocks) + content
  {
    var now := AddText(blocks, content);
    if blocks != [] && blocks[|blocks| - 1].UiText? {
      assert now[..|now| - 1] == blocks[..|blocks| - 1];
    } else {
      assert now[..|now| - 1] == blocks;
    }
  }

  lemma TextOfThinking(blocks: seq<UiBlock>, content: string)
    ensures TextOf(AddThinking(blocks, content)) == TextOf(blocks)
  {
    var now := AddThinking(blocks, content);
    if blocks != [] && blocks[|blocks| - 1].UiThinking? {
      assert now[..|now| - 1] == blocks[..|blocks| - 1];
    } else {
      assert now[..|now| - 1] == blocks;
    }
  }

  /** Whatever the stream, the text on screen is the concatenation of its text chunks. */
  lemma {:induction false} LiveText(chunks: seq<Chunk>, stamp: nat -> string)
    ensures TextOf(Live(chunks, stamp)) == ContentOf(chunks)
  {
    if chunks != [] {
      var before, msg := Live(chunks[..|chunks| - 1], stamp), chunks[|chunks| - 1];
      LiveText(chunks[..|chunks| - 1], stamp);
      match msg {
        case TextChunk(content) =>
          SameText(before, ResolveAll(before));
          TextOfAdded(ResolveAll(before), content);
        case ThinkingChunk(content) => TextOfThinking(before, content);
        case ToolUse(_, _, _, _) =>
          var now := Live(chunks, stamp);
          assert now[..|now| - 1] == before;
        case ToolResult(_, _, _) => SameText(before, Live(chunks, stamp));
        case ToolProgress(_, _) => SameText(before, Live(chunks, stamp));
        case _ =>
      }
    }
  }
}
