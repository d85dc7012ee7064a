/** What the screen shows of tool calls while a turn streams, said of the chunks
    (web/src/features/chat/hooks/use-streaming-blocks.ts): one block per announced call, with the last
    result and the last progress time that came after it, running until a result or text comes. */
module LiveTools {
  import opened Common
  import opened Chunks
  import opened StreamingBlocks
  import opened Splices

  /** The blanks of the browser and of Python differ in six characters. */
  lemma BlanksDiffer(c: char)
    ensures PySpace(c) != JsSpace(c) <==> c as int in {0x1c, 0x1d, 0x1e, 0x1f, 0x85, 0xfeff}
    ensures c as int == 0xfeff ==> JsSpace(c)
  {
  }

  predicate IsTool(b: UiBlock) {
    b.UiTool?
  }

  ghost function ResultFor(id: string): Chunk -> bool {
    (c: Chunk) => c.ToolResult? && c.id == id
  }

  ghost function ProgressFor(id: string): Chunk -> bool {
    (c: Chunk) => c.ToolProgress? && c.id == id
  }

  ghost predicate Answers(c: Chunk, id: string) {
    c.TextChunk? || (c.ToolResult? && c.id == id)
  }

  /** A call that was announced by `use`, given the chunks that came since. */
  ghost predicate ShowsTool(b: UiBlock, use: Chunk, since: seq<Chunk>, result: Option<nat>, progress: Option<nat>) {
    && use.ToolUse? && b.UiTool? && b.name == use.name && b.input == use.input && b.parent == use.parent
    && (use.id != "" ==> b.id == use.id)
    && LastAt(since, ResultFor(b.id), result) && LastAt(since, ProgressFor(b.id), progress)
    && b.result == (if result.Some? then Some(since[result.value].content) else None)
    && b.isError == (if result.Some? then since[result.value].isError else false)
    && b.elapsed == (if progress.Some? then Some(since[progress.value].elapsed) else None)
    && (b.status == Running <==> forall k :: 0 <= k < |since| ==> !Answers(since[k], b.id))
  }

  /** What a chunk does to a call. */
  function ToolAfter(b: UiBlock, c: Chunk): UiBlock
    requires b.UiTool?
  {
    match c
    case TextChunk(_) => b.(status := Complete)
    case ToolResult(id, content, isError) =>
      if id == b.id then b.(status := Complete, result := Some(content), isError := isError) else b
    case ToolProgress(id, elapsed) => if id == b.id then b.(elapsed := Some(elapsed)) else b
    case _ => b
  }

  lemma ShowsSnoc(b: UiBlock, use: Chunk, since: seq<Chunk>, result: Option<nat>, progress: Option<nat>, c: Chunk)
    requires ShowsTool(b, use, since, result, progress)
    ensures ShowsTool(ToolAfter(b, c), use, since + [c],
                      if c.ToolResult? && c.id == b.id then Some(|since|) else result,
                      if c.ToolProgress? && c.id == b.id then Some(|since|) else progress)
  {
    LastAtSnoc(since, ResultFor(b.id), result, c);
    LastAtSnoc(since, ProgressFor(b.id), progress, c);
    var longer := since + [c];
    assert longer[|since|] == c;
    assert forall k :: 0 <= k < |since| ==> longer[k] == since[k];
  }

  ghost predicate ShowsSince(b: UiBlock, use: Chunk, since: seq<Chunk>) {
    exists result, progress :: ShowsTool(b, use, since, result, progress)
  }

  ghost predicate Shows(b: UiBlock, chunks: seq<Chunk>, at: nat) {
    at < |chunks| && ShowsSince(b, chunks[at], chunks[at + 1..])
  }

  lemma ShowsLater(b: UiBlock, chunks: seq<Chunk>, at: nat, c: Chunk)
    requires Shows(b, chunks, at)
    ensures b.UiTool? && Shows(ToolAfter(b, c), chunks + [c], at)
  {
    var result, progress :| ShowsTool(b, chunks[at], chunks[at + 1..], result, progress);
    ShowsSnoc(b, chunks[at], chunks[at + 1..], result, progress, c);
    assert (chunks + [c])[at + 1..] == chunks[at + 1..] + [c];
  }

  lemma ShowsNew(b: UiBlock, chunks: seq<Chunk>, use: Chunk)
    requires use.ToolUse? && b.UiTool? && b == UiTool(b.id, use.name, use.input, Running, None, false, use.parent, None)
    requires use.id != "" ==> b.id == use.id
    ensures Shows(b, chunks + [use], |chunks|)
  {
    var all := chunks + [use];
    assert all[|chunks| + 1..] == [];
    assert ShowsTool(b, all[|chunks|], all[|chunks| + 1..], None, None);
  }

  /** The calls on screen, where they stand and where they were announced. */
  ghost predicate ToolsShown(blocks: seq<UiBlock>, chunks: seq<Chunk>, tools: seq<nat>, at: seq<nat>) {
    && Selects(blocks, IsTool, tools) && Selects(chunks, IsUse, at) && |tools| == |at|
    && forall i :: 0 <= i < |at| ==> Shows(blocks[tools[i]], chunks, at[i])
  }

  /** A step that touches calls only as the chunk says, and adds none. */
  ghost predicate Passes(blocks: seq<UiBlock>, c: Chunk, now: seq<UiBlock>) {
    && |blocks| <= |now|
    && (forall k :: 0 <= k < |blocks| ==>
          if blocks[k].UiTool? then now[k] == ToolAfter(blocks[k], c) else !now[k].UiTool?)
    && (forall k :: |blocks| <= k < |now| ==> !now[k].UiTool?)
  }

  lemma PassedSelects(blocks: seq<UiBlock>, c: Chunk, now: seq<UiBlock>, tools: seq<nat>)
    requires Selects(blocks, IsTool, tools) && Passes(blocks, c, now)
    ensures Selects(now, IsTool, tools)
  {
  }

  lemma ToolsPass(blocks: seq<UiBlock>, chunks: seq<Chunk>, tools: seq<nat>, at: seq<nat>, c: Chunk,
                  now: seq<UiBlock>)
    requires ToolsShown(blocks, chunks, tools, at) && !c.ToolUse? && Passes(blocks, c, now)
    ensures ToolsShown(now, chunks + [c], tools, at)
  {
    PassedSelects(blocks, c, now, tools);
    SelectsSnoc(chunks, IsUse, at, c);
    forall i | 0 <= i < |at| ensures Shows(now[tools[i]], chunks + [c], at[i]) {
      ShowsLater(blocks[tools[i]], chunks, at[i], c);
    }
  }

  lemma HandlePasses(blocks: seq<UiBlock>, c: Chunk, stamp: string)
    requires !c.ToolUse?
    ensures Passes(blocks, c, Handle(blocks, c, stamp))
  {
  }

  lemma ToolAdded(blocks: seq<UiBlock>, chunks: seq<Chunk>, tools: seq<nat>, at: seq<nat>, c: Chunk, b: UiBlock)
    requires ToolsShown(blocks, chunks, tools, at) && c.ToolUse?
    requires b.UiTool? && b == UiTool(b.id, c.name, c.input, Running, None, false, c.parent, None)
    requires c.id != "" ==> b.id == c.id
    ensures ToolsShown(blocks + [b], chunks + [c], tools + [|blocks|], at + [|chunks|])
  {
    SelectsSnoc(blocks, IsTool, tools, b);
    SelectsSnoc(chunks, IsUse, at, c);
    ShowsNew(b, chunks, c);
    var tools', at' := tools + [|blocks|], at + [|chunks|];
    forall i | 0 <= i < |at'| ensures Shows((blocks + [b])[tools'[i]], chunks + [c], at'[i]) {
      if i < |at| {
        ShowsLater(blocks[tools[i]], chunks, at[i], c);
        assert tools'[i] == tools[i] && at'[i] == at[i];
      }
    }
  }

  /** Calls announced without an id have generated ones. */
  ghost predicate Stamped(blocks: seq<UiBlock>, chunks: seq<Chunk>, tools: seq<nat>, at: seq<nat>,
                          stamp: nat -> string)
    requires ToolsShown(blocks, chunks, tools, at)
  {
    forall i :: 0 <= i < |at| ==> StampFits(blocks[tools[i]], chunks[at[i]], at[i], stamp)
  }

  ghost predicate StampFits(b: UiBlock, use: Chunk, at: nat, stamp: nat -> string) {
    b.UiTool? && use.ToolUse? && (use.id == "" ==> b.id == stamp(at + 1))
  }

  lemma StampStays(b: UiBlock, use: Chunk, at: nat, stamp: nat -> string, c: Chunk)
    requires StampFits(b, use, at, stamp)
    ensures StampFits(ToolAfter(b, c), use, at, stamp)
  {
  }

  lemma StampsPass(blocks: seq<UiBlock>, chunks: seq<Chunk>, tools: seq<nat>, at: seq<nat>, c: Chunk,
                   now: seq<UiBlock>, stamp: nat -> string)
    requires ToolsShown(blocks, chunks, tools, at) && Stamped(blocks, chunks, tools, at, stamp)
    requires ToolsShown(now, chunks + [c], tools, at) && Passes(blocks, c, now)
    ensures Stamped(now, chunks + [c], tools, at, stamp)
  {
    forall i | 0 <= i < |at| ensures StampFits(now[tools[i]], (chunks + [c])[at[i]], at[i], stamp) {
      var b, use := blocks[tools[i]], chunks[at[i]];
      assert StampFits(b, use, at[i], stamp);
      StampStays(b, use, at[i], stamp, c);
      assert now[tools[i]] == ToolAfter(b, c) && (chunks + [c])[at[i]] == use;
    }
  }

  ghost predicate AllShown(blocks: seq<UiBlock>, chunks: seq<Chunk>, tools: seq<nat>, at: seq<nat>,
                           stamp: nat -> string)
  {
    ToolsShown(blocks, chunks, tools, at) && Stamped(blocks, chunks, tools, at, stamp)
  }

  lemma StampAdded(blocks: seq<UiBlock>, chunks: seq<Chunk>, tools: seq<nat>, at: seq<nat>, c: Chunk, b: UiBlock,
                   stamp: nat -> string)
    requires AllShown(blocks, chunks, tools, at, stamp) && StampFits(b, c, |chunks|, stamp)
    requires ToolsShown(blocks + [b], chunks + [c], tools + [|blocks|], at + [|chunks|])
    ensures Stamped(blocks + [b], chunks + [c], tools + [|blocks|], at + [|chunks|], stamp)
  {
    var tools', at' := tools + [|blocks|], at + [|chunks|];
    forall i | 0 <= i < |at'| ensures StampFits((blocks + [b])[tools'[i]], (chunks + [c])[at'[i]], at'[i], stamp) {
      if i < |at| {
        assert StampFits(blocks[tools[i]], chunks[at[i]], at[i], stamp);
        assert tools'[i] == tools[i] && at'[i] == at[i];
      }
    }
  }

  lemma UseShown(front: seq<Chunk>, use: Chunk, stamp: nat -> string, tools: seq<nat>, at: seq<nat>)
    requires use.ToolUse? && AllShown(Live(front, stamp), front, tools, at, stamp)
    ensures AllShown(Live(front + [use], stamp), front + [use], tools + [|Live(front, stamp)|], at + [|front|], stamp)
  {
    var blocks := Live(front, stamp);
    var b := UiTool(if use.id != "" then use.id else stamp(|front| + 1), use.name, use.input, Running, None, false,
                    use.parent, None);
    assert (front + [use])[..|front|] == front;
    assert Live(front + [use], stamp) == blocks + [b];
    ToolAdded(blocks, front, tools, at, use, b);
    StampAdded(blocks, front, tools, at, use, b, stamp);
  }

  lemma OtherShown(front: seq<Chunk>, c: Chunk, stamp: nat -> string, tools: seq<nat>, at: seq<nat>)
    requires !c.ToolUse? && AllShown(Live(front, stamp), front, tools, at, stamp)
    ensures AllShown(Live(front + [c], stamp), front + [c], tools, at, stamp)
  {
    var blocks, now := Live(front, stamp), Live(front + [c], stamp);
    assert (front + [c])[..|front|] == front;
    HandlePasses(blocks, c, stamp(|front| + 1));
    ToolsPass(blocks, front, tools, at, c, now);
    StampsPass(blocks, front, tools, at, c, now, stamp);
  }

  /** After any stream the calls on screen are those announced, all of them and in order: each with the
      content and flag of the last result for its id that came after it, the last progress time, and
      running iff neither such a result nor any text has come. */
  lemma {:induction false} LiveToolsShown(chunks: seq<Chunk>, stamp: nat -> string)
    returns (tools: seq<nat>, at: seq<nat>)
    ensures AllShown(Live(chunks, stamp), chunks, tools, at, stamp)
  {
    if chunks == [] {
      tools, at := [], [];
    } else {
      var front, last := chunks[..|chunks| - 1], chunks[|chunks| - 1];
      assert front + [last] == chunks;
      tools, at := LiveToolsShown(front, stamp);
      if last.ToolUse? {
        UseShown(front, last, stamp, tools, at);
        tools, at := tools + [|Live(front, stamp)|], at + [|front|];
      } else {
        OtherShown(front, last, stamp, tools, at);
      }
    }
  }
}
