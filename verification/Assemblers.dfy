/** The supervisor's assembler and the browser's accumulator give one stream one meaning. */
module Assemblers {
  import opened Common
  import opened Chunks
  import opened Assembly
  import opened StreamingBlocks

  // ---------- streams on which they agree ----------

  ghost predicate UsedIn(chunks: seq<Chunk>, id: string) {
    exists k :: 0 <= k < |chunks| && chunks[k].ToolUse? && chunks[k].id == id
  }

  /** Text has come since the last tool call. */
  predicate TextOpen(chunks: seq<Chunk>) {
    if chunks == [] then false
    else
      var last := chunks[|chunks| - 1];
      last.TextChunk? || (!last.ToolUse? && TextOpen(chunks[..|chunks| - 1]))
  }

  predicate ThinkingOpen(chunks: seq<Chunk>) {
    if chunks == [] then false
    else
      var last := chunks[|chunks| - 1];
      last.ThinkingChunk? || (!last.ToolUse? && ThinkingOpen(chunks[..|chunks| - 1]))
  }

  /** Characters that Python and JavaScript both trim, or neither does. */
  ghost predicate SameSpaces(s: string) {
    forall k :: 0 <= k < |s| ==> PySpace(s[k]) == JsSpace(s[k])
  }

  ghost predicate AllSameSpaces(chunks: seq<Chunk>) {
    forall k :: 0 <= k < |chunks| && (chunks[k].TextChunk? || chunks[k].ThinkingChunk?) ==>
      SameSpaces(chunks[k].content)
  }

  /** A chunk that may follow `before`, its place in its stretch aside: tool ids are new and not
      empty, and a result follows its call and is not cut. */
  ghost predicate Fits(before: seq<Chunk>, c: Chunk) {
    match c
    case ToolUse(id, _, _, _) => id != "" && !UsedIn(before, id)
    case ToolResult(id, content, _) => UsedIn(before, id) && |content| <= MAX_TOOL_RESULT
    case _ => true
  }

  /** And no thinking after text of the same stretch. */
  ghost predicate Follows(before: seq<Chunk>, c: Chunk) {
    Fits(before, c) && (c.ThinkingChunk? ==> !TextOpen(before))
  }

  ghost predicate Fitting(chunks: seq<Chunk>) {
    forall k :: 0 <= k < |chunks| ==> Fits(chunks[..k], chunks[k])
  }

  /** Thinking comes before text in every stretch between tool calls. */
  ghost predicate ThinkingFirst(chunks: seq<Chunk>) {
    forall k :: 0 <= k < |chunks| && chunks[k].ThinkingChunk? ==> !TextOpen(chunks[..k])
  }

  ghost predicate Regular(chunks: seq<Chunk>) {
    forall k :: 0 <= k < |chunks| ==> Follows(chunks[..k], chunks[k])
  }

  lemma RegularFront(chunks: seq<Chunk>)
    requires Regular(chunks) && chunks != []
    ensures Regular(chunks[..|chunks| - 1]) && Follows(chunks[..|chunks| - 1], chunks[|chunks| - 1])
  {
    var front := chunks[..|chunks| - 1];
    forall k | 0 <= k < |front| ensures Follows(front[..k], front[k]) {
      assert front[..k] == chunks[..k];
    }
  }

  // ---------- blank texts ----------

  /** Blank to both languages or to neither. */
  predicate Alike(s: string) {
    Strip(s) == "" <==> Trim(s, JsSpace) == ""
  }

  /** The open thinking and text of a stretch are. */
  predicate OpenAlike(b: Builder) {
    Alike(b.thinking) && Alike(b.pending)
  }

  /** The thinking and the text of every stretch that a tool call has closed are. */
  predicate SettledAlike(chunks: seq<Chunk>) {
    if chunks == [] then true
    else
      var front := chunks[..|chunks| - 1];
      SettledAlike(front) && (chunks[|chunks| - 1].ToolUse? ==> OpenAlike(FeedAll(front)))
  }

  /** And those of the last stretch. */
  predicate TrimmedAlike(chunks: seq<Chunk>) {
    SettledAlike(chunks) && OpenAlike(FeedAll(chunks))
  }

  lemma SameSpacesAlike(s: string)
    requires SameSpaces(s)
    ensures Alike(s)
  {
    TrimBlank(s, PySpace);
    TrimBlank(s, JsSpace);
  }

  lemma {:induction false} SameSpacesThroughout(chunks: seq<Chunk>)
    requires AllSameSpaces(chunks)
    ensures TrimmedAlike(chunks)
    ensures SameSpaces(FeedAll(chunks).thinking) && SameSpaces(FeedAll(chunks).pending)
  {
    if chunks != [] {
      SameSpacesThroughout(chunks[..|chunks| - 1]);
    }
    SameSpacesAlike(FeedAll(chunks).thinking);
    SameSpacesAlike(FeedAll(chunks).pending);
  }

  // ---------- how the two states correspond ----------

  function KindOf(b: Block): nat {
    match b
    case TextBlock(_) => 0
    case ThinkingBlock(_) => 1
    case ToolBlock(_, _, _, _, _, _) => 2
    case ErrorBlock(_) => 3
  }

  /** Some position holds blocks of two kinds; nothing appended later changes that. */
  ghost predicate KindsDiffer(a: seq<Block>, b: seq<Block>) {
    exists n :: 0 <= n < |a| && n < |b| && KindOf(a[n]) != KindOf(b[n])
  }

  lemma KindsDifferExtended(a: seq<Block>, b: seq<Block>, c: seq<Block>, d: seq<Block>)
    requires KindsDiffer(a, b)
    ensures KindsDiffer(a + c, b + d) && a + c != b + d
  {
    var n :| 0 <= n < |a| && n < |b| && KindOf(a[n]) != KindOf(b[n]);
    assert (a + c)[n] == a[n] && (b + d)[n] == b[n];
  }

  lemma KindsDifferAfter(p: seq<Block>, a: seq<Block>, b: seq<Block>)
    requires KindsDiffer(a, b)
    ensures KindsDiffer(p + a, p + b)
  {
    var n :| 0 <= n < |a| && n < |b| && KindOf(a[n]) != KindOf(b[n]);
    assert (p + a)[|p| + n] == a[n] && (p + b)[|p| + n] == b[n];
  }

  ghost predicate Compare(a: seq<Block>, b: seq<Block>, alike: bool) {
    if alike then a == b else KindsDiffer(a, b)
  }

  /** The browser's list is `settled` (up to the last tool call) and at most one open thinking
      and one open text block; the supervisor holds the same, not yet attached, unless the two
      have already differed over a blank text. */
  ghost predicate Corresponds(b: Builder, live: seq<UiBlock>, settled: seq<UiBlock>, thinking: bool, text: bool,
                              alike: bool)
  {
    && live == settled + OpenBlocks(b, thinking, text)
    && (!thinking ==> b.thinking == "") && (!text ==> b.pending == "")
    && (settled != [] ==> settled[|settled| - 1].UiTool?)
    && Compare(Meta(settled), AttachedAll(b.blocks, b.results), alike)
  }

  ghost function OpenBlocks(b: Builder, thinking: bool, text: bool): seq<UiBlock> {
    (if thinking then [UiThinking(b.thinking)] else []) + (if text then [UiText(b.pending)] else [])
  }

  /** What each side would save of the open texts. */
  function JsOpen(b: Builder): seq<Block> {
    (if Trim(b.thinking, JsSpace) != "" then [ThinkingBlock(b.thinking)] else [])
    + (if Trim(b.pending, JsSpace) != "" then [TextBlock(b.pending)] else [])
  }

  function PyOpen(b: Builder): seq<Block> {
    (if Strip(b.thinking) != "" then [ThinkingBlock(b.thinking)] else [])
    + (if Strip(b.pending) != "" then [TextBlock(b.pending)] else [])
  }

  lemma OpenComparison(b: Builder, call: Block, call': Block)
    requires call.ToolBlock? && call'.ToolBlock?
    ensures JsOpen(b) == PyOpen(b) <==> OpenAlike(b)
    ensures !OpenAlike(b) ==> KindsDiffer(JsOpen(b) + [call], PyOpen(b) + [call'])
  {
    if !OpenAlike(b) {
      var a, c := JsOpen(b) + [call], PyOpen(b) + [call'];
      assert KindOf(a[0]) != KindOf(c[0]) || (|a| > 1 && |c| > 1 && KindOf(a[1]) != KindOf(c[1]));
    }
  }

  lemma {:induction false} MetaConcat(a: seq<UiBlock>, b: seq<UiBlock>)
    ensures Meta(a + b) == Meta(a) + Meta(b)
  {
    if b == [] {
      assert a + b == a;
    } else {
      MetaConcat(a, b[..|b| - 1]);
      assert (a + b)[..|a + b| - 1] == a + b[..|b| - 1];
    }
  }

  lemma MetaOne(b: UiBlock)
    ensures Meta([b]) == if Shown(b) then [MetaOf(b)] else []
  {
    assert [b][..0] == [];
  }

  lemma AttachedConcat(a: seq<Block>, b: seq<Block>, results: Assembly.Outcomes)
    ensures AttachedAll(a + b, results) == AttachedAll(a, results) + AttachedAll(b, results)
  {
  }

  lemma OpenMeta(b: Builder, thinking: bool, text: bool)
    requires (!thinking ==> b.thinking == "") && (!text ==> b.pending == "")
    ensures Meta(OpenBlocks(b, thinking, text)) == JsOpen(b)
  {
    var th, tx := UiThinking(b.thinking), UiText(b.pending);
    MetaConcat(if thinking then [th] else [], if text then [tx] else []);
    MetaOne(th);
    MetaOne(tx);
    TrimBlank("", JsSpace);
  }

  lemma AttachedOpen(b: Builder)
    ensures AttachedAll(Flushed(b), b.results) == AttachedAll(b.blocks, b.results) + PyOpen(b)
  {
    assert Flushed(b) == b.blocks + PyOpen(b);
    AttachedConcat(b.blocks, PyOpen(b), b.results);
    assert AttachedAll(PyOpen(b), b.results) == PyOpen(b);
  }

  /** What each side has if the stream ends here. */
  lemma BothSides(b: Builder, live: seq<UiBlock>, settled: seq<UiBlock>, thinking: bool, text: bool, alike: bool)
    requires Corresponds(b, live, settled, thinking, text, alike)
    ensures Meta(live) == Meta(settled) + JsOpen(b)
    ensures AttachedAll(Flushed(b), b.results) == AttachedAll(b.blocks, b.results) + PyOpen(b)
  {
    MetaConcat(settled, OpenBlocks(b, thinking, text));
    OpenMeta(b, thinking, text);
    AttachedOpen(b);
  }

  /** The browser would save what the supervisor would assemble exactly when no blank text has
      told them apart. */
  lemma OpenBlocksAgree(b: Builder, live: seq<UiBlock>, settled: seq<UiBlock>, thinking: bool, text: bool, alike: bool)
    requires Corresponds(b, live, settled, thinking, text, alike)
    ensures Meta(live) == AttachedAll(Flushed(b), b.results) <==> alike && OpenAlike(b)
  {
    var saved, attached := Meta(settled), AttachedAll(b.blocks, b.results);
    BothSides(b, live, settled, thinking, text, alike);
    var call := ToolBlock("", "", Null, "", None, false);
    OpenComparison(b, call, call);
    if !alike {
      KindsDifferExtended(saved, attached, JsOpen(b), PyOpen(b));
    } else if saved + JsOpen(b) == attached + PyOpen(b) {
      assert JsOpen(b) == (saved + JsOpen(b))[|saved|..];
    }
  }

  // ---------- one chunk ----------

  lemma ResultSetConcat(a: seq<Block>, b: seq<Block>, id: string, outcome: ToolOutcome)
    ensures ResultSet(a + b, id, outcome) == ResultSet(a, id, outcome) + ResultSet(b, id, outcome)
  {
  }

  /** A result reaches a saved block as it reaches the block on screen. */
  lemma ShownWithResult(b: UiBlock, id: string, content: string, isError: bool)
    ensures Shown(WithResult(b, id, content, isError)) == Shown(b)
    ensures Shown(b) ==>
      [MetaOf(WithResult(b, id, content, isError))] == ResultSet([MetaOf(b)], id, ToolOutcome(content, isError))
  {
  }

  lemma {:induction false} MetaWithResult(blocks: seq<UiBlock>, id: string, content: string, isError: bool)
    ensures Meta(SetResult(blocks, id, content, isError)) == ResultSet(Meta(blocks), id, ToolOutcome(content, isError))
  {
    if blocks != [] {
      var n := |blocks| - 1;
      var front, last, now := blocks[..n], blocks[n], SetResult(blocks, id, content, isError);
      MetaWithResult(front, id, content, isError);
      assert now[..n] == SetResult(front, id, content, isError);
      assert now[n] == WithResult(last, id, content, isError);
      ShownWithResult(last, id, content, isError);
      ResultSetConcat(Meta(front), if Shown(last) then [MetaOf(last)] else [], id, ToolOutcome(content, isError));
    } else {
      assert SetResult(blocks, id, content, isError) == [];
    }
  }

  /** The result put on every tool call with the id. */
  ghost function ResultSet(blocks: seq<Block>, id: string, outcome: ToolOutcome): (r: seq<Block>)
    ensures |r| == |blocks|
  {
    seq(|blocks|, k requires 0 <= k < |blocks| =>
      if blocks[k].ToolBlock? && blocks[k].id == id
      then blocks[k].(result := Some(outcome.content), isError := outcome.isError) else blocks[k])
  }

  lemma LaterResult(b: Builder, id: string, outcome: ToolOutcome)
    requires id != "" && forall k :: 0 <= k < |b.blocks| ==> Bare(b.blocks[k]) == b.blocks[k]
    ensures AttachedAll(b.blocks, b.results[id := outcome]) == ResultSet(AttachedAll(b.blocks, b.results), id, outcome)
  {
    forall k | 0 <= k < |b.blocks|
      ensures AttachedAll(b.blocks, b.results[id := outcome])[k]
              == ResultSet(AttachedAll(b.blocks, b.results), id, outcome)[k]
    {
      assert Bare(b.blocks[k]) == b.blocks[k];
    }
  }

  /** The browser's list after a change to its settled part that keeps text and thinking. */
  lemma MapSettled(f: UiBlock -> UiBlock, settled: seq<UiBlock>, open: seq<UiBlock>)
    requires forall k :: 0 <= k < |open| ==> f(open[k]) == open[k]
    ensures MapBlocks(f, settled + open) == MapBlocks(f, settled) + open
  {
  }

  lemma ResultKeepsKinds(a: seq<Block>, b: seq<Block>, id: string, outcome: ToolOutcome, alike: bool)
    requires Compare(a, b, alike)
    ensures Compare(ResultSet(a, id, outcome), ResultSet(b, id, outcome), alike)
  {
    if !alike {
      var n :| 0 <= n < |a| && n < |b| && KindOf(a[n]) != KindOf(b[n]);
      assert KindOf(ResultSet(a, id, outcome)[n]) != KindOf(ResultSet(b, id, outcome)[n]);
    }
  }

  lemma ResultStep(b: Builder, live: seq<UiBlock>, settled: seq<UiBlock>, thinking: bool, text: bool, alike: bool,
                   c: Chunk) returns (settled': seq<UiBlock>)
    requires Corresponds(b, live, settled, thinking, text, alike)
    requires c.ToolResult? && c.id != "" && |c.content| <= MAX_TOOL_RESULT
    requires forall k :: 0 <= k < |b.blocks| ==> Bare(b.blocks[k]) == b.blocks[k]
    ensures Corresponds(Feed(b, c), Handle(live, c, ""), settled', thinking, text, alike)
  {
    settled' := SetResult(settled, c.id, c.content, c.isError);
    assert SetResult(live, c.id, c.content, c.isError) == settled' + OpenBlocks(b, thinking, text);
    MetaWithResult(settled, c.id, c.content, c.isError);
    LaterResult(b, c.id, ToolOutcome(c.content, c.isError));
    ResultKeepsKinds(Meta(settled), AttachedAll(b.blocks, b.results), c.id, ToolOutcome(c.content, c.isError), alike);
  }

  lemma ProgressStep(b: Builder, live: seq<UiBlock>, settled: seq<UiBlock>, thinking: bool, text: bool, alike: bool,
                     c: Chunk) returns (settled': seq<UiBlock>)
    requires Corresponds(b, live, settled, thinking, text, alike) && c.ToolProgress?
    ensures Corresponds(Feed(b, c), Handle(live, c, ""), settled', thinking, text, alike)
  {
    settled' := SetProgress(settled, c.id, c.elapsed);
    assert SetProgress(live, c.id, c.elapsed) == settled' + OpenBlocks(b, thinking, text);
    UnseenMeta(settled, settled');
  }

  lemma TextStep(b: Builder, live: seq<UiBlock>, settled: seq<UiBlock>, thinking: bool, text: bool, alike: bool,
                 c: Chunk) returns (settled': seq<UiBlock>)
    requires Corresponds(b, live, settled, thinking, text, alike) && c.TextChunk?
    ensures Corresponds(Feed(b, c), Handle(live, c, ""), settled', thinking, true, alike)
  {
    settled' := ResolveAll(settled);
    FinalizeKeepsMeta(settled);
    var thinkings := if thinking then [UiThinking(b.thinking)] else [];
    Associate(settled, thinkings, if text then [UiText(b.pending)] else []);
    TextLands(settled, thinkings, text, b.pending, c.content);
    Associate(settled', thinkings, [UiText(b.pending + c.content)]);
  }

  /** New text joins the open text block, or opens one, after running tools are resolved. */
  lemma TextLands(settled: seq<UiBlock>, thinkings: seq<UiBlock>, text: bool, pending: string, content: string)
    requires settled != [] ==> settled[|settled| - 1].UiTool?
    requires forall k :: 0 <= k < |thinkings| ==> thinkings[k].UiThinking?
    requires !text ==> pending == ""
    ensures AddText(ResolveAll(settled + thinkings + (if text then [UiText(pending)] else [])), content)
            == ResolveAll(settled) + thinkings + [UiText(pending + content)]
  {
    var before := ResolveAll(settled) + thinkings;
    MapSettled(Resolved, settled, thinkings);
    MapSettled(Resolved, settled + thinkings, if text then [UiText(pending)] else []);
    if text {
      assert (before + [UiText(pending)])[..|before|] == before;
    } else {
      assert pending + content == content;
      assert before + [] == before;
      assert settled + thinkings + [] == settled + thinkings;
    }
  }

  lemma ThinkingStep(b: Builder, live: seq<UiBlock>, settled: seq<UiBlock>, thinking: bool, alike: bool, c: Chunk)
    requires Corresponds(b, live, settled, thinking, false, alike) && c.ThinkingChunk?
    ensures Corresponds(Feed(b, c), Handle(live, c, ""), settled, true, false, alike)
  {
    if thinking {
      assert live == settled + [UiThinking(b.thinking)];
      assert live[..|live| - 1] == settled;
    } else {
      assert live == settled;
      assert b.thinking + c.content == c.content;
    }
    assert AddThinking(live, c.content) == settled + [UiThinking(b.thinking + c.content)];
  }

  lemma ToolStep(b: Builder, live: seq<UiBlock>, settled: seq<UiBlock>, thinking: bool, text: bool, alike: bool,
                 c: Chunk)
    requires Corresponds(b, live, settled, thinking, text, alike)
    requires c.ToolUse? && c.id != "" && c.id !in b.results
    ensures Corresponds(Feed(b, c), Handle(live, c, ""), Handle(live, c, ""), false, false, alike && OpenAlike(b))
  {
    var tool := UiTool(c.id, c.name, c.input, Running, None, false, c.parent, None);
    BothSides(b, live, settled, thinking, text, alike);
    MetaConcat(live, [tool]);
    MetaOne(tool);
    AttachedConcat(Flushed(b), [MetaOf(tool)], b.results);
    assert AttachedAll([MetaOf(tool)], b.results) == [MetaOf(tool)];
    CallCloses(Meta(settled), AttachedAll(b.blocks, b.results), b, MetaOf(tool), alike);
    assert Handle(live, c, "") == live + [tool];
    assert (live + [tool]) + [] + [] == live + [tool];
  }

  /** A tool call closes a stretch: a difference over its texts now shows at a fixed place. */
  lemma CallCloses(saved: seq<Block>, attached: seq<Block>, b: Builder, call: Block, alike: bool)
    requires Compare(saved, attached, alike) && call.ToolBlock?
    ensures Compare(saved + JsOpen(b) + [call], attached + PyOpen(b) + [call], alike && OpenAlike(b))
  {
    OpenComparison(b, call, call);
    Associate(saved, JsOpen(b), [call]);
    Associate(attached, PyOpen(b), [call]);
    if !alike {
      KindsDifferExtended(saved, attached, JsOpen(b) + [call], PyOpen(b) + [call]);
    } else if !OpenAlike(b) {
      KindsDifferAfter(saved, JsOpen(b) + [call], PyOpen(b) + [call]);
    }
  }

  // ---------- all chunks ----------

  lemma UsedSnoc(chunks: seq<Chunk>, id: string)
    requires chunks != [] && UsedIn(chunks[..|chunks| - 1], id)
    ensures UsedIn(chunks, id)
  {
    var k :| 0 <= k < |chunks| - 1 && chunks[..|chunks| - 1][k].ToolUse? && chunks[..|chunks| - 1][k].id == id;
    assert chunks[k].ToolUse? && chunks[k].id == id;
  }

  lemma {:induction false} UsedIdsAreNamed(chunks: seq<Chunk>, id: string)
    requires Regular(chunks) && UsedIn(chunks, id)
    ensures id != ""
  {
    var k :| 0 <= k < |chunks| && chunks[k].ToolUse? && chunks[k].id == id;
    assert Follows(chunks[..k], chunks[k]);
  }

  lemma {:induction false} ResultsAreUsed(chunks: seq<Chunk>)
    requires Regular(chunks)
    ensures forall id :: id in FeedAll(chunks).results ==> UsedIn(chunks, id)
  {
    if chunks != [] {
      var front := chunks[..|chunks| - 1];
      RegularFront(chunks);
      ResultsAreUsed(front);
      forall id | id in FeedAll(chunks).results ensures UsedIn(chunks, id) {
        UsedSnoc(chunks, id);
      }
    }
  }

  /** The stamp matters only for tool calls without an id. */
  lemma StampUnused(blocks: seq<UiBlock>, c: Chunk, stamp: string)
    requires c.ToolUse? ==> c.id != ""
    ensures Handle(blocks, c, stamp) == Handle(blocks, c, "")
  {
  }

  lemma {:induction false} StatesCorrespond(chunks: seq<Chunk>, stamp: nat -> string) returns (settled: seq<UiBlock>)
    requires Regular(chunks)
    ensures Corresponds(FeedAll(chunks), Live(chunks, stamp), settled, ThinkingOpen(chunks), TextOpen(chunks),
                        SettledAlike(chunks))
  {
    if chunks == [] {
      settled := [];
      return;
    }
    var front, c := chunks[..|chunks| - 1], chunks[|chunks| - 1];
    RegularFront(chunks);
    settled := StatesCorrespond(front, stamp);
    var b, live, thinking, text := FeedAll(front), Live(front, stamp), ThinkingOpen(front), TextOpen(front);
    var alike := SettledAlike(front);
    FlushedStay(front, []);
    assert front + [] == front;
    assert forall k :: 0 <= k < |b.blocks| ==> BareAll(b.blocks)[k] == Bare(b.blocks[k]);
    StampUnused(live, c, stamp(|chunks|));
    match c {
      case TextChunk(_) => settled := TextStep(b, live, settled, thinking, text, alike, c);
      case ThinkingChunk(_) => ThinkingStep(b, live, settled, thinking, alike, c);
      case ToolUse(id, _, _, _) =>
        ResultsAreUsed(front);
        ToolStep(b, live, settled, thinking, text, alike, c);
        settled := Live(chunks, stamp);
      case ToolResult(id, _, _) =>
        UsedIdsAreNamed(front, id);
        settled := ResultStep(b, live, settled, thinking, text, alike, c);
      case ToolProgress(_, _) => settled := ProgressStep(b, live, settled, thinking, text, alike, c);
      case _ =>
    }
  }

  /** On regular streams the supervisor's message and what the browser saves are the same blocks,
      before and after finalizing, exactly when the thinking and the text of every stretch are
      blank to both languages or to neither; the text is the same in any case. */
  lemma {:induction false} AssemblersAgree(chunks: seq<Chunk>, stamp: nat -> string)
    requires Regular(chunks)
    ensures Meta(Live(chunks, stamp)) == Rebuilt(chunks) <==> TrimmedAlike(chunks)
    ensures Meta(ResolveAll(Live(chunks, stamp))) == Meta(Live(chunks, stamp))
    ensures TextOf(Live(chunks, stamp)) == RebuiltText(chunks)
  {
    var settled := StatesCorrespond(chunks, stamp);
    OpenBlocksAgree(FeedAll(chunks), Live(chunks, stamp), settled, ThinkingOpen(chunks), TextOpen(chunks),
                    SettledAlike(chunks));
    FinalizeKeepsMeta(Live(chunks, stamp));
    LiveText(chunks, stamp);
    TextIsContent(chunks);
  }

  /** Without sub-agent cards nothing is spliced in, so this is the saved message. */
  lemma {:induction false} NoCardsNoSplice(blocks: seq<Block>, events: Events)
    requires forall k :: 0 <= k < |blocks| ==> !IsCard(blocks[k])
    ensures SpliceAll(blocks, events) == Splice([], map[], events) && Merged(blocks, events) == blocks
  {
    if blocks != [] {
      NoCardsNoSplice(blocks[..|blocks| - 1], events);
    }
  }

  // ---------- where they do not agree ----------

  /** A thinking block right after a text block. */
  ghost predicate Inverted(blocks: seq<Block>) {
    exists k :: 0 <= k < |blocks| - 1 && blocks[k].TextBlock? && blocks[k + 1].ThinkingBlock?
  }

  ghost predicate InvertedUi(blocks: seq<UiBlock>) {
    exists k :: 0 <= k < |blocks| - 1 && blocks[k].UiText? && blocks[k + 1].UiThinking?
  }

  /** The supervisor never puts thinking after text: flushed blocks end with a tool call. */
  lemma {:induction false} NeverInverted(chunks: seq<Chunk>)
    ensures var blocks := FeedAll(chunks).blocks;
      !Inverted(blocks) && (blocks != [] ==> blocks[|blocks| - 1].ToolBlock?)
    ensures !Inverted(Flushed(FeedAll(chunks)))
  {
    if chunks != [] {
      NeverInverted(chunks[..|chunks| - 1]);
    }
  }

  lemma RebuiltNotInverted(chunks: seq<Chunk>)
    ensures !Inverted(Rebuilt(chunks))
  {
    NeverInverted(chunks);
    var flushed, rebuilt := Flushed(FeedAll(chunks)), Rebuilt(chunks);
    forall k | 0 <= k < |rebuilt| - 1 ensures !(rebuilt[k].TextBlock? && rebuilt[k + 1].ThinkingBlock?) {
      assert !(flushed[k].TextBlock? && flushed[k + 1].ThinkingBlock?);
    }
  }

  /** Every message keeps the kind of every block the browser has, and the text of all but the
      last, which may grow. */
  ghost predicate Grows(live: seq<UiBlock>, live': seq<UiBlock>) {
    && |live| <= |live'|
    && forall k :: 0 <= k < |live| ==>
         (live[k].UiText? <==> live'[k].UiText?) && (live[k].UiThinking? <==> live'[k].UiThinking?)
  }

  lemma HandleGrows(live: seq<UiBlock>, c: Chunk, stamp: string)
    ensures Grows(live, Handle(live, c, stamp))
    ensures InvertedUi(live) ==> InvertedUi(Handle(live, c, stamp))
  {
    var now := Handle(live, c, stamp);
    if InvertedUi(live) {
      var k :| 0 <= k < |live| - 1 && live[k].UiText? && live[k + 1].UiThinking?;
      assert now[k].UiText? && now[k + 1].UiThinking?;
    }
  }

  /** Once text is open in a stretch, either it ends the browser's list or thinking has already
      come after it; so thinking that comes now comes after text. */
  lemma {:induction false} BrowserInverts(chunks: seq<Chunk>, stamp: nat -> string)
    ensures TextOpen(chunks) ==>
      var live := Live(chunks, stamp); InvertedUi(live) || (live != [] && live[|live| - 1].UiText?)
    ensures !ThinkingFirst(chunks) ==> InvertedUi(Live(chunks, stamp))
  {
    if chunks != [] {
      var front, c := chunks[..|chunks| - 1], chunks[|chunks| - 1];
      var live := Live(front, stamp);
      BrowserInverts(front, stamp);
      HandleGrows(live, c, stamp(|chunks|));
      if c.ThinkingChunk? && TextOpen(front) && !InvertedUi(live) {
        var now := AddThinking(live, c.content);
        assert now[|live| - 1].UiText? && now[|live|].UiThinking?;
      }
      if !ThinkingFirst(chunks) && ThinkingFirst(front) {
        LastInverts(chunks);
      }
    }
  }

  lemma LastInverts(chunks: seq<Chunk>)
    requires chunks != [] && !ThinkingFirst(chunks) && ThinkingFirst(chunks[..|chunks| - 1])
    ensures chunks[|chunks| - 1].ThinkingChunk? && TextOpen(chunks[..|chunks| - 1])
  {
    var front := chunks[..|chunks| - 1];
    var k :| 0 <= k < |chunks| && chunks[k].ThinkingChunk? && TextOpen(chunks[..k]);
    assert forall j :: 0 <= j < |front| ==> front[..j] == chunks[..j] && front[j] == chunks[j];
  }

  /** No text or thinking chunk is blank. */
  ghost predicate NoneBlank(chunks: seq<Chunk>) {
    forall k :: 0 <= k < |chunks| && (chunks[k].TextChunk? || chunks[k].ThinkingChunk?) ==>
      Trim(chunks[k].content, JsSpace) != ""
  }

  lemma NonBlankGrows(a: string, b: string)
    requires Trim(a, JsSpace) != "" || Trim(b, JsSpace) != ""
    ensures Trim(a + b, JsSpace) != ""
  {
    TrimBlank(a, JsSpace);
    TrimBlank(b, JsSpace);
    TrimBlank(a + b, JsSpace);
    if k :| 0 <= k < |a| && !JsSpace(a[k]) {
      assert (a + b)[k] == a[k];
    } else {
      var k :| 0 <= k < |b| && !JsSpace(b[k]);
      assert (a + b)[|a| + k] == b[k];
    }
  }

  ghost predicate AllShown(live: seq<UiBlock>) {
    forall k :: 0 <= k < |live| ==> Shown(live[k])
  }

  lemma HandleShows(live: seq<UiBlock>, c: Chunk, stamp: string)
    requires AllShown(live) && (c.TextChunk? || c.ThinkingChunk? ==> Trim(c.content, JsSpace) != "")
    ensures AllShown(Handle(live, c, stamp))
  {
    match c {
      case TextChunk(content) => AddTextShows(ResolveAll(live), content);
      case ThinkingChunk(content) => AddThinkingShows(live, content);
      case _ =>
    }
  }

  lemma AddTextShows(live: seq<UiBlock>, content: string)
    requires AllShown(live) && Trim(content, JsSpace) != ""
    ensures AllShown(AddText(live, content))
  {
    if live != [] && live[|live| - 1].UiText? {
      NonBlankGrows(live[|live| - 1].content, content);
    }
  }

  lemma AddThinkingShows(live: seq<UiBlock>, content: string)
    requires AllShown(live) && Trim(content, JsSpace) != ""
    ensures AllShown(AddThinking(live, content))
  {
    if live != [] && live[|live| - 1].UiThinking? {
      NonBlankGrows(live[|live| - 1].content, content);
    }
  }

  lemma {:induction false} LiveShown(chunks: seq<Chunk>, stamp: nat -> string)
    requires NoneBlank(chunks)
    ensures AllShown(Live(chunks, stamp))
  {
    if chunks != [] {
      LiveShown(chunks[..|chunks| - 1], stamp);
      HandleShows(Live(chunks[..|chunks| - 1], stamp), chunks[|chunks| - 1], stamp(|chunks|));
    }
  }

  lemma {:induction false} MetaOfShown(live: seq<UiBlock>)
    requires AllShown(live)
    ensures |Meta(live)| == |live| && forall k :: 0 <= k < |live| ==> Meta(live)[k] == MetaOf(live[k])
  {
    if live != [] {
      MetaOfShown(live[..|live| - 1]);
    }
  }

  /** The order in each stretch decides: on streams that fit and have no blank chunk, the browser
      saves what the supervisor rebuilds if and only if thinking comes first everywhere. */
  lemma AgreeIffThinkingFirst(chunks: seq<Chunk>, stamp: nat -> string)
    requires Fitting(chunks) && AllSameSpaces(chunks) && NoneBlank(chunks)
    ensures Meta(Live(chunks, stamp)) == Rebuilt(chunks) <==> ThinkingFirst(chunks)
  {
    if ThinkingFirst(chunks) {
      assert Regular(chunks);
      SameSpacesThroughout(chunks);
      AssemblersAgree(chunks, stamp);
    } else {
      var live := Live(chunks, stamp);
      BrowserInverts(chunks, stamp);
      LiveShown(chunks, stamp);
      MetaOfShown(live);
      RebuiltNotInverted(chunks);
      var k :| 0 <= k < |live| - 1 && live[k].UiText? && live[k + 1].UiThinking?;
      assert Meta(live)[k].TextBlock? && Meta(live)[k + 1].ThinkingBlock?;
      assert Inverted(Meta(live));
    }
  }
}
