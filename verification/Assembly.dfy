/** The supervisor's assembler (agent-supervisor/app/assembly.py): it rebuilds the final message
    from the buffered chunks and splices in the events of sub-agents. Block dicts are objects,
    because results are attached in place. */
module Assembly {
  import opened Common
  import opened Chunks

  const MAX_TOOL_RESULT := 10240

  const TRUNCATION_NOTE := "\n... (truncated)"

  function Truncate(content: string): string {
    if |content| > MAX_TOOL_RESULT then content[..MAX_TOOL_RESULT] + TRUNCATION_NOTE else content
  }

  datatype ToolOutcome = ToolOutcome(content: string, isError: bool)

  type Outcomes = map<string, ToolOutcome>

  // ---------- what is assembled ----------

  /** A block with the result its tool id has, if any. */
  function Attached(b: Block, results: Outcomes): Block {
    if b.ToolBlock? && b.id != "" && b.id in results
    then b.(result := Some(results[b.id].content), isError := b.isError || results[b.id].isError)
    else b
  }

  function AttachedAll(blocks: seq<Block>, results: Outcomes): seq<Block> {
    seq(|blocks|, k requires 0 <= k < |blocks| => Attached(blocks[k], results))
  }

  /** The variables of the rebuild loop. */
  datatype Builder = Builder(text: string, blocks: seq<Block>, thinking: string, pending: string, results: Outcomes)

  function Flushed(b: Builder): seq<Block> {
    b.blocks
    + (if Strip(b.thinking) != "" then [ThinkingBlock(b.thinking)] else [])
    + (if Strip(b.pending) != "" then [TextBlock(b.pending)] else [])
  }

  function Feed(b: Builder, c: Chunk): Builder {
    match c
    case TextChunk(content) => b.(pending := b.pending + content, text := b.text + content)
    case ThinkingChunk(content) => b.(thinking := b.thinking + content)
    case ToolUse(id, name, input, parent) =>
      b.(blocks := Flushed(b) + [ToolBlock(id, name, input, parent, None, false)], thinking := "", pending := "")
    case ToolResult(id, content, isError) =>
      if id == "" then b else b.(results := b.results[id := ToolOutcome(Truncate(content), isError)])
    case _ => b
  }

  function FeedAll(chunks: seq<Chunk>): Builder {
    if chunks == [] then Builder("", [], "", "", map[])
    else Feed(FeedAll(chunks[..|chunks| - 1]), chunks[|chunks| - 1])
  }

  /** The text and blocks of the final message. */
  function RebuiltText(chunks: seq<Chunk>): string {
    FeedAll(chunks).text
  }

  function Rebuilt(chunks: seq<Chunk>): seq<Block> {
    AttachedAll(Flushed(FeedAll(chunks)), FeedAll(chunks).results)
  }

  // ---------- the code, on block dicts ----------

  class BlockDict {
    var value: Block

    constructor (b: Block)
      ensures value == b
    {
      value := b;
    }
  }

  ghost function Values(blocks: seq<BlockDict>): seq<Block>
    reads blocks
  {
    seq(|blocks|, k requires 0 <= k < |blocks| reads blocks => blocks[k].value)
  }

  method AttachToolResults(blocks: seq<BlockDict>, results: Outcomes)
    requires NoDuplicates(blocks)
    modifies blocks
    ensures Values(blocks) == AttachedAll(old(Values(blocks)), results)
  {
    for i := 0 to |blocks|
      invariant forall k :: 0 <= k < i ==> blocks[k].value == Attached(old(blocks[k].value), results)
      invariant forall k :: i <= k < |blocks| ==> blocks[k].value == old(blocks[k].value)
    {
      var b := blocks[i].value;
      if b.ToolBlock? && b.id != "" && b.id in results {
        var tr := results[b.id];
        b := b.(result := Some(tr.content));
        if tr.isError {
          b := b.(isError := true);
        }
        blocks[i].value := b;
      }
    }
  }

  /** One more dict at the end of a list of fresh ones. */
  method Append(blocks: seq<BlockDict>, b: Block) returns (longer: seq<BlockDict>)
    requires NoDuplicates(blocks)
    ensures NoDuplicates(longer)
    ensures Values(longer) == Values(blocks) + [b]
    ensures forall k :: 0 <= k < |longer| ==> longer[k] in blocks || fresh(longer[k])
  {
    var dict := new BlockDict(b);
    longer := blocks + [dict];
  }

  method FlushPending(blocks: seq<BlockDict>, thinking: string, pending: string, ghost b: Builder)
    returns (longer: seq<BlockDict>)
    requires NoDuplicates(blocks) && Values(blocks) == b.blocks && thinking == b.thinking && pending == b.pending
    ensures NoDuplicates(longer) && Values(longer) == Flushed(b)
    ensures forall k :: 0 <= k < |longer| ==> longer[k] in blocks || fresh(longer[k])
  {
    longer := blocks;
    if Strip(thinking) != "" {
      longer := Append(longer, ThinkingBlock(thinking));
    }
    if Strip(pending) != "" {
      longer := Append(longer, TextBlock(pending));
    }
  }

  method RebuildBlocksFromChunks(chunks: seq<Chunk>) returns (fullText: string, blocks: seq<BlockDict>)
    ensures fullText == RebuiltText(chunks)
    ensures NoDuplicates(blocks) && Values(blocks) == Rebuilt(chunks)
    ensures forall k :: 0 <= k < |blocks| ==> fresh(blocks[k])
  {
    fullText, blocks := "", [];
    var thinking, pending := "", "";
    var results: Outcomes := map[];
    for i := 0 to |chunks|
      invariant NoDuplicates(blocks) && forall k :: 0 <= k < |blocks| ==> fresh(blocks[k])
      invariant FeedAll(chunks[..i]) == Builder(fullText, Values(blocks), thinking, pending, results)
    {
      ghost var b := FeedAll(chunks[..i]);
      assert chunks[..i + 1][..i] == chunks[..i];
      match chunks[i] {
        case TextChunk(content) =>
          pending := pending + content;
          fullText := fullText + content;
        case ThinkingChunk(content) =>
          thinking := thinking + content;
        case ToolUse(id, name, input, parent) =>
          blocks := FlushPending(blocks, thinking, pending, b);
          thinking, pending := "", "";
          blocks := Append(blocks, ToolBlock(id, name, input, parent, None, false));
        case ToolResult(id, content, isError) =>
          if id != "" {
            results := results[id := ToolOutcome(Truncate(content), isError)];
          }
        case _ =>
      }
    }
    assert chunks[..|chunks|] == chunks;
    blocks := FlushPending(blocks, thinking, pending, FeedAll(chunks));
    AttachToolResults(blocks, results);
  }

  // ---------- sub-agent events ----------

  const A2A_PREFIX := "mcp__system__a2a_"

  predicate IsCard(b: Block) {
    b.ToolBlock? && A2A_PREFIX <= b.name && b.id != ""
  }

  /** The events stored per card; reading a list also clears it. */
  type Events = map<string, seq<Chunk>>

  function EventsOf(events: Events, id: string): seq<Chunk> {
    if id in events then events[id] else []
  }

  function UsesOf(evts: seq<Chunk>): seq<Block> {
    if evts == [] then []
    else
      var last := evts[|evts| - 1];
      UsesOf(evts[..|evts| - 1])
      + if last.ToolUse? then [ToolBlock(last.id, last.name, last.input, last.parent, None, false)] else []
  }

  /** Results of events are attached untruncated. */
  function ResultsOf(evts: seq<Chunk>, before: Outcomes): Outcomes {
    if evts == [] then before
    else
      var last, sofar := evts[|evts| - 1], ResultsOf(evts[..|evts| - 1], before);
      if last.ToolResult? && last.id != "" then sofar[last.id := ToolOutcome(last.content, last.isError)] else sofar
  }

  datatype Splice = Splice(extra: seq<Block>, results: Outcomes, left: Events)

  function SpliceAll(blocks: seq<Block>, events: Events): Splice {
    if blocks == [] then Splice([], map[], events)
    else
      var sofar, last := SpliceAll(blocks[..|blocks| - 1], events), blocks[|blocks| - 1];
      if !IsCard(last) then sofar
      else
        var evts := EventsOf(sofar.left, last.id);
        Splice(sofar.extra + UsesOf(evts), ResultsOf(evts, sofar.results), sofar.left - {last.id})
  }

  function Merged(blocks: seq<Block>, events: Events): seq<Block> {
    var s := SpliceAll(blocks, events);
    blocks + AttachedAll(s.extra, s.results)
  }

  class EventStore {
    var events: Events
  }

  /** merge_a2a_events: the results are attached to `extra` after its dicts were appended to
      `blocks`, and show there because both lists share them. */
  method MergeA2AEvents(store: EventStore, blocks: seq<BlockDict>) returns (merged: seq<BlockDict>)
    modifies store
    ensures |merged| >= |blocks| && merged[..|blocks|] == blocks
    ensures Values(merged) == Merged(old(Values(blocks)), old(store.events))
    ensures store.events == SpliceAll(old(Values(blocks)), old(store.events)).left
  {
    var extra: seq<BlockDict> := [];
    var results: Outcomes := map[];
    ghost var values := Values(blocks);
    for i := 0 to |blocks|
      invariant NoDuplicates(extra) && forall k :: 0 <= k < |extra| ==> fresh(extra[k])
      invariant Values(blocks) == values
      invariant SpliceAll(values[..i], old(store.events)) == Splice(Values(extra), results, store.events)
    {
      assert values[..i + 1][..i] == values[..i];
      assert blocks[i].value == values[i];
      if IsCard(blocks[i].value) {
        var id := blocks[i].value.id;
        var evts := EventsOf(store.events, id);
        extra, results := CollectEvents(evts, extra, results);
        store.events := store.events - {id};
      }
    }
    assert values[..|values|] == values;
    merged := blocks + extra;
    if extra != [] {
      AttachToolResults(extra, results);
    }
    assert Values(merged) == Values(blocks) + Values(extra);
  }

  method CollectEvents(evts: seq<Chunk>, extra: seq<BlockDict>, results: Outcomes)
    returns (extra': seq<BlockDict>, results': Outcomes)
    requires NoDuplicates(extra)
    ensures NoDuplicates(extra') && forall k :: 0 <= k < |extra'| ==> extra'[k] in extra || fresh(extra'[k])
    ensures Values(extra') == Values(extra) + UsesOf(evts)
    ensures results' == ResultsOf(evts, results)
  {
    extra', results' := extra, results;
    for j := 0 to |evts|
      invariant NoDuplicates(extra') && forall k :: 0 <= k < |extra'| ==> extra'[k] in extra || fresh(extra'[k])
      invariant Values(extra') == Values(extra) + UsesOf(evts[..j])
      invariant results' == ResultsOf(evts[..j], results)
    {
      assert evts[..j + 1][..j] == evts[..j];
      var evt := evts[j];
      if evt.ToolUse? {
        extra' := Append(extra', ToolBlock(evt.id, evt.name, evt.input, evt.parent, None, false));
      } else if evt.ToolResult? && evt.id != "" {
        results' := results'[evt.id := ToolOutcome(evt.content, evt.isError)];
      }
    }
    assert evts[..|evts|] == evts;
  }

  // ---------- what an abort leaves ----------

  /** The text of the message is the concatenation of all chunk contents. */
  lemma {:induction false} TextIsContent(chunks: seq<Chunk>)
    ensures RebuiltText(chunks) == ContentOf(chunks)
  {
    if chunks != [] {
      TextIsContent(chunks[..|chunks| - 1]);
    }
  }

  /** Flushed blocks carry no results yet. */
  lemma {:induction false} FlushedAreBare(p: seq<Chunk>)
    ensures BareAll(FeedAll(p).blocks) == FeedAll(p).blocks
  {
    if p == [] {
      assert BareAll([]) == [];
    } else {
      var before := FeedAll(p[..|p| - 1]);
      FlushedAreBare(p[..|p| - 1]);
      assert BareAll(Flushed(before)) == Flushed(before);
    }
  }

  lemma FeedGrows(b: Builder, c: Chunk)
    ensures b.blocks <= Feed(b, c).blocks && b.text <= Feed(b, c).text
  {
  }

  /** And stay, whatever comes later. */
  lemma {:induction false} FlushedStay(p: seq<Chunk>, q: seq<Chunk>)
    ensures FeedAll(p).blocks <= FeedAll(p + q).blocks
    ensures BareAll(FeedAll(p).blocks) == FeedAll(p).blocks
    ensures FeedAll(p).text <= FeedAll(p + q).text
  {
    FlushedAreBare(p);
    if q == [] {
      assert p + q == p;
    } else {
      var front := q[..|q| - 1];
      FlushedStay(p, front);
      assert (p + q)[..|p + q| - 1] == p + front;
      FeedGrows(FeedAll(p + front), q[|q| - 1]);
    }
  }

  lemma AttachedStartsBare(blocks: seq<Block>, more: seq<Block>, results: Outcomes)
    requires BareAll(blocks) == blocks
    ensures var all := AttachedAll(blocks + more, results);
      |blocks| <= |all| && BareAll(all)[..|blocks|] == blocks
  {
    var all := AttachedAll(blocks + more, results);
    forall k | 0 <= k < |blocks| ensures BareAll(all)[k] == blocks[k] {
      assert blocks[k] == BareAll(blocks)[k] && (blocks + more)[k] == blocks[k];
    }
  }

  /** The rebuild starts with the flushed blocks, results aside. */
  lemma RebuildStartsFlushed(p: seq<Chunk>)
    ensures var n := |FeedAll(p).blocks|;
      n <= |Rebuilt(p)| && BareAll(Rebuilt(p))[..n] == FeedAll(p).blocks
  {
    var b := FeedAll(p);
    FlushedAreBare(p);
    var more := (if Strip(b.thinking) != "" then [ThinkingBlock(b.thinking)] else [])
                + (if Strip(b.pending) != "" then [TextBlock(b.pending)] else []);
    assert Flushed(b) == b.blocks + more;
    AttachedStartsBare(b.blocks, more, b.results);
  }

  /** An aborted turn is a truncation of the whole: every block flushed by the last tool_use
      keeps its position and, results aside, its content; the text is a prefix. */
  lemma AbortTruncates(p: seq<Chunk>, q: seq<Chunk>)
    ensures RebuiltText(p) <= RebuiltText(p + q)
    ensures var n := |FeedAll(p).blocks|;
      && n <= |Rebuilt(p)| && n <= |Rebuilt(p + q)|
      && BareAll(Rebuilt(p))[..n] == BareAll(Rebuilt(p + q))[..n] == FeedAll(p).blocks
  {
    var n, whole := |FeedAll(p).blocks|, BareAll(Rebuilt(p + q));
    FlushedStay(p, q);
    RebuildStartsFlushed(p);
    RebuildStartsFlushed(p + q);
    assert whole[..n] == whole[..|FeedAll(p + q).blocks|][..n];
  }
}
