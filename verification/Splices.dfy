/** What the supervisor's assembler shows of tool calls and their results, said of the chunks and events
    themselves (agent-supervisor/app/assembly.py): which calls are spliced into a message, in which
    order, and which result each call has. */
module Splices {
  import opened Common
  import opened Chunks
  import opened Assembly

  // ---------- results ----------

  /** The k-th chunk is the last result for the id. */
  ghost predicate LastResult(chunks: seq<Chunk>, id: string, k: nat) {
    && k < |chunks| && chunks[k].ToolResult? && chunks[k].id == id
    && forall j :: k < j < |chunks| ==> !(chunks[j].ToolResult? && chunks[j].id == id)
  }

  ghost predicate NoResult(chunks: seq<Chunk>, id: string) {
    forall j :: 0 <= j < |chunks| ==> !(chunks[j].ToolResult? && chunks[j].id == id)
  }

  /** The last result for an id, if there is one; calls without an id have none. */
  ghost predicate IsOutcome(chunks: seq<Chunk>, id: string, outcome: Option<Chunk>) {
    if id == "" || NoResult(chunks, id) then outcome.None?
    else exists k: nat :: LastResult(chunks, id, k) && outcome == Some(chunks[k])
  }

  lemma {:induction false} ResultsAre(chunks: seq<Chunk>, id: string) returns (outcome: Option<Chunk>)
    ensures IsOutcome(chunks, id, outcome) && (outcome.Some? ==> outcome.value.ToolResult?)
    ensures id in ResultsOf(chunks, map[]) <==> outcome.Some?
    ensures outcome.Some? ==>
      ResultsOf(chunks, map[])[id] == ToolOutcome(outcome.value.content, outcome.value.isError)
  {
    if chunks == [] {
      outcome := None;
    } else {
      var front, last := chunks[..|chunks| - 1], chunks[|chunks| - 1];
      outcome := ResultsAre(front, id);
      if last.ToolResult? && last.id == id && id != "" {
        outcome := Some(last);
        assert LastResult(chunks, id, |front|);
      } else {
        OutcomeSnoc(front, last, id, outcome);
        assert front + [last] == chunks;
      }
    }
  }

  lemma OutcomeSnoc(front: seq<Chunk>, last: Chunk, id: string, outcome: Option<Chunk>)
    requires IsOutcome(front, id, outcome) && !(last.ToolResult? && last.id == id && id != "")
    ensures IsOutcome(front + [last], id, outcome)
  {
    var all := front + [last];
    assert forall j :: 0 <= j < |front| ==> all[j] == front[j];
    if id != "" && !NoResult(front, id) {
      var k: nat :| LastResult(front, id, k) && outcome == Some(front[k]);
      assert LastResult(all, id, k);
    }
  }

  /** The same for the results that the rebuild collects, which are cut. */
  lemma {:induction false} CutResultsAre(chunks: seq<Chunk>, id: string) returns (outcome: Option<Chunk>)
    ensures IsOutcome(chunks, id, outcome) && (outcome.Some? ==> outcome.value.ToolResult?)
    ensures id in FeedAll(chunks).results <==> outcome.Some?
    ensures outcome.Some? ==>
      FeedAll(chunks).results[id] == ToolOutcome(Cut(outcome.value.content), outcome.value.isError)
  {
    if chunks == [] {
      outcome := None;
    } else {
      var front, last := chunks[..|chunks| - 1], chunks[|chunks| - 1];
      outcome := CutResultsAre(front, id);
      if last.ToolResult? && last.id == id && id != "" {
        outcome := Some(last);
        assert LastResult(chunks, id, |front|);
      } else {
        OutcomeSnoc(front, last, id, outcome);
        assert front + [last] == chunks;
      }
    }
  }

  /** At most 10240 characters of a result are kept, and a note. */
  ghost function Cut(content: string): string {
    if |content| <= 10240 then content else content[..10240] + "\n... (truncated)"
  }

  // ---------- calls with their results ----------

  /** `b` is the call that the chunk announces, with the outcome of its id among `all`. */
  ghost predicate ShowsCall(b: Block, c: Chunk, all: seq<Chunk>, cut: bool) {
    && c.ToolUse? && b.ToolBlock?
    && b.id == c.id && b.name == c.name && b.input == c.input && b.parent == c.parent
    && exists outcome ::
         && IsOutcome(all, c.id, outcome)
         && match outcome
            case None => b.result == None && !b.isError
            case Some(r) =>
              r.ToolResult? && b.result == Some(if cut then Cut(r.content) else r.content) && b.isError == r.isError
  }

  predicate IsUse(c: Chunk) {
    c.ToolUse?
  }

  /** `calls` are the calls that `chunks` announce, all of them and in order. */
  ghost predicate ShowCalls(calls: seq<Block>, chunks: seq<Chunk>, all: seq<Chunk>, cut: bool) {
    exists at ::
      && Selects(chunks, IsUse, at) && |calls| == |at|
      && forall i :: 0 <= i < |at| ==> ShowsCall(calls[i], chunks[at[i]], all, cut)
  }

  ghost predicate BareCall(b: Block, c: Chunk) {
    c.ToolUse? && b == ToolBlock(c.id, c.name, c.input, c.parent, None, false)
  }

  lemma {:induction false} UsesAre(chunks: seq<Chunk>) returns (at: seq<nat>)
    ensures Selects(chunks, IsUse, at) && |UsesOf(chunks)| == |at|
    ensures forall i :: 0 <= i < |at| ==> BareCall(UsesOf(chunks)[i], chunks[at[i]])
  {
    if chunks == [] {
      at := [];
    } else {
      var front, last := chunks[..|chunks| - 1], chunks[|chunks| - 1];
      at := UsesAre(front);
      assert front + [last] == chunks;
      SelectsSnoc(front, IsUse, at, last);
      if last.ToolUse? {
        at := at + [|front|];
      }
    }
  }

  lemma AttachedShows(b: Block, c: Chunk, all: seq<Chunk>)
    requires BareCall(b, c)
    ensures ShowsCall(Attached(b, ResultsOf(all, map[])), c, all, false)
  {
    var outcome := ResultsAre(all, c.id);
    assert IsOutcome(all, c.id, outcome);
  }

  lemma CallsShown(chunks: seq<Chunk>, all: seq<Chunk>)
    ensures ShowCalls(AttachedAll(UsesOf(chunks), ResultsOf(all, map[])), chunks, all, false)
  {
    var at := UsesAre(chunks);
    var calls := AttachedAll(UsesOf(chunks), ResultsOf(all, map[]));
    forall i | 0 <= i < |at| ensures ShowsCall(calls[i], chunks[at[i]], all, false) {
      AttachedShows(UsesOf(chunks)[i], chunks[at[i]], all);
    }
  }

  // ---------- what is spliced ----------

  /** The card of a sub-agent. */
  ghost predicate Card(b: Block) {
    b.ToolBlock? && "mcp__system__a2a_" <= b.name && b.id != ""
  }

  ghost predicate CardFor(blocks: seq<Block>, id: string) {
    exists k :: 0 <= k < |blocks| && Card(blocks[k]) && blocks[k].id == id
  }

  /** The events stored for the cards of a message, card after card, each card's once. */
  ghost function CardEvents(blocks: seq<Block>, events: Events): seq<Chunk> {
    if blocks == [] then []
    else
      var front, last := blocks[..|blocks| - 1], blocks[|blocks| - 1];
      CardEvents(front, events)
      + if Card(last) && !CardFor(front, last.id) && last.id in events then events[last.id] else []
  }

  lemma {:induction false} UsesConcat(a: seq<Chunk>, b: seq<Chunk>)
    ensures UsesOf(a + b) == UsesOf(a) + UsesOf(b)
  {
    if b == [] {
      assert a + b == a;
    } else {
      UsesConcat(a, b[..|b| - 1]);
      assert (a + b)[..|a + b| - 1] == a + b[..|b| - 1];
    }
  }

  lemma {:induction false} ResultsConcat(a: seq<Chunk>, b: seq<Chunk>, before: Outcomes)
    ensures ResultsOf(a + b, before) == ResultsOf(b, ResultsOf(a, before))
  {
    if b == [] {
      assert a + b == a;
    } else {
      ResultsConcat(a, b[..|b| - 1], before);
      assert (a + b)[..|a + b| - 1] == a + b[..|b| - 1];
    }
  }

  lemma CardForSnoc(front: seq<Block>, last: Block, id: string)
    ensures CardFor(front + [last], id) <==> CardFor(front, id) || (Card(last) && last.id == id)
  {
    var all := front + [last];
    assert all[|front|] == last;
    assert forall k :: 0 <= k < |front| ==> all[k] == front[k];
  }

  /** What splicing leaves in the store: the events of ids that are on no card. */
  ghost predicate StoreAfter(blocks: seq<Block>, events: Events, left: Events) {
    && (forall id :: id in left <==> id in events && !CardFor(blocks, id))
    && (forall id :: id in left ==> left[id] == events[id])
  }

  lemma {:induction false} StoreShrinks(blocks: seq<Block>, events: Events)
    ensures StoreAfter(blocks, events, SpliceAll(blocks, events).left)
  {
    if blocks != [] {
      var front, last := blocks[..|blocks| - 1], blocks[|blocks| - 1];
      StoreShrinks(front, events);
      assert front + [last] == blocks;
      forall id ensures CardFor(blocks, id) <==> CardFor(front, id) || (Card(last) && last.id == id) {
        CardForSnoc(front, last, id);
      }
    }
  }

  lemma {:induction false} SpliceIsCardEvents(blocks: seq<Block>, events: Events)
    ensures SpliceAll(blocks, events).extra == UsesOf(CardEvents(blocks, events))
    ensures SpliceAll(blocks, events).results == ResultsOf(CardEvents(blocks, events), map[])
  {
    if blocks != [] {
      var front, last := blocks[..|blocks| - 1], blocks[|blocks| - 1];
      SpliceIsCardEvents(front, events);
      StoreShrinks(front, events);
      var evts := if Card(last) && !CardFor(front, last.id) && last.id in events then events[last.id] else [];
      UsesConcat(CardEvents(front, events), evts);
      ResultsConcat(CardEvents(front, events), evts, map[]);
      if !Card(last) {
        assert CardEvents(front, events) + [] == CardEvents(front, events);
      }
    }
  }

  /** A merged message is the message followed by the calls of the stored events of its cards, card by
      card in the order of the events; a spliced call has the content and the error flag, uncut, of
      the last of these events that is a result for its id, and no result iff there is none. The
      events of its cards, and no others, leave the store. */
  lemma MergedShows(blocks: seq<Block>, events: Events)
    ensures var evts, merged := CardEvents(blocks, events), Merged(blocks, events);
      && |blocks| <= |merged| && merged[..|blocks|] == blocks
      && ShowCalls(merged[|blocks|..], evts, evts, false)
      && StoreAfter(blocks, events, SpliceAll(blocks, events).left)
  {
    SpliceIsCardEvents(blocks, events);
    StoreShrinks(blocks, events);
    var evts := CardEvents(blocks, events);
    CallsShown(evts, evts);
    assert Merged(blocks, events)[|blocks|..] == AttachedAll(UsesOf(evts), ResultsOf(evts, map[]));
  }

  // ---------- the rebuilt message ----------

  predicate IsCall(b: Block) {
    b.ToolBlock?
  }

  lemma CutAttachedShows(b: Block, c: Chunk, all: seq<Chunk>)
    requires BareCall(b, c)
    ensures ShowsCall(Attached(b, FeedAll(all).results), c, all, true)
  {
    var outcome := CutResultsAre(all, c.id);
    assert IsOutcome(all, c.id, outcome);
  }

  /** Nothing but text and thinking is added when pending text is flushed. */
  lemma FlushAddsNoCall(b: Builder, calls: seq<nat>)
    requires Selects(b.blocks, IsCall, calls)
    ensures Selects(Flushed(b), IsCall, calls) && b.blocks <= Flushed(b)
  {
    var one := if Strip(b.thinking) != "" then b.blocks + [ThinkingBlock(b.thinking)] else b.blocks;
    SelectsSnoc(b.blocks, IsCall, calls, ThinkingBlock(b.thinking));
    SelectsSnoc(one, IsCall, calls, TextBlock(b.pending));
    assert Flushed(b) == if Strip(b.pending) != "" then one + [TextBlock(b.pending)] else one;
  }

  /** The calls flushed so far, where they stand and where they were announced. */
  ghost predicate CallsFlushed(blocks: seq<Block>, chunks: seq<Chunk>, calls: seq<nat>, at: seq<nat>) {
    && Selects(blocks, IsCall, calls) && Selects(chunks, IsUse, at) && |calls| == |at|
    && forall i :: 0 <= i < |at| ==> BareCall(blocks[calls[i]], chunks[at[i]])
  }

  lemma FlushKeepsCalls(b: Builder, chunks: seq<Chunk>, calls: seq<nat>, at: seq<nat>)
    requires CallsFlushed(b.blocks, chunks, calls, at)
    ensures CallsFlushed(Flushed(b), chunks, calls, at)
  {
    FlushAddsNoCall(b, calls);
  }

  lemma CallFlushed(blocks: seq<Block>, chunks: seq<Chunk>, calls: seq<nat>, at: seq<nat>, b: Block, c: Chunk)
    requires CallsFlushed(blocks, chunks, calls, at) && BareCall(b, c)
    ensures CallsFlushed(blocks + [b], chunks + [c], calls + [|blocks|], at + [|chunks|])
  {
    SelectsSnoc(blocks, IsCall, calls, b);
    SelectsSnoc(chunks, IsUse, at, c);
    var calls', at' := calls + [|blocks|], at + [|chunks|];
    forall i | 0 <= i < |at'| ensures BareCall((blocks + [b])[calls'[i]], (chunks + [c])[at'[i]]) {
      if i < |at| {
        assert calls'[i] == calls[i] && at'[i] == at[i];
      }
    }
  }

  lemma OtherChunkPassed(blocks: seq<Block>, chunks: seq<Chunk>, calls: seq<nat>, at: seq<nat>, c: Chunk)
    requires CallsFlushed(blocks, chunks, calls, at) && !c.ToolUse?
    ensures CallsFlushed(blocks, chunks + [c], calls, at)
  {
    SelectsSnoc(chunks, IsUse, at, c);
  }

  lemma UseFlushed(front: seq<Chunk>, use: Chunk, calls: seq<nat>, at: seq<nat>)
    requires use.ToolUse? && CallsFlushed(FeedAll(front).blocks, front, calls, at)
    ensures CallsFlushed(FeedAll(front + [use]).blocks, front + [use], calls + [|Flushed(FeedAll(front))|],
                         at + [|front|])
  {
    var flushed, call := Flushed(FeedAll(front)), ToolBlock(use.id, use.name, use.input, use.parent, None, false);
    FlushKeepsCalls(FeedAll(front), front, calls, at);
    CallFlushed(flushed, front, calls, at, call, use);
    FeedSnoc(front, use);
  }

  lemma FeedSnoc(front: seq<Chunk>, c: Chunk)
    ensures FeedAll(front + [c]) == Feed(FeedAll(front), c)
  {
    assert (front + [c])[..|front|] == front;
  }

  lemma OtherFlushed(front: seq<Chunk>, c: Chunk, calls: seq<nat>, at: seq<nat>)
    requires !c.ToolUse? && CallsFlushed(FeedAll(front).blocks, front, calls, at)
    ensures CallsFlushed(FeedAll(front + [c]).blocks, front + [c], calls, at)
  {
    FeedSnoc(front, c);
    assert Feed(FeedAll(front), c).blocks == FeedAll(front).blocks;
    OtherChunkPassed(FeedAll(front).blocks, front, calls, at, c);
  }

  lemma NothingFlushed()
    ensures CallsFlushed(FeedAll([]).blocks, [], [], [])
  {
  }

  lemma {:induction false} CallsAreFlushed(chunks: seq<Chunk>) returns (calls: seq<nat>, at: seq<nat>)
    ensures CallsFlushed(FeedAll(chunks).blocks, chunks, calls, at)
  {
    if chunks == [] {
      calls, at := [], [];
      NothingFlushed();
    } else {
      var front, last := chunks[..|chunks| - 1], chunks[|chunks| - 1];
      assert front + [last] == chunks;
      calls, at := CallsAreFlushed(front);
      if last.ToolUse? {
        UseFlushed(front, last, calls, at);
        calls, at := calls + [|Flushed(FeedAll(front))|], at + [|front|];
      } else {
        OtherFlushed(front, last, calls, at);
      }
    }
  }

  /** The tool calls of a rebuilt message are those announced, all of them and in order; a call has the
      content, cut to 10240 characters and a note, and the flag of the last result for its id, and no
      result iff there is none. */
  lemma RebuiltShows(chunks: seq<Chunk>) returns (calls: seq<nat>)
    ensures Selects(Rebuilt(chunks), IsCall, calls)
    ensures ShowCalls(seq(|calls|, i requires 0 <= i < |calls| => Rebuilt(chunks)[calls[i]]), chunks, chunks, true)
  {
    var b := FeedAll(chunks);
    var at;
    calls, at := CallsAreFlushed(chunks);
    FlushKeepsCalls(b, chunks, calls, at);
    var all, shown := Rebuilt(chunks), seq(|calls|, i requires 0 <= i < |calls| => Rebuilt(chunks)[calls[i]]);
    forall k | 0 <= k < |all| ensures all[k] == Attached(Flushed(b)[k], b.results) {
    }
    forall i | 0 <= i < |at| ensures ShowsCall(shown[i], chunks[at[i]], chunks, true) {
      CutAttachedShows(Flushed(b)[calls[i]], chunks[at[i]], chunks);
    }
  }
}
