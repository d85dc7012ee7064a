/** What the runtime streams for one turn: StreamingAccumulator
    (runtime/src/streaming-accumulator.ts) turns deltas and cumulative snapshots into chunks, and
    the message loop of processMessage (runtime/src/agent.ts) drives it. */
module StreamingAccumulators {
  import opened Common
  import opened Chunks
  import Assembly

  datatype StreamEvent = TextDelta(text: string) | ThinkingDelta(thinking: string) | OtherEvent

  /** A block of an assistant snapshot; text and thinking are cumulative. */
  datatype SdkBlock =
    | TextSnapshot(text: string)
    | ThinkingSnapshot(thinking: string)
    | ToolUseBlock(id: string, name: string, input: Json)
    | OtherBlock

  datatype UserItem = ResultItem(id: string, content: string, isError: bool) | OtherItem

  datatype Message =
    | Streamed(event: StreamEvent)
    | Assistant(parent: string, blocks: seq<SdkBlock>)
    | User(items: seq<UserItem>)
    | Progress(id: string, elapsed: int)
    | Result(result: string)
    | OtherMessage

  // ---------- the accumulator on values ----------

  datatype State = State(textLen: nat, thinkingLen: nat, hasDeltas: bool, toolIds: set<string>, full: string)

  function Fresh(): State {
    State(0, 0, false, {}, "")
  }

  /** What a snapshot adds to what was emitted of it: a shorter one starts over. */
  function NewPart(content: string, emitted: nat): string {
    if |content| < emitted then content else content[emitted..]
  }

  function AfterEvent(s: State, e: StreamEvent): State {
    match e
    case TextDelta(text) =>
      if text == "" then s else s.(hasDeltas := true, textLen := s.textLen + |text|, full := s.full + text)
    case ThinkingDelta(thinking) =>
      if thinking == "" then s else s.(hasDeltas := true, thinkingLen := s.thinkingLen + |thinking|)
    case OtherEvent => s
  }

  function EventChunk(e: StreamEvent): Option<Chunk> {
    match e
    case TextDelta(text) => if text == "" then None else Some(TextChunk(text))
    case ThinkingDelta(thinking) => if thinking == "" then None else Some(ThinkingChunk(thinking))
    case OtherEvent => None
  }

  function AfterBlock(s: State, b: SdkBlock): State {
    match b
    case ThinkingSnapshot(thinking) => if s.hasDeltas then s else s.(thinkingLen := |thinking|)
    case TextSnapshot(text) =>
      if s.hasDeltas then s else s.(textLen := |text|, full := s.full + NewPart(text, s.textLen))
    case ToolUseBlock(id, _, _) => s.(toolIds := s.toolIds + {id})
    case OtherBlock => s
  }

  function BlockChunk(s: State, b: SdkBlock, parent: string): Option<Chunk> {
    match b
    case ThinkingSnapshot(thinking) =>
      if s.hasDeltas || NewPart(thinking, s.thinkingLen) == "" then None
      else Some(ThinkingChunk(NewPart(thinking, s.thinkingLen)))
    case TextSnapshot(text) =>
      if s.hasDeltas || NewPart(text, s.textLen) == "" then None else Some(TextChunk(NewPart(text, s.textLen)))
    case ToolUseBlock(id, name, input) => if id in s.toolIds then None else Some(ToolUse(id, name, input, parent))
    case OtherBlock => None
  }

  // ---------- the accumulator as an object ----------

  class StreamingAccumulator {
    var emittedTextLen: nat
    var emittedThinkingLen: nat
    var hasStreamDeltas: bool
    var emittedToolIds: set<string>
    var fullResponse: string

    constructor ()
      ensures View() == Fresh()
    {
      emittedTextLen, emittedThinkingLen := 0, 0;
      hasStreamDeltas, emittedToolIds, fullResponse := false, {}, "";
    }

    ghost function View(): State
      reads this
    {
      State(emittedTextLen, emittedThinkingLen, hasStreamDeltas, emittedToolIds, fullResponse)
    }

    method ConsumeStreamEvent(e: StreamEvent) returns (chunk: Option<Chunk>)
      modifies this
      ensures View() == AfterEvent(old(View()), e) && chunk == EventChunk(e)
      ensures e.TextDelta? && e.text != "" ==> hasStreamDeltas && emittedTextLen == old(emittedTextLen) + |e.text|
      ensures e.ThinkingDelta? && e.thinking != "" ==>
                hasStreamDeltas && emittedThinkingLen == old(emittedThinkingLen) + |e.thinking|
    {
      if e.TextDelta? && e.text != "" {
        hasStreamDeltas := true;
        emittedTextLen := emittedTextLen + |e.text|;
        fullResponse := fullResponse + e.text;
        return Some(TextChunk(e.text));
      }
      if e.ThinkingDelta? && e.thinking != "" {
        hasStreamDeltas := true;
        emittedThinkingLen := emittedThinkingLen + |e.thinking|;
        return Some(ThinkingChunk(e.thinking));
      }
      return None;
    }

    method ConsumeAssistantBlock(b: SdkBlock, parent: string) returns (chunk: Option<Chunk>)
      modifies this
      ensures View() == AfterBlock(old(View()), b) && chunk == BlockChunk(old(View()), b, parent)
      ensures old(hasStreamDeltas) && !b.ToolUseBlock? ==> View() == old(View()) && chunk == None
    {
      if b.ThinkingSnapshot? && !hasStreamDeltas {
        if |b.thinking| < emittedThinkingLen {
          emittedThinkingLen := 0;
        }
        if |b.thinking| > emittedThinkingLen {
          var delta := b.thinking[emittedThinkingLen..];
          emittedThinkingLen := |b.thinking|;
          return Some(ThinkingChunk(delta));
        }
        return None;
      }
      if b.TextSnapshot? && !hasStreamDeltas {
        if |b.text| < emittedTextLen {
          emittedTextLen := 0;
        }
        if |b.text| > emittedTextLen {
          var delta := b.text[emittedTextLen..];
          emittedTextLen := |b.text|;
          fullResponse := fullResponse + delta;
          return Some(TextChunk(delta));
        }
        assert fullResponse + [] == fullResponse;
        return None;
      }
      if b.ToolUseBlock? {
        if b.id in emittedToolIds {
          assert emittedToolIds + {b.id} == emittedToolIds;
          return None;
        }
        emittedToolIds := emittedToolIds + {b.id};
        return Some(ToolUse(b.id, b.name, b.input, parent));
      }
      return None;
    }

    method ResetForNewTurn()
      modifies this
      ensures View() == old(View()).(textLen := 0, thinkingLen := 0)
    {
      emittedTextLen, emittedThinkingLen := 0, 0;
    }
  }

  // ---------- the message loop ----------

  /** The accumulator and all chunks yielded so far. */
  datatype Turn = Turn(acc: State, out: seq<Chunk>)

  function Yield(out: seq<Chunk>, c: Option<Chunk>): seq<Chunk> {
    if c.Some? then out + [c.value] else out
  }

  function FeedBlocks(t: Turn, parent: string, blocks: seq<SdkBlock>): Turn {
    if blocks == [] then t
    else
      var before, last := FeedBlocks(t, parent, blocks[..|blocks| - 1]), blocks[|blocks| - 1];
      Turn(AfterBlock(before.acc, last), Yield(before.out, BlockChunk(before.acc, last, parent)))
  }

  function ResultChunks(items: seq<UserItem>): seq<Chunk> {
    if items == [] then []
    else
      var last := items[|items| - 1];
      ResultChunks(items[..|items| - 1])
      + if last.ResultItem? then [ToolResult(last.id, last.content, last.isError)] else []
  }

  function FeedMessage(t: Turn, m: Message): Turn {
    match m
    case Streamed(e) => Turn(AfterEvent(t.acc, e), Yield(t.out, EventChunk(e)))
    case Assistant(parent, blocks) => FeedBlocks(t, parent, blocks)
    case User(items) => Turn(t.acc.(textLen := 0, thinkingLen := 0), t.out + ResultChunks(items))
    case Progress(id, elapsed) => t.(out := t.out + [ToolProgress(id, elapsed)])
    case Result(result) =>
      if result != "" && t.acc.full == ""
      then Turn(t.acc.(full := result), t.out + [TextChunk(result), EndOfTurn])
      else t.(out := t.out + [EndOfTurn])
    case OtherMessage => t
  }

  function FeedMessages(messages: seq<Message>): Turn {
    if messages == [] then Turn(Fresh(), [])
    else FeedMessage(FeedMessages(messages[..|messages| - 1]), messages[|messages| - 1])
  }

  /** How the SDK's stream ends: normally, or with an exception while aborted or not. */
  datatype Ending = Finished | Aborted | Broken(message: string)

  /** The chunks yielded to the SSE writer after query_started, and the final accumulator. */
  method ProcessMessage(messages: seq<Message>, ending: Ending) returns (out: seq<Chunk>, acc: StreamingAccumulator)
    ensures fresh(acc) && acc.View() == FeedMessages(messages).acc
    ensures out == FeedMessages(messages).out + match ending
                                                case Finished => []
                                                case Aborted => [TextChunk("[Cancelled by user]")]
                                                case Broken(message) => [FailureChunk(message)]
  {
    acc := new StreamingAccumulator();
    out := [];
    for i := 0 to |messages|
      invariant fresh(acc)
      invariant FeedMessages(messages[..i]) == Turn(acc.View(), out)
    {
      assert messages[..i + 1][..i] == messages[..i];
      match messages[i] {
        case Streamed(e) =>
          var chunk := acc.ConsumeStreamEvent(e);
          if chunk.Some? {
            out := out + [chunk.value];
          }
        case Assistant(parent, blocks) =>
          out := SendBlocks(acc, parent, blocks, out);
        case User(items) =>
          acc.ResetForNewTurn();
          out := SendResults(items, out);
        case Progress(id, elapsed) =>
          out := out + [ToolProgress(id, elapsed)];
        case Result(result) =>
          if result != "" && acc.fullResponse == "" {
            acc.fullResponse := result;
            out := out + [TextChunk(result)];
          }
          out := out + [EndOfTurn];
        case OtherMessage =>
      }
    }
    assert messages[..|messages|] == messages;
    match ending {
      case Finished =>
      case Aborted => out := out + [TextChunk("[Cancelled by user]")];
      case Broken(message) => out := out + [FailureChunk(message)];
    }
  }

  method SendBlocks(acc: StreamingAccumulator, parent: string, blocks: seq<SdkBlock>, sent: seq<Chunk>)
    returns (out: seq<Chunk>)
    modifies acc
    ensures Turn(acc.View(), out) == FeedBlocks(Turn(old(acc.View()), sent), parent, blocks)
  {
    out := sent;
    ghost var t := Turn(acc.View(), sent);
    for j := 0 to |blocks|
      invariant Turn(acc.View(), out) == FeedBlocks(t, parent, blocks[..j])
    {
      assert blocks[..j + 1][..j] == blocks[..j];
      var chunk := acc.ConsumeAssistantBlock(blocks[j], parent);
      if chunk.Some? {
        out := out + [chunk.value];
      }
    }
    assert blocks[..|blocks|] == blocks;
  }

  method SendResults(items: seq<UserItem>, sent: seq<Chunk>) returns (out: seq<Chunk>)
    ensures out == sent + ResultChunks(items)
  {
    out := sent;
    for j := 0 to |items|
      invariant out == sent + ResultChunks(items[..j])
    {
      assert items[..j + 1][..j] == items[..j];
      if items[j].ResultItem? {
        out := out + [ToolResult(items[j].id, items[j].content, items[j].isError)];
      }
    }
    assert items[..|items|] == items;
  }

  // ---------- the response is what was streamed ----------

  /** The text a chunk carries, if there is one and it is text. */
  function Says(c: Option<Chunk>): string {
    if c.Some? && c.value.TextChunk? then c.value.content else ""
  }

  lemma ContentSnoc(chunks: seq<Chunk>, c: Chunk)
    ensures ContentOf(chunks + [c]) == ContentOf(chunks) + Says(Some(c))
  {
    assert (chunks + [c])[..|chunks + [c]| - 1] == chunks;
  }

  lemma {:induction false} ContentConcat(a: seq<Chunk>, b: seq<Chunk>)
    ensures ContentOf(a + b) == ContentOf(a) + ContentOf(b)
  {
    if b == [] {
      assert a + b == a;
    } else {
      var front, last := b[..|b| - 1], b[|b| - 1];
      ContentConcat(a, front);
      ContentSnoc(a + front, last);
      ContentSnoc(front, last);
      assert front + [last] == b && a + b == (a + front) + [last];
      Associate(ContentOf(a), ContentOf(front), Says(Some(last)));
    }
  }

  lemma ContentYield(out: seq<Chunk>, c: Option<Chunk>)
    ensures ContentOf(Yield(out, c)) == ContentOf(out) + Says(c)
  {
    if c.Some? {
      ContentSnoc(out, c.value);
    }
  }

  lemma {:induction false} ResultsHaveNoText(items: seq<UserItem>)
    ensures ContentOf(ResultChunks(items)) == ""
  {
    if items != [] {
      var before, last := ResultChunks(items[..|items| - 1]), items[|items| - 1];
      ResultsHaveNoText(items[..|items| - 1]);
      ContentYield(before, if last.ResultItem? then Some(ToolResult(last.id, last.content, last.isError)) else None);
      assert before + [] == before;
    }
  }

  lemma EventSays(s: State, e: StreamEvent)
    ensures AfterEvent(s, e).full == s.full + Says(EventChunk(e))
  {
    assert s.full + "" == s.full;
  }

  lemma BlockSays(s: State, parent: string, b: SdkBlock)
    ensures AfterBlock(s, b).full == s.full + Says(BlockChunk(s, b, parent))
  {
    assert s.full + "" == s.full;
  }

  lemma EventKeepsResponse(t: Turn, e: StreamEvent)
    requires t.acc.full == ContentOf(t.out)
    ensures AfterEvent(t.acc, e).full == ContentOf(Yield(t.out, EventChunk(e)))
  {
    EventSays(t.acc, e);
    ContentYield(t.out, EventChunk(e));
  }

  lemma BlockKeepsResponse(t: Turn, parent: string, b: SdkBlock)
    requires t.acc.full == ContentOf(t.out)
    ensures AfterBlock(t.acc, b).full == ContentOf(Yield(t.out, BlockChunk(t.acc, b, parent)))
  {
    BlockSays(t.acc, parent, b);
    ContentYield(t.out, BlockChunk(t.acc, b, parent));
  }

  lemma {:induction false} BlocksKeepResponse(t: Turn, parent: string, blocks: seq<SdkBlock>)
    requires t.acc.full == ContentOf(t.out)
    ensures FeedBlocks(t, parent, blocks).acc.full == ContentOf(FeedBlocks(t, parent, blocks).out)
  {
    if blocks != [] {
      BlocksKeepResponse(t, parent, blocks[..|blocks| - 1]);
      BlockKeepsResponse(FeedBlocks(t, parent, blocks[..|blocks| - 1]), parent, blocks[|blocks| - 1]);
    }
  }

  lemma MessageKeepsResponse(t: Turn, m: Message)
    requires t.acc.full == ContentOf(t.out)
    ensures FeedMessage(t, m).acc.full == ContentOf(FeedMessage(t, m).out)
  {
    match m {
      case Streamed(e) => EventKeepsResponse(t, e);
      case Assistant(parent, blocks) => BlocksKeepResponse(t, parent, blocks);
      case User(items) => UserKeepsResponse(t, items);
      case Progress(id, elapsed) => YieldKeepsResponse(t, ToolProgress(id, elapsed));
      case Result(result) => ResultKeepsResponse(t, result);
      case OtherMessage =>
    }
  }

  lemma YieldKeepsResponse(t: Turn, c: Chunk)
    requires t.acc.full == ContentOf(t.out) && !c.TextChunk?
    ensures t.acc.full == ContentOf(t.out + [c])
  {
    ContentYield(t.out, Some(c));
  }

  lemma UserKeepsResponse(t: Turn, items: seq<UserItem>)
    requires t.acc.full == ContentOf(t.out)
    ensures t.acc.full == ContentOf(t.out + ResultChunks(items))
  {
    ContentConcat(t.out, ResultChunks(items));
    ResultsHaveNoText(items);
  }

  lemma ResultKeepsResponse(t: Turn, result: string)
    requires t.acc.full == ContentOf(t.out)
    ensures FeedMessage(t, Result(result)).acc.full == ContentOf(FeedMessage(t, Result(result)).out)
  {
    YieldKeepsResponse(t, EndOfTurn);
    if result != "" && t.acc.full == "" {
      ContentYield(t.out, Some(TextChunk(result)));
      YieldKeepsResponse(Turn(t.acc.(full := result), t.out + [TextChunk(result)]), EndOfTurn);
      assert t.out + [TextChunk(result), EndOfTurn]
          == t.out + [TextChunk(result)] + [EndOfTurn];
    }
  }

  /** At every point `fullResponse` is the concatenation of the text chunks emitted. */
  lemma {:induction false} ResponseIsStreamed(messages: seq<Message>)
    ensures FeedMessages(messages).acc.full == ContentOf(FeedMessages(messages).out)
  {
    if messages != [] {
      ResponseIsStreamed(messages[..|messages| - 1]);
      MessageKeepsResponse(FeedMessages(messages[..|messages| - 1]), messages[|messages| - 1]);
    }
  }

  /** On a turn that was not cancelled the supervisor's text is the runtime's response. */
  lemma SupervisorSeesResponse(messages: seq<Message>)
    ensures Assembly.RebuiltText(FeedMessages(messages).out) == FeedMessages(messages).acc.full
  {
    ResponseIsStreamed(messages);
    Assembly.TextIsContent(FeedMessages(messages).out);
  }

  // ---------- every tool call once ----------

  /** The ids recorded are those emitted, and no id was emitted twice. */
  ghost predicate ToolsOnce(t: Turn) {
    && (forall k :: 0 <= k < |t.out| && t.out[k].ToolUse? ==> t.out[k].id in t.acc.toolIds)
    && (forall j, k :: 0 <= j < k < |t.out| && t.out[j].ToolUse? && t.out[k].ToolUse? ==> t.out[j].id != t.out[k].id)
  }

  lemma {:induction false} BlocksKeepToolsOnce(t: Turn, parent: string, blocks: seq<SdkBlock>)
    requires ToolsOnce(t)
    ensures ToolsOnce(FeedBlocks(t, parent, blocks))
  {
    if blocks != [] {
      BlocksKeepToolsOnce(t, parent, blocks[..|blocks| - 1]);
    }
  }

  lemma {:induction false} ResultsAreNoTools(items: seq<UserItem>)
    ensures forall k :: 0 <= k < |ResultChunks(items)| ==> ResultChunks(items)[k].ToolResult?
  {
    if items != [] {
      ResultsAreNoTools(items[..|items| - 1]);
    }
  }

  lemma {:induction false} ToolsEmittedOnce(messages: seq<Message>)
    ensures ToolsOnce(FeedMessages(messages))
  {
    if messages != [] {
      var t, m := FeedMessages(messages[..|messages| - 1]), messages[|messages| - 1];
      ToolsEmittedOnce(messages[..|messages| - 1]);
      match m {
        case Assistant(parent, blocks) => BlocksKeepToolsOnce(t, parent, blocks);
        case User(items) => ResultsAreNoTools(items);
        case _ =>
      }
    }
  }

  // ---------- two channels ----------

  /** Snapshots are diffed on two channels, each with its own length. */
  datatype Channel = Speech | Thought

  function LengthOn(acc: State, ch: Channel): nat {
    if ch == Speech then acc.textLen else acc.thinkingLen
  }

  function SaysOn(c: Option<Chunk>, ch: Channel): string {
    match c
    case Some(TextChunk(content)) => if ch == Speech then content else ""
    case Some(ThinkingChunk(content)) => if ch == Thought then content else ""
    case _ => ""
  }

  /** All that a stream says on a channel, in order. */
  function SaidOn(chunks: seq<Chunk>, ch: Channel): string {
    if chunks == [] then ""
    else SaidOn(chunks[..|chunks| - 1], ch) + SaysOn(Some(chunks[|chunks| - 1]), ch)
  }

  lemma SaidSnoc(chunks: seq<Chunk>, c: Option<Chunk>, ch: Channel)
    ensures SaidOn(Yield(chunks, c), ch) == SaidOn(chunks, ch) + SaysOn(c, ch)
  {
    if c.Some? {
      assert (chunks + [c.value])[..|chunks + [c.value]| - 1] == chunks;
    }
  }

  lemma {:induction false} SaidInWords(chunks: seq<Chunk>)
    ensures SaidOn(chunks, Speech) == ContentOf(chunks)
  {
    if chunks != [] {
      SaidInWords(chunks[..|chunks| - 1]);
    }
  }

  lemma ResultSaysNothing(out: seq<Chunk>, front: seq<UserItem>, last: UserItem, ch: Channel)
    ensures SaidOn(out + ResultChunks(front + [last]), ch) == SaidOn(out + ResultChunks(front), ch)
  {
    assert (front + [last])[..|front|] == front;
    if last.ResultItem? {
      var c := ToolResult(last.id, last.content, last.isError);
      SaidSnoc(out + ResultChunks(front), Some(c), ch);
      Associate(out, ResultChunks(front), [c]);
    } else {
      assert ResultChunks(front) + [] == ResultChunks(front);
    }
  }

  lemma {:induction false} ResultsSayNothing(out: seq<Chunk>, items: seq<UserItem>, ch: Channel)
    ensures SaidOn(out + ResultChunks(items), ch) == SaidOn(out, ch)
  {
    if items == [] {
      assert out + [] == out;
    } else {
      var front, last := items[..|items| - 1], items[|items| - 1];
      assert front + [last] == items;
      ResultsSayNothing(out, front, ch);
      ResultSaysNothing(out, front, last, ch);
    }
  }

  /** What the response is: the speech channel. */
  lemma ResponseIsSpeech(messages: seq<Message>)
    ensures FeedMessages(messages).acc.full == SaidOn(FeedMessages(messages).out, Speech)
  {
    ResponseIsStreamed(messages);
    SaidInWords(FeedMessages(messages).out);
  }

  // ---------- deltas silence snapshots ----------

  /** A nonempty delta is emitted as it came, and recorded as one; nothing else in the stream of events
      says anything. */
  lemma DeltaEmitted(messages: seq<Message>, e: StreamEvent)
    ensures e.TextDelta? && e.text != "" ==>
      var t, t' := FeedMessages(messages), FeedMessages(messages + [Streamed(e)]);
      t'.out == t.out + [TextChunk(e.text)] && t'.acc.hasDeltas && t'.acc.full == t.acc.full + e.text
    ensures e.ThinkingDelta? && e.thinking != "" ==>
      var t, t' := FeedMessages(messages), FeedMessages(messages + [Streamed(e)]);
      t'.out == t.out + [ThinkingChunk(e.thinking)] && t'.acc.hasDeltas && t'.acc.full == t.acc.full
    ensures e == TextDelta("") || e == ThinkingDelta("") || e == OtherEvent ==>
      FeedMessages(messages + [Streamed(e)]) == FeedMessages(messages)
  {
    var longer := messages + [Streamed(e)];
    assert longer[..|longer| - 1] == messages;
  }

  /** A message's delta on the channel, or a result's text while there is no speech yet. */
  function Grown(said: string, m: Message, ch: Channel): string {
    match m
    case Streamed(TextDelta(text)) => if ch == Speech then said + text else said
    case Streamed(ThinkingDelta(thinking)) => if ch == Thought then said + thinking else said
    case Result(result) => if ch == Speech && said == "" then result else said
    case _ => said
  }

  /** What is said when only deltas, and a result, add to it. */
  function AfterDeltas(said: string, messages: seq<Message>, ch: Channel): string {
    if messages == [] then said
    else Grown(AfterDeltas(said, messages[..|messages| - 1], ch), messages[|messages| - 1], ch)
  }

  lemma SaidQuiet(chunks: seq<Chunk>, c: Chunk, ch: Channel)
    requires !c.TextChunk? && !c.ThinkingChunk?
    ensures SaidOn(chunks + [c], ch) == SaidOn(chunks, ch)
  {
    SaidSnoc(chunks, Some(c), ch);
  }

  lemma SilentChunk(acc: State, parent: string, b: SdkBlock)
    requires acc.hasDeltas
    ensures AfterBlock(acc, b).hasDeltas && AfterBlock(acc, b).full == acc.full
    ensures var c := BlockChunk(acc, b, parent); c.Some? ==> c.value.ToolUse?
  {
  }

  lemma BlockSilent(t: Turn, parent: string, b: SdkBlock, ch: Channel)
    requires t.acc.hasDeltas
    ensures AfterBlock(t.acc, b).hasDeltas && AfterBlock(t.acc, b).full == t.acc.full
    ensures var c := BlockChunk(t.acc, b, parent);
      (c.Some? ==> c.value.ToolUse?) && SaidOn(Yield(t.out, c), ch) == SaidOn(t.out, ch)
  {
    var c := BlockChunk(t.acc, b, parent);
    SilentChunk(t.acc, parent, b);
    if c.Some? {
      SaidQuiet(t.out, c.value, ch);
    }
  }

  /** From the first delta on, an assistant snapshot emits tool calls only. */
  lemma {:induction false} BlocksSilent(t: Turn, parent: string, blocks: seq<SdkBlock>, ch: Channel)
    requires t.acc.hasDeltas
    ensures var t' := FeedBlocks(t, parent, blocks);
      && t'.acc.hasDeltas && t'.acc.full == t.acc.full
      && |t.out| <= |t'.out| && t'.out[..|t.out|] == t.out
      && (forall k :: |t.out| <= k < |t'.out| ==> t'.out[k].ToolUse?)
      && SaidOn(t'.out, ch) == SaidOn(t.out, ch)
  {
    if blocks != [] {
      BlocksSilent(t, parent, blocks[..|blocks| - 1], ch);
      BlockSilent(FeedBlocks(t, parent, blocks[..|blocks| - 1]), parent, blocks[|blocks| - 1], ch);
    }
  }

  /** The chunks a result message adds. */
  lemma ResultAdds(t: Turn, result: string)
    ensures FeedMessage(t, Result(result)).out
            == t.out + if result != "" && t.acc.full == "" then [TextChunk(result), EndOfTurn] else [EndOfTurn]
    ensures FeedMessage(t, Result(result)).acc.hasDeltas == t.acc.hasDeltas
  {
  }

  lemma ResultSays(t: Turn, result: string, ch: Channel)
    requires t.acc.full == SaidOn(t.out, Speech)
    ensures SaidOn(FeedMessage(t, Result(result)).out, ch) == Grown(SaidOn(t.out, ch), Result(result), ch)
  {
    ResultAdds(t, result);
    if result != "" && t.acc.full == "" {
      ResultSaid(t.out, result, ch);
    } else {
      SaidQuiet(t.out, EndOfTurn, ch);
    }
  }

  lemma ResultSaid(out: seq<Chunk>, result: string, ch: Channel)
    requires SaidOn(out, Speech) == ""
    ensures SaidOn(out + [TextChunk(result), EndOfTurn], ch) == if ch == Speech then result else SaidOn(out, ch)
  {
    SaidSnoc(out, Some(TextChunk(result)), ch);
    SaidQuiet(out + [TextChunk(result)], EndOfTurn, ch);
    assert out + [TextChunk(result), EndOfTurn] == out + [TextChunk(result)] + [EndOfTurn];
    assert "" + result == result;
  }

  lemma StickyStep(t: Turn, m: Message, ch: Channel)
    requires t.acc.hasDeltas && t.acc.full == SaidOn(t.out, Speech)
    ensures FeedMessage(t, m).acc.hasDeltas
    ensures SaidOn(FeedMessage(t, m).out, ch) == Grown(SaidOn(t.out, ch), m, ch)
  {
    match m {
      case Streamed(e) => EventSaid(t, e, ch);
      case Assistant(parent, blocks) => BlocksSilent(t, parent, blocks, ch);
      case User(items) => ResultsSayNothing(t.out, items, ch);
      case Progress(id, elapsed) => SaidQuiet(t.out, ToolProgress(id, elapsed), ch);
      case Result(result) =>
        ResultAdds(t, result);
        ResultSays(t, result, ch);
      case OtherMessage =>
    }
  }

  lemma EventSaid(t: Turn, e: StreamEvent, ch: Channel)
    ensures SaidOn(Yield(t.out, EventChunk(e)), ch) == Grown(SaidOn(t.out, ch), Streamed(e), ch)
  {
    var said := SaidOn(t.out, ch);
    EventGrows(said, e, ch);
    SaidSnoc(t.out, EventChunk(e), ch);
  }

  lemma EventGrows(said: string, e: StreamEvent, ch: Channel)
    ensures Grown(said, Streamed(e), ch) == said + SaysOn(EventChunk(e), ch)
  {
    assert said + "" == said;
  }

  /** What the channel has grown by since p. */
  ghost predicate GrownBy(p: seq<Message>, q: seq<Message>, ch: Channel) {
    && FeedMessages(p + q).acc.hasDeltas
    && SaidOn(FeedMessages(p + q).out, ch) == AfterDeltas(SaidOn(FeedMessages(p).out, ch), q, ch)
  }

  lemma GrownSnoc(p: seq<Message>, q: seq<Message>, m: Message, ch: Channel)
    requires GrownBy(p, q, ch)
    ensures GrownBy(p, q + [m], ch)
  {
    var longer := p + (q + [m]);
    assert longer[..|longer| - 1] == p + q && longer[|longer| - 1] == m;
    ResponseIsSpeech(p + q);
    StickyStep(FeedMessages(p + q), m, ch);
    AfterDeltasSnoc(SaidOn(FeedMessages(p).out, ch), q, m, ch);
  }

  lemma AfterDeltasSnoc(said: string, q: seq<Message>, m: Message, ch: Channel)
    ensures AfterDeltas(said, q + [m], ch) == Grown(AfterDeltas(said, q, ch), m, ch)
  {
    assert (q + [m])[..|q|] == q;
  }

  lemma {:induction false} GrowsByDeltas(p: seq<Message>, q: seq<Message>, ch: Channel)
    requires FeedMessages(p).acc.hasDeltas
    ensures GrownBy(p, q, ch)
  {
    if q == [] {
      assert p + q == p;
    } else {
      GrowsByDeltas(p, q[..|q| - 1], ch);
      GrownSnoc(p, q[..|q| - 1], q[|q| - 1], ch);
      assert q[..|q| - 1] + [q[|q| - 1]] == q;
    }
  }

  /** From the first delta on, text or thinking, both channels grow by their own deltas alone, and
      speech by the result while it is empty; snapshots add nothing. The response is the speech. */
  lemma DeltasAreSticky(p: seq<Message>, q: seq<Message>, ch: Channel)
    requires FeedMessages(p).acc.hasDeltas
    ensures FeedMessages(p + q).acc.hasDeltas
    ensures SaidOn(FeedMessages(p + q).out, ch) == AfterDeltas(SaidOn(FeedMessages(p).out, ch), q, ch)
    ensures FeedMessages(p + q).acc.full == SaidOn(FeedMessages(p + q).out, Speech)
  {
    GrowsByDeltas(p, q, ch);
    ResponseIsSpeech(p + q);
  }

  // ---------- what snapshots emit ----------

  /** The text emitted for the snapshots of one turn, when `emitted` characters of the block they
      start in are out already. */
  function Emit(snapshots: seq<string>, emitted: nat): string {
    if snapshots == [] then "" else NewPart(snapshots[0], emitted) + Emit(snapshots[1..], |snapshots[0]|)
  }

  function EndLength(snapshots: seq<string>, emitted: nat): nat {
    if snapshots == [] then emitted else |snapshots[|snapshots| - 1]|
  }

  lemma {:induction false} EmitConcat(a: seq<string>, b: seq<string>, emitted: nat)
    ensures Emit(a + b, emitted) == Emit(a, emitted) + Emit(b, EndLength(a, emitted))
  {
    if a == [] {
      assert a + b == b;
    } else {
      EmitConcat(a[1..], b, |a[0]|);
      assert (a + b)[1..] == a[1..] + b && (a + b)[0] == a[0];
      assert EndLength(a, emitted) == EndLength(a[1..], |a[0]|);
    }
  }

  function SnapshotOn(b: SdkBlock, ch: Channel): seq<string> {
    match b
    case TextSnapshot(text) => if ch == Speech then [text] else []
    case ThinkingSnapshot(thinking) => if ch == Thought then [thinking] else []
    case _ => []
  }

  function BlockSnapshots(blocks: seq<SdkBlock>, ch: Channel): seq<string> {
    if blocks == [] then []
    else BlockSnapshots(blocks[..|blocks| - 1], ch) + SnapshotOn(blocks[|blocks| - 1], ch)
  }

  /** The snapshots of each turn on a channel; a user message opens the next turn. */
  function TurnsSeen(messages: seq<Message>, ch: Channel): (turns: seq<seq<string>>)
    ensures turns != []
  {
    if messages == [] then [[]]
    else
      var before, m := TurnsSeen(messages[..|messages| - 1], ch), messages[|messages| - 1];
      match m
      case Assistant(_, blocks) => before[|before| - 1 := before[|before| - 1] + BlockSnapshots(blocks, ch)]
      case User(_) => before + [[]]
      case _ => before
  }

  function EmitTurns(turns: seq<seq<string>>): string {
    if turns == [] then "" else EmitTurns(turns[..|turns| - 1]) + Emit(turns[|turns| - 1], 0)
  }

  /** Neither deltas nor a result message; stream events that carry no delta may come. */
  ghost predicate SnapshotsOnly(messages: seq<Message>) {
    forall k :: 0 <= k < |messages| ==>
      !messages[k].Result? && (messages[k].Streamed? ==> EventChunk(messages[k].event) == None)
  }

  /** What was said so far, and the snapshots of the current turn so far. */
  ghost predicate CaughtUp(t: Turn, ch: Channel, done: string, current: seq<string>) {
    && !t.acc.hasDeltas && SaidOn(t.out, ch) == done + Emit(current, 0)
    && LengthOn(t.acc, ch) == EndLength(current, 0)
  }

  lemma SnapshotSays(acc: State, b: SdkBlock, parent: string, ch: Channel)
    requires !acc.hasDeltas
    ensures !AfterBlock(acc, b).hasDeltas
    ensures SaysOn(BlockChunk(acc, b, parent), ch) == Emit(SnapshotOn(b, ch), LengthOn(acc, ch))
    ensures LengthOn(AfterBlock(acc, b), ch) == EndLength(SnapshotOn(b, ch), LengthOn(acc, ch))
  {
    forall text: string, emitted: nat ensures Emit([text], emitted) == NewPart(text, emitted) {
      assert [text][1..] == [];
    }
  }

  lemma EndLengthConcat(a: seq<string>, b: seq<string>, emitted: nat)
    ensures EndLength(a + b, emitted) == EndLength(b, EndLength(a, emitted))
  {
    if b == [] {
      assert a + b == a;
    }
  }

  lemma SnapshotStep(t: Turn, ch: Channel, done: string, current: seq<string>, b: SdkBlock, parent: string)
    requires CaughtUp(t, ch, done, current)
    ensures CaughtUp(Turn(AfterBlock(t.acc, b), Yield(t.out, BlockChunk(t.acc, b, parent))), ch, done,
                     current + SnapshotOn(b, ch))
  {
    var now := SnapshotOn(b, ch);
    SnapshotSays(t.acc, b, parent, ch);
    SaidSnoc(t.out, BlockChunk(t.acc, b, parent), ch);
    EmitConcat(current, now, 0);
    EndLengthConcat(current, now, 0);
    Associate(done, Emit(current, 0), Emit(now, EndLength(current, 0)));
  }

  lemma {:induction false} BlocksCatchUp(t: Turn, ch: Channel, parent: string, blocks: seq<SdkBlock>, done: string,
                                         current: seq<string>)
    requires CaughtUp(t, ch, done, current)
    ensures CaughtUp(FeedBlocks(t, parent, blocks), ch, done, current + BlockSnapshots(blocks, ch))
  {
    if blocks == [] {
      assert current + [] == current;
    } else {
      var front, last := blocks[..|blocks| - 1], blocks[|blocks| - 1];
      BlocksCatchUp(t, ch, parent, front, done, current);
      SnapshotStep(FeedBlocks(t, parent, front), ch, done, current + BlockSnapshots(front, ch), last, parent);
      Associate(current, BlockSnapshots(front, ch), SnapshotOn(last, ch));
    }
  }

  /** Messages other than snapshots. */
  lemma QuietMessage(t: Turn, m: Message, ch: Channel)
    requires !m.Assistant? && !m.Result? && (m.Streamed? ==> EventChunk(m.event) == None)
    ensures SaidOn(FeedMessage(t, m).out, ch) == SaidOn(t.out, ch)
    ensures FeedMessage(t, m).acc.hasDeltas == t.acc.hasDeltas
    ensures LengthOn(FeedMessage(t, m).acc, ch) == if m.User? then 0 else LengthOn(t.acc, ch)
  {
    match m
    case User(items) => ResultsSayNothing(t.out, items, ch);
    case Progress(id, elapsed) => SaidSnoc(t.out, Some(ToolProgress(id, elapsed)), ch);
    case _ =>
  }

  /** The turn a list of messages ends in. */
  ghost predicate CaughtUpWith(messages: seq<Message>, ch: Channel) {
    var turns := TurnsSeen(messages, ch);
    CaughtUp(FeedMessages(messages), ch, EmitTurns(turns[..|turns| - 1]), turns[|turns| - 1])
  }

  lemma SnapshotCatchesUp(front: seq<Message>, m: Message, ch: Channel)
    requires CaughtUpWith(front, ch) && m.Assistant?
    ensures CaughtUpWith(front + [m], ch)
  {
    var before, now := TurnsSeen(front, ch), TurnsSeen(front + [m], ch);
    assert (front + [m])[..|front|] == front;
    BlocksCatchUp(FeedMessages(front), ch, m.parent, m.blocks, EmitTurns(before[..|before| - 1]), before[|before| - 1]);
    assert now[..|now| - 1] == before[..|before| - 1];
  }

  lemma OtherCatchesUp(front: seq<Message>, m: Message, ch: Channel)
    requires CaughtUpWith(front, ch) && !m.Assistant? && !m.Result?
    requires m.Streamed? ==> EventChunk(m.event) == None
    ensures CaughtUpWith(front + [m], ch)
  {
    var before, now := TurnsSeen(front, ch), TurnsSeen(front + [m], ch);
    assert (front + [m])[..|front|] == front;
    QuietMessage(FeedMessages(front), m, ch);
    if m.User? {
      assert now[..|now| - 1] == before;
      assert EmitTurns(before) + "" == EmitTurns(before);
    } else {
      assert now == before;
    }
  }

  lemma NextCatchesUp(messages: seq<Message>, ch: Channel)
    requires messages != [] && SnapshotsOnly(messages) && CaughtUpWith(messages[..|messages| - 1], ch)
    ensures CaughtUpWith(messages, ch)
  {
    var front, m := messages[..|messages| - 1], messages[|messages| - 1];
    assert front + [m] == messages;
    if m.Assistant? {
      SnapshotCatchesUp(front, m, ch);
    } else {
      OtherCatchesUp(front, m, ch);
    }
  }

  lemma NothingCaughtUp(ch: Channel)
    ensures CaughtUpWith([], ch)
  {
    assert EmitTurns([[]][..0]) == "";
  }

  /** Without deltas what is said on a channel is what its snapshots of each turn emit from an empty
      start. */
  lemma {:induction false} SnapshotsEmitted(messages: seq<Message>, ch: Channel)
    requires SnapshotsOnly(messages)
    ensures CaughtUpWith(messages, ch)
    ensures SaidOn(FeedMessages(messages).out, ch) == EmitTurns(TurnsSeen(messages, ch))
  {
    if messages == [] {
      NothingCaughtUp(ch);
    } else {
      SnapshotsEmitted(messages[..|messages| - 1], ch);
      NextCatchesUp(messages, ch);
    }
  }

  // ---------- whole blocks ----------

  /** The snapshots of one block: each extends the one before. */
  ghost predicate IsBlock(block: seq<string>) {
    block != [] && forall k :: 0 < k < |block| ==> block[k - 1] <= block[k]
  }

  ghost predicate AllBlocks(blocks: seq<seq<string>>) {
    forall k :: 0 <= k < |blocks| ==> IsBlock(blocks[k])
  }

  function Final(block: seq<string>): string {
    if block == [] then "" else block[|block| - 1]
  }

  function Flatten(blocks: seq<seq<string>>): seq<string> {
    if blocks == [] then [] else blocks[0] + Flatten(blocks[1..])
  }

  /** The text of a turn: what each of its blocks finally said. */
  function FinalText(blocks: seq<seq<string>>): string {
    if blocks == [] then "" else Final(blocks[0]) + FinalText(blocks[1..])
  }

  /** Every block after the first opens strictly shorter than the one before ended, or that one
      ended empty. */
  ghost predicate OpensShorter(blocks: seq<seq<string>>) {
    forall k :: 0 < k < |blocks| && blocks[k] != [] ==>
      |blocks[k][0]| < |Final(blocks[k - 1])| || Final(blocks[k - 1]) == ""
  }

  /** Characters that are not emitted: a block that opens no shorter than the one before ended is
      taken for its continuation. */
  function LostIn(blocks: seq<seq<string>>, emitted: nat): nat {
    if blocks == [] then 0
    else
      (if blocks[0] != [] && |blocks[0][0]| < emitted then 0 else emitted) + LostIn(blocks[1..], |Final(blocks[0])|)
  }

  lemma {:induction false} StartsWithFirst(block: seq<string>)
    requires IsBlock(block)
    ensures block[0] <= Final(block)
  {
    if |block| > 1 {
      var rest := block[1..];
      assert forall k :: 0 < k < |rest| ==> rest[k - 1] == block[k] && rest[k] == block[k + 1];
      StartsWithFirst(rest);
      assert block[1 - 1] <= block[1];
    }
  }

  /** One block emits its final text, less what it is taken to continue. */
  lemma {:induction false} EmitBlock(block: seq<string>, emitted: nat)
    requires IsBlock(block)
    ensures block[0] <= Final(block)
    ensures Emit(block, emitted) == if |block[0]| < emitted then Final(block) else Final(block)[emitted..]
  {
    var first, rest, final := block[0], block[1..], Final(block);
    StartsWithFirst(block);
    if |block| == 1 {
      assert rest == [] && final[|first|..] == "";
    } else {
      BlockTail(block);
      EmitBlock(rest, |first|);
    }
    PartThenRest(first, final, emitted);
  }

  lemma BlockTail(block: seq<string>)
    requires IsBlock(block) && |block| > 1
    ensures IsBlock(block[1..]) && Final(block[1..]) == Final(block) && |block[0]| <= |block[1]|
  {
    assert block[1 - 1] <= block[1];
    forall k | 0 < k < |block[1..]| ensures block[1..][k - 1] <= block[1..][k] {
      assert block[k] <= block[k + 1];
    }
  }

  /** What is new in a first snapshot, and then the rest of the block. */
  lemma PartThenRest(first: string, final: string, emitted: nat)
    requires first <= final
    ensures NewPart(first, emitted) + final[|first|..] == if |first| < emitted then final else final[emitted..]
  {
  }

  lemma FlattenStep(blocks: seq<seq<string>>, emitted: nat)
    requires AllBlocks(blocks) && blocks != []
    ensures Emit(Flatten(blocks), emitted)
            == Emit(blocks[0], emitted) + Emit(Flatten(blocks[1..]), |Final(blocks[0])|)
  {
    EmitConcat(blocks[0], Flatten(blocks[1..]), emitted);
  }

  /** A turn emits all but what is lost, and with nothing lost exactly its final text. */
  lemma {:induction false} EmitLoses(blocks: seq<seq<string>>, emitted: nat)
    requires AllBlocks(blocks)
    ensures |Emit(Flatten(blocks), emitted)| + LostIn(blocks, emitted) == |FinalText(blocks)|
    ensures LostIn(blocks, emitted) == 0 ==> Emit(Flatten(blocks), emitted) == FinalText(blocks)
  {
    if blocks != [] {
      FlattenStep(blocks, emitted);
      EmitBlock(blocks[0], emitted);
      EmitLoses(blocks[1..], |Final(blocks[0])|);
    }
  }

  /** A block opens shorter than one of the given length ended, or that one ended empty. */
  ghost predicate OpensUnder(block: seq<string>, ended: nat) {
    block == [] || |block[0]| < ended || ended == 0
  }

  lemma OpensShorterCons(blocks: seq<seq<string>>)
    requires blocks != []
    ensures OpensShorter(blocks)
            <==> OpensShorter(blocks[1..]) && (|blocks| > 1 ==> OpensUnder(blocks[1], |Final(blocks[0])|))
  {
    var rest := blocks[1..];
    if OpensShorter(blocks) {
      forall k | 0 < k < |rest| && rest[k] != [] ensures OpensUnder(rest[k], |Final(rest[k - 1])|) {
        assert rest[k] == blocks[k + 1] && rest[k - 1] == blocks[k + 1 - 1];
      }
    }
    if OpensShorter(rest) && (|blocks| > 1 ==> OpensUnder(blocks[1], |Final(blocks[0])|)) {
      forall k | 0 < k < |blocks| && blocks[k] != [] ensures OpensUnder(blocks[k], |Final(blocks[k - 1])|) {
        assert blocks[k] == rest[k - 1] && (k > 1 ==> blocks[k - 1] == rest[k - 2]);
      }
    }
  }

  lemma {:induction false} NothingLost(blocks: seq<seq<string>>, emitted: nat)
    requires AllBlocks(blocks)
    ensures LostIn(blocks, emitted) == 0 <==> OpensShorter(blocks) && (blocks != [] ==> OpensUnder(blocks[0], emitted))
  {
    if blocks != [] {
      OpensShorterCons(blocks);
      NothingLost(blocks[1..], |Final(blocks[0])|);
    }
  }

  // ---------- whole turns ----------

  /** The turns of a stream, each divided into the blocks its snapshots belong to. */
  ghost predicate Divides(turns: seq<seq<seq<string>>>, seen: seq<seq<string>>) {
    && |turns| == |seen|
    && forall k :: 0 <= k < |turns| ==> AllBlocks(turns[k]) && Flatten(turns[k]) == seen[k]
  }

  function FinalTexts(turns: seq<seq<seq<string>>>): string {
    if turns == [] then "" else FinalTexts(turns[..|turns| - 1]) + FinalText(turns[|turns| - 1])
  }

  function LostInTurns(turns: seq<seq<seq<string>>>): nat {
    if turns == [] then 0 else LostInTurns(turns[..|turns| - 1]) + LostIn(turns[|turns| - 1], 0)
  }

  ghost predicate EveryTurnOpensShorter(turns: seq<seq<seq<string>>>) {
    forall k :: 0 <= k < |turns| ==> OpensShorter(turns[k])
  }

  lemma EveryTurnSnoc(turns: seq<seq<seq<string>>>)
    requires turns != []
    ensures var n := |turns| - 1;
      EveryTurnOpensShorter(turns) <==> EveryTurnOpensShorter(turns[..n]) && OpensShorter(turns[n])
  {
    var n := |turns| - 1;
    if EveryTurnOpensShorter(turns[..n]) && OpensShorter(turns[n]) {
      forall k | 0 <= k < |turns| ensures OpensShorter(turns[k]) {
        assert k < n ==> turns[..n][k] == turns[k];
      }
    }
    if EveryTurnOpensShorter(turns) {
      forall k | 0 <= k < n ensures OpensShorter(turns[..n][k]) {
        assert turns[..n][k] == turns[k];
      }
    }
  }

  lemma DividesSnoc(turns: seq<seq<seq<string>>>, seen: seq<seq<string>>)
    requires Divides(turns, seen) && turns != []
    ensures var n := |turns| - 1;
      n < |seen| && Divides(turns[..n], seen[..n]) && AllBlocks(turns[n]) && Flatten(turns[n]) == seen[n]
      && |seen| == |turns|
  {
    var n := |turns| - 1;
    forall k | 0 <= k < n ensures AllBlocks(turns[..n][k]) && Flatten(turns[..n][k]) == seen[..n][k] {
      assert turns[..n][k] == turns[k] && seen[..n][k] == seen[k];
    }
  }

  lemma OpensUnderNothing(blocks: seq<seq<string>>)
    ensures blocks != [] ==> OpensUnder(blocks[0], 0)
  {
  }

  lemma {:induction false} TurnsLose(turns: seq<seq<seq<string>>>, seen: seq<seq<string>>)
    requires Divides(turns, seen)
    ensures |EmitTurns(seen)| + LostInTurns(turns) == |FinalTexts(turns)|
    ensures LostInTurns(turns) == 0 ==> EmitTurns(seen) == FinalTexts(turns)
    ensures LostInTurns(turns) == 0 <==> EveryTurnOpensShorter(turns)
  {
    if turns != [] {
      var n := |turns| - 1;
      DividesSnoc(turns, seen);
      TurnsLose(turns[..n], seen[..n]);
      EmitLoses(turns[n], 0);
      NothingLost(turns[n], 0);
      OpensUnderNothing(turns[n]);
      EveryTurnSnoc(turns);
    }
  }

  /** Snapshot diffing, exactly, of speech as of thinking: what is emitted is what every block of every
      turn finally said if and only if each block opens strictly shorter than the one before it in
      its turn ended, or that one ended empty. The response is the speech. */
  lemma SnapshotsAddUp(messages: seq<Message>, turns: seq<seq<seq<string>>>, ch: Channel)
    requires SnapshotsOnly(messages) && Divides(turns, TurnsSeen(messages, ch))
    ensures SaidOn(FeedMessages(messages).out, ch) == FinalTexts(turns) <==> EveryTurnOpensShorter(turns)
    ensures FeedMessages(messages).acc.full == SaidOn(FeedMessages(messages).out, Speech)
  {
    SnapshotsEmitted(messages, ch);
    TurnsLose(turns, TurnsSeen(messages, ch));
    ResponseIsSpeech(messages);
  }

  /** How much is lost otherwise: for each block that opens no shorter, as many characters as the
      block before it had. */
  lemma LongerBlockLosesItsHead(messages: seq<Message>, turns: seq<seq<seq<string>>>, ch: Channel)
    requires SnapshotsOnly(messages) && Divides(turns, TurnsSeen(messages, ch))
    ensures |SaidOn(FeedMessages(messages).out, ch)| + LostInTurns(turns) == |FinalTexts(turns)|
  {
    SnapshotsEmitted(messages, ch);
    TurnsLose(turns, TurnsSeen(messages, ch));
  }

  /** And of a completed turn, which a result message closes: its text counts only if no block
      said anything. */
  lemma ClosedTurnsAddUp(messages: seq<Message>, result: string, turns: seq<seq<seq<string>>>)
    requires SnapshotsOnly(messages) && Divides(turns, TurnsSeen(messages, Speech))
    ensures FeedMessages(messages + [Result(result)]).acc.full
            == (if FinalTexts(turns) == "" then result else FinalTexts(turns))
            <==> EveryTurnOpensShorter(turns)
  {
    Closing(messages, result);
    SnapshotsAddUp(messages, turns, Speech);
    LongerBlockLosesItsHead(messages, turns, Speech);
    SnapshotsEmitted(messages, Speech);
    SomethingSaid(turns, TurnsSeen(messages, Speech));
  }

  lemma Closing(messages: seq<Message>, result: string)
    ensures var full := FeedMessages(messages).acc.full;
      FeedMessages(messages + [Result(result)]).acc.full == if full == "" then result else full
  {
    var closed := messages + [Result(result)];
    assert closed[..|closed| - 1] == messages;
  }

  lemma {:induction false} SomethingSaid(turns: seq<seq<seq<string>>>, seen: seq<seq<string>>)
    requires Divides(turns, seen)
    ensures EmitTurns(seen) == "" ==> FinalTexts(turns) == ""
  {
    if turns != [] {
      var n := |turns| - 1;
      SomethingSaid(turns[..n], seen[..n]);
      SomethingSaidInTurn(turns[n], 0);
    }
  }

  lemma {:induction false} SomethingSaidInTurn(blocks: seq<seq<string>>, emitted: nat)
    requires AllBlocks(blocks) && emitted == 0
    ensures Emit(Flatten(blocks), emitted) == "" ==> FinalText(blocks) == ""
  {
    if blocks != [] {
      FlattenStep(blocks, emitted);
      EmitBlock(blocks[0], emitted);
      if Final(blocks[0]) == "" {
        SomethingSaidInTurn(blocks[1..], 0);
      }
    }
  }

  // ---------- everything but prose ----------

  /** The chunks that are neither text nor thinking. */
  function Others(chunks: seq<Chunk>): seq<Chunk> {
    if chunks == [] then []
    else
      var last := chunks[|chunks| - 1];
      Others(chunks[..|chunks| - 1]) + if last.TextChunk? || last.ThinkingChunk? then [] else [last]
  }

  ghost predicate Called(chunks: seq<Chunk>, id: string) {
    exists k :: 0 <= k < |chunks| && chunks[k].ToolUse? && chunks[k].id == id
  }

  /** The calls of a snapshot, except those called before. */
  ghost function AddCalls(before: seq<Chunk>, parent: string, blocks: seq<SdkBlock>): seq<Chunk> {
    if blocks == [] then before
    else
      var sofar, last := AddCalls(before, parent, blocks[..|blocks| - 1]), blocks[|blocks| - 1];
      if last.ToolUseBlock? && !Called(sofar, last.id) then sofar + [ToolUse(last.id, last.name, last.input, parent)]
      else sofar
  }

  /** The result of one item. */
  function ItemResult(item: UserItem): seq<Chunk> {
    match item
    case ResultItem(id, content, isError) => [ToolResult(id, content, isError)]
    case OtherItem => []
  }

  function ItemResults(items: seq<UserItem>): seq<Chunk> {
    if items == [] then [] else ItemResult(items[0]) + ItemResults(items[1..])
  }

  /** What messages announce besides prose: each call at its first listing, each tool result, each
      progress time, and one end for each result message, in the order of the messages. */
  ghost function Announced(messages: seq<Message>): seq<Chunk> {
    if messages == [] then []
    else
      var before := Announced(messages[..|messages| - 1]);
      match messages[|messages| - 1]
      case Assistant(parent, blocks) => AddCalls(before, parent, blocks)
      case User(items) => before + ItemResults(items)
      case Progress(id, elapsed) => before + [ToolProgress(id, elapsed)]
      case Result(_) => before + [EndOfTurn]
      case _ => before
  }

  lemma OthersSnoc(chunks: seq<Chunk>, c: Chunk)
    ensures Others(chunks + [c]) == Others(chunks) + if c.TextChunk? || c.ThinkingChunk? then [] else [c]
  {
    assert (chunks + [c])[..|chunks + [c]| - 1] == chunks;
  }

  lemma CalledSnoc(chunks: seq<Chunk>, c: Chunk, id: string)
    ensures Called(chunks + [c], id) <==> Called(chunks, id) || (c.ToolUse? && c.id == id)
  {
    var all := chunks + [c];
    assert all[|chunks|] == c;
    assert forall k :: 0 <= k < |chunks| ==> all[k] == chunks[k];
  }

  /** The ids recorded are those called. */
  ghost predicate Recorded(t: Turn, others: seq<Chunk>) {
    Others(t.out) == others && forall id :: id in t.acc.toolIds <==> Called(others, id)
  }

  lemma BlockRecorded(t: Turn, others: seq<Chunk>, parent: string, b: SdkBlock)
    requires Recorded(t, others)
    ensures Recorded(Turn(AfterBlock(t.acc, b), Yield(t.out, BlockChunk(t.acc, b, parent))),
                     if b.ToolUseBlock? && !Called(others, b.id) then others + [ToolUse(b.id, b.name, b.input, parent)]
                     else others)
  {
    var c := BlockChunk(t.acc, b, parent);
    if c.Some? {
      OthersSnoc(t.out, c.value);
    }
    if b.ToolUseBlock? {
      var call := ToolUse(b.id, b.name, b.input, parent);
      forall id ensures Called(others + [call], id) <==> Called(others, id) || id == b.id {
        CalledSnoc(others, call, id);
      }
    }
    assert others + [] == others;
  }

  lemma {:induction false} BlocksRecorded(t: Turn, others: seq<Chunk>, parent: string, blocks: seq<SdkBlock>)
    requires Recorded(t, others)
    ensures Recorded(FeedBlocks(t, parent, blocks), AddCalls(others, parent, blocks))
  {
    if blocks != [] {
      var front, last := blocks[..|blocks| - 1], blocks[|blocks| - 1];
      BlocksRecorded(t, others, parent, front);
      BlockRecorded(FeedBlocks(t, parent, front), AddCalls(others, parent, front), parent, last);
    }
  }

  lemma {:induction false} ResultsRecorded(t: Turn, others: seq<Chunk>, items: seq<UserItem>)
    requires Recorded(t, others)
    ensures Recorded(t.(out := t.out + ResultChunks(items)), others + ResultChunks(items))
  {
    if items == [] {
      assert t.out + [] == t.out && others + [] == others;
    } else {
      var front, last := items[..|items| - 1], items[|items| - 1];
      ResultsRecorded(t, others, front);
      if last.ResultItem? {
        var c := ToolResult(last.id, last.content, last.isError);
        ChunkRecorded(t.(out := t.out + ResultChunks(front)), others + ResultChunks(front), c);
        assert t.out + ResultChunks(items) == t.out + ResultChunks(front) + [c];
        assert others + ResultChunks(items) == others + ResultChunks(front) + [c];
      } else {
        assert ResultChunks(items) == ResultChunks(front);
      }
    }
  }

  lemma ChunkRecorded(t: Turn, others: seq<Chunk>, c: Chunk)
    requires Recorded(t, others) && !c.TextChunk? && !c.ThinkingChunk? && !c.ToolUse?
    ensures Recorded(t.(out := t.out + [c]), others + [c])
  {
    OthersSnoc(t.out, c);
    forall id ensures Called(others + [c], id) <==> Called(others, id) {
      CalledSnoc(others, c, id);
    }
  }

  lemma ProseRecorded(t: Turn, others: seq<Chunk>, c: Chunk)
    requires Recorded(t, others) && (c.TextChunk? || c.ThinkingChunk?)
    ensures Recorded(t.(out := t.out + [c]), others)
  {
    OthersSnoc(t.out, c);
  }

  lemma {:induction false} ItemsSnoc(items: seq<UserItem>, last: UserItem)
    ensures ItemResults(items + [last]) == ItemResults(items) + ItemResult(last)
  {
    var all := items + [last];
    if items == [] {
      assert all[1..] == [] && all[0] == last;
      assert ItemResults(all) == ItemResult(last) + [];
    } else {
      assert all[1..] == items[1..] + [last] && all[0] == items[0];
      ItemsSnoc(items[1..], last);
      Associate(ItemResult(items[0]), ItemResults(items[1..]), ItemResult(last));
    }
  }

  lemma {:induction false} ResultsInOrder(items: seq<UserItem>)
    ensures ResultChunks(items) == ItemResults(items)
  {
    if items != [] {
      ResultsInOrder(items[..|items| - 1]);
      ItemsSnoc(items[..|items| - 1], items[|items| - 1]);
      assert items == items[..|items| - 1] + [items[|items| - 1]];
    }
  }

  lemma ResultRecorded(t: Turn, others: seq<Chunk>, result: string)
    requires Recorded(t, others)
    ensures Recorded(FeedMessage(t, Result(result)), others + [EndOfTurn])
  {
    if result != "" && t.acc.full == "" {
      var said := Turn(t.acc.(full := result), t.out + [TextChunk(result)]);
      ProseRecorded(t.(acc := said.acc), others, TextChunk(result));
      ChunkRecorded(said, others, EndOfTurn);
      assert t.out + [TextChunk(result), EndOfTurn] == said.out + [EndOfTurn];
    } else {
      ChunkRecorded(t, others, EndOfTurn);
    }
  }

  lemma EventRecorded(t: Turn, others: seq<Chunk>, e: StreamEvent)
    requires Recorded(t, others)
    ensures Recorded(FeedMessage(t, Streamed(e)), others)
  {
    if EventChunk(e).Some? {
      ProseRecorded(t.(acc := AfterEvent(t.acc, e)), others, EventChunk(e).value);
    }
  }

  lemma NothingRecorded()
    ensures Recorded(FeedMessages([]), [])
  {
  }

  /** Besides text and thinking a stream consists of exactly what its messages announce, in order. */
  lemma {:induction false} OthersAnnounced(messages: seq<Message>)
    ensures Recorded(FeedMessages(messages), Announced(messages))
  {
    if messages == [] {
      NothingRecorded();
    } else {
      var front, m := messages[..|messages| - 1], messages[|messages| - 1];
      var t, before := FeedMessages(front), Announced(front);
      OthersAnnounced(front);
      match m {
        case Streamed(e) => EventRecorded(t, before, e);
        case Assistant(parent, blocks) => BlocksRecorded(t, before, parent, blocks);
        case User(items) =>
          ResultsInOrder(items);
          ResultsRecorded(t, before, items);
        case Progress(id, elapsed) => ChunkRecorded(t, before, ToolProgress(id, elapsed));
        case Result(result) => ResultRecorded(t, before, result);
        case OtherMessage =>
      }
    }
  }
}
