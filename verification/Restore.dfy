/** Restoring saved block metadata (web/src/features/chat/lib/restore-blocks.ts) after
    getBlocksMeta, and where sub-agent events end up in the tree. */
module Restore {
  import opened Common
  import opened Chunks
  import opened StreamingBlocks
  import opened Forests
  import opened BlockTree
  import opened Splices
  import Assembly
  import Assemblers

  /** One saved entry; None is a missing, null or wrongly typed field. */
  datatype Raw =
    | RawTool(id: Option<string>, name: Option<string>, input: Option<Json>, result: Option<string>, isError: bool,
              parent: Option<string>)
    | RawThinking(content: Option<string>)
    | RawError(message: Option<string>, content: Option<string>)
    | RawOther(content: Option<string>)

  function Or(x: Option<string>, y: string): string {
    if x.Some? then x.value else y
  }

  const CANCELLED := "[Cancelled]"

  predicate Readable(r: Raw) {
    r.RawTool? ==> r.id.Some? && r.name.Some?
  }

  function Restored(r: Raw, cancelled: bool): UiBlock
    requires Readable(r)
  {
    match r
    case RawTool(id, name, input, result, isError, parent) =>
      var stopped := result.None? && cancelled;
      UiTool(id.value, name.value, if input.Some? then input.value else Dict(map[]), Complete,
             if stopped then Some(CANCELLED) else result, isError || stopped, Or(parent, ""), None)
    case RawThinking(content) => UiThinking(Or(content, ""))
    case RawError(message, content) => UiError(Or(message, Or(content, "")))
    case RawOther(content) => UiText(Or(content, ""))
  }

  /** The flat list, or the index of the first tool entry without an id or a name. */
  function RestoredFlat(raw: seq<Raw>, cancelled: bool): Result<seq<UiBlock>, nat> {
    if raw == [] then Success([])
    else
      var front, last := RestoredFlat(raw[..|raw| - 1], cancelled), raw[|raw| - 1];
      if front.Failure? then front
      else if !Readable(last) then Failure(|raw| - 1)
      else Success(front.value + [Restored(last, cancelled)])
  }

  /** A tool entry without an id or a name. */
  ghost predicate Broken(r: Raw) {
    r.RawTool? && (r.id == None || r.name == None)
  }

  /** What an entry is restored to, field by field, with what stands in for a missing one. */
  ghost predicate RestoresTo(r: Raw, b: UiBlock, cancelled: bool) {
    match r
    case RawTool(id, name, input, result, isError, parent) =>
      && b.UiTool? && id == Some(b.id) && name == Some(b.name) && b.status == Complete && b.elapsed == None
      && (input == Some(b.input) || (input == None && b.input == Dict(map[])))
      && (parent == Some(b.parent) || (parent == None && b.parent == ""))
      && (if result == None && cancelled then b.result == Some("[Cancelled]") && b.isError
          else b.result == result && b.isError == isError)
    case RawThinking(content) =>
      b.UiThinking? && (content == Some(b.content) || (content == None && b.content == ""))
    case RawError(message, content) =>
      b.UiError? && (message == Some(b.message) || (message == None && content == Some(b.message))
                     || (message == None && content == None && b.message == ""))
    case RawOther(content) => b.UiText? && (content == Some(b.content) || (content == None && b.content == ""))
  }

  lemma RestoredMeans(r: Raw, cancelled: bool)
    ensures Readable(r) <==> !Broken(r)
    ensures Readable(r) ==> RestoresTo(r, Restored(r, cancelled), cancelled)
  {
  }

  /** The index that fails is that of the first broken entry; without one every entry is restored. */
  lemma {:induction false} FirstUnreadable(raw: seq<Raw>, cancelled: bool)
    ensures var r := RestoredFlat(raw, cancelled);
      && (r.Success? ==> |r.value| == |raw|
                         && forall k :: 0 <= k < |raw| ==> !Broken(raw[k]) && RestoresTo(raw[k], r.value[k], cancelled))
      && (r.Failure? ==> r.error < |raw| && Broken(raw[r.error])
                         && forall k :: 0 <= k < r.error ==> !Broken(raw[k]))
  {
    if raw != [] {
      var front := raw[..|raw| - 1];
      FirstUnreadable(front, cancelled);
      RestoredMeans(raw[|raw| - 1], cancelled);
      assert forall k :: 0 <= k < |front| ==> front[k] == raw[k];
    }
  }

  method RestoreBlocks(raw: seq<Raw>, cancelled: bool) returns (r: Result<seq<Item>, nat>, ghost m: ToolMap)
    ensures r.Failure? ==>
      r.error < |raw| && Broken(raw[r.error]) && forall k :: 0 <= k < r.error ==> !Broken(raw[k])
    ensures r.Success? ==>
      && RestoredFlat(raw, cancelled).Success?
      && var flat := RestoredFlat(raw, cancelled).value;
      && |flat| == |raw|
      && (forall k :: 0 <= k < |raw| ==> !Broken(raw[k]) && RestoresTo(raw[k], flat[k], cancelled))
      && Represents(m, flat) && ReadItems(m.Values, r.value, |ToolIds(flat)|) == Forest(flat)
  {
    m := map[];
    var flat := RestoredFlat(raw, cancelled);
    FirstUnreadable(raw, cancelled);
    if flat.Failure? {
      return Failure(flat.error), m;
    }
    var tree;
    tree, m := BuildBlockTree(flat.value);
    r := Success(tree);
  }

  // ---------- saving and restoring ----------

  /** A saved block as JSON. */
  function RawOf(b: Block): Raw {
    match b
    case TextBlock(content) => RawOther(Some(content))
    case ThinkingBlock(content) => RawThinking(Some(content))
    case ErrorBlock(message) => RawError(Some(message), None)
    case ToolBlock(id, name, input, parent, result, isError) =>
      RawTool(Some(id), Some(name), if input == Null then None else Some(input), result, isError,
              if parent == "" then None else Some(parent))
  }

  function RawAll(blocks: seq<Block>): seq<Raw> {
    seq(|blocks|, k requires 0 <= k < |blocks| => RawOf(blocks[k]))
  }

  function UiAll(blocks: seq<Block>, cancelled: bool): seq<UiBlock> {
    seq(|blocks|, k requires 0 <= k < |blocks| => Restored(RawOf(blocks[k]), cancelled))
  }

  lemma {:induction false} SavedIsReadable(blocks: seq<Block>, cancelled: bool)
    ensures RestoredFlat(RawAll(blocks), cancelled) == Success(UiAll(blocks, cancelled))
  {
    if blocks != [] {
      var n := |blocks| - 1;
      SavedIsReadable(blocks[..n], cancelled);
      assert RawAll(blocks)[..n] == RawAll(blocks[..n]);
      var r := RestoredFlat(RawAll(blocks), cancelled);
      assert r.Success? && r.value == UiAll(blocks[..n], cancelled) + [Restored(RawOf(blocks[n]), cancelled)];
      assert r.value == UiAll(blocks, cancelled);
    } else {
      assert RawAll(blocks) == [] && UiAll(blocks, cancelled) == [];
    }
  }

  /** What is kept of a live block: everything but the progress time; a running call reads as
      complete, a null input as an empty object, and in a cancelled message a call without result
      as cancelled. */
  function Kept(b: UiBlock, cancelled: bool): UiBlock {
    if !b.UiTool? then b
    else
      var stopped := b.result.None? && cancelled;
      b.(status := Complete, elapsed := None, input := if b.input == Null then Dict(map[]) else b.input,
         result := if stopped then Some(CANCELLED) else b.result,
         isError := b.isError || stopped)
  }

  lemma KeptWhole(b: UiBlock)
    requires b.UiTool? ==> b.status == Complete && b.elapsed.None? && b.input != Null
    ensures Kept(b, false) == b
  {
  }

  lemma RestoredIsKept(b: UiBlock, cancelled: bool)
    ensures Restored(RawOf(MetaOf(b)), cancelled) == Kept(b, cancelled)
  {
  }

  /** The kept blocks of a live list; blank text and thinking are dropped. */
  function KeptAll(flat: seq<UiBlock>, cancelled: bool): seq<UiBlock> {
    if flat == [] then []
    else (if Shown(flat[0]) then [Kept(flat[0], cancelled)] else []) + KeptAll(flat[1..], cancelled)
  }

  lemma UiMetaOne(b: UiBlock, cancelled: bool)
    ensures UiAll(Meta([b]), cancelled) == if Shown(b) then [Kept(b, cancelled)] else []
  {
    Assemblers.MetaOne(b);
    RestoredIsKept(b, cancelled);
  }

  lemma {:induction false} UiOfMeta(flat: seq<UiBlock>, cancelled: bool)
    ensures UiAll(Meta(flat), cancelled) == KeptAll(flat, cancelled)
  {
    if flat != [] {
      var first, rest := [flat[0]], flat[1..];
      assert flat == first + rest;
      Assemblers.MetaConcat(first, rest);
      UiAllConcat(Meta(first), Meta(rest), cancelled);
      UiMetaOne(flat[0], cancelled);
      UiOfMeta(rest, cancelled);
    }
  }

  // ---------- and building the tree ----------

  /** What is kept of a tree; blank blocks can only stand on the top level. */
  function KeptTree(t: Tree, cancelled: bool): Tree
    decreases t
  {
    Tree(Kept(t.block, cancelled), KeptTrees(t.children, cancelled))
  }

  function KeptTrees(ts: seq<Tree>, cancelled: bool): seq<Tree>
    decreases ts
  {
    if ts == [] then []
    else (if Shown(ts[0].block) then [KeptTree(ts[0], cancelled)] else []) + KeptTrees(ts[1..], cancelled)
  }

  lemma {:induction false} KeptConcat(a: seq<UiBlock>, b: seq<UiBlock>, cancelled: bool)
    ensures KeptAll(a + b, cancelled) == KeptAll(a, cancelled) + KeptAll(b, cancelled)
  {
    if a == [] {
      assert a + b == b;
    } else {
      KeptConcat(a[1..], b, cancelled);
      assert (a + b)[1..] == a[1..] + b && (a + b)[0] == a[0];
      Associate(if Shown(a[0]) then [Kept(a[0], cancelled)] else [], KeptAll(a[1..], cancelled), KeptAll(b, cancelled));
    }
  }

  lemma KeptOne(b: UiBlock, cancelled: bool)
    ensures KeptAll([b], cancelled) == if Shown(b) then [Kept(b, cancelled)] else []
  {
    assert [b][1..] == [];
  }

  lemma {:induction false} KeptIds(flat: seq<UiBlock>, cancelled: bool)
    ensures ToolIds(KeptAll(flat, cancelled)) == ToolIds(flat)
  {
    if flat != [] {
      KeptIds(flat[1..], cancelled);
      var first := if Shown(flat[0]) then [Kept(flat[0], cancelled)] else [];
      ToolIdsConcat(first, KeptAll(flat[1..], cancelled));
      ToolIdsConcat([flat[0]], flat[1..]);
      assert flat == [flat[0]] + flat[1..];
    }
  }

  /** The block that stands for an id is the kept form of the one that did. */
  lemma KeptSnoc(flat: seq<UiBlock>, cancelled: bool)
    requires flat != []
    ensures var front, last := flat[..|flat| - 1], flat[|flat| - 1];
      && flat == front + [last]
      && KeptAll(flat, cancelled)
         == if Shown(last) then KeptAll(front, cancelled) + [Kept(last, cancelled)] else KeptAll(front, cancelled)
  {
    var front, last := flat[..|flat| - 1], flat[|flat| - 1];
    assert flat == front + [last];
    KeptConcat(front, [last], cancelled);
    KeptOne(last, cancelled);
  }

  lemma LastToolSnoc(front: seq<UiBlock>, last: UiBlock, id: string)
    requires (last.UiTool? && last.id == id) || id in ToolIds(front)
    ensures id in ToolIds(front + [last])
    ensures LastTool(front + [last], id) == if last.UiTool? && last.id == id then last else LastTool(front, id)
  {
    var all := front + [last];
    assert all[..|all| - 1] == front && all[|all| - 1] == last;
    assert last in all && forall b :: b in front ==> b in all;
  }

  lemma {:induction false} KeptLast(flat: seq<UiBlock>, id: string, cancelled: bool)
    requires id in ToolIds(flat) && id in ToolIds(KeptAll(flat, cancelled))
    ensures LastTool(KeptAll(flat, cancelled), id) == Kept(LastTool(flat, id), cancelled)
    decreases |flat|
  {
    var front, last := flat[..|flat| - 1], flat[|flat| - 1];
    KeptSnoc(flat, cancelled);
    KeptIds(front, cancelled);
    ToolIdsConcat(front, [last]);
    if !(last.UiTool? && last.id == id) {
      assert id in ToolIds(front);
      KeptLast(front, id, cancelled);
    }
    LastToolSnoc(front, last, id);
    if Shown(last) {
      LastToolSnoc(KeptAll(front, cancelled), Kept(last, cancelled), id);
    }
  }

  lemma {:induction false} KeptChildren(flat: seq<UiBlock>, id: string, cancelled: bool)
    ensures ChildrenOf(KeptAll(flat, cancelled), id) == KeptAll(ChildrenOf(flat, id), cancelled)
  {
    if flat != [] {
      KeptChildren(flat[1..], id, cancelled);
      var first := if Shown(flat[0]) then [Kept(flat[0], cancelled)] else [];
      ChildrenConcat(first, KeptAll(flat[1..], cancelled), id);
      assert first != [] ==> first[1..] == [];
      KeptConcat(if ChildOf(flat[0], id) then [flat[0]] else [], ChildrenOf(flat[1..], id), cancelled);
      KeptOne(flat[0], cancelled);
    }
  }

  lemma {:induction false} KeptTop(flat: seq<UiBlock>, ids: set<string>, cancelled: bool)
    ensures TopBlocks(KeptAll(flat, cancelled), ids) == KeptAll(TopBlocks(flat, ids), cancelled)
  {
    if flat != [] {
      KeptTop(flat[1..], ids, cancelled);
      var first := if Shown(flat[0]) then [Kept(flat[0], cancelled)] else [];
      TopConcat(first, KeptAll(flat[1..], cancelled), ids);
      assert first != [] ==> first[1..] == [];
      KeptConcat(if !Nested(flat[0], ids) then [flat[0]] else [], TopBlocks(flat[1..], ids), cancelled);
      KeptOne(flat[0], cancelled);
    }
  }

  lemma KeptStanding(flat: seq<UiBlock>, b: UiBlock, cancelled: bool)
    ensures Standing(KeptAll(flat, cancelled), Kept(b, cancelled)) == Kept(Standing(flat, b), cancelled)
  {
    KeptIds(flat, cancelled);
    if b.UiTool? && b.id in ToolIds(flat) {
      KeptLast(flat, b.id, cancelled);
    }
  }

  /** A node from its block and its children. */
  lemma NodeFrom(flat: seq<UiBlock>, b: UiBlock, depth: nat, block: UiBlock, children: seq<Tree>)
    requires Standing(flat, b) == block
    requires children == if b.UiTool? && depth > 0 then NodesAt(flat, ChildrenOf(flat, b.id), depth - 1) else []
    ensures NodeAt(flat, b, depth) == Tree(block, children)
  {
  }

  lemma KeptSame(b: UiBlock, cancelled: bool)
    ensures Kept(b, cancelled).UiTool? == b.UiTool? && (b.UiTool? ==> Kept(b, cancelled).id == b.id)
  {
  }

  lemma {:induction false} NodeKept(flat: seq<UiBlock>, b: UiBlock, depth: nat, cancelled: bool)
    ensures NodeAt(KeptAll(flat, cancelled), Kept(b, cancelled), depth) == KeptTree(NodeAt(flat, b, depth), cancelled)
    decreases depth, 0, 0
  {
    var children := if b.UiTool? && depth > 0 then NodesAt(flat, ChildrenOf(flat, b.id), depth - 1) else [];
    KeptStanding(flat, b, cancelled);
    KeptSame(b, cancelled);
    if b.UiTool? && depth > 0 {
      KeptChildren(flat, b.id, cancelled);
      NodesKept(flat, ChildrenOf(flat, b.id), depth - 1, cancelled);
    }
    NodeFrom(flat, b, depth, Standing(flat, b), children);
    NodeFrom(KeptAll(flat, cancelled), Kept(b, cancelled), depth, Kept(Standing(flat, b), cancelled),
             KeptTrees(children, cancelled));
  }

  lemma {:induction false} NodesKept(flat: seq<UiBlock>, list: seq<UiBlock>, depth: nat, cancelled: bool)
    ensures NodesAt(KeptAll(flat, cancelled), KeptAll(list, cancelled), depth)
            == KeptTrees(NodesAt(flat, list, depth), cancelled)
    decreases depth, 1, |list|
  {
    if list != [] {
      NodeKept(flat, list[0], depth, cancelled);
      NodesKept(flat, list[1..], depth, cancelled);
      var rest := KeptAll(list[1..], cancelled);
      if Shown(list[0]) {
        assert KeptAll(list, cancelled) == [Kept(list[0], cancelled)] + rest;
        assert ([Kept(list[0], cancelled)] + rest)[1..] == rest;
      } else {
        assert KeptAll(list, cancelled) == rest;
      }
      assert Shown(list[0]) <==> Shown(Standing(flat, list[0]));
    }
  }

  /** Round trip: restoring what the live list saved gives the live tree, up to generated ids,
      progress times and blank blocks (and, when cancelled, calls left without a result). */
  lemma RestoreAfterSave(flat: seq<UiBlock>, cancelled: bool)
    ensures RestoredFlat(RawAll(Meta(flat)), cancelled) == Success(KeptAll(flat, cancelled))
    ensures Forest(KeptAll(flat, cancelled)) == KeptTrees(Forest(flat), cancelled)
  {
    SavedIsReadable(Meta(flat), cancelled);
    UiOfMeta(flat, cancelled);
    KeptIds(flat, cancelled);
    KeptTop(flat, ToolIds(flat), cancelled);
    NodesKept(flat, TopBlocks(flat, ToolIds(flat)), |ToolIds(flat)|, cancelled);
  }

  /** Nothing is lost of a finalized list without blank blocks, progress times and null inputs. */
  lemma {:induction false} KeptAllWhole(flat: seq<UiBlock>)
    requires forall k :: 0 <= k < |flat| ==>
               && Shown(flat[k])
               && (flat[k].UiTool? ==> flat[k].status == Complete && flat[k].elapsed.None? && flat[k].input != Null)
    ensures KeptAll(flat, false) == flat
  {
    if flat != [] {
      KeptWhole(flat[0]);
      KeptAllWhole(flat[1..]);
    }
  }

  // ---------- sub-agent events nest under their own card ----------

  function Under(blocks: seq<Block>, id: string): seq<Block> {
    if blocks == [] then []
    else
      var last := blocks[|blocks| - 1];
      Under(blocks[..|blocks| - 1], id) + if last.ToolBlock? && last.parent == id then [last] else []
  }

  lemma {:induction false} UnderConcat(a: seq<Block>, b: seq<Block>, id: string)
    ensures Under(a + b, id) == Under(a, id) + Under(b, id)
  {
    if b == [] {
      assert a + b == a;
    } else {
      UnderConcat(a, b[..|b| - 1], id);
      assert (a + b)[..|a + b| - 1] == a + b[..|b| - 1];
    }
  }

  /** The runtime tags every event of a card with the card's id. */
  ghost predicate Tagged(evts: seq<Chunk>, id: string) {
    forall k :: 0 <= k < |evts| && evts[k].ToolUse? ==> evts[k].parent == id
  }

  lemma {:induction false} UsesUnder(evts: seq<Chunk>, tag: string, id: string)
    requires Tagged(evts, tag)
    ensures Under(Assembly.UsesOf(evts), id) == if tag == id then Assembly.UsesOf(evts) else []
  {
    if evts != [] {
      var front, last := evts[..|evts| - 1], evts[|evts| - 1];
      UsesUnder(front, tag, id);
      if last.ToolUse? {
        var b := ToolBlock(last.id, last.name, last.input, last.parent, None, false);
        UnderConcat(Assembly.UsesOf(front), [b], id);
        assert [b][..0] == [] && Under([b], id) == if b.parent == id then [b] else [];
      } else {
        assert Assembly.UsesOf(evts) == Assembly.UsesOf(front);
      }
    }
  }

  ghost predicate HasCard(blocks: seq<Block>, id: string) {
    exists k :: 0 <= k < |blocks| && Assembly.IsCard(blocks[k]) && blocks[k].id == id
  }

  lemma HasCardSnoc(blocks: seq<Block>, id: string)
    requires blocks != []
    ensures HasCard(blocks, id)
            <==> HasCard(blocks[..|blocks| - 1], id)
                 || (Assembly.IsCard(blocks[|blocks| - 1]) && blocks[|blocks| - 1].id == id)
  {
    var front := blocks[..|blocks| - 1];
    assert forall k :: 0 <= k < |front| ==> front[k] == blocks[k];
  }

  /** What splicing has done for one id: its events are out iff its card was seen. */
  ghost predicate SplicedFor(s: Assembly.Splice, events: Assembly.Events, id: string, seen: bool) {
    && Under(s.extra, id) == (if seen then Assembly.UsesOf(Assembly.EventsOf(events, id)) else [])
    && Assembly.EventsOf(s.left, id) == (if seen then [] else Assembly.EventsOf(events, id))
  }

  lemma SpliceStep(s: Assembly.Splice, events: Assembly.Events, id: string, seen: bool, card: string)
    requires SplicedFor(s, events, id, seen)
    requires Tagged(Assembly.EventsOf(s.left, card), card)
    ensures var evts := Assembly.EventsOf(s.left, card);
      SplicedFor(Assembly.Splice(s.extra + Assembly.UsesOf(evts), Assembly.ResultsOf(evts, s.results), s.left - {card}),
                 events, id, seen || card == id)
  {
    var evts := Assembly.EventsOf(s.left, card);
    UnderConcat(s.extra, Assembly.UsesOf(evts), id);
    UsesUnder(evts, card, id);
  }

  lemma {:induction false} LeftIsSubset(blocks: seq<Block>, events: Assembly.Events)
    ensures forall key :: key in Assembly.SpliceAll(blocks, events).left ==>
              key in events && Assembly.SpliceAll(blocks, events).left[key] == events[key]
  {
    if blocks != [] {
      LeftIsSubset(blocks[..|blocks| - 1], events);
    }
  }

  /** A card's events are spliced in once and cleared; other events stay. */
  lemma {:induction false} SpliceUnder(blocks: seq<Block>, events: Assembly.Events, id: string)
    requires forall key :: key in events ==> Tagged(events[key], key)
    ensures SplicedFor(Assembly.SpliceAll(blocks, events), events, id, HasCard(blocks, id))
  {
    if blocks != [] {
      var front, last := blocks[..|blocks| - 1], blocks[|blocks| - 1];
      var sofar := Assembly.SpliceAll(front, events);
      SpliceUnder(front, events, id);
      HasCardSnoc(blocks, id);
      LeftIsSubset(front, events);
      if Assembly.IsCard(last) {
        SpliceStep(sofar, events, id, HasCard(front, id), last.id);
      }
    }
  }

  lemma {:induction false} UiUnder(blocks: seq<Block>, id: string, cancelled: bool)
    requires id != ""
    ensures ChildrenOf(UiAll(blocks, cancelled), id) == UiAll(Under(blocks, id), cancelled)
  {
    if blocks != [] {
      var front, last := blocks[..|blocks| - 1], blocks[|blocks| - 1];
      UiUnder(front, id, cancelled);
      var ui := Restored(RawOf(last), cancelled);
      assert UiAll(blocks, cancelled) == UiAll(front, cancelled) + [ui];
      ChildrenConcat(UiAll(front, cancelled), [ui], id);
      assert ChildrenOf([ui], id) == if ChildOf(ui, id) then [ui] else [];
      var one := if last.ToolBlock? && last.parent == id then [last] else [];
      assert UiAll(Under(front, id) + one, cancelled) == UiAll(Under(front, id), cancelled) + UiAll(one, cancelled);
    }
  }

  lemma {:induction false} AttachedUnder(blocks: seq<Block>, results: Assembly.Outcomes, id: string)
    ensures Under(Assembly.AttachedAll(blocks, results), id) == Assembly.AttachedAll(Under(blocks, id), results)
  {
    if blocks != [] {
      var front, last := blocks[..|blocks| - 1], blocks[|blocks| - 1];
      AttachedUnder(front, results, id);
      var all := Assembly.AttachedAll(blocks, results);
      assert all[..|all| - 1] == Assembly.AttachedAll(front, results);
      Assemblers.AttachedConcat(Under(front, id), if last.ToolBlock? && last.parent == id then [last] else [], results);
    }
  }

  /** Event ids are new: distinct, not those of listed calls, and named by no listed call. */
  ghost predicate NewIds(blocks: seq<UiBlock>, extra: seq<UiBlock>) {
    && UniqueIds(extra)
    && (forall x, y :: x in blocks && y in extra && x.UiTool? && y.UiTool? ==> x.id != y.id && x.parent != y.id)
  }

  lemma MergedUnique(a: seq<UiBlock>, b: seq<UiBlock>)
    requires UniqueIds(a) && NewIds(a, b)
    ensures UniqueIds(a + b)
  {
    var all := a + b;
    forall i, j | 0 <= i < j < |all| && all[i].UiTool? && all[j].UiTool? ensures all[i].id != all[j].id {
      if j < |a| {
        assert all[i] == a[i] && all[j] == a[j];
      } else if i < |a| {
        assert all[i] in a && all[j] in b;
      } else {
        assert all[i] == b[i - |a|] && all[j] == b[j - |a|];
      }
    }
  }

  /** Every spliced call names a listed card as its parent. */
  lemma {:induction false} SplicedNameCards(blocks: seq<Block>, events: Assembly.Events)
    requires forall key :: key in events ==> Tagged(events[key], key)
    ensures forall x :: x in Assembly.SpliceAll(blocks, events).extra ==> x.ToolBlock? && HasCard(blocks, x.parent)
  {
    if blocks != [] {
      var front, last := blocks[..|blocks| - 1], blocks[|blocks| - 1];
      SplicedNameCards(front, events);
      forall id ensures HasCard(blocks, id) <==> HasCard(front, id) || (Assembly.IsCard(last) && last.id == id) {
        HasCardSnoc(blocks, id);
      }
      LeftIsSubset(front, events);
      if Assembly.IsCard(last) {
        UsesNameTag(Assembly.EventsOf(Assembly.SpliceAll(front, events).left, last.id), last.id);
      }
    }
  }

  lemma {:induction false} UsesNameTag(evts: seq<Chunk>, tag: string)
    requires Tagged(evts, tag)
    ensures forall x :: x in Assembly.UsesOf(evts) ==> x.ToolBlock? && x.parent == tag
  {
    if evts != [] {
      UsesNameTag(evts[..|evts| - 1], tag);
    }
  }

  lemma CardIdListed(blocks: seq<Block>, id: string, cancelled: bool)
    requires HasCard(blocks, id)
    ensures id in ToolIds(UiAll(blocks, cancelled))
  {
    var k :| 0 <= k < |blocks| && Assembly.IsCard(blocks[k]) && blocks[k].id == id;
    assert UiAll(blocks, cancelled)[k] in UiAll(blocks, cancelled);
  }

  /** The calls spliced into a message, restored. */
  ghost function SplicedUi(blocks: seq<Block>, events: Assembly.Events, cancelled: bool): seq<UiBlock> {
    var s := Assembly.SpliceAll(blocks, events);
    UiAll(Assembly.AttachedAll(s.extra, s.results), cancelled)
  }

  lemma SplicedUiNameCards(blocks: seq<Block>, events: Assembly.Events, cancelled: bool)
    requires forall key :: key in events ==> Tagged(events[key], key)
    ensures forall y :: y in SplicedUi(blocks, events, cancelled) && y.UiTool? ==>
              y.parent in ToolIds(UiAll(blocks, cancelled))
  {
    var s := Assembly.SpliceAll(blocks, events);
    var extra := SplicedUi(blocks, events, cancelled);
    SplicedNameCards(blocks, events);
    forall y | y in extra && y.UiTool? ensures y.parent in ToolIds(UiAll(blocks, cancelled)) {
      var k :| 0 <= k < |extra| && extra[k] == y;
      assert s.extra[k] in s.extra;
      CardIdListed(blocks, s.extra[k].parent, cancelled);
    }
  }

  /** A card's children: the calls of the message that already named it, then exactly the calls that
      its own stored events announce, in order, each with the last result for its id among the events
      of all the message's cards. */
  ghost predicate CardHolds(children: seq<UiBlock>, blocks: seq<Block>, events: Assembly.Events, cancelled: bool,
                            id: string)
  {
    exists own ::
      && ShowCalls(own, if id in events then events[id] else [], CardEvents(blocks, events), false)
      && children == UiAll(Under(blocks, id), cancelled) + UiAll(own, cancelled)
  }

  /** A merged message is as free of circles as the message was, so all its blocks stand in its
      tree; and each card holds its own sub-agent events. */
  lemma EventsNestUnderCard(blocks: seq<Block>, events: Assembly.Events, cancelled: bool)
    requires forall key :: key in events ==> Tagged(events[key], key)
    requires UniqueIds(UiAll(blocks, cancelled))
    requires NewIds(UiAll(blocks, cancelled), SplicedUi(blocks, events, cancelled))
    ensures var flat := UiAll(Assembly.Merged(blocks, events), cancelled);
      && UniqueIds(flat)
      && (AllStand(flat) <==> NoCircles(UiAll(blocks, cancelled)))
      && forall t, k :: StandsIn(t, Forest(flat)) && 0 <= k < |blocks| && Card(blocks[k])
                        && t.block == Restored(RawOf(blocks[k]), cancelled) ==>
           CardHolds(RootBlocks(t.children), blocks, events, cancelled, blocks[k].id)
  {
    var a, b := UiAll(blocks, cancelled), SplicedUi(blocks, events, cancelled);
    var s := Assembly.SpliceAll(blocks, events);
    UiAllConcat(blocks, Assembly.AttachedAll(s.extra, s.results), cancelled);
    MergedUnique(a, b);
    SplicedUiNameCards(blocks, events, cancelled);
    forall x | x in a && x.UiTool? ensures x.parent !in ToolIds(b) {
    }
    AppendedKeepNoCircles(a, b);
    EveryBlockOnce(a + b);
    forall t, k | StandsIn(t, Forest(a + b)) && 0 <= k < |blocks| && Card(blocks[k])
                  && t.block == Restored(RawOf(blocks[k]), cancelled)
      ensures CardHolds(RootBlocks(t.children), blocks, events, cancelled, blocks[k].id)
    {
      ChildrenUnderParent(a + b, t);
      MergedUnder(blocks, events, cancelled, k);
    }
  }

  lemma MergedUnder(blocks: seq<Block>, events: Assembly.Events, cancelled: bool, k: nat)
    requires forall key :: key in events ==> Tagged(events[key], key)
    requires k < |blocks| && Card(blocks[k])
    ensures CardHolds(ChildrenOf(UiAll(Assembly.Merged(blocks, events), cancelled), blocks[k].id),
                      blocks, events, cancelled, blocks[k].id)
  {
    var id, s := blocks[k].id, Assembly.SpliceAll(blocks, events);
    var evts := if id in events then events[id] else [];
    var own := Assembly.AttachedAll(Assembly.UsesOf(evts), s.results);
    UiUnder(Assembly.Merged(blocks, events), id, cancelled);
    UnderConcat(blocks, Assembly.AttachedAll(s.extra, s.results), id);
    AttachedUnder(s.extra, s.results, id);
    SpliceUnder(blocks, events, id);
    assert HasCard(blocks, id);
    UiAllConcat(Under(blocks, id), Assembly.AttachedAll(Under(s.extra, id), s.results), cancelled);
    SpliceIsCardEvents(blocks, events);
    CallsShown(evts, CardEvents(blocks, events));
    assert ShowCalls(own, evts, CardEvents(blocks, events), false);
  }

  lemma UiAllConcat(a: seq<Block>, b: seq<Block>, cancelled: bool)
    ensures UiAll(a + b, cancelled) == UiAll(a, cancelled) + UiAll(b, cancelled)
  {
  }
}
